/** The loop itself: steps taken one after another, each with its request, until the state stops going on. */
module AgentRunner {
  import opened Prelude
  import opened AgentTranscript
  import opened AgentLoop
  import opened AgentRuns
  import opened AgentSend

  /**
   * Everything outside the loop answers in one step: to the request, and around it. `contentFailure` is a failure other
   * than an overflow that the settled response's own content reports.
   */
  datatype StepWorld = StepWorld(
    waitBefore: bool, exchanges: nat -> Exchange, host: Host, contentFailure: Option<Failure>,
    response: Response, tools: Tools, outcomes: nat -> (bool, string), order: seq<nat>)

  /** The host's settings of a run that the request reads. */
  datatype Sending = Sending(streaming: bool, onContextOverflow: bool, onMediaRejected: bool)

  datatype RunEnd = Ended(state: LoopState) | Yielded(state: LoopState) | RequestFailed(failure: Failure) | RequestDied | LoopFailed

  function SettingsOf(o: Options, sending: Sending, s: LoopState): Settings {
    Settings(sending.streaming, o.planned && s.turnIndex == 0, sending.onContextOverflow, sending.onMediaRejected)
  }

  /** The request of the step the loop is to take. */
  function RequestOf(o: Options, sending: Sending, s: LoopState, w: StepWorld): Told {
    Requested(SettingsOf(o, sending, s), InitialAttempt(s.streamingHealthy), w.exchanges)
  }

  /** The settled step as the loop reads it; None when the request failed. */
  function InputFrom(w: StepWorld, end: StepEnd, healthy: bool, fellBack: bool): Option<StepInput> {
    match end
    case Responded(streamingHealthy) =>
      Some(StepInput(w.host, Decoded(w.response, w.tools, w.outcomes, w.order), streamingHealthy, fellBack))
    case Malformed => Some(StepInput(w.host, Undecoded, healthy && !fellBack, fellBack))
    case StepFailed(_) => None
    case StepDied => None
  }

  /** A response whose content reports a failure fails the step. */
  function ReadContent(w: StepWorld, end: StepEnd): StepEnd {
    if end.Responded? && w.contentFailure.Some? then StepFailed(w.contentFailure.value) else end
  }

  function StepEndOf(o: Options, sending: Sending, s: LoopState, w: StepWorld): StepEnd {
    ReadContent(w, Conclude(RequestOf(o, sending, s, w).outcome, RequestOf(o, sending, s, w).own))
  }

  function InputOf(o: Options, sending: Sending, s: LoopState, w: StepWorld): Option<StepInput> {
    InputFrom(w, StepEndOf(o, sending, s, w), s.streamingHealthy, FellBack in RequestOf(o, sending, s, w).trace)
  }

  /** Each step is what the world makes of the state before it, and the host never had the run wait. */
  ghost predicate TakenFrom(o: Options, sending: Sending, messages: seq<Message>, world: nat -> StepWorld, inputs: seq<StepInput>) {
    forall i | 0 <= i < |inputs| :: TakenAt(o, sending, messages, world, inputs, i)
  }

  ghost predicate TakenAt(
      o: Options, sending: Sending, messages: seq<Message>, world: nat -> StepWorld, inputs: seq<StepInput>, i: nat)
    requires i < |inputs|
  {
    var s := After(o, messages, inputs[..i]);
    s.Some? && !world(i).waitBefore && InputOf(o, sending, s.value, world(i)) == Some(inputs[i])
  }

  /** How a run ends in a state, given the world of the step that would be next. */
  ghost predicate EndsAs(o: Options, sending: Sending, s: LoopState, w: StepWorld, end: RunEnd) {
    if !s.phase.Continue? then end == Ended(s)
    else if w.waitBefore then end == Yielded(s.(finalText := "", phase := Waiting))
    else
      match InputOf(o, sending, s, w)
      case Some(input) => Next(o, s, input).None? && end == LoopFailed
      case None => end == if StepEndOf(o, sending, s, w).StepFailed? then RequestFailed(StepEndOf(o, sending, s, w).failure) else RequestDied
  }

  /** The events of each request a run made, the failing one of its last step included. */
  ghost predicate TracesOf(
      o: Options, sending: Sending, messages: seq<Message>, world: nat -> StepWorld, inputs: seq<StepInput>, traces: seq<seq<Event>>)
  {
    && |inputs| <= |traces| <= |inputs| + 1
    && forall i | 0 <= i < |traces| :: TraceAt(o, sending, messages, world, inputs, traces, i)
  }

  ghost predicate TraceAt(
      o: Options, sending: Sending, messages: seq<Message>, world: nat -> StepWorld, inputs: seq<StepInput>, traces: seq<seq<Event>>, i: nat)
    requires i < |traces| <= |inputs| + 1
  {
    var s := After(o, messages, inputs[..i]);
    s.Some? && traces[i] == RequestOf(o, sending, s.value, world(i)).trace
  }

  function Total(traces: seq<seq<Event>>, e: Event): nat {
    if traces == [] then 0 else Total(traces[..|traces| - 1], e) + Times(traces[|traces| - 1], e)
  }

  /** Where a run stands between two steps. */
  ghost predicate Underway(
      o: Options, sending: Sending, messages: seq<Message>, world: nat -> StepWorld, s: LoopState, taken: seq<StepInput>, traces: seq<seq<Event>>)
  {
    && After(o, messages, taken) == Some(s)
    && |traces| == |taken|
    && TakenFrom(o, sending, messages, world, taken)
    && TracesOf(o, sending, messages, world, taken, traces)
  }

  lemma StepSettles(o: Options, sending: Sending, s: LoopState, w: StepWorld)
    ensures var told := RequestOf(o, sending, s, w);
      && Times(told.trace, Dispatched) <= 4 && Times(told.trace, FellBack) == (if FellBack in told.trace then 1 else 0)
      && (InputOf(o, sending, s, w).Some? ==>
            HealthReported(s, InputOf(o, sending, s, w).value) && InputOf(o, sending, s, w).value.fellBack == (FellBack in told.trace))
      && (FellBack in told.trace ==> s.streamingHealthy)
  {
    hide Requested;
    RequestBounded(SettingsOf(o, sending, s), s.streamingHealthy, w.exchanges);
    TimesMeans(RequestOf(o, sending, s, w).trace, FellBack);
  }

  /** One more step of a run, as the world makes it. */
  lemma StepTaken(
      o: Options, sending: Sending, messages: seq<Message>, world: nat -> StepWorld, s: LoopState, taken: seq<StepInput>,
      traces: seq<seq<Event>>, input: StepInput)
    requires Underway(o, sending, messages, world, s, taken, traces) && s.phase.Continue? && Next(o, s, input).Some?
    requires !world(|taken|).waitBefore && InputOf(o, sending, s, world(|taken|)) == Some(input)
    ensures Underway(o, sending, messages, world, Next(o, s, input).value, taken + [input], traces + [RequestOf(o, sending, s, world(|taken|)).trace])
  {
    hide Next, InputOf, RequestOf;
    var more := taken + [input];
    assert more[..|taken|] == taken;
    forall i | 0 <= i < |more| ensures TakenAt(o, sending, messages, world, more, i) {
      assert more[..i] == taken[..i];
      if i < |taken| { assert TakenAt(o, sending, messages, world, taken, i); } else { assert taken[..i] == taken; }
    }
    TraceTaken(o, sending, messages, world, s, taken, traces);
    var all := traces + [RequestOf(o, sending, s, world(|taken|)).trace];
    forall i | 0 <= i < |all| ensures TraceAt(o, sending, messages, world, more, all, i) {
      assert TraceAt(o, sending, messages, world, taken, all, i);
      assert more[..i] == taken[..i];
    }
  }

  /** The request of the next step joins the traces, whatever it comes to. */
  lemma TraceTaken(
      o: Options, sending: Sending, messages: seq<Message>, world: nat -> StepWorld, s: LoopState, taken: seq<StepInput>, traces: seq<seq<Event>>)
    requires Underway(o, sending, messages, world, s, taken, traces)
    ensures TracesOf(o, sending, messages, world, taken, traces + [RequestOf(o, sending, s, world(|taken|)).trace])
  {
    hide RequestOf;
    var all := traces + [RequestOf(o, sending, s, world(|taken|)).trace];
    forall i | 0 <= i < |all| ensures TraceAt(o, sending, messages, world, taken, all, i) {
      if i < |taken| { assert TraceAt(o, sending, messages, world, taken, traces, i); } else { assert taken[..i] == taken; }
    }
  }

  /** Steps taken from a world report the health of their streams. */
  lemma TakenHealthy(o: Options, sending: Sending, messages: seq<Message>, world: nat -> StepWorld, inputs: seq<StepInput>)
    requires TakenFrom(o, sending, messages, world, inputs)
    ensures HealthyRun(o, messages, inputs)
  {
    hide InputOf, HealthReported;
    forall i | 0 <= i < |inputs| ensures After(o, messages, inputs[..i]).Some? ==> HealthReported(After(o, messages, inputs[..i]).value, inputs[i]) {
      assert TakenAt(o, sending, messages, world, inputs, i);
      StepSettles(o, sending, After(o, messages, inputs[..i]).value, world(i));
    }
  }

  /** Four dispatches to a request. */
  lemma {:induction false} DispatchesBounded(
      o: Options, sending: Sending, messages: seq<Message>, world: nat -> StepWorld, inputs: seq<StepInput>, traces: seq<seq<Event>>, n: nat)
    requires TracesOf(o, sending, messages, world, inputs, traces) && n <= |traces|
    ensures Total(traces[..n], Dispatched) <= 4 * n
    decreases n
  {
    hide RequestOf, Times, After;
    if n > 0 {
      DispatchesBounded(o, sending, messages, world, inputs, traces, n - 1);
      assert TraceAt(o, sending, messages, world, inputs, traces, n - 1);
      StepSettles(o, sending, After(o, messages, inputs[..n - 1]).value, world(n - 1));
      assert traces[..n][..n - 1] == traces[..n - 1];
    }
  }

  /** The traces count the fallbacks that the steps report. */
  lemma {:induction false} FallbacksCounted(
      o: Options, sending: Sending, messages: seq<Message>, world: nat -> StepWorld, inputs: seq<StepInput>, traces: seq<seq<Event>>, n: nat)
    requires TakenFrom(o, sending, messages, world, inputs) && TracesOf(o, sending, messages, world, inputs, traces) && n <= |inputs|
    ensures Total(traces[..n], AgentSend.FellBack) == Count(AgentRuns.FellBack(), inputs[..n])
    decreases n
  {
    hide RequestOf, Times, InputOf;
    if n > 0 {
      FallbacksCounted(o, sending, messages, world, inputs, traces, n - 1);
      assert TakenAt(o, sending, messages, world, inputs, n - 1) && TraceAt(o, sending, messages, world, inputs, traces, n - 1);
      StepSettles(o, sending, After(o, messages, inputs[..n - 1]).value, world(n - 1));
      assert traces[..n][..n - 1] == traces[..n - 1] && inputs[..n][..n - 1] == inputs[..n - 1];
    }
  }

  /**
   * Over a whole run: at most max(1, maxSteps) steps, at most four dispatches to each request made, and at most one
   * stream fallback more than malformed steps, a failing last request included.
   */
  lemma RunBounded(
      o: Options, sending: Sending, messages: seq<Message>, world: nat -> StepWorld, inputs: seq<StepInput>, traces: seq<seq<Event>>)
    requires After(o, messages, inputs).Some? && TakenFrom(o, sending, messages, world, inputs) && TracesOf(o, sending, messages, world, inputs, traces)
    ensures |inputs| <= Max(1, o.maxSteps)
    ensures Total(traces, Dispatched) <= 4 * |traces|
    ensures Total(traces, AgentSend.FellBack) <= 1 + Count(IsMalformed(o), inputs)
  {
    hide RequestOf, Times, InputOf, After;
    StepsBounded(o, messages, inputs);
    DispatchesBounded(o, sending, messages, world, inputs, traces, |traces|);
    assert traces[..|traces|] == traces;
    FallbacksCounted(o, sending, messages, world, inputs, traces, |inputs|);
    TakenHealthy(o, sending, messages, world, inputs);
    FallbacksBounded(o, messages, inputs);
    assert inputs[..|inputs|] == inputs;
    if |traces| == |inputs| {
      assert traces[..|inputs|] == traces;
    } else {
      assert TraceAt(o, sending, messages, world, inputs, traces, |inputs|);
      StepSettles(o, sending, After(o, messages, inputs).value, world(|inputs|));
    }
  }

  /** As far as two runs of one world go, they take the same steps. */
  lemma {:induction false} TakenUnique(
      o: Options, sending: Sending, messages: seq<Message>, world: nat -> StepWorld, inputs: seq<StepInput>, others: seq<StepInput>, n: nat)
    requires TakenFrom(o, sending, messages, world, inputs) && TakenFrom(o, sending, messages, world, others)
    requires n <= |inputs| && n <= |others|
    ensures inputs[..n] == others[..n]
    decreases n
  {
    hide After, InputOf;
    if n > 0 {
      TakenUnique(o, sending, messages, world, inputs, others, n - 1);
      assert TakenAt(o, sending, messages, world, inputs, n - 1) && TakenAt(o, sending, messages, world, others, n - 1);
      assert inputs[..n] == inputs[..n - 1] + [inputs[n - 1]] && others[..n] == others[..n - 1] + [others[n - 1]];
    }
  }

  /** How a run of this world ends: some steps lead to a state that the next step's world ends so. */
  ghost predicate ComesTo(o: Options, sending: Sending, messages: seq<Message>, world: nat -> StepWorld, inputs: seq<StepInput>, end: RunEnd) {
    && TakenFrom(o, sending, messages, world, inputs)
    && After(o, messages, inputs).Some?
    && EndsAs(o, sending, After(o, messages, inputs).value, world(|inputs|), end)
  }

  ghost predicate RunEnds(o: Options, sending: Sending, messages: seq<Message>, world: nat -> StepWorld, end: RunEnd) {
    exists inputs: seq<StepInput> :: ComesTo(o, sending, messages, world, inputs, end)
  }

  /** A run that has ended takes no further step. */
  lemma NoneAfterEnd(
      o: Options, sending: Sending, messages: seq<Message>, world: nat -> StepWorld, inputs: seq<StepInput>, end: RunEnd, more: seq<StepInput>)
    requires ComesTo(o, sending, messages, world, inputs, end) && TakenFrom(o, sending, messages, world, more)
    requires After(o, messages, more).Some?
    ensures !(inputs < more)
  {
    hide Next, InputOf, StepEndOf;
    if inputs < more {
      var n := |inputs|;
      assert more[..n] == inputs && more[..n + 1][..n] == inputs;
      assert TakenAt(o, sending, messages, world, more, n);
      AfterPrefix(o, messages, more, n + 1);
      assert false;
    }
  }

  lemma {:induction false} AfterPrefix(o: Options, messages: seq<Message>, inputs: seq<StepInput>, n: nat)
    requires After(o, messages, inputs).Some? && n <= |inputs|
    ensures After(o, messages, inputs[..n]).Some?
    decreases |inputs|
  {
    hide Next;
    if n < |inputs| {
      AfterPrefix(o, messages, inputs[..|inputs| - 1], n);
      assert inputs[..|inputs| - 1][..n] == inputs[..n];
    } else {
      assert inputs[..n] == inputs;
    }
  }

  /** A run of a world ends in one way, after one sequence of steps. */
  lemma RunEndsOnce(
      o: Options, sending: Sending, messages: seq<Message>, world: nat -> StepWorld,
      inputs: seq<StepInput>, end: RunEnd, others: seq<StepInput>, otherEnd: RunEnd)
    requires ComesTo(o, sending, messages, world, inputs, end) && ComesTo(o, sending, messages, world, others, otherEnd)
    ensures inputs == others && end == otherEnd
  {
    hide After, InputOf, StepEndOf, TakenFrom, Next;
    var n := Min(|inputs|, |others|);
    TakenUnique(o, sending, messages, world, inputs, others, n);
    if n < |others| {
      assert inputs[..n] == inputs;
      assert inputs < others;
      NoneAfterEnd(o, sending, messages, world, inputs, end, others);
    } else if n < |inputs| {
      assert others[..n] == others;
      assert others < inputs;
      NoneAfterEnd(o, sending, messages, world, others, otherEnd, inputs);
    } else {
      assert inputs[..n] == inputs && others[..n] == others;
    }
  }

  /** Steps until the state stops going on, the host makes the run wait, or a step fails it. */
  method RunSteps(
      o: Options, sending: Sending, world: nat -> StepWorld, s: LoopState,
      ghost messages: seq<Message>, ghost taken: seq<StepInput>, ghost made: seq<seq<Event>>)
    returns (end: RunEnd, ghost inputs: seq<StepInput>, ghost traces: seq<seq<Event>>)
    requires Underway(o, sending, messages, world, s, taken, made)
    ensures taken <= inputs && ComesTo(o, sending, messages, world, inputs, end)
    ensures TracesOf(o, sending, messages, world, inputs, traces)
    ensures |traces| == |inputs| + if end.Ended? || end.Yielded? then 0 else 1
    decreases Max(1, o.maxSteps) - |taken|
  {
    hide Next, After, RequestOf, TakenFrom, TracesOf;
    inputs, traces := taken, made;
    if !s.phase.Continue? { return Ended(s), inputs, traces; }
    StepsBounded(o, messages, taken);
    var w := world(s.turnIndex);
    if w.waitBefore { return Yielded(s.(finalText := "", phase := Waiting)), inputs, traces; }
    RequestIs(o, sending, s, w);
    var settled, fellBack, trace := Request(SettingsOf(o, sending, s), s.streamingHealthy, w.exchanges);
    settled := ReadContent(w, settled);
    TraceTaken(o, sending, messages, world, s, taken, made);
    traces := made + [trace];
    var input := InputFrom(w, settled, s.streamingHealthy, fellBack);
    if input.None? {
      end := if settled.StepFailed? then RequestFailed(settled.failure) else RequestDied;
      return;
    }
    var next := Next(o, s, input.value);
    if next.None? { end := LoopFailed; return; }
    StepTaken(o, sending, messages, world, s, taken, made, input.value);
    StepsGrow(o, messages, taken, s, input.value);
    end, inputs, traces := RunSteps(o, sending, world, next.value, messages, taken + [input.value], traces);
  }

  lemma RequestIs(o: Options, sending: Sending, s: LoopState, w: StepWorld)
    ensures RequestOf(o, sending, s, w) == Requested(SettingsOf(o, sending, s), InitialAttempt(s.streamingHealthy), w.exchanges)
  {
  }

  /** A step taken by a state that goes on is within the cap. */
  lemma StepsGrow(o: Options, messages: seq<Message>, taken: seq<StepInput>, s: LoopState, input: StepInput)
    requires After(o, messages, taken) == Some(s) && s.phase.Continue? && Next(o, s, input).Some?
    ensures |taken| + 1 <= Max(1, o.maxSteps)
  {
    hide Next;
    assert (taken + [input])[..|taken|] == taken;
    StepsBounded(o, messages, taken + [input]);
  }

  /**
   * A whole run, whatever the provider and the host answer: each step is the one its world makes of the state before it,
   * and the end is the one the last state and the next step's world call for.
   */
  method RunLoop(o: Options, sending: Sending, messages: seq<Message>, world: nat -> StepWorld)
    returns (end: RunEnd, ghost inputs: seq<StepInput>, ghost traces: seq<seq<Event>>)
    ensures RunEnds(o, sending, messages, world, end) && ComesTo(o, sending, messages, world, inputs, end)
    ensures TracesOf(o, sending, messages, world, inputs, traces)
    ensures |traces| == |inputs| + if end.Ended? || end.Yielded? then 0 else 1
  {
    end, inputs, traces := RunSteps(o, sending, world, Initial(messages), messages, [], []);
  }
}
