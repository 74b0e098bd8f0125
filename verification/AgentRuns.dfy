/** What holds of every run of the loop, whatever the provider and the host answer. */
module AgentRuns {
  import opened Prelude
  import opened AgentProgress
  import opened AgentTranscript
  import opened AgentLoop

  // ---- bounds, streaks and usage ----

  /** A run takes at most max(1, maxSteps) steps, one turn index each. */
  lemma {:induction false} StepsBounded(o: Options, messages: seq<Message>, inputs: seq<StepInput>)
    requires After(o, messages, inputs).Some?
    ensures var s := After(o, messages, inputs).value;
      && s.turnIndex == |inputs| <= Max(1, o.maxSteps)
      && (s.phase.Continue? && inputs != [] ==> |inputs| < o.maxSteps)
  {
    if inputs != [] {
      StepsBounded(o, messages, inputs[..|inputs| - 1]);
    }
  }

  /** The length of the trailing run of steps of one kind. */
  function Trailing(kind: StepInput -> bool, inputs: seq<StepInput>): nat {
    if inputs == [] || !kind(inputs[|inputs| - 1]) then 0 else 1 + Trailing(kind, inputs[..|inputs| - 1])
  }

  function IsMalformed(o: Options): StepInput -> bool { (input: StepInput) => MalformedStep(o, input) }

  function IsCut(o: Options): StepInput -> bool { (input: StepInput) => CutStep(o, input) }

  lemma NextStreaks(o: Options, s: LoopState, input: StepInput)
    requires Next(o, s, input).Some? && s.phase.Continue?
    ensures var next := Next(o, s, input).value;
      && (MalformedStep(o, input) ==> next.malformedStreak == s.malformedStreak + 1 < o.malformedLimit && next.cutStreak == 0)
      && (CutStep(o, input) ==> next.cutStreak == s.cutStreak + 1 <= MAX_CUT_CORRECTIVES && next.malformedStreak == 0)
      && (!MalformedStep(o, input) && !CutStep(o, input) ==>
            if next.phase.Waiting? then next.malformedStreak == s.malformedStreak && next.cutStreak == s.cutStreak
            else next.malformedStreak == 0 && next.cutStreak == 0)
      && (next.phase.Waiting? ==> !MalformedStep(o, input) && !CutStep(o, input))
  {
    hide MalformedStep, CutStep, StepTail, CallCount, TextOf, StepProgress, DecidedPhase;
    hide NudgeOf, IncompleteOf, NextInput;
    Exclusive(o, input);
  }

  /** Each streak is the trailing run of its outcome, and stays within its limit; a wait leaves the streaks as they were. */
  lemma {:induction false} StreaksCount(o: Options, messages: seq<Message>, inputs: seq<StepInput>)
    requires o.malformedLimit >= 1 && After(o, messages, inputs).Some?
    ensures var s := After(o, messages, inputs).value;
      && s.malformedStreak < o.malformedLimit && s.cutStreak <= MAX_CUT_CORRECTIVES
      && (!s.phase.Waiting? ==> s.malformedStreak == Trailing(IsMalformed(o), inputs) && s.cutStreak == Trailing(IsCut(o), inputs))
  {
    hide MalformedStep, CutStep, Next;
    if inputs != [] {
      var front, last := inputs[..|inputs| - 1], inputs[|inputs| - 1];
      StreaksCount(o, messages, front);
      NextStreaks(o, After(o, messages, front).value, last);
      Exclusive(o, last);
    }
  }

  lemma Exclusive(o: Options, input: StepInput)
    ensures !(MalformedStep(o, input) && CutStep(o, input))
    ensures !MalformedStep(o, input) ==> input.reply.Decoded?
  {
  }

  /** The usage of the responses a run settled with, a cut one's included, a malformed one's not. */
  function TotalUsage(o: Options, inputs: seq<StepInput>): Usage {
    if inputs == [] then ZERO_USAGE
    else
      var earlier := TotalUsage(o, inputs[..|inputs| - 1]);
      var last := inputs[|inputs| - 1];
      if MalformedStep(o, last) then earlier else AddUsage(earlier, last.reply.response.usage)
  }

  lemma NextUsage(o: Options, s: LoopState, input: StepInput)
    requires Next(o, s, input).Some?
    ensures Next(o, s, input).value.usage ==
            if MalformedStep(o, input) then s.usage else AddUsage(s.usage, input.reply.response.usage)
  {
    hide StepTail, CallCount, TextOf, StepProgress, DecidedPhase, NudgeOf, IncompleteOf, AddUsage, Spoils, Rejection;
  }

  lemma {:induction false} UsageSums(o: Options, messages: seq<Message>, inputs: seq<StepInput>)
    requires After(o, messages, inputs).Some?
    ensures After(o, messages, inputs).value.usage == TotalUsage(o, inputs)
  {
    hide MalformedStep, Next;
    if inputs != [] {
      UsageSums(o, messages, inputs[..|inputs| - 1]);
      NextUsage(o, After(o, messages, inputs[..|inputs| - 1]).value, inputs[|inputs| - 1]);
    }
  }

  // ---- the breaker over a run ----

  predicate DecidedStep(o: Options, input: StepInput) {
    !MalformedStep(o, input) && !CutStep(o, input) && !input.host.waiting
  }

  /** The signatures of the decided steps. */
  function Signatures(o: Options, inputs: seq<StepInput>): seq<string> {
    if inputs == [] then []
    else
      var earlier := Signatures(o, inputs[..|inputs| - 1]);
      if DecidedStep(o, inputs[|inputs| - 1]) then earlier + [StepSignature(o, inputs[|inputs| - 1])] else earlier
  }

  lemma NextProgress(o: Options, s: LoopState, input: StepInput)
    requires Next(o, s, input).Some? && s.phase.Continue?
    ensures var next := Next(o, s, input).value;
      if DecidedStep(o, input) then
        var progress := FoldProgress(s.seen, s.staleTurns, StepSignature(o, input), o.degenerate);
        next.seen == progress.seen && next.staleTurns == progress.stale && (next.phase.DegenerateLoop? <==> progress.broke)
      else next.seen == s.seen && next.staleTurns == s.staleTurns && !next.phase.DegenerateLoop?
  {
    hide StepTail, CallCount, TextOf, FoldProgress, AddUsage, Spoils, Rejection, StepSignature;
  }

  /** The loop's fold is the breaker's, and the breaker stops the run exactly when the fold breaks. */
  lemma {:induction false} RunFolds(o: Options, messages: seq<Message>, inputs: seq<StepInput>)
    requires After(o, messages, inputs).Some?
    ensures var s := After(o, messages, inputs).value;
      var sigs := Signatures(o, inputs);
      && s.seen == Folded(sigs, o.degenerate).seen && s.staleTurns == Folded(sigs, o.degenerate).stale
      && (s.phase.DegenerateLoop? <==>
            inputs != [] && DecidedStep(o, inputs[|inputs| - 1]) && BrokeAt(sigs, |sigs|, o.degenerate))
  {
    hide DecidedStep, Next, FoldProgress, StepSignature;
    if inputs != [] {
      var front, last := inputs[..|inputs| - 1], inputs[|inputs| - 1];
      RunFolds(o, messages, front);
      NextProgress(o, After(o, messages, front).value, last);
      var sigs := Signatures(o, inputs);
      assert sigs[..|sigs|] == sigs;
    }
  }

  /** While a run goes on the breaker has not broken at any of its decided steps. */
  lemma {:induction false} Unbroken(o: Options, messages: seq<Message>, inputs: seq<StepInput>, i: nat)
    requires After(o, messages, inputs).Some? && After(o, messages, inputs).value.phase.Continue?
    requires 1 <= i <= |Signatures(o, inputs)|
    ensures !BrokeAt(Signatures(o, inputs), i, o.degenerate)
    decreases |inputs|
  {
    hide DecidedStep, Next, Folded, StepSignature;
    var front := inputs[..|inputs| - 1];
    var sigs := Signatures(o, inputs);
    RunFolds(o, messages, inputs);
    if i <= |Signatures(o, front)| {
      Unbroken(o, messages, front, i);
      assert sigs[..i] == Signatures(o, front)[..i];
    }
  }

  /**
   * With k distinct progress signatures a run that still goes on has decided at most k * breakAfter counted steps, so
   * the breaker ends it at the next one at the latest.
   */
  lemma BreakerEndsRun(o: Options, messages: seq<Message>, inputs: seq<StepInput>, distinct: set<string>)
    requires After(o, messages, inputs).Some? && After(o, messages, inputs).value.phase.Continue?
    requires o.degenerate.Enabled? && o.degenerate.breakAfter >= 1
    requires forall sig | sig in Signatures(o, inputs) && sig != "" :: sig in distinct
    ensures |AgentProgress.Counted(Signatures(o, inputs))| <= |distinct| * o.degenerate.breakAfter
    ensures "" !in Signatures(o, inputs) ==> |Signatures(o, inputs)| <= |distinct| * o.degenerate.breakAfter
  {
    hide After, Signatures, BrokeAt;
    var sigs := Signatures(o, inputs);
    forall i | 1 <= i <= |sigs| ensures !BrokeAt(sigs, i, o.degenerate) {
      Unbroken(o, messages, inputs, i);
    }
    forall sig | sig in Occurring(AgentProgress.Counted(sigs)) ensures sig in distinct {
      CountedHolds(sigs, sig);
    }
    if |AgentProgress.Counted(sigs)| > |distinct| * o.degenerate.breakAfter {
      BreakerBound(sigs, o.degenerate, distinct);
      BrokenWithin(sigs, o.degenerate);
    }
    if "" !in sigs { NoneCountedOut(sigs); }
  }

  lemma BrokenWithin(sigs: seq<string>, policy: DegeneratePolicy)
    ensures forall i: nat | BrokeAt(sigs, i, policy) :: 1 <= i <= |sigs|
  {
  }

  // ---- the run's text ----

  /** The text a step adds; a malformed one adds none. */
  function StepText(o: Options, input: StepInput): string {
    if MalformedStep(o, input) then "" else TextOf(input.reply.response.parts)
  }

  /** Whether the run, having gone on, lets the next reply continue this step's text: a paused reply, or a cut one in text. */
  predicate Carries(o: Options, input: StepInput) {
    !MalformedStep(o, input) &&
    if StepVerdict(input.reply).Cut? then StepCalls(input.reply) == [] else input.reply.response.finishReason.Pause?
  }

  /** The run's text in blocks: those ended so far, and the one a continuation has not ended. */
  datatype Blocks = Blocks(ended: seq<string>, open: string)

  /** A malformed step the run goes on from ends no block; any other step does, unless the next reply continues it. */
  function TextBlocks(o: Options, messages: seq<Message>, inputs: seq<StepInput>): Blocks {
    if inputs == [] then Blocks([], "")
    else
      var earlier := TextBlocks(o, messages, inputs[..|inputs| - 1]);
      var last := inputs[|inputs| - 1];
      var text := earlier.open + StepText(o, last);
      var after := After(o, messages, inputs);
      var goesOn := after.Some? && after.value.phase.Continue?;
      if goesOn && (MalformedStep(o, last) || Carries(o, last)) then Blocks(earlier.ended, text)
      else Blocks(earlier.ended + [text], "")
  }

  function Joined(texts: seq<string>): string {
    if texts == [] then "" else Joined(texts[..|texts| - 1]) + texts[|texts| - 1]
  }

  function AllText(o: Options, inputs: seq<StepInput>): string {
    if inputs == [] then "" else AllText(o, inputs[..|inputs| - 1]) + StepText(o, inputs[|inputs| - 1])
  }

  function LastNonempty(texts: seq<string>): string {
    if texts == [] then ""
    else if texts[|texts| - 1] != "" then texts[|texts| - 1]
    else LastNonempty(texts[..|texts| - 1])
  }

  /** The blocks are all the text of the run, in order: nothing is left out of them and nothing is in two. */
  lemma {:induction false} BlocksHoldAllText(o: Options, messages: seq<Message>, inputs: seq<StepInput>)
    ensures var blocks := TextBlocks(o, messages, inputs); Joined(blocks.ended) + blocks.open == AllText(o, inputs)
  {
    hide After, MalformedStep, StepText, Carries, Joined;
    if inputs == [] {
      NothingJoined();
    } else {
      var front, last := inputs[..|inputs| - 1], inputs[|inputs| - 1];
      BlocksHoldAllText(o, messages, front);
      var earlier := TextBlocks(o, messages, front);
      var text := StepText(o, last);
      JoinedNext(earlier.ended, earlier.open + text);
      assert Joined(earlier.ended) + (earlier.open + text) == Joined(earlier.ended) + earlier.open + text;
      assert Joined(earlier.ended + [earlier.open + text]) + "" == Joined(earlier.ended) + earlier.open + text;
    }
  }

  lemma NothingJoined()
    ensures Joined([]) == ""
  {
  }

  lemma JoinedNext(texts: seq<string>, text: string)
    ensures Joined(texts + [text]) == Joined(texts) + text
  {
    assert (texts + [text])[..|texts|] == texts;
  }

  lemma RecoverText(o: Options, s: LoopState)
    requires Recover(o, s).Some? && s.phase.Continue?
    ensures var next := Recover(o, s).value;
      if next.phase.Continue? then next.carried == s.carried && next.finalText == s.finalText
      else next.phase.StepCap? && next.carried == "" && next.finalText == if s.carried != "" then s.carried else s.finalText
  {
    assert s.carried + "" == s.carried;
  }

  lemma RecutText(o: Options, s: LoopState, input: StepInput)
    requires input.reply.Decoded? && Recut(o, s, input).Some? && s.phase.Continue?
    ensures var next := Recut(o, s, input).value;
      var text := s.carried + TextOf(input.reply.response.parts);
      if next.phase.Continue? && StepCalls(input.reply) == [] then next.carried == text && next.finalText == s.finalText
      else
        && (next.phase.Continue? || next.phase.StepCap?) && next.carried == ""
        && next.finalText == if text != "" then text else s.finalText
  {
    hide StepTail, TextOf, AddUsage, NextInput, StepCalls;
  }

  lemma DecideText(o: Options, s: LoopState, input: StepInput)
    requires input.reply.Decoded? && s.phase.Continue?
    ensures var next := Decide(o, s, input);
      var text := s.carried + TextOf(input.reply.response.parts);
      if next.phase.Waiting? then next.carried == "" && next.finalText == ""
      else if next.phase.Continue? && input.reply.response.finishReason.Pause? then next.carried == text && next.finalText == s.finalText
      else
        && next.carried == ""
        && next.finalText == (if text != "" then text else if s.finalText != "" || !next.phase.DegenerateLoop? then s.finalText else DEGENERATE_LOOP_STOP)
  {
    hide StepTail, TextOf, AddUsage, NextInput, CallCount, FoldProgress, NudgeOf, IncompleteOf, WantsMore;
  }

  /** What a step does to the run's text. */
  lemma NextText(o: Options, s: LoopState, input: StepInput)
    requires Next(o, s, input).Some? && s.phase.Continue?
    ensures var next := Next(o, s, input).value;
      var text := s.carried + StepText(o, input);
      if next.phase.Waiting? then next.carried == "" && next.finalText == ""
      else if next.phase.Continue? && (MalformedStep(o, input) || Carries(o, input)) then next.carried == text && next.finalText == s.finalText
      else
        && next.carried == ""
        && next.finalText == (if text != "" then text else if s.finalText != "" || !next.phase.DegenerateLoop? then s.finalText else DEGENERATE_LOOP_STOP)
  {
    hide MalformedStep, Recover, Recut, Decide, TextOf, StepCalls;
    Exclusive(o, input);
    var begun := Begun(s, input.host);
    if MalformedStep(o, input) {
      RecoverText(o, begun);
      assert s.carried + "" == s.carried;
    } else if CutStep(o, input) {
      RecutText(o, begun, input);
    } else {
      DecideText(o, begun, input);
    }
  }

  /**
   * The run's text is that of its last block with any text; what a continuation has not ended is carried, and at every
   * end of the run nothing is. A run the breaker stops without text says so instead; a waiting one has none.
   */
  lemma {:induction false} TextKept(o: Options, messages: seq<Message>, inputs: seq<StepInput>)
    requires After(o, messages, inputs).Some?
    ensures var s := After(o, messages, inputs).value;
      var blocks := TextBlocks(o, messages, inputs);
      var text := LastNonempty(blocks.ended);
      match s.phase
      case Waiting => s.carried == "" && s.finalText == ""
      case Continue => s.carried == blocks.open && s.finalText == text
      case DegenerateLoop =>
        s.carried == "" && blocks.open == "" && s.finalText == if text != "" then text else DEGENERATE_LOOP_STOP
      case _ => s.carried == "" && blocks.open == "" && s.finalText == text
  {
    hide MalformedStep, StepText, Carries, Next;
    if inputs != [] {
      var front, last := inputs[..|inputs| - 1], inputs[|inputs| - 1];
      TextKept(o, messages, front);
      NextText(o, After(o, messages, front).value, last);
      var ended := TextBlocks(o, messages, front).ended;
      var block := TextBlocks(o, messages, front).open + StepText(o, last);
      assert (ended + [block])[..|ended|] == ended;
      assert block + "" == block;
    }
  }

  // ---- pairing ----

  /** Each batch of durable steering the host gives is well paired. */
  predicate SteersPaired(inputs: seq<StepInput>) {
    forall i | 0 <= i < |inputs| :: WellPaired(inputs[i].host.steering)
  }

  lemma TailPaired(reply: Reply)
    requires reply.Decoded?
    ensures WellPaired(StepTail(reply))
  {
    ResponsePaired(reply.response.parts, Results(reply));
  }

  lemma UserPaired(messages: seq<Message>)
    requires AllUser(messages)
    ensures WellPaired(messages)
  {
    UserKeeps(multiset{}, messages);
  }

  lemma CompactedPaired(messages: seq<Message>, plan: Option<CompactionPlan>)
    requires WellPaired(messages)
    ensures WellPaired(Compacted(messages, plan))
  {
    if plan.Some? && Applies(plan.value, messages) {
      PairedFrom(messages, plan.value.keepFrom);
      UserPaired([User(Handoff(plan.value.summary))]);
      PairedAppends([User(Handoff(plan.value.summary))], messages[plan.value.keepFrom..]);
    }
  }

  predicate BothPaired(s: LoopState) {
    WellPaired(s.messages) && WellPaired(s.newTail)
  }

  lemma AppendedPaired(messages: seq<Message>, tail: seq<Message>, appended: seq<Message>)
    requires WellPaired(messages) && WellPaired(tail) && AllUser(appended)
    ensures WellPaired(messages + tail + appended)
  {
    UserPaired(appended);
    PairedAppends(messages, tail);
    PairedAppends(messages + tail, appended);
  }

  lemma NextInputPaired(s: LoopState, tail: seq<Message>, appended: seq<Message>, host: Host)
    requires BothPaired(s) && WellPaired(tail) && AllUser(appended)
    ensures BothPaired(NextInput(s, tail, appended, host)) && s.newTail <= NextInput(s, tail, appended, host).newTail
  {
    AppendedPaired(s.messages, tail, appended);
    AppendedPaired(s.newTail, tail, appended);
    CompactedPaired(s.messages + tail + appended, host.plan);
    UserPaired(Steer(host));
    PairedAppends(Compacted(s.messages + tail + appended, host.plan), Steer(host));
    PairedAppends(s.newTail + tail + appended, Steer(host));
  }

  lemma RecoverPaired(o: Options, s: LoopState)
    requires BothPaired(s) && Recover(o, s).Some?
    ensures BothPaired(Recover(o, s).value) && s.newTail <= Recover(o, s).value.newTail
  {
    UserPaired([User(MalformedCorrective)]);
    PairedAppends(s.messages, [User(MalformedCorrective)]);
    PairedAppends(s.newTail, [User(MalformedCorrective)]);
  }

  lemma RecutPaired(o: Options, s: LoopState, input: StepInput)
    requires input.reply.Decoded? && BothPaired(s) && Recut(o, s, input).Some?
    ensures BothPaired(Recut(o, s, input).value) && s.newTail <= Recut(o, s, input).value.newTail
  {
    hide WellPaired, StepTail, TextOf, AddUsage, NextInput;
    var tail := StepTail(input.reply);
    TailPaired(input.reply);
    PairedAppends(s.messages, tail);
    PairedAppends(s.newTail, tail);
    NextInputPaired(AgentLoop.Counted(o, s, input).(malformedStreak := 0, cutStreak := s.cutStreak + 1), tail,
                    [User(LengthCorrective(StepCalls(input.reply) != []))], input.host);
  }

  lemma DecidePaired(o: Options, s: LoopState, input: StepInput)
    requires input.reply.Decoded? && BothPaired(s)
    ensures BothPaired(Decide(o, s, input)) && s.newTail <= Decide(o, s, input).newTail
  {
    hide WellPaired, StepTail, TextOf, AddUsage, NextInput, FoldProgress, DecidedPhase;
    var tail := StepTail(input.reply);
    TailPaired(input.reply);
    PairedAppends(s.messages, tail);
    PairedAppends(s.newTail, tail);
    var counted := AgentLoop.Counted(o, s, input).(toolCalls := s.toolCalls + CallCount(input.reply.response.parts));
    NextInputPaired(counted, tail, NudgeOf(o, s, input) + IncompleteOf(o, s, input), input.host);
  }

  /**
   * From a well-paired input every buffer of a run stays well paired, through cut replies, answered calls, correctives,
   * nudges, steering and compaction; and what the run adds is never rewritten.
   */
  lemma {:induction false} BuffersPaired(o: Options, messages: seq<Message>, inputs: seq<StepInput>)
    requires WellPaired(messages) && SteersPaired(inputs) && After(o, messages, inputs).Some?
    ensures BothPaired(After(o, messages, inputs).value)
    ensures inputs != [] ==> After(o, messages, inputs[..|inputs| - 1]).value.newTail <= After(o, messages, inputs).value.newTail
  {
    hide WellPaired, Recover, Recut, Decide, MalformedStep;
    if inputs == [] {
      UserPaired([]);
    } else {
      var front, last := inputs[..|inputs| - 1], inputs[|inputs| - 1];
      BuffersPaired(o, messages, front);
      var s := After(o, messages, front).value;
      var begun := Begun(s, last.host);
      PairedAppends(s.messages, last.host.steering);
      PairedAppends(s.newTail, last.host.steering);
      Exclusive(o, last);
      if MalformedStep(o, last) { RecoverPaired(o, begun); }
      else if CutStep(o, last) { RecutPaired(o, begun, last); }
      else { DecidePaired(o, begun, last); }
    }
  }

  // ---- what the run reports ----

  /** The calls of the responses the loop decided on, a cut one's not. */
  function ToolCallTotal(o: Options, inputs: seq<StepInput>): nat {
    if inputs == [] then 0
    else
      var earlier := ToolCallTotal(o, inputs[..|inputs| - 1]);
      var last := inputs[|inputs| - 1];
      if MalformedStep(o, last) || CutStep(o, last) then earlier else earlier + CallCount(last.reply.response.parts)
  }

  /** The usage of the last response a provider gave: no malformed one's, and not the planned first step's. */
  function LastUsage(o: Options, inputs: seq<StepInput>): Option<Usage> {
    if inputs == [] then None
    else
      var last := inputs[|inputs| - 1];
      if MalformedStep(o, last) || (o.planned && |inputs| == 1) then LastUsage(o, inputs[..|inputs| - 1])
      else Some(last.reply.response.usage)
  }

  lemma NextReport(o: Options, s: LoopState, input: StepInput)
    requires Next(o, s, input).Some?
    ensures var next := Next(o, s, input).value;
      && next.toolCalls == s.toolCalls +
           (if MalformedStep(o, input) || CutStep(o, input) then 0 else CallCount(input.reply.response.parts))
      && next.lastUsage ==
           if MalformedStep(o, input) || (o.planned && s.turnIndex == 0) then s.lastUsage else Some(input.reply.response.usage)
  {
    hide StepTail, CallCount, TextOf, StepProgress, DecidedPhase, NudgeOf, IncompleteOf, AddUsage, Spoils, Rejection;
  }

  lemma {:induction false} ReportSums(o: Options, messages: seq<Message>, inputs: seq<StepInput>)
    requires After(o, messages, inputs).Some?
    ensures After(o, messages, inputs).value.toolCalls == ToolCallTotal(o, inputs)
    ensures After(o, messages, inputs).value.lastUsage == LastUsage(o, inputs)
  {
    hide MalformedStep, CutStep, Next;
    if inputs != [] {
      ReportSums(o, messages, inputs[..|inputs| - 1]);
      StepsBounded(o, messages, inputs[..|inputs| - 1]);
      NextReport(o, After(o, messages, inputs[..|inputs| - 1]).value, inputs[|inputs| - 1]);
    }
  }

  /** The loop's own corrections; a completion corrective is none. */
  predicate IsCorrection(m: Message) {
    m.User? && (m.said.MalformedCorrective? || m.said.LengthCorrective? || m.said.Nudge?)
  }

  function Corrections(messages: seq<Message>): seq<Message> {
    Filter((m: Message) => IsCorrection(m), messages)
  }

  lemma CorrectionsAppend(a: seq<Message>, b: seq<Message>)
    ensures Corrections(a + b) == Corrections(a) + Corrections(b)
  {
    FilterAppends((m: Message) => IsCorrection(m), a, b);
  }

  lemma NoCorrections(messages: seq<Message>)
    requires forall m | m in messages :: !IsCorrection(m)
    ensures Corrections(messages) == []
  {
    FilterEmpty((m: Message) => IsCorrection(m), messages);
  }

  lemma TailCorrects(reply: Reply)
    requires reply.Decoded?
    ensures Corrections(StepTail(reply)) == []
  {
    NoCorrections(StepTail(reply));
  }

  lemma OneCorrection(m: Message)
    ensures Corrections([m]) == if IsCorrection(m) then [m] else []
  {
  }

  /** What is appended to the tail after the settled messages. */
  lemma InputCorrects(s: LoopState, tail: seq<Message>, appended: seq<Message>, host: Host)
    requires Corrections(tail) == []
    ensures Corrections(NextInput(s, tail, appended, host).newTail) == Corrections(s.newTail) + Corrections(appended)
  {
    CorrectionsAppend(s.newTail, tail);
    CorrectionsAppend(s.newTail + tail, appended);
    CorrectionsAppend(s.newTail + tail + appended, Steer(host));
    NoCorrections(Steer(host));
  }

  lemma NudgeCorrects(o: Options, s: LoopState, input: StepInput)
    requires input.reply.Decoded?
    ensures |Corrections(NudgeOf(o, s, input) + IncompleteOf(o, s, input))| == |NudgeOf(o, s, input)|
  {
    hide StepProgress, DecidedPhase, RequireMore, CallCount, Corrections;
    CorrectionsAppend(NudgeOf(o, s, input), IncompleteOf(o, s, input));
    NoCorrections(IncompleteOf(o, s, input));
    OneCorrection(User(Nudge));
    NoCorrections([]);
  }

  lemma RecutCorrects(o: Options, s: LoopState, input: StepInput)
    requires input.reply.Decoded? && Recut(o, s, input).Some?
    ensures var next := Recut(o, s, input).value;
      |Corrections(next.newTail)| - |Corrections(s.newTail)| == next.corrections - s.corrections
  {
    hide StepTail, NextInput, Corrections, TextOf, AddUsage;
    var tail := StepTail(input.reply);
    TailCorrects(input.reply);
    CorrectionsAppend(s.newTail, tail);
    OneCorrection(User(LengthCorrective(StepCalls(input.reply) != [])));
    InputCorrects(AgentLoop.Counted(o, s, input).(malformedStreak := 0, cutStreak := s.cutStreak + 1), tail,
                  [User(LengthCorrective(StepCalls(input.reply) != []))], input.host);
  }

  lemma DecideCorrects(o: Options, s: LoopState, input: StepInput)
    requires input.reply.Decoded?
    ensures var next := Decide(o, s, input);
      |Corrections(next.newTail)| - |Corrections(s.newTail)| == next.corrections - s.corrections
  {
    hide StepTail, NextInput, Corrections, TextOf, AddUsage, StepProgress, CallCount, IncompleteOf;
    var tail := StepTail(input.reply);
    TailCorrects(input.reply);
    CorrectionsAppend(s.newTail, tail);
    NudgeCorrects(o, s, input);
    InputCorrects(AgentLoop.Counted(o, s, input).(toolCalls := s.toolCalls + CallCount(input.reply.response.parts)), tail,
                  NudgeOf(o, s, input) + IncompleteOf(o, s, input), input.host);
  }

  lemma NextCorrects(o: Options, s: LoopState, input: StepInput)
    requires Next(o, s, input).Some? && forall m | m in input.host.steering :: !IsCorrection(m)
    ensures var next := Next(o, s, input).value;
      |Corrections(next.newTail)| - |Corrections(s.newTail)| == next.corrections - s.corrections
  {
    hide MalformedStep, CutStep, Recut, Decide, Corrections, IsCorrection;
    var begun := Begun(s, input.host);
    CorrectionsAppend(s.newTail, input.host.steering);
    NoCorrections(input.host.steering);
    Exclusive(o, input);
    if MalformedStep(o, input) {
      CorrectionsAppend(begun.newTail, [User(MalformedCorrective)]);
      CorrectiveCounts();
    } else if CutStep(o, input) {
      RecutCorrects(o, begun, input);
    } else {
      DecideCorrects(o, begun, input);
    }
  }

  lemma CorrectiveCounts()
    ensures |Corrections([User(MalformedCorrective)])| == 1
  {
    OneCorrection(User(MalformedCorrective));
  }

  /** The reported corrections are the correctives and nudges the run added to its tail. */
  lemma {:induction false} CorrectionsCounted(o: Options, messages: seq<Message>, inputs: seq<StepInput>)
    requires After(o, messages, inputs).Some?
    requires forall i | 0 <= i < |inputs| :: forall m | m in inputs[i].host.steering :: !IsCorrection(m)
    ensures var s := After(o, messages, inputs).value; s.corrections == |Corrections(s.newTail)|
  {
    hide Next, IsCorrection, Corrections;
    if inputs == [] {
      NoCorrections([]);
    } else {
      CorrectionsCounted(o, messages, inputs[..|inputs| - 1]);
      NextCorrects(o, After(o, messages, inputs[..|inputs| - 1]).value, inputs[|inputs| - 1]);
    }
  }

  /** The buffer is the run's input and everything the run added. */
  predicate HoldsAll(s: LoopState, messages: seq<Message>) {
    s.messages == messages + s.newTail
  }

  lemma AddedBuffers(s: LoopState, more: seq<Message>, messages: seq<Message>)
    requires HoldsAll(s, messages)
    ensures s.messages + more == messages + (s.newTail + more)
  {
  }

  lemma InputBuffers(s: LoopState, tail: seq<Message>, appended: seq<Message>, host: Host, messages: seq<Message>)
    requires HoldsAll(s, messages) && host.plan.None?
    ensures HoldsAll(NextInput(s, tail, appended, host), messages)
  {
    hide Steer;
  }

  lemma RecutBuffers(o: Options, s: LoopState, input: StepInput, messages: seq<Message>)
    requires input.reply.Decoded? && HoldsAll(s, messages) && input.host.plan.None? && Recut(o, s, input).Some?
    ensures HoldsAll(Recut(o, s, input).value, messages)
  {
    hide StepTail, TextOf, AddUsage, NextInput, StepCalls;
    AddedBuffers(s, StepTail(input.reply), messages);
    InputBuffers(AgentLoop.Counted(o, s, input).(malformedStreak := 0, cutStreak := s.cutStreak + 1), StepTail(input.reply),
                 [User(LengthCorrective(StepCalls(input.reply) != []))], input.host, messages);
  }

  lemma DecideBuffers(o: Options, s: LoopState, input: StepInput, messages: seq<Message>)
    requires input.reply.Decoded? && HoldsAll(s, messages) && input.host.plan.None?
    ensures HoldsAll(Decide(o, s, input), messages)
  {
    hide StepTail, TextOf, AddUsage, NextInput, CallCount, StepProgress, DecidedPhase, NudgeOf, IncompleteOf;
    AddedBuffers(s, StepTail(input.reply), messages);
    InputBuffers(AgentLoop.Counted(o, s, input).(toolCalls := s.toolCalls + CallCount(input.reply.response.parts)), StepTail(input.reply),
                 NudgeOf(o, s, input) + IncompleteOf(o, s, input), input.host, messages);
  }

  lemma NextBuffers(o: Options, s: LoopState, input: StepInput, messages: seq<Message>)
    requires Next(o, s, input).Some? && HoldsAll(s, messages) && input.host.plan.None?
    ensures HoldsAll(Next(o, s, input).value, messages)
  {
    hide MalformedStep, CutStep, Recut, Decide;
    var begun := Begun(s, input.host);
    AddedBuffers(s, input.host.steering, messages);
    AddedBuffers(begun, [User(MalformedCorrective)], messages);
    Exclusive(o, input);
    if !MalformedStep(o, input) {
      if CutStep(o, input) { RecutBuffers(o, begun, input, messages); } else { DecideBuffers(o, begun, input, messages); }
    }
  }

  /** Without compaction the buffer is the run's input and everything it added, in order. */
  lemma {:induction false} BufferIsWhole(o: Options, messages: seq<Message>, inputs: seq<StepInput>)
    requires After(o, messages, inputs).Some? && forall i | 0 <= i < |inputs| :: inputs[i].host.plan.None?
    ensures HoldsAll(After(o, messages, inputs).value, messages)
  {
    hide Next;
    if inputs != [] {
      BufferIsWhole(o, messages, inputs[..|inputs| - 1]);
      NextBuffers(o, After(o, messages, inputs[..|inputs| - 1]).value, inputs[|inputs| - 1], messages);
    }
  }

  // ---- stream fallbacks ----

  /** What the request machine guarantees of a step: a fallback needs a healthy stream and leaves it unhealthy. */
  predicate HealthReported(s: LoopState, input: StepInput) {
    (input.fellBack ==> s.streamingHealthy) && (input.streamingHealthy <==> s.streamingHealthy && !input.fellBack)
  }

  ghost predicate HealthyRun(o: Options, messages: seq<Message>, inputs: seq<StepInput>) {
    forall i | 0 <= i < |inputs| :: After(o, messages, inputs[..i]).Some? ==> HealthReported(After(o, messages, inputs[..i]).value, inputs[i])
  }

  function FellBack(): StepInput -> bool { (input: StepInput) => input.fellBack }

  function Count(kind: StepInput -> bool, inputs: seq<StepInput>): nat {
    if inputs == [] then 0 else Count(kind, inputs[..|inputs| - 1]) + if kind(inputs[|inputs| - 1]) then 1 else 0
  }

  lemma NextHealth(o: Options, s: LoopState, input: StepInput)
    requires Next(o, s, input).Some?
    ensures Next(o, s, input).value.streamingHealthy == if MalformedStep(o, input) then s.streamingHealthy else input.streamingHealthy
  {
    hide MalformedStep, StepTail, CallCount, TextOf, StepProgress, DecidedPhase;
    hide NudgeOf, IncompleteOf, NextInput, AddUsage;
  }

  /** A run falls back at most once more often than its steps are malformed, since recovering forgets the fallback. */
  lemma {:induction false} FallbacksBounded(o: Options, messages: seq<Message>, inputs: seq<StepInput>)
    requires After(o, messages, inputs).Some? && HealthyRun(o, messages, inputs)
    ensures var s := After(o, messages, inputs).value;
      Count(FellBack(), inputs) + (if s.streamingHealthy then 1 else 0) <= 1 + Count(IsMalformed(o), inputs)
  {
    hide MalformedStep, Next;
    if inputs != [] {
      var front, last := inputs[..|inputs| - 1], inputs[|inputs| - 1];
      forall i | 0 <= i < |front|
        ensures After(o, messages, front[..i]).Some? ==> HealthReported(After(o, messages, front[..i]).value, front[i])
      {
        assert front[..i] == inputs[..i];
      }
      FallbacksBounded(o, messages, front);
      NextHealth(o, After(o, messages, front).value, last);
      assert HealthReported(After(o, messages, inputs[..|inputs| - 1]).value, last);
    }
  }
}
