/** What a run records through its tail callback: one batch a response, a result or a message of the loop, in the order recorded. */
module AgentLog {
  import opened Prelude
  import opened AgentTranscript
  import opened AgentLoop
  import opened AgentRuns

  /** `due` are the ids of the calls a response leaves to run. */
  datatype Batch =
    | ResponseBatch(step: nat, messages: seq<Message>, due: seq<CallId>)
    | ResultBatch(step: nat, result: Result)
    | LoopBatch(step: nat, message: Message)

  function MessagesOf(batch: Batch): seq<Message> {
    match batch
    case ResponseBatch(_, messages, _) => messages
    case ResultBatch(_, result) => [Tool([result])]
    case LoopBatch(_, message) => [message]
  }

  function AllMessages(log: seq<Batch>): seq<Message> {
    if log == [] then [] else AllMessages(log[..|log| - 1]) + MessagesOf(log[|log| - 1])
  }

  /** The calls the last recorded response leaves to run. */
  function LastDue(log: seq<Batch>): seq<CallId> {
    if log == [] then []
    else if log[|log| - 1].ResponseBatch? then log[|log| - 1].due
    else LastDue(log[..|log| - 1])
  }

  /** The results recorded with the response, of the calls below `n` that are not run. */
  function AnsweredBelow(reply: Reply, n: nat): seq<Result>
    requires reply.Decoded? && n <= |StepCalls(reply)|
  {
    if n == 0 then []
    else AnsweredBelow(reply, n - 1) + if Runs(reply, n - 1) then [] else [ResultOf(reply, n - 1)]
  }

  function DueBelow(reply: Reply, n: nat): seq<CallId>
    requires reply.Decoded? && n <= |StepCalls(reply)|
  {
    if n == 0 then []
    else DueBelow(reply, n - 1) + if Runs(reply, n - 1) then [StepCalls(reply)[n - 1].id] else []
  }

  function Answered(reply: Reply): seq<Result>
    requires reply.Decoded?
  {
    AnsweredBelow(reply, |StepCalls(reply)|)
  }

  function Due(reply: Reply): seq<CallId>
    requires reply.Decoded?
  {
    DueBelow(reply, |StepCalls(reply)|)
  }

  ghost predicate ListsRunning(reply: Reply, order: seq<nat>, n: nat)
    requires reply.Decoded?
  {
    NoDuplicates(order) && forall i: nat :: i in order <==> i < n && Runs(reply, i)
  }

  /** The calls return in some order, each that runs once. */
  ghost predicate CompletionOrder(reply: Reply) {
    reply.Decoded? ==> ListsRunning(reply, reply.order, |StepCalls(reply)|)
  }

  function ResultBatches(reply: Reply, step: nat, order: seq<nat>): (r: seq<Batch>)
    requires reply.Decoded? && forall k | 0 <= k < |order| :: order[k] < |StepCalls(reply)|
    ensures |r| == |order| && forall k | 0 <= k < |r| :: r[k] == ResultBatch(step, ResultOf(reply, order[k]))
  {
    seq(|order|, k requires 0 <= k < |order| => ResultBatch(step, ResultOf(reply, order[k])))
  }

  /** The response, before any of its tools runs, with the answers of the calls that do not run; the host's planned one without. */
  function ResponseBatchOf(reply: Reply, step: nat, planned: bool): Batch
    requires reply.Decoded?
  {
    ResponseBatch(step, ToMessages(reply.response.parts, if planned then [] else Answered(reply)), Due(reply))
  }

  /** A step's own records: the response, then each result as it returns. */
  function StepRecords(reply: Reply, step: nat, planned: bool): seq<Batch>
    requires reply.Decoded? && CompletionOrder(reply)
  {
    assert forall k | 0 <= k < |reply.order| :: reply.order[k] in reply.order;
    [ResponseBatchOf(reply, step, planned)] + ResultBatches(reply, step, reply.order)
  }

  function LoopBatches(step: nat, messages: seq<Message>): (r: seq<Batch>)
    ensures |r| == |messages| && forall k | 0 <= k < |r| :: r[k] == LoopBatch(step, messages[k])
  {
    seq(|messages|, k requires 0 <= k < |messages| => LoopBatch(step, messages[k]))
  }

  /** The loop's messages for the next step, recorded only when the run goes on to it. */
  function LoopMessages(o: Options, s: LoopState, input: StepInput): seq<Message> {
    var next := Next(o, s, input);
    if next.None? || !next.value.phase.Continue? then []
    else if MalformedStep(o, input) then [User(MalformedCorrective)]
    else if CutStep(o, input) then [User(LengthCorrective(StepCalls(input.reply) != []))] + Steer(input.host)
    else
      var begun := Begun(s, input.host);
      NudgeOf(o, begun, input) + IncompleteOf(o, begun, input) + Steer(input.host)
  }

  /** What one step of the run records, its own records first. */
  function Records(o: Options, s: LoopState, input: StepInput): seq<Batch>
    requires CompletionOrder(input.reply)
  {
    (if MalformedStep(o, input) then [] else StepRecords(input.reply, s.turnIndex, o.planned && s.turnIndex == 0))
    + LoopBatches(s.turnIndex + 1, LoopMessages(o, s, input))
  }

  ghost predicate CompletionOrders(inputs: seq<StepInput>) {
    forall i | 0 <= i < |inputs| :: CompletionOrder(inputs[i].reply)
  }

  /** The log of a run, a last step that fails the run included. */
  ghost function Log(o: Options, messages: seq<Message>, inputs: seq<StepInput>): seq<Batch>
    requires CompletionOrders(inputs)
  {
    if inputs == [] then []
    else
      var s := After(o, messages, inputs[..|inputs| - 1]);
      Log(o, messages, inputs[..|inputs| - 1])
      + if s.Some? && s.value.phase.Continue? then Records(o, s.value, inputs[|inputs| - 1]) else []
  }

  /**
   * Wherever the log stops, no response was recorded over unanswered calls, each result answers one of the last
   * response's calls that had none, and what is unanswered is still due to run.
   */
  predicate Sound(log: seq<Batch>) {
    var left := Pending(multiset{}, AllMessages(log));
    left.Some? && left.value <= multiset(LastDue(log))
  }

  // ---- one step's records ----

  lemma ResultIdsNext(results: seq<Result>, r: Result)
    ensures multiset(ResultIds(results + [r])) == multiset(ResultIds(results)) + multiset{r.id}
  {
    assert ResultIds(results + [r]) == ResultIds(results) + [r.id];
  }

  lemma {:induction false} CallsSplit(reply: Reply, n: nat)
    requires reply.Decoded? && n <= |StepCalls(reply)|
    ensures multiset(ResultIds(AnsweredBelow(reply, n))) + multiset(DueBelow(reply, n)) == multiset(CallIds(StepCalls(reply))[..n])
  {
    hide Runs, ResultOf, StepCalls;
    var ids := CallIds(StepCalls(reply));
    if n == 0 {
      assert ResultIds([]) == [] && ids[..0] == [];
    } else {
      CallsSplit(reply, n - 1);
      assert ids[..n] == ids[..n - 1] + [ids[n - 1]];
      if Runs(reply, n - 1) {
        assert AnsweredBelow(reply, n) == AnsweredBelow(reply, n - 1);
        assert multiset(DueBelow(reply, n)) == multiset(DueBelow(reply, n - 1)) + multiset{ids[n - 1]};
      } else {
        assert DueBelow(reply, n) == DueBelow(reply, n - 1);
        ResultIdsNext(AnsweredBelow(reply, n - 1), ResultOf(reply, n - 1));
      }
    }
  }

  function IdsAt(reply: Reply, order: seq<nat>): (r: seq<CallId>)
    requires reply.Decoded?
    ensures |r| == |order| && forall k | 0 <= k < |r| :: r[k] == IdAt(reply, order[k])
  {
    seq(|order|, k requires 0 <= k < |order| => IdAt(reply, order[k]))
  }

  function IdAt(reply: Reply, i: nat): CallId
    requires reply.Decoded?
  {
    if i < |StepCalls(reply)| then StepCalls(reply)[i].id else ""
  }

  /** In whatever order they return, the calls that run are the due ones. */
  lemma {:induction false} OrderIsDue(reply: Reply, order: seq<nat>, n: nat)
    requires reply.Decoded? && n <= |StepCalls(reply)| && ListsRunning(reply, order, n)
    ensures multiset(IdsAt(reply, order)) == multiset(DueBelow(reply, n))
  {
    hide ListsRunning, Runs, StepCalls, IdAt, IdsAt, DueBelow;
    if n == 0 {
      DueNone(reply);
      NoneRunning(reply, order);
    } else if Runs(reply, n - 1) {
      var p := IndexOf(reply, order, n);
      var rest := order[..p] + order[p + 1..];
      RestLists(reply, order, n, p);
      OrderIsDue(reply, rest, n - 1);
      IdsWithout(reply, order, p);
      DueNext(reply, n);
    } else {
      NotRunning(reply, order, n);
      DueNext(reply, n);
      OrderIsDue(reply, order, n - 1);
    }
  }

  lemma DueNone(reply: Reply)
    requires reply.Decoded?
    ensures DueBelow(reply, 0) == []
  {
  }

  lemma DueNext(reply: Reply, n: nat)
    requires reply.Decoded? && 1 <= n <= |StepCalls(reply)|
    ensures multiset(DueBelow(reply, n)) == multiset(DueBelow(reply, n - 1)) + if Runs(reply, n - 1) then multiset{IdAt(reply, n - 1)} else multiset{}
  {
    hide Runs;
  }

  lemma NoneRunning(reply: Reply, order: seq<nat>)
    requires reply.Decoded? && ListsRunning(reply, order, 0)
    ensures order == []
  {
    FirstIn(order);
  }

  lemma FirstIn(order: seq<nat>)
    ensures order != [] ==> order[0] in order
  {
  }

  lemma IdsWithout(reply: Reply, order: seq<nat>, p: nat)
    requires reply.Decoded? && p < |order|
    ensures multiset(IdsAt(reply, order)) == multiset(IdsAt(reply, order[..p] + order[p + 1..])) + multiset{IdAt(reply, order[p])}
  {
    hide IdAt, IdsAt;
    var a, b := order[..p], order[p + 1..];
    assert order == a + [order[p]] + b;
    IdsAppend(reply, a + [order[p]], b);
    IdsAppend(reply, a, [order[p]]);
    IdsAppend(reply, a, b);
    assert IdsAt(reply, [order[p]]) == [IdAt(reply, order[p])];
  }

  lemma IdsAppend(reply: Reply, a: seq<nat>, b: seq<nat>)
    requires reply.Decoded?
    ensures IdsAt(reply, a + b) == IdsAt(reply, a) + IdsAt(reply, b)
  {
    hide IdAt;
  }

  lemma IndexOf(reply: Reply, order: seq<nat>, n: nat) returns (p: nat)
    requires reply.Decoded? && n >= 1 && ListsRunning(reply, order, n) && Runs(reply, n - 1)
    ensures p < |order| && order[p] == n - 1
  {
    hide Runs;
    assert n - 1 in order;
    p :| 0 <= p < |order| && order[p] == n - 1;
  }

  lemma NotRunning(reply: Reply, order: seq<nat>, n: nat)
    requires reply.Decoded? && n >= 1 && ListsRunning(reply, order, n) && !Runs(reply, n - 1)
    ensures ListsRunning(reply, order, n - 1)
  {
    hide Runs;
  }

  lemma RestLists(reply: Reply, order: seq<nat>, n: nat, p: nat)
    requires reply.Decoded? && n >= 1 && ListsRunning(reply, order, n) && p < |order| && order[p] == n - 1
    ensures ListsRunning(reply, order[..p] + order[p + 1..], n - 1)
  {
    hide Runs;
    var rest := order[..p] + order[p + 1..];
    forall i: nat ensures i in rest <==> i < n - 1 && Runs(reply, i) {
      if i in rest {
        var k :| 0 <= k < |rest| && rest[k] == i;
        var at := if k < p then k else k + 1;
        assert order[at] == i && at != p;
        assert i in order;
      }
      if i < n - 1 && Runs(reply, i) {
        assert i in order;
        var k :| 0 <= k < |order| && order[k] == i;
        assert k != p;
        assert rest[if k < p then k else k - 1] == i;
      }
    }
  }

  lemma AllMessagesNext(log: seq<Batch>, batch: Batch)
    ensures AllMessages(log + [batch]) == AllMessages(log) + MessagesOf(batch)
    ensures LastDue(log + [batch]) == if batch.ResponseBatch? then batch.due else LastDue(log)
  {
    assert (log + [batch])[..|log|] == log;
  }

  /** After the response and k results, exactly the due calls without one are unanswered. */
  ghost predicate LeavesDue(reply: Reply, log: seq<Batch>, k: nat)
    requires reply.Decoded? && k <= |reply.order|
  {
    && LastDue(log) == Due(reply)
    && Pending(multiset{}, AllMessages(log)) == Some(multiset(Due(reply)) - multiset(IdsAt(reply, reply.order[..k])))
  }

  lemma ResponseRecorded(reply: Reply, step: nat)
    requires reply.Decoded?
    ensures LeavesDue(reply, [ResponseBatchOf(reply, step, false)], 0)
  {
    hide Pending, ToMessages, Answered, Due, IdAt;
    var batch := ResponseBatchOf(reply, step, false);
    AllMessagesNext([], batch);
    assert [] + [batch] == [batch] && AllMessages([]) + MessagesOf(batch) == MessagesOf(batch);
    ResponseLeaves(reply);
    assert IdsAt(reply, reply.order[..0]) == [];
    assert multiset(Due(reply)) - multiset{} == multiset(Due(reply));
  }

  lemma ResultRecorded(reply: Reply, step: nat, log: seq<Batch>, k: nat)
    requires reply.Decoded? && CompletionOrder(reply) && 1 <= k <= |reply.order| && reply.order[k - 1] < |StepCalls(reply)|
    requires LeavesDue(reply, log, k - 1)
    ensures LeavesDue(reply, log + [ResultBatch(step, ResultOf(reply, reply.order[k - 1]))], k)
  {
    hide Pending, ResultOf, StepCalls, ListsRunning, Due, IdsAt;
    var result := ResultOf(reply, reply.order[k - 1]);
    AllMessagesNext(log, ResultBatch(step, result));
    OneMore(reply, k);
    IdsWithin(reply, k);
    ResultAnswers(AllMessages(log), multiset(Due(reply)), IdsAt(reply, reply.order[..k - 1]), result);
  }

  lemma {:induction false} ResultsPending(reply: Reply, step: nat, k: nat)
    requires reply.Decoded? && CompletionOrder(reply) && k <= |reply.order|
    ensures LeavesDue(reply, StepRecords(reply, step, false)[..k + 1], k)
  {
    hide LeavesDue, ListsRunning, ResultOf, ResponseBatchOf, StepCalls;
    var records := StepRecords(reply, step, false);
    if k == 0 {
      assert records[..1] == [records[0]];
      ResponseRecorded(reply, step);
    } else {
      ResultsPending(reply, step, k - 1);
      OrderWithin(reply, k - 1);
      ResultRecorded(reply, step, records[..k], k);
      assert records[..k + 1] == records[..k] + [records[k]];
    }
  }

  lemma OrderWithin(reply: Reply, k: nat)
    requires reply.Decoded? && CompletionOrder(reply) && k < |reply.order|
    ensures reply.order[k] < |StepCalls(reply)|
  {
    assert reply.order[k] in reply.order;
  }

  lemma OneMore(reply: Reply, k: nat)
    requires reply.Decoded? && CompletionOrder(reply) && 1 <= k <= |reply.order|
    ensures reply.order[k - 1] in reply.order
    ensures IdsAt(reply, reply.order[..k]) == IdsAt(reply, reply.order[..k - 1]) + [ResultOf(reply, reply.order[k - 1]).id]
  {
  }

  /** One more result of a due call leaves one less unanswered. */
  lemma ResultAnswers(messages: seq<Message>, due: multiset<CallId>, answered: seq<CallId>, result: Result)
    requires Pending(multiset{}, messages) == Some(due - multiset(answered))
    requires multiset(answered + [result.id]) <= due
    ensures Pending(multiset{}, messages + [Tool([result])]) == Some(due - multiset(answered + [result.id]))
  {
    hide Pending;
    PendingAppends(multiset{}, messages, [Tool([result])]);
    assert ResultIds([result]) == [result.id];
    OnePending(due - multiset(answered), Tool([result]));
    assert due - multiset(answered) - multiset{result.id} == due - multiset(answered + [result.id]);
  }

  lemma IdsWithin(reply: Reply, k: nat)
    requires reply.Decoded? && CompletionOrder(reply) && k <= |reply.order|
    ensures multiset(IdsAt(reply, reply.order[..k])) <= multiset(Due(reply))
    ensures k == |reply.order| ==> multiset(IdsAt(reply, reply.order[..k])) == multiset(Due(reply))
  {
    hide StepCalls, Runs;
    OrderIsDue(reply, reply.order, |StepCalls(reply)|);
    assert IdsAt(reply, reply.order) == IdsAt(reply, reply.order[..k]) + IdsAt(reply, reply.order[k..]);
    if k == |reply.order| { assert reply.order[..k] == reply.order; }
  }

  lemma ResponseLeaves(reply: Reply)
    requires reply.Decoded?
    ensures Pending(multiset{}, ToMessages(reply.response.parts, Answered(reply))) == Some(multiset(Due(reply)))
  {
    hide Runs, ResultOf, Pending, ToMessages, AnsweredBelow, DueBelow;
    CallsSplit(reply, |StepCalls(reply)|);
    assert CallIds(StepCalls(reply))[..|StepCalls(reply)|] == CallIds(StepCalls(reply));
    assert multiset(CallIds(StepCalls(reply))) - multiset(ResultIds(Answered(reply))) == multiset(Due(reply));
    ResponsePending(reply.response.parts, Answered(reply));
  }

  // ---- the log of a run ----

  lemma {:induction false} MessagesAppend(a: seq<Batch>, b: seq<Batch>)
    ensures AllMessages(a + b) == AllMessages(a) + AllMessages(b)
    ensures LastDue(a + b) == LastDue(b) || (LastDue(b) == [] && LastDue(a + b) == LastDue(a))
    decreases |b|
  {
    hide MessagesOf;
    if b == [] {
      assert a + b == a;
    } else {
      var front := b[..|b| - 1];
      MessagesAppend(a, front);
      assert (a + b)[..|a + b| - 1] == a + front;
    }
  }

  /** Everything recorded so far is answered. */
  predicate Settled(log: seq<Batch>) {
    Pending(multiset{}, AllMessages(log)) == Some(multiset{})
  }

  lemma SoundAfterSettled(log: seq<Batch>, more: seq<Batch>)
    requires Settled(log) && Sound(more)
    ensures Sound(log + more) && (Settled(more) ==> Settled(log + more))
  {
    hide Pending;
    MessagesAppend(log, more);
    PendingAppends(multiset{}, AllMessages(log), AllMessages(more));
  }

  lemma SettledIsSound(log: seq<Batch>)
    requires Settled(log)
    ensures Sound(log)
  {
  }

  lemma {:induction false} LoopBatchesSettled(step: nat, messages: seq<Message>)
    requires AllUser(messages)
    ensures AllMessages(LoopBatches(step, messages)) == messages
    ensures Settled(LoopBatches(step, messages))
  {
    hide Pending, LoopBatches;
    if messages != [] {
      var front, last := messages[..|messages| - 1], messages[|messages| - 1];
      LoopBatchesSettled(step, front);
      assert LoopBatches(step, messages) == LoopBatches(step, front) + [LoopBatch(step, last)];
      AllMessagesNext(LoopBatches(step, front), LoopBatch(step, last));
      assert messages == front + [last];
    }
    UserKeeps(multiset{}, messages);
  }

  lemma LoopMessagesUser(o: Options, s: LoopState, input: StepInput)
    ensures AllUser(LoopMessages(o, s, input))
  {
    hide Next, MalformedStep, CutStep, DecidedPhase, StepProgress, RequireMore;
    Exclusive(o, input);
  }

  /** A planned response whose calls are answered rather than run leaves those answers out of its record. */
  predicate OmitsAnswers(o: Options, s: LoopState, input: StepInput) {
    o.planned && s.turnIndex == 0 && !MalformedStep(o, input) && Answered(input.reply) != []
  }

  lemma StepRecordsSound(reply: Reply, step: nat, k: nat)
    requires reply.Decoded? && CompletionOrder(reply) && k <= |StepRecords(reply, step, false)|
    ensures Sound(StepRecords(reply, step, false)[..k])
    ensures k == |StepRecords(reply, step, false)| ==> Settled(StepRecords(reply, step, false)[..k])
  {
    hide Pending, StepRecords, Due, IdsAt, ListsRunning;
    if k == 0 {
      LoopBatchesSettled(step, []);
      assert StepRecords(reply, step, false)[..0] == LoopBatches(step, []);
      SettledIsSound(StepRecords(reply, step, false)[..0]);
    } else {
      StepRecordsLength(reply, step);
      ResultsPending(reply, step, k - 1);
      IdsWithin(reply, k - 1);
    }
  }

  lemma StepRecordsLength(reply: Reply, step: nat)
    requires reply.Decoded? && CompletionOrder(reply)
    ensures |StepRecords(reply, step, false)| == 1 + |reply.order|
  {
  }

  /** An unplanned record is the same as a planned one that answers nothing. */
  lemma NothingOmitted(reply: Reply, step: nat)
    requires reply.Decoded? && CompletionOrder(reply) && Answered(reply) == []
    ensures StepRecords(reply, step, true) == StepRecords(reply, step, false)
  {
  }

  lemma RecordsSound(o: Options, s: LoopState, input: StepInput, k: nat)
    requires CompletionOrder(input.reply) && !OmitsAnswers(o, s, input) && k <= |Records(o, s, input)|
    ensures Sound(Records(o, s, input)[..k])
    ensures k == |Records(o, s, input)| ==> Settled(Records(o, s, input)[..k])
  {
    hide Sound, Settled, LoopMessages, StepRecords, MalformedStep, Answered, ListsRunning;
    var own := Records(o, s, input)[..|Records(o, s, input)| - |LoopMessages(o, s, input)|];
    var loop := LoopBatches(s.turnIndex + 1, LoopMessages(o, s, input));
    LoopMessagesUser(o, s, input);
    assert Records(o, s, input) == own + loop;
    OwnRecordsSound(o, s, input, own, Min(k, |own|));
    if k <= |own| {
      assert Records(o, s, input)[..k] == own[..k];
      if k == |Records(o, s, input)| { assert loop == []; }
    } else {
      assert own[..|own|] == own;
      var said := LoopMessages(o, s, input)[..k - |own|];
      assert Records(o, s, input)[..k] == own + LoopBatches(s.turnIndex + 1, said);
      LoopBatchesSettled(s.turnIndex + 1, said);
      SettledIsSound(LoopBatches(s.turnIndex + 1, said));
      SoundAfterSettled(own, LoopBatches(s.turnIndex + 1, said));
    }
  }

  lemma OwnRecordsSound(o: Options, s: LoopState, input: StepInput, own: seq<Batch>, k: nat)
    requires CompletionOrder(input.reply) && !OmitsAnswers(o, s, input) && k <= |own|
    requires own == if MalformedStep(o, input) then [] else StepRecords(input.reply, s.turnIndex, o.planned && s.turnIndex == 0)
    ensures Sound(own[..k])
    ensures k == |own| ==> Settled(own[..k])
  {
    hide Sound, Settled, StepRecords, MalformedStep, Answered, ListsRunning;
    if MalformedStep(o, input) {
      LoopBatchesSettled(0, []);
      assert own[..k] == LoopBatches(0, []);
      SettledIsSound(own[..k]);
    } else {
      Exclusive(o, input);
      if o.planned && s.turnIndex == 0 { NothingOmitted(input.reply, s.turnIndex); }
      StepRecordsSound(input.reply, s.turnIndex, k);
    }
  }

  /** Whether the run's first step is a planned one that omits answers from its record. */
  ghost predicate FirstOmits(o: Options, messages: seq<Message>, inputs: seq<StepInput>) {
    inputs != [] && OmitsAnswers(o, Initial(messages), inputs[0])
  }

  lemma OnlyFirstOmits(o: Options, messages: seq<Message>, inputs: seq<StepInput>)
    requires inputs != [] && After(o, messages, inputs[..|inputs| - 1]).Some? && !FirstOmits(o, messages, inputs)
    ensures !OmitsAnswers(o, After(o, messages, inputs[..|inputs| - 1]).value, inputs[|inputs| - 1])
  {
    hide Next, MalformedStep, Answered;
    StepsBounded(o, messages, inputs[..|inputs| - 1]);
  }

  /**
   * Wherever the log of a run stops, in whatever order its tools return, unanswered calls belong to the last recorded
   * response and are due to run; a whole log leaves none.
   */
  lemma {:induction false} LogSound(o: Options, messages: seq<Message>, inputs: seq<StepInput>, k: nat)
    requires CompletionOrders(inputs) && !FirstOmits(o, messages, inputs) && k <= |Log(o, messages, inputs)|
    ensures Sound(Log(o, messages, inputs)[..k])
    ensures Settled(Log(o, messages, inputs))
    decreases |inputs|
  {
    hide Sound, Settled, Records, OmitsAnswers, After, CompletionOrder;
    var log := Log(o, messages, inputs);
    if inputs == [] {
      LoopBatchesSettled(0, []);
      assert log == LoopBatches(0, []) && log[..k] == log;
      SettledIsSound(log);
    } else {
      var front, last := inputs[..|inputs| - 1], inputs[|inputs| - 1];
      var before := Log(o, messages, front);
      var records := log[|before|..];
      assert log == before + records;
      LogSound(o, messages, front, Min(k, |before|));
      if k <= |before| { assert log[..k] == before[..k]; }
      else { assert log[..k] == before + records[..k - |before|]; }
      LastRecordsSound(o, messages, inputs, records, Max(0, k - |before|));
      LastRecordsSound(o, messages, inputs, records, |records|);
      assert records[..|records|] == records;
      SoundAfterSettled(before, records);
      SoundAfterSettled(before, records[..Max(0, k - |before|)]);
    }
  }

  lemma LastRecordsSound(o: Options, messages: seq<Message>, inputs: seq<StepInput>, records: seq<Batch>, k: nat)
    requires CompletionOrders(inputs) && inputs != [] && !FirstOmits(o, messages, inputs) && k <= |records|
    requires Log(o, messages, inputs) == Log(o, messages, inputs[..|inputs| - 1]) + records
    ensures Sound(records[..k]) && (k == |records| ==> Settled(records[..k]))
  {
    hide Sound, Settled, Records, OmitsAnswers, FirstOmits, Next;
    var s := After(o, messages, inputs[..|inputs| - 1]);
    var last := inputs[|inputs| - 1];
    var before := Log(o, messages, inputs[..|inputs| - 1]);
    assert records == (before + records)[|before|..];
    if s.Some? && s.value.phase.Continue? {
      assert (before + Records(o, s.value, last))[|before|..] == Records(o, s.value, last);
      assert CompletionOrder(last.reply);
      OnlyFirstOmits(o, messages, inputs);
      RecordsSound(o, s.value, last, k);
      assert records == Records(o, s.value, last);
    } else {
      LoopBatchesSettled(0, []);
      assert records[..k] == LoopBatches(0, []);
      SettledIsSound(records[..k]);
    }
  }

  // ---- step indices ----

  /** Batches of step `from` or the next, never going back. */
  predicate StepsWithin(log: seq<Batch>, from: nat, until: nat) {
    && (forall i | 0 <= i < |log| :: from <= log[i].step <= until)
    && forall i, j | 0 <= i < j < |log| :: log[i].step <= log[j].step
  }

  lemma RecordsSteps(o: Options, s: LoopState, input: StepInput)
    requires CompletionOrder(input.reply)
    ensures StepsWithin(Records(o, s, input), s.turnIndex, s.turnIndex + 1)
  {
    hide MalformedStep, LoopMessages, ListsRunning, ToMessages, ResultOf;
  }

  /** Step indices never decrease along the log, and a step's own records carry its index. */
  lemma {:induction false} LogSteps(o: Options, messages: seq<Message>, inputs: seq<StepInput>)
    requires CompletionOrders(inputs)
    ensures StepsWithin(Log(o, messages, inputs), 0, |inputs|)
  {
    hide Records, After, CompletionOrder;
    if inputs != [] {
      var front, last := inputs[..|inputs| - 1], inputs[|inputs| - 1];
      LogSteps(o, messages, front);
      var s := After(o, messages, front);
      if s.Some? && s.value.phase.Continue? {
        assert CompletionOrder(last.reply);
        StepsBounded(o, messages, front);
        RecordsSteps(o, s.value, last);
      }
    }
  }

  // ---- the one case in which the log falls short ----

  lemma {:induction false} AnsweredNotDue(reply: Reply, n: nat, r: Result)
    requires reply.Decoded? && n <= |StepCalls(reply)| && DistinctCallIds(StepCalls(reply)) && r in AnsweredBelow(reply, n)
    ensures r.id !in DueBelow(reply, n)
    ensures exists k :: 0 <= k < n && StepCalls(reply)[k].id == r.id
  {
    hide Runs, StepCalls;
    if r in AnsweredBelow(reply, n - 1) {
      AnsweredNotDue(reply, n - 1, r);
    } else {
      DueAreCalls(reply, n - 1);
    }
  }

  lemma {:induction false} DueAreCalls(reply: Reply, n: nat)
    requires reply.Decoded? && n <= |StepCalls(reply)|
    ensures forall id | id in DueBelow(reply, n) :: exists k :: 0 <= k < n && StepCalls(reply)[k].id == id
  {
    hide Runs, StepCalls;
    if n > 0 {
      DueAreCalls(reply, n - 1);
    }
  }

  /** A whole response that is not malformed has distinct ids. */
  lemma WholeDistinct(o: Options, input: StepInput)
    requires !MalformedStep(o, input) && StepVerdict(input.reply).Whole?
    ensures DistinctCallIds(StepCalls(input.reply))
  {
    var calls := StepCalls(input.reply);
    forall i | 0 <= i < |calls| ensures !Spoils(o.invalidCalls, CallRejections(calls, input.reply.tools)[i]) {
      assert !Spoils(o.invalidCalls, Rejection(input.reply, i));
    }
    PassesIff(calls, input.reply.tools, o.invalidCalls);
  }

  /** The planned response alone, without the answers it omits, already leaves calls unanswered that will never run. */
  lemma OmittedUnsound(o: Options, s: LoopState, input: StepInput)
    requires CompletionOrder(input.reply) && OmitsAnswers(o, s, input)
    requires StepVerdict(input.reply).Whole?
    ensures |Records(o, s, input)| >= 1 && !Sound(Records(o, s, input)[..1])
  {
    hide MalformedStep, LoopMessages, ListsRunning, StepVerdict, Answered, Sound, ResponseBatchOf;
    Exclusive(o, input);
    assert Records(o, s, input)[..1] == [ResponseBatchOf(input.reply, s.turnIndex, true)];
    WholeDistinct(o, input);
    UnansweredLeft(input.reply, s.turnIndex);
  }

  lemma UnansweredLeft(reply: Reply, step: nat)
    requires reply.Decoded? && DistinctCallIds(StepCalls(reply)) && Answered(reply) != []
    ensures !Sound([ResponseBatchOf(reply, step, true)])
  {
    hide StepCalls, Runs, AnsweredBelow, DueBelow, Pending, ToMessages;
    var batch := ResponseBatchOf(reply, step, true);
    assert [] + [batch] == [batch];
    AllMessagesNext([], batch);
    assert AllMessages([batch]) == ToMessages(reply.response.parts, []);
    EmptyResults();
    ResponsePending(reply.response.parts, []);
    var r := Answered(reply)[0];
    AnsweredNotDue(reply, |StepCalls(reply)|, r);
    var k :| 0 <= k < |StepCalls(reply)| && StepCalls(reply)[k].id == r.id;
    var ids := multiset(CallIds(StepCalls(reply)));
    assert CallIds(StepCalls(reply))[k] in ids - multiset{};
    assert r.id !in multiset(Due(reply));
    StepCallsAre(reply);
  }

  lemma StepCallsAre(reply: Reply)
    requires reply.Decoded?
    ensures StepCalls(reply) == Calls(reply.response.parts)
  {
  }

  lemma EmptyResults()
    ensures multiset(ResultIds([])) == multiset{}
  {
  }

  /** The step has the call's tool, whose decoder takes the parameters. */
  predicate CanRun(call: ToolCall, tools: Tools) {
    call.name in tools && tools[call.name](call.params).None?
  }

  /**
   * What a host can tell before the run: it planned the first step under distinct ids, has invalid calls answered one by
   * one, and among its calls is one that cannot run.
   */
  predicate PlansUnrunnable(o: Options, inputs: seq<StepInput>) {
    && o.planned && o.invalidCalls.Answer? && inputs != [] && inputs[0].reply.Decoded?
    && var calls := StepCalls(inputs[0].reply);
      DistinctCallIds(calls) && exists i :: 0 <= i < |calls| && !CanRun(calls[i], inputs[0].reply.tools)
  }

  lemma {:induction false} AnsweredNone(reply: Reply, n: nat)
    requires reply.Decoded? && n <= |StepCalls(reply)|
    ensures AnsweredBelow(reply, n) == [] <==> forall i: nat | i < n :: Runs(reply, i)
  {
    hide Runs, StepCalls, ResultOf;
    if n > 0 {
      AnsweredNone(reply, n - 1);
    }
  }

  /** A call of a whole response with distinct ids runs exactly when it can. */
  lemma RunsIfCan(reply: Reply)
    requires reply.Decoded? && StepVerdict(reply).Whole? && DistinctCallIds(StepCalls(reply))
    ensures forall i: nat | i < |StepCalls(reply)| :: Runs(reply, i) <==> CanRun(StepCalls(reply)[i], reply.tools)
  {
    hide StepCalls;
    forall i: nat | i < |StepCalls(reply)| ensures !Repeats(StepCalls(reply), i) {
    }
  }

  lemma WholeMalformed(o: Options, input: StepInput)
    requires input.reply.Decoded? && StepVerdict(input.reply).Whole?
    ensures MalformedStep(o, input) <==>
            exists i :: 0 <= i < |StepCalls(input.reply)| && Spoils(o.invalidCalls, CallRejections(StepCalls(input.reply), input.reply.tools)[i])
  {
    hide StepCalls, Spoils, CheckCall;
    assert forall i: nat | i < |StepCalls(input.reply)| ::
      Rejection(input.reply, i) == CallRejections(StepCalls(input.reply), input.reply.tools)[i];
  }

  lemma OmitsIff(o: Options, messages: seq<Message>, inputs: seq<StepInput>)
    requires o.planned && inputs != [] && inputs[0].reply.Decoded? ==> inputs[0].reply.response.finishReason.ToolCalls?
    ensures FirstOmits(o, messages, inputs) <==> PlansUnrunnable(o, inputs)
  {
    hide MalformedStep, StepCalls, Runs, CanRun, DistinctCallIds, AnsweredBelow, Spoils, CallRejections;
    if o.planned && inputs != [] {
      Exclusive(o, inputs[0]);
      if inputs[0].reply.Decoded? {
        var reply := inputs[0].reply;
        var calls := StepCalls(reply);
        WholeMalformed(o, inputs[0]);
        PassesIff(calls, reply.tools, o.invalidCalls);
        forall i | 0 <= i < |calls| {
          CanRunIs(calls[i], reply.tools);
        }
        if DistinctCallIds(calls) { RunsIfCan(reply); }
        AnsweredNone(reply, |calls|);
      }
    }
  }

  lemma CanRunIs(call: ToolCall, tools: Tools)
    ensures CanRun(call, tools) <==> call.name in tools && tools[call.name](call.params).None?
  {
  }

  /**
   * Exactly when: the log of a run is sound wherever it stops unless the host planned a call that cannot run and has
   * such calls answered.
   */
  lemma LogSoundIff(o: Options, messages: seq<Message>, inputs: seq<StepInput>)
    requires CompletionOrders(inputs)
    requires o.planned && inputs != [] && inputs[0].reply.Decoded? ==> inputs[0].reply.response.finishReason.ToolCalls?
    ensures (forall k | 0 <= k <= |Log(o, messages, inputs)| :: Sound(Log(o, messages, inputs)[..k])) <==>
            !PlansUnrunnable(o, inputs)
  {
    hide Sound, Log, OmitsAnswers, MalformedStep, CompletionOrder, Answered, PlansUnrunnable;
    OmitsIff(o, messages, inputs);
    if FirstOmits(o, messages, inputs) {
      assert CompletionOrder(inputs[0].reply);
      PlannedWhole(o, messages, inputs);
      OmittedUnsound(o, Initial(messages), inputs[0]);
      FirstRecords(o, messages, inputs);
      assert Log(o, messages, inputs)[..1] == Records(o, Initial(messages), inputs[0])[..1];
    } else {
      forall k | 0 <= k <= |Log(o, messages, inputs)| ensures Sound(Log(o, messages, inputs)[..k]) {
        LogSound(o, messages, inputs, k);
      }
    }
  }

  lemma PlannedWhole(o: Options, messages: seq<Message>, inputs: seq<StepInput>)
    requires FirstOmits(o, messages, inputs)
    requires o.planned && inputs != [] && inputs[0].reply.Decoded? ==> inputs[0].reply.response.finishReason.ToolCalls?
    ensures inputs[0].reply.Decoded? && StepVerdict(inputs[0].reply).Whole?
  {
    Exclusive(o, inputs[0]);
  }

  lemma {:induction false} FirstRecords(o: Options, messages: seq<Message>, inputs: seq<StepInput>)
    requires CompletionOrders(inputs) && inputs != [] && CompletionOrder(inputs[0].reply)
    ensures Records(o, Initial(messages), inputs[0]) <= Log(o, messages, inputs)
    decreases |inputs|
  {
    hide Records, CompletionOrder, Next;
    var front := inputs[..|inputs| - 1];
    if front != [] {
      FirstRecords(o, messages, front);
    } else {
      assert Log(o, messages, front) + Records(o, Initial(messages), inputs[0]) == Records(o, Initial(messages), inputs[0]);
    }
  }

  /** A planned step with one call, to a tool that is missing. */
  function PlannedMissing(id: CallId): StepInput {
    var response := Response([Call(ToolCall(id, "missing", ""))], ToolCalls, ZERO_USAGE);
    StepInput(Host([], false, false, false, None, None), Decoded(response, map[], _ => (true, ""), []), true, false)
  }

  /** Such a run: its log, stopped after the planned response, holds a call that nothing answers or will run. */
  lemma PlannedLogMayBreak(o: Options, messages: seq<Message>, id: CallId)
    requires o.planned && o.invalidCalls.Answer?
    ensures CompletionOrders([PlannedMissing(id)]) && PlansUnrunnable(o, [PlannedMissing(id)])
    ensures exists k :: 0 <= k <= |Log(o, messages, [PlannedMissing(id)])| && !Sound(Log(o, messages, [PlannedMissing(id)])[..k])
  {
    var reply := PlannedMissing(id).reply;
    var parts := reply.response.parts;
    assert StepCalls(reply) == [ToolCall(id, "missing", "")] by { assert parts[1..] == []; }
    assert !CanRun(StepCalls(reply)[0], reply.tools) && !Runs(reply, 0);
    hide Sound, Log, StepCalls, Runs, CanRun;
    LogSoundIff(o, messages, [PlannedMissing(id)]);
  }

  // ---- the log and the run's tail say the same ----

  /** Everything but the results, which the log holds in completion order and the tail in call order. */
  function Spoken(messages: seq<Message>): seq<Message> {
    Filter((m: Message) => !m.Tool?, messages)
  }

  lemma SpokenAppend(a: seq<Message>, b: seq<Message>)
    ensures Spoken(a + b) == Spoken(a) + Spoken(b)
  {
    FilterAppends((m: Message) => !m.Tool?, a, b);
  }

  lemma ResultsUnspoken(parts: seq<Part>, results: seq<Result>, others: seq<Result>)
    ensures Spoken(ToMessages(parts, results)) == Spoken(ToMessages(parts, others))
  {
    OneSpoken(Tool(results));
    OneSpoken(Tool(others));
    var kept := Filter((p: Part) => InMessage(p), parts);
    var head := if kept == [] then [] else [Assistant(kept)];
    SpokenAppend(head, [Tool(results)]);
    SpokenAppend(head, [Tool(others)]);
    assert ToMessages(parts, results) == head + (if results == [] then [] else [Tool(results)]);
    assert ToMessages(parts, others) == head + (if others == [] then [] else [Tool(others)]);
  }

  lemma OneSpoken(m: Message)
    ensures Spoken([m]) == if m.Tool? then [] else [m]
  {
  }

  lemma UserSpoken(messages: seq<Message>)
    requires AllUser(messages)
    ensures Spoken(messages) == messages
  {
    FilterEvery((m: Message) => !m.Tool?, messages);
  }

  lemma {:induction false} ResultBatchesSpoken(reply: Reply, step: nat, order: seq<nat>)
    requires reply.Decoded? && forall k | 0 <= k < |order| :: order[k] < |StepCalls(reply)|
    ensures Spoken(AllMessages(ResultBatches(reply, step, order))) == []
  {
    hide StepCalls, ResultOf, Spoken;
    if order == [] {
      UserSpoken([]);
    } else {
      var front := order[..|order| - 1];
      var batches := ResultBatches(reply, step, order);
      var last := batches[|order| - 1];
      ResultBatchesSpoken(reply, step, front);
      assert batches == ResultBatches(reply, step, front) + [last];
      AllMessagesNext(ResultBatches(reply, step, front), last);
      SpokenAppend(AllMessages(ResultBatches(reply, step, front)), MessagesOf(last));
      OneSpoken(Tool([last.result]));
    }
  }

  /** A step's own records say what its settled tail says. */
  lemma StepSpoken(reply: Reply, step: nat, planned: bool)
    requires reply.Decoded? && CompletionOrder(reply)
    ensures Spoken(AllMessages(StepRecords(reply, step, planned))) == Spoken(StepTail(reply))
  {
    hide Spoken, StepCalls, ResultOf, ListsRunning, ToMessages, Answered, Due;
    assert forall k | 0 <= k < |reply.order| :: reply.order[k] in reply.order;
    OrderBound(reply);
    var response := ResponseBatchOf(reply, step, planned);
    var results := ResultBatches(reply, step, reply.order);
    MessagesAppend([response], results);
    AllMessagesNext([], response);
    assert [] + [response] == [response] && AllMessages([]) + MessagesOf(response) == MessagesOf(response);
    SpokenAppend(MessagesOf(response), AllMessages(results));
    ResultBatchesSpoken(reply, step, reply.order);
    ResultsUnspoken(reply.response.parts, if planned then [] else Answered(reply), Results(reply));
  }

  lemma OrderBound(reply: Reply)
    requires reply.Decoded? && CompletionOrder(reply)
    ensures forall k | 0 <= k < |reply.order| :: reply.order[k] < |StepCalls(reply)|
  {
    assert forall k | 0 <= k < |reply.order| :: reply.order[k] in reply.order;
  }

  lemma RecutAdds(o: Options, s: LoopState, input: StepInput)
    requires input.reply.Decoded? && Recut(o, s, input).Some? && s.phase.Continue?
    ensures var next := Recut(o, s, input).value;
      next.newTail == s.newTail + StepTail(input.reply) +
        if next.phase.Continue? then [User(LengthCorrective(StepCalls(input.reply) != []))] + Steer(input.host) else []
  {
    hide StepTail, TextOf, AddUsage, StepCalls, Steer, Compacted;
  }

  lemma DecideAdds(o: Options, s: LoopState, input: StepInput)
    requires input.reply.Decoded? && s.phase.Continue?
    ensures var next := Decide(o, s, input);
      next.newTail == s.newTail + StepTail(input.reply) +
        if next.phase.Continue? then NudgeOf(o, s, input) + IncompleteOf(o, s, input) + Steer(input.host) else []
  {
    hide StepTail, TextOf, AddUsage, CallCount, StepProgress, NudgeOf, IncompleteOf, DecidedPhase, Steer, Compacted;
  }

  /** What a step adds to the tail: the host's steering, its settled messages, and what the loop says to the next step. */
  lemma NextAdds(o: Options, s: LoopState, input: StepInput)
    requires Next(o, s, input).Some? && s.phase.Continue?
    ensures Next(o, s, input).value.newTail ==
            s.newTail + input.host.steering + (if MalformedStep(o, input) then [] else StepTail(input.reply)) + LoopMessages(o, s, input)
  {
    hide MalformedStep, CutStep, StepTail, Recut, Decide, NudgeOf, IncompleteOf, Steer;
    Exclusive(o, input);
    var begun := Begun(s, input.host);
    if !MalformedStep(o, input) {
      if CutStep(o, input) { RecutAdds(o, begun, input); } else { DecideAdds(o, begun, input); }
    }
  }

  lemma RecordsSpoken(o: Options, s: LoopState, input: StepInput)
    requires CompletionOrder(input.reply)
    ensures Spoken(AllMessages(Records(o, s, input))) ==
            Spoken(if MalformedStep(o, input) then [] else StepTail(input.reply)) + LoopMessages(o, s, input)
  {
    hide MalformedStep, LoopMessages, StepRecords, StepTail, ListsRunning, Spoken;
    Exclusive(o, input);
    LoopMessagesUser(o, s, input);
    var said := LoopMessages(o, s, input);
    LoopBatchesSettled(s.turnIndex + 1, said);
    UserSpoken(said);
    UserSpoken([]);
    var own := if MalformedStep(o, input) then [] else StepRecords(input.reply, s.turnIndex, o.planned && s.turnIndex == 0);
    MessagesAppend(own, LoopBatches(s.turnIndex + 1, said));
    SpokenAppend(AllMessages(own), said);
    if !MalformedStep(o, input) { StepSpoken(input.reply, s.turnIndex, o.planned && s.turnIndex == 0); }
  }

  /** What the steps of a run add, one after another, with the host's durable steering or without it. */
  function Added(o: Options, messages: seq<Message>, inputs: seq<StepInput>, steering: bool): seq<Message> {
    if inputs == [] then []
    else
      var front, last := inputs[..|inputs| - 1], inputs[|inputs| - 1];
      var s := After(o, messages, front);
      Added(o, messages, front, steering)
      + if s.None? || !s.value.phase.Continue? then []
        else
          (if steering then last.host.steering else [])
          + (if MalformedStep(o, last) then [] else StepTail(last.reply))
          + LoopMessages(o, s.value, last)
  }

  lemma {:induction false} AddedIsTail(o: Options, messages: seq<Message>, inputs: seq<StepInput>)
    requires After(o, messages, inputs).Some?
    ensures Added(o, messages, inputs, true) == After(o, messages, inputs).value.newTail
  {
    hide Next, MalformedStep, StepTail, LoopMessages;
    if inputs != [] {
      var front, last := inputs[..|inputs| - 1], inputs[|inputs| - 1];
      AddedIsTail(o, messages, front);
      var s := After(o, messages, front).value;
      NextAdds(o, s, last);
      Exclusive(o, last);
      var own := if MalformedStep(o, last) then [] else StepTail(last.reply);
      Regroups(s.newTail, last.host.steering, own, LoopMessages(o, s, last));
    }
  }

  lemma Regroups(a: seq<Message>, b: seq<Message>, c: seq<Message>, d: seq<Message>)
    ensures a + (b + c + d) == a + b + c + d
  {
  }

  /**
   * What a run recorded is what its steps added, message for message, the host's steering left out of both: the results
   * aside, which are recorded as they return and added in call order.
   */
  lemma {:induction false} LogSaysTail(o: Options, messages: seq<Message>, inputs: seq<StepInput>)
    requires CompletionOrders(inputs)
    ensures Spoken(AllMessages(Log(o, messages, inputs))) == Spoken(Added(o, messages, inputs, false))
  {
    hide Next, Records, Spoken, CompletionOrder, AllMessages, MalformedStep, StepTail, LoopMessages;
    if inputs == [] {
      assert AllMessages([]) == [] by { LoopBatchesSettled(0, []); assert LoopBatches(0, []) == []; }
    } else {
      var front, last := inputs[..|inputs| - 1], inputs[|inputs| - 1];
      LogSaysTail(o, messages, front);
      assert CompletionOrder(last.reply);
      var s := After(o, messages, front);
      var before := Added(o, messages, front, false);
      if s.Some? && s.value.phase.Continue? {
        Exclusive(o, last);
        RecordsSpoken(o, s.value, last);
        MessagesAppend(Log(o, messages, front), Records(o, s.value, last));
        SpokenAppend(AllMessages(Log(o, messages, front)), AllMessages(Records(o, s.value, last)));
        var own := if MalformedStep(o, last) then [] else StepTail(last.reply);
        var said := LoopMessages(o, s.value, last);
        LoopMessagesUser(o, s.value, last);
        UserSpoken(said);
        SpokenAppend(own, said);
        SpokenAppend(before, own + said);
        Regroups(before, [], own, said);
        assert [] + own + said == own + said;
      } else {
        assert before + [] == before && Log(o, messages, front) + [] == Log(o, messages, front);
      }
    }
  }
}
