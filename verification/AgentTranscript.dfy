/** Messages, the pairing of tool calls with their results, and what a response adds to the transcript. */
module AgentTranscript {
  import opened Prelude

  type CallId = string

  datatype FinishReason = Stop | ToolCalls | Pause | Length | ContentFilter | Error | Other | Unknown

  /** `WholeReason`: every other reason cuts the response short. */
  predicate WholeReason(reason: FinishReason) {
    reason.Stop? || reason.ToolCalls? || reason.Pause?
  }

  datatype ToolCall = ToolCall(id: CallId, name: string, params: string)

  /** The settled parts of a response; a hosted call is run and answered by the provider, inside the assistant message. */
  datatype Part = Text(text: string) | Reasoning(thought: string) | Call(call: ToolCall) | HostedCall(hosted: ToolCall) | LeftOut

  /** What the loop itself says, by what it is about, or what a host said. */
  datatype Said =
    | FromHost(text: string)
    | MalformedCorrective
    | LengthCorrective(callsToRun: bool)
    | Nudge
    | IncompleteCorrective
    | Handoff(summary: string)

  datatype Result = Result(id: CallId, ok: bool, output: string)

  datatype Message = User(said: Said) | Assistant(parts: seq<Part>) | Tool(results: seq<Result>)

  // ---- the response gate ----

  datatype Verdict = Whole | Cut(reason: FinishReason)

  function VerdictOf(reason: FinishReason, callsToRun: bool): Verdict {
    if WholeReason(reason) || (reason.Unknown? && !callsToRun) then Whole else Cut(reason)
  }

  datatype MalformedCall = NotFound(toolName: string) | Invalid(toolName: string, description: string) | DuplicateId(toolName: string)

  /** The step's tools by name, each with what its parameters' decoder reports, if it refuses them. */
  type Tools = map<string, string -> Option<string>>

  /** Whether the id at `index` was already taken by a call before it. */
  predicate Repeats(calls: seq<ToolCall>, index: nat)
    requires index < |calls|
  {
    exists k | 0 <= k < index :: calls[k].id == calls[index].id
  }

  function CheckCall(calls: seq<ToolCall>, index: nat, tools: Tools): Option<MalformedCall>
    requires index < |calls|
  {
    var call := calls[index];
    if Repeats(calls, index) then Some(DuplicateId(call.name))
    else if call.name !in tools then Some(NotFound(call.name))
    else match tools[call.name](call.params)
      case Some(description) => Some(Invalid(call.name, description))
      case None => None
  }

  /** What keeps each call from being run, by position; None where nothing does. */
  function CallRejections(calls: seq<ToolCall>, tools: Tools): (r: seq<Option<MalformedCall>>)
    ensures |r| == |calls|
    ensures forall i | 0 <= i < |r| :: r[i] == CheckCall(calls, i, tools)
  {
    seq(|calls|, i requires 0 <= i < |calls| => CheckCall(calls, i, tools))
  }

  predicate IsRejected(found: MalformedCall) { !found.DuplicateId? }

  datatype InvalidCallPolicy = Corrective | Answer

  /** Whether a rejection makes the whole response malformed. */
  predicate Spoils(policy: InvalidCallPolicy, rejection: Option<MalformedCall>) {
    rejection.Some? && (policy.Corrective? || !IsRejected(rejection.value))
  }

  predicate DistinctCallIds(calls: seq<ToolCall>) {
    forall i, j | 0 <= i < j < |calls| :: calls[i].id != calls[j].id
  }

  /** A response passes when its ids are distinct and, unless calls are answered one by one, every call can run. */
  lemma PassesIff(calls: seq<ToolCall>, tools: Tools, policy: InvalidCallPolicy)
    ensures (forall i | 0 <= i < |calls| :: !Spoils(policy, CallRejections(calls, tools)[i])) <==>
            DistinctCallIds(calls) &&
            (policy.Corrective? ==> forall i | 0 <= i < |calls| :: calls[i].name in tools && tools[calls[i].name](calls[i].params).None?)
  {
    var rejections := CallRejections(calls, tools);
    if DistinctCallIds(calls) {
      forall i | 0 <= i < |calls|
        ensures Spoils(policy, rejections[i]) <==>
                policy.Corrective? && !(calls[i].name in tools && tools[calls[i].name](calls[i].params).None?)
      {
        assert !Repeats(calls, i);
      }
    } else {
      var i, j :| 0 <= i < j < |calls| && calls[i].id == calls[j].id;
      assert Repeats(calls, j) && Spoils(policy, rejections[j]);
    }
  }

  // ---- pairing ----

  function Calls(parts: seq<Part>): (r: seq<ToolCall>)
    ensures |r| <= |parts|
  {
    if parts == [] then []
    else
      var rest := Calls(parts[1..]);
      match parts[0]
      case Call(call) => [call] + rest
      case _ => rest
  }

  function CallIds(calls: seq<ToolCall>): (r: seq<CallId>)
    ensures |r| == |calls| && forall i | 0 <= i < |r| :: r[i] == calls[i].id
  {
    seq(|calls|, i requires 0 <= i < |calls| => calls[i].id)
  }

  function ResultIds(results: seq<Result>): (r: seq<CallId>)
    ensures |r| == |results| && forall i | 0 <= i < |r| :: r[i] == results[i].id
  {
    seq(|results|, i requires 0 <= i < |results| => results[i].id)
  }

  /**
   * Reading on from unanswered calls: a response may follow only when none is left, and every result must answer one
   * of the last response's calls, each answered once. None when a message breaks that.
   */
  function Pending(unanswered: multiset<CallId>, messages: seq<Message>): Option<multiset<CallId>>
    decreases |messages|
  {
    if messages == [] then Some(unanswered)
    else
      match messages[0]
      case User(_) => Pending(unanswered, messages[1..])
      case Assistant(parts) => if unanswered == multiset{} then Pending(multiset(CallIds(Calls(parts))), messages[1..]) else None
      case Tool(results) =>
        var ids := multiset(ResultIds(results));
        if ids <= unanswered then Pending(unanswered - ids, messages[1..]) else None
  }

  predicate WellPaired(messages: seq<Message>) {
    Pending(multiset{}, messages) == Some(multiset{})
  }

  lemma {:induction false} PendingAppends(unanswered: multiset<CallId>, a: seq<Message>, b: seq<Message>)
    ensures Pending(unanswered, a + b) ==
            match Pending(unanswered, a) case None => None case Some(left) => Pending(left, b)
    decreases |a|
  {
    if a == [] {
      assert a + b == b;
    } else {
      assert (a + b)[1..] == a[1..] + b;
      match a[0]
      case User(_) => PendingAppends(unanswered, a[1..], b);
      case Assistant(parts) =>
        if unanswered == multiset{} {
          PendingAppends(multiset(CallIds(Calls(parts))), a[1..], b);
        }
      case Tool(results) =>
        if multiset(ResultIds(results)) <= unanswered {
          PendingAppends(unanswered - multiset(ResultIds(results)), a[1..], b);
        }
    }
  }

  lemma PairedAppends(a: seq<Message>, b: seq<Message>)
    requires WellPaired(a) && WellPaired(b)
    ensures WellPaired(a + b)
  {
    PendingAppends(multiset{}, a, b);
  }

  /** A paired buffer may be cut before any of its assistant messages. */
  lemma PairedFrom(messages: seq<Message>, keepFrom: nat)
    requires WellPaired(messages)
    requires keepFrom < |messages| && messages[keepFrom].Assistant?
    ensures WellPaired(messages[keepFrom..])
  {
    PendingAppends(multiset{}, messages[..keepFrom], messages[keepFrom..]);
    assert messages[..keepFrom] + messages[keepFrom..] == messages;
  }

  /** Cutting elsewhere may leave results without their calls. */
  lemma CutElsewhereBreaks(id: CallId)
    ensures var call := Assistant([Call(ToolCall(id, "", ""))]);
      var result := Tool([Result(id, true, "")]);
      WellPaired([call, result]) && !WellPaired([call, result][1..])
  {
    var parts := [Call(ToolCall(id, "", ""))];
    var results := [Result(id, true, "")];
    assert Calls(parts) == [ToolCall(id, "", "")] by { assert parts[1..] == []; }
    assert CallIds(Calls(parts)) == [id] && ResultIds(results) == [id];
    OnePending(multiset{}, Assistant(parts));
    OnePending(multiset{id}, Tool(results));
    OnePending(multiset{}, Tool(results));
    PendingAppends(multiset{}, [Assistant(parts)], [Tool(results)]);
    assert [Assistant(parts)] + [Tool(results)] == [Assistant(parts), Tool(results)];
    assert [Assistant(parts), Tool(results)][1..] == [Tool(results)];
    assert id in multiset(ResultIds(results));
  }

  // ---- what a response adds ----

  predicate InMessage(part: Part) { !part.LeftOut? }

  /** The assistant message, if the response has a part that belongs in one, then the given results, if any. */
  function ToMessages(parts: seq<Part>, results: seq<Result>): seq<Message> {
    var kept := Filter((p: Part) => InMessage(p), parts);
    (if kept == [] then [] else [Assistant(kept)]) + if results == [] then [] else [Tool(results)]
  }

  lemma {:induction false} CallsKept(parts: seq<Part>)
    ensures Calls(Filter((p: Part) => InMessage(p), parts)) == Calls(parts)
  {
    if parts != [] {
      var rest := Filter((p: Part) => InMessage(p), parts[1..]);
      CallsKept(parts[1..]);
      if InMessage(parts[0]) {
        assert ([parts[0]] + rest)[1..] == rest;
      }
    }
  }

  /** After a response and some results, what is unanswered is what the results leave of its calls. */
  lemma ResponsePending(parts: seq<Part>, results: seq<Result>)
    requires multiset(ResultIds(results)) <= multiset(CallIds(Calls(parts)))
    ensures Pending(multiset{}, ToMessages(parts, results)) == Some(multiset(CallIds(Calls(parts))) - multiset(ResultIds(results)))
  {
    hide Pending, Calls, CallIds, ResultIds;
    CallsKept(parts);
    var kept := Filter((p: Part) => InMessage(p), parts);
    var calls, answers := multiset(CallIds(Calls(parts))), multiset(ResultIds(results));
    if results != [] {
      assert ResultIds(results)[0] in answers;
      PendingAppends(multiset{}, [Assistant(kept)], [Tool(results)]);
      OnePending(multiset{}, Assistant(kept));
      OnePending(calls, Tool(results));
      assert [Assistant(kept)] + [Tool(results)] == ToMessages(parts, results);
    } else {
      NothingPending(parts, results);
      assert answers == multiset{} && calls - answers == calls;
      assert ToMessages(parts, results) == if kept == [] then [] else [Assistant(kept)];
      NothingPending(kept, results);
      if kept != [] {
        OnePending(multiset{}, Assistant(kept));
      }
    }
  }

  lemma NothingPending(parts: seq<Part>, results: seq<Result>)
    ensures results == [] ==> multiset(ResultIds(results)) == multiset{}
    ensures parts == [] ==> multiset(CallIds(Calls(parts))) == multiset{}
    ensures Pending(multiset{}, []) == Some(multiset{})
  {
  }

  lemma OnePending(unanswered: multiset<CallId>, message: Message)
    ensures message.User? ==> Pending(unanswered, [message]) == Some(unanswered)
    ensures message.Assistant? ==>
      Pending(unanswered, [message]) == if unanswered == multiset{} then Some(multiset(CallIds(Calls(message.parts)))) else None
    ensures message.Tool? && multiset(ResultIds(message.results)) <= unanswered ==>
      Pending(unanswered, [message]) == Some(unanswered - multiset(ResultIds(message.results)))
    ensures message.Tool? && !(multiset(ResultIds(message.results)) <= unanswered) ==> Pending(unanswered, [message]) == None
  {
    assert [message][1..] == [];
  }

  /** A response with one result for each of its calls is well paired. */
  lemma ResponsePaired(parts: seq<Part>, results: seq<Result>)
    requires ResultIds(results) == CallIds(Calls(parts))
    ensures WellPaired(ToMessages(parts, results))
  {
    ResponsePending(parts, results);
    assert multiset(CallIds(Calls(parts))) - multiset(ResultIds(results)) == multiset{};
  }

  predicate AllUser(messages: seq<Message>) {
    forall m | m in messages :: m.User?
  }

  lemma {:induction false} UserKeeps(unanswered: multiset<CallId>, messages: seq<Message>)
    requires AllUser(messages)
    ensures Pending(unanswered, messages) == Some(unanswered)
  {
    if messages != [] {
      assert messages[0] in messages;
      UserKeeps(unanswered, messages[1..]);
    }
  }
}
