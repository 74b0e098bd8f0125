/** The agent loop: one state, folded over settled steps by what follows a malformed, a cut and a whole response. */
module AgentLoop {
  import opened Prelude
  import opened AgentProgress
  import opened AgentTranscript

  datatype Usage = Usage(
    inputTokens: nat, outputTokens: nat, totalTokens: nat, cacheReadTokens: nat, cacheWriteTokens: nat, reasoningTokens: nat)

  const ZERO_USAGE := Usage(0, 0, 0, 0, 0, 0)

  function AddUsage(a: Usage, b: Usage): Usage {
    Usage(a.inputTokens + b.inputTokens, a.outputTokens + b.outputTokens, a.totalTokens + b.totalTokens,
          a.cacheReadTokens + b.cacheReadTokens, a.cacheWriteTokens + b.cacheWriteTokens, a.reasoningTokens + b.reasoningTokens)
  }

  datatype Phase = Continue | Completed | StepCap | DegenerateLoop | Waiting

  datatype LoopState = LoopState(
    messages: seq<Message>,
    newTail: seq<Message>,
    finalText: string,
    carried: string,
    turnIndex: nat,
    malformedStreak: nat,
    cutStreak: nat,
    seen: set<string>,
    staleTurns: nat,
    usage: Usage,
    lastUsage: Option<Usage>,
    phase: Phase,
    toolCalls: nat,
    corrections: nat,
    streamingHealthy: bool)

  /** `planned`: the host planned the first step's calls. `signature` is the progress signature of a step's content. */
  datatype Options = Options(
    maxSteps: int, degenerate: DegeneratePolicy, malformedLimit: nat, invalidCalls: InvalidCallPolicy,
    requireCompletion: bool, planned: bool, signature: (seq<Part>, seq<Result>) -> string)

  datatype CompactionPlan = CompactionPlan(keepFrom: int, summary: string)

  datatype Response = Response(parts: seq<Part>, finishReason: FinishReason, usage: Usage)

  /**
   * What came back for a step: nothing that decodes, or a response, with the step's tools, what each call gives if it
   * is run, and the order in which those that run return.
   */
  datatype Reply =
    | Undecoded
    | Decoded(response: Response, tools: Tools, outcomes: nat -> (bool, string), order: seq<nat>)

  /** The answers of the host around one step. */
  datatype Host = Host(
    steering: seq<Message>, waiting: bool, completed: bool, steered: bool, plan: Option<CompactionPlan>, pendingInput: Option<string>)

  /** `streamingHealthy` is what the request machine reports; `fellBack` whether it used its stream fallback. */
  datatype StepInput = StepInput(host: Host, reply: Reply, streamingHealthy: bool, fellBack: bool)

  const MAX_CUT_CORRECTIVES := 2

  const DEGENERATE_LOOP_STOP := "[stopped: repeated the same tool call with no progress \U{2014} the run was looping]"

  // ---- what a step settled with ----

  function StepCalls(reply: Reply): seq<ToolCall>
    requires reply.Decoded?
  {
    Calls(reply.response.parts)
  }

  function StepVerdict(reply: Reply): Verdict
    requires reply.Decoded?
  {
    VerdictOf(reply.response.finishReason, StepCalls(reply) != [])
  }

  /** Why a call of a whole response is not run; a cut one's calls are not checked. */
  function Rejection(reply: Reply, i: nat): Option<MalformedCall>
    requires reply.Decoded? && i < |StepCalls(reply)|
  {
    if StepVerdict(reply).Whole? then CallRejections(StepCalls(reply), reply.tools)[i] else None
  }

  predicate MalformedStep(o: Options, input: StepInput) {
    input.reply.Undecoded? || exists i :: 0 <= i < |StepCalls(input.reply)| && Spoils(o.invalidCalls, Rejection(input.reply, i))
  }

  predicate CutStep(o: Options, input: StepInput) {
    !MalformedStep(o, input) && StepVerdict(input.reply).Cut?
  }

  /** Whether the loop runs the i-th call of a response that is not malformed. */
  predicate Runs(reply: Reply, i: nat)
    requires reply.Decoded?
  {
    i < |StepCalls(reply)| && StepVerdict(reply).Whole? && Rejection(reply, i).None?
  }

  /** What a call is answered with: its tool's result, or why it was not run. */
  function ResultOf(reply: Reply, i: nat): (r: Result)
    requires reply.Decoded? && i < |StepCalls(reply)|
    ensures r.id == StepCalls(reply)[i].id
  {
    var id := StepCalls(reply)[i].id;
    if StepVerdict(reply).Cut? then Result(id, false, "ReplyCut")
    else match Rejection(reply, i)
      case None => Result(id, reply.outcomes(i).0, reply.outcomes(i).1)
      case Some(NotFound(_)) => Result(id, false, "ToolNotFound")
      case Some(_) => Result(id, false, "InvalidParameters")
  }

  /** One result for each call, in call order. */
  function Results(reply: Reply): (r: seq<Result>)
    requires reply.Decoded?
    ensures ResultIds(r) == CallIds(StepCalls(reply))
  {
    seq(|StepCalls(reply)|, i requires 0 <= i < |StepCalls(reply)| => ResultOf(reply, i))
  }

  /** The settled step's messages for the buffer. */
  function StepTail(reply: Reply): seq<Message>
    requires reply.Decoded?
  {
    ToMessages(reply.response.parts, Results(reply))
  }

  function TextOf(parts: seq<Part>): string {
    if parts == [] then ""
    else (match parts[0] case Text(text) => text case _ => "") + TextOf(parts[1..])
  }

  /** Every tool call of the response, the provider's own included. */
  function CallCount(parts: seq<Part>): nat {
    if parts == [] then 0
    else (if parts[0].Call? || parts[0].HostedCall? then 1 else 0) + CallCount(parts[1..])
  }

  // ---- what follows a step ----

  function NextPhase(broke: bool, wantsMore: bool, turnIndex: nat, maxSteps: int): Phase {
    if broke then DegenerateLoop else if !wantsMore then Completed else if turnIndex >= maxSteps then StepCap else Continue
  }

  function SettledText(s: LoopState, text: string): LoopState {
    var whole := s.carried + text;
    s.(finalText := if whole != "" then whole else s.finalText, carried := "")
  }

  function CarriedText(s: LoopState, text: string): LoopState {
    s.(carried := s.carried + text)
  }

  /** A plan applies only where it keeps from an assistant message on. */
  predicate Applies(plan: CompactionPlan, messages: seq<Message>) {
    0 < plan.keepFrom < |messages| && messages[plan.keepFrom].Assistant?
  }

  function Compacted(messages: seq<Message>, plan: Option<CompactionPlan>): seq<Message> {
    if plan.Some? && Applies(plan.value, messages)
    then [User(Handoff(plan.value.summary))] + messages[plan.value.keepFrom..]
    else messages
  }

  function Steer(host: Host): seq<Message> {
    match host.pendingInput case None => [] case Some(text) => [User(FromHost(text))]
  }

  /** The next step's input: what the step settled and what the loop says to it, compacted, then the host's steer. */
  function NextInput(s: LoopState, tail: seq<Message>, appended: seq<Message>, host: Host): (r: LoopState)
    ensures r == s.(messages := r.messages, newTail := r.newTail)
  {
    s.(messages := Compacted(s.messages + tail + appended, host.plan) + Steer(host),
       newTail := s.newTail + tail + appended + Steer(host))
  }

  /** None: the run fails with the malformed response's error. */
  function Recover(o: Options, s: LoopState): Option<LoopState> {
    var streak := s.malformedStreak + 1;
    if streak >= o.malformedLimit then None
    else
      var counted := s.(turnIndex := s.turnIndex + 1, malformedStreak := streak, cutStreak := 0);
      if s.turnIndex + 1 >= o.maxSteps then Some(SettledText(counted, "").(phase := StepCap))
      else Some(counted.(
        messages := s.messages + [User(MalformedCorrective)], newTail := s.newTail + [User(MalformedCorrective)],
        corrections := s.corrections + 1))
  }

  /** What the run counts for a settled response. */
  function Counted(o: Options, s: LoopState, input: StepInput): LoopState
    requires input.reply.Decoded?
  {
    var usage := input.reply.response.usage;
    s.(turnIndex := s.turnIndex + 1,
       usage := AddUsage(s.usage, usage),
       lastUsage := if o.planned && s.turnIndex == 0 then s.lastUsage else Some(usage),
       streamingHealthy := input.streamingHealthy)
  }

  /** None: the run fails as truncated. */
  function Recut(o: Options, s: LoopState, input: StepInput): Option<LoopState>
    requires input.reply.Decoded?
  {
    var streak := s.cutStreak + 1;
    var callsToRun := StepCalls(input.reply) != [];
    var text := TextOf(input.reply.response.parts);
    if !input.reply.response.finishReason.Length? || streak > MAX_CUT_CORRECTIVES then None
    else
      var answered := Counted(o, s, input).(malformedStreak := 0, cutStreak := streak);
      if s.turnIndex + 1 >= o.maxSteps
      then Some(SettledText(answered, text).(
        messages := s.messages + StepTail(input.reply), newTail := s.newTail + StepTail(input.reply), phase := StepCap))
      else
        var next := NextInput(answered, StepTail(input.reply), [User(LengthCorrective(callsToRun))], input.host);
        var read := if callsToRun then SettledText(next, text) else CarriedText(next, text);
        Some(read.(corrections := s.corrections + 1))
  }

  function StepSignature(o: Options, input: StepInput): string
    requires input.reply.Decoded?
  {
    o.signature(input.reply.response.parts, Results(input.reply))
  }

  predicate RequireMore(o: Options, input: StepInput) { !input.host.completed && o.requireCompletion }

  predicate WantsMore(o: Options, input: StepInput)
    requires input.reply.Decoded?
  {
    var reason := input.reply.response.finishReason;
    || input.host.steered
    || (!input.host.completed &&
        (RequireMore(o, input) || (reason.ToolCalls? && CallCount(input.reply.response.parts) > 0) || reason.Pause?))
  }

  function StepProgress(o: Options, s: LoopState, input: StepInput): Progress
    requires input.reply.Decoded?
  {
    FoldProgress(s.seen, s.staleTurns, StepSignature(o, input), o.degenerate)
  }

  function DecidedPhase(o: Options, s: LoopState, input: StepInput): (r: Phase)
    requires input.reply.Decoded?
    ensures !r.Waiting?
  {
    NextPhase(StepProgress(o, s, input).broke, WantsMore(o, input), s.turnIndex + 1, o.maxSteps)
  }

  function NudgeOf(o: Options, s: LoopState, input: StepInput): seq<Message>
    requires input.reply.Decoded?
  {
    if DecidedPhase(o, s, input).Continue? && StepProgress(o, s, input).nudge then [User(Nudge)] else []
  }

  function IncompleteOf(o: Options, s: LoopState, input: StepInput): seq<Message>
    requires input.reply.Decoded?
  {
    var response := input.reply.response;
    if DecidedPhase(o, s, input).Continue? && RequireMore(o, input) && CallCount(response.parts) == 0 && !response.finishReason.Pause?
    then [User(IncompleteCorrective)] else []
  }

  function Decide(o: Options, s: LoopState, input: StepInput): LoopState
    requires input.reply.Decoded?
  {
    var response := input.reply.response;
    var counted := Counted(o, s, input).(toolCalls := s.toolCalls + CallCount(response.parts));
    var ended := counted.(messages := s.messages + StepTail(input.reply), newTail := s.newTail + StepTail(input.reply));
    if input.host.waiting then ended.(finalText := "", carried := "", phase := Waiting)
    else
      var progress := StepProgress(o, s, input);
      var phase := DecidedPhase(o, s, input);
      var next := if phase.Continue?
        then NextInput(counted, StepTail(input.reply), NudgeOf(o, s, input) + IncompleteOf(o, s, input), input.host)
        else ended;
      var text := TextOf(response.parts);
      var read := if phase.Continue? && response.finishReason.Pause? then CarriedText(next, text) else SettledText(next, text);
      read.(finalText := if progress.broke && read.finalText == "" then DEGENERATE_LOOP_STOP else read.finalText,
            malformedStreak := 0, cutStreak := 0, seen := progress.seen, staleTurns := progress.stale, phase := phase,
            corrections := s.corrections + |NudgeOf(o, s, input)|)
  }

  /** `beginStep`: the steering taken for the step joins its input. */
  function Begun(s: LoopState, host: Host): LoopState {
    s.(messages := s.messages + host.steering, newTail := s.newTail + host.steering)
  }

  function Next(o: Options, s: LoopState, input: StepInput): Option<LoopState> {
    var begun := Begun(s, input.host);
    if MalformedStep(o, input) then Recover(o, begun)
    else if CutStep(o, input) then Recut(o, begun, input)
    else Some(Decide(o, begun, input))
  }

  function Initial(messages: seq<Message>): LoopState {
    LoopState(messages, [], "", "", 0, 0, 0, {}, 0, ZERO_USAGE, None, Continue, 0, 0, true)
  }

  /** The state after these steps, if the run takes them: each follows a state that goes on, and none fails the run. */
  function After(o: Options, messages: seq<Message>, inputs: seq<StepInput>): Option<LoopState> {
    if inputs == [] then Some(Initial(messages))
    else
      match After(o, messages, inputs[..|inputs| - 1])
      case None => None
      case Some(s) => if s.phase.Continue? then Next(o, s, inputs[|inputs| - 1]) else None
  }
}
