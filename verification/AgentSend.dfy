/** One step's request: its attempts, the stream fallback, and the two recoveries that may send it again. */
module AgentSend {
  import opened Prelude

  datatype Visibility = Silent | Visible

  datatype Allowance = Available | Used

  datatype RequestAttempt =
    | Streamable(visibility: Visibility, media: Allowance, overflow: Allowance)
    | SettledOnly(visibility: Visibility, media: Allowance, overflow: Allowance)

  datatype Recovery = MediaRecovery | OverflowRecovery

  function InitialAttempt(streamable: bool): RequestAttempt {
    if streamable then Streamable(Silent, Available, Available) else SettledOnly(Silent, Available, Available)
  }

  function VisibleAttempt(state: RequestAttempt): RequestAttempt { state.(visibility := Visible) }

  function SettledAttempt(state: RequestAttempt): RequestAttempt { SettledOnly(state.visibility, state.media, state.overflow) }

  function ClaimRecovery(state: RequestAttempt, kind: Recovery): (bool, RequestAttempt) {
    match kind
    case MediaRecovery => if state.media.Used? then (false, state) else (true, state.(media := Used))
    case OverflowRecovery =>
      if state.overflow.Used? || state.visibility.Visible? then (false, state) else (true, state.(overflow := Used))
  }

  /** Claiming one recovery leaves the other, and each can be claimed once; the overflow one only while nothing was shown. */
  lemma ClaimsOnce(state: RequestAttempt, kind: Recovery, other: Recovery)
    ensures var (granted, next) := ClaimRecovery(state, kind);
      && (granted ==> !ClaimRecovery(next, kind).0)
      && (other != kind ==> ClaimRecovery(next, other).0 == ClaimRecovery(state, other).0)
      && !ClaimRecovery(VisibleAttempt(state), OverflowRecovery).0
      && ClaimRecovery(VisibleAttempt(state), MediaRecovery).0 == ClaimRecovery(state, MediaRecovery).0
  {
  }

  /** A failure and what the loop's tests say of it. */
  datatype Failure = Failure(id: nat, turnError: bool, imageRejection: bool, overflow: bool, permanent: bool, malformed: bool)

  /** The failure of a response whose content says the context overflowed. */
  const CONTEXT_OVERFLOW := Failure(0, true, false, true, true, false)

  /** A part of a stream; the callback that shows a delta may fail. */
  datatype StreamPart = Delta(nonempty: bool, shown: Option<Failure>) | Plain

  datatype Ending = Whole(overflow: bool) | Fails(failure: Failure) | Dies(turnError: bool)

  datatype Hook = Retry | Decline | HookFails(failure: Failure)

  /** What everything outside answers in one attempt: callbacks give a failure or none. */
  datatype Exchange = Exchange(
    render: Option<Failure>, check: Option<Failure>, parts: seq<StreamPart>, streamEnd: Ending,
    fallbackShown: Option<Failure>, fallbackCheck: Option<Failure>, generated: Ending, hook: Hook)

  /** The host's settings that a request reads; a planned step's response is the host's own. */
  datatype Settings = Settings(streaming: bool, planned: bool, onContextOverflow: bool, onMediaRejected: bool)

  datatype Outcome = Settled(overflow: bool, streamingHealthy: bool) | Failed(failure: Failure) | Died

  /** What happens in a request, as it happens. */
  datatype Event =
    | Began
    | Checked
    | Dispatched
    | Arrived
    | Shown(nonempty: bool)
    | FellBack
    | Claimed(kind: Recovery)
    | Agreed(kind: Recovery)
    | CallbackFailed(failure: Failure)

  /** A stretch of a request: its events, the attempt it leaves, what it comes to, and the callback failure that ended it. */
  datatype Told = Told(trace: seq<Event>, attempt: RequestAttempt, outcome: Outcome, own: Option<Failure>)

  // ---- what a request does, given everything it is answered ----

  function OutcomeOf(ending: Ending, streamingHealthy: bool): Outcome {
    match ending
    case Whole(overflow) => Settled(overflow, streamingHealthy)
    case Fails(failure) => Failed(failure)
    case Dies(_) => Died
  }

  function Stopped(trace: seq<Event>, attempt: RequestAttempt, own: Failure): Told {
    Told(trace + [CallbackFailed(own)], attempt, Failed(own), Some(own))
  }

  function Behind(earlier: seq<Event>, told: Told): Told { told.(trace := earlier + told.trace) }

  /** The settled request: its check, one dispatch, what it ends with. */
  function Generated(a: RequestAttempt, check: Option<Failure>, generated: Ending, streamingHealthy: bool): Told {
    match check
    case Some(failure) => Stopped([], a, failure)
    case None => Told([Checked, Dispatched], a, OutcomeOf(generated, streamingHealthy), None)
  }

  /** The events of a stream's parts, up to the first delta that cannot be shown. */
  function Heard(parts: seq<StreamPart>): seq<Event> {
    if parts == [] then []
    else HeardOne(parts[0]) + if Unshown(parts[0]).Some? then [] else Heard(parts[1..])
  }

  function HeardOne(part: StreamPart): seq<Event> {
    match part
    case Plain => [Arrived]
    case Delta(nonempty, None) => [Arrived, Shown(nonempty)]
    case Delta(nonempty, Some(failure)) => [Arrived, Shown(nonempty), CallbackFailed(failure)]
  }

  /** Why a part could not be shown, if so. */
  function Unshown(part: StreamPart): Option<Failure> {
    match part
    case Plain => None
    case Delta(_, shown) => shown
  }

  function ShowFailure(parts: seq<StreamPart>): Option<Failure> {
    if parts == [] then None
    else if Unshown(parts[0]).Some? then Unshown(parts[0])
    else ShowFailure(parts[1..])
  }

  function VisibleIf(a: RequestAttempt, trace: seq<Event>): RequestAttempt {
    if Shown(true) in trace then VisibleAttempt(a) else a
  }

  /** A stream's end that another request may not meet. */
  predicate Passing(ending: Ending) {
    match ending
    case Whole(_) => false
    case Fails(failure) => !failure.turnError && !failure.imageRejection && !failure.permanent
    case Dies(turnError) => !turnError
  }

  /** The settled request in place of a stream. */
  function FallenBack(a: RequestAttempt, x: Exchange): Told {
    match x.fallbackShown
    case Some(failure) => Stopped([FellBack], SettledAttempt(a), failure)
    case None => Behind([FellBack], Generated(SettledAttempt(a), x.fallbackCheck, x.generated, false))
  }

  /** The streamed request; it falls back when nothing arrived and it ended in a way another request may not meet. */
  function Streamed(a: RequestAttempt, x: Exchange): Told {
    match x.check
    case Some(failure) => Stopped([], a, failure)
    case None =>
      var heard := [Checked, Dispatched] + Heard(x.parts);
      match ShowFailure(x.parts)
      case Some(failure) => Told(heard, VisibleIf(a, heard), Failed(failure), Some(failure))
      case None =>
        if x.parts == [] && Passing(x.streamEnd) then Behind(heard, FallenBack(a, x))
        else Told(heard, VisibleIf(a, heard), OutcomeOf(x.streamEnd, true), None)
  }

  /** One attempt: a rendering of the step's messages, called once or streamed. */
  function Attempted(c: Settings, a: RequestAttempt, x: Exchange): Told {
    match x.render
    case Some(failure) => Stopped([Began], a, failure)
    case None =>
      Behind([Began],
             if c.planned then Told([], a, Settled(false, a.Streamable?), None)
             else if c.streaming && a.Streamable? then Streamed(a, x)
             else Generated(a, x.check, x.generated, a.Streamable?))
  }

  /** The recovery an attempt's outcome calls for, with the failure it is to recover from. */
  function CallsFor(told: Told): Option<(Recovery, Failure)> {
    match told.outcome
    case Died => None
    case Settled(overflow, _) => if overflow then Some((OverflowRecovery, CONTEXT_OVERFLOW)) else None
    case Failed(failure) =>
      if failure.turnError || told.own == Some(failure) then None
      else if failure.overflow then Some((OverflowRecovery, failure))
      else if Arrived !in told.trace && failure.imageRejection then Some((MediaRecovery, failure))
      else None
  }

  /** Whether the host has a hook for the recovery and the attempt has it left. */
  predicate MayRecover(c: Settings, a: RequestAttempt, kind: Recovery) {
    !c.planned && (if kind.MediaRecovery? then c.onMediaRejected else c.onContextOverflow) && ClaimRecovery(a, kind).0
  }

  /** The recoveries claimed so far, which number the attempts. */
  function Spent(a: RequestAttempt): nat {
    (if a.media.Used? then 1 else 0) + if a.overflow.Used? then 1 else 0
  }

  /** The request from an attempt on, with its recoveries. */
  function Requested(c: Settings, a: RequestAttempt, exchanges: nat -> Exchange): Told
    decreases 2 - Spent(a), 1
  {
    var x := exchanges(Spent(a));
    var told := Attempted(c, a, x);
    AttemptSpends(c, a, x);
    match CallsFor(told)
    case None => told
    case Some((kind, failure)) => Behind(told.trace, Recovering(c, told.attempt, kind, failure, x.hook, exchanges))
  }

  /** A recovery: refused, or claimed and then declined, failed, or agreed to and sent again. */
  function Recovering(c: Settings, a: RequestAttempt, kind: Recovery, failure: Failure, hook: Hook, exchanges: nat -> Exchange): Told
    decreases 2 - Spent(a), 0
  {
    if !MayRecover(c, a, kind) then Told([], a, Failed(failure), None)
    else
      var claimed := ClaimRecovery(a, kind).1;
      match hook
      case HookFails(own) => Stopped([Claimed(kind)], claimed, own)
      case Decline => Told([Claimed(kind)], claimed, Failed(failure), None)
      case Retry => Behind([Claimed(kind), Agreed(kind)], Requested(c, claimed, exchanges))
  }

  /** An attempt claims no recovery, and streaming is only ever given up. */
  /** What a stretch of one attempt leaves of the attempt: its recoveries, and its streaming but for a fallback. */
  predicate Leaves(a: RequestAttempt, told: Told) {
    && told.attempt.media == a.media && told.attempt.overflow == a.overflow
    && (told.attempt.Streamable? <==> a.Streamable? && FellBack !in told.trace)
    && (told.own.Some? ==> told.outcome == Failed(told.own.value))
  }

  lemma GeneratedLeaves(a: RequestAttempt, check: Option<Failure>, generated: Ending, streamingHealthy: bool)
    ensures Leaves(a, Generated(a, check, generated, streamingHealthy))
  {
  }

  lemma FallenBackLeaves(a: RequestAttempt, x: Exchange)
    ensures Leaves(a, FallenBack(a, x))
  {
    assert FellBack in FallenBack(a, x).trace by { assert FallenBack(a, x).trace[0] == FellBack; }
    GeneratedLeaves(SettledAttempt(a), x.fallbackCheck, x.generated, false);
    hide Generated;
  }

  lemma StreamedLeaves(a: RequestAttempt, x: Exchange)
    requires a.Streamable?
    ensures Leaves(a, Streamed(a, x))
  {
    HeardFew(x.parts);
    FallenBackLeaves(a, x);
    hide FallenBack, Heard, ShowFailure, OutcomeOf, Passing;
  }

  lemma AttemptSpends(c: Settings, a: RequestAttempt, x: Exchange)
    ensures var told := Attempted(c, a, x);
      && told.attempt.media == a.media && told.attempt.overflow == a.overflow
      && (told.attempt.Streamable? <==> a.Streamable? && FellBack !in told.trace)
      && (told.own.Some? ==> told.outcome == Failed(told.own.value))
  {
    GeneratedLeaves(a, x.check, x.generated, a.Streamable?);
    if a.Streamable? { StreamedLeaves(a, x); }
    hide Streamed, Generated;
  }

  /** What the parts of a stream can bring about. */
  lemma {:induction false} HeardFew(parts: seq<StreamPart>)
    ensures forall e | e in Heard(parts) :: e.Arrived? || e.Shown? || e.CallbackFailed?
    ensures Arrived in Heard(parts) <==> parts != []
  {
    if parts != [] {
      HeardFew(parts[1..]);
    }
  }

  // ---- what every request keeps ----

  /** Which event may come right after which. */
  predicate Follows(prev: Event, next: Event) {
    match next
    case Began => prev.Agreed?
    case Checked => prev.Began? || prev.FellBack?
    case Dispatched => prev.Checked?
    case Arrived => prev.Dispatched? || prev.Arrived? || prev.Shown?
    case Shown(_) => prev.Arrived?
    case FellBack => prev.Dispatched?
    case Claimed(kind) => prev.Dispatched? || (kind.OverflowRecovery? && (prev.Arrived? || prev == Shown(false)))
    case Agreed(kind) => prev == Claimed(kind)
    case CallbackFailed(_) => prev.Began? || prev.FellBack? || prev.Shown? || prev.Claimed?
  }

  predicate LinkedAt(trace: seq<Event>, i: nat) {
    0 < i < |trace| && Follows(trace[i - 1], trace[i])
  }

  predicate Linked(trace: seq<Event>) {
    forall i | 0 < i < |trace| :: LinkedAt(trace, i)
  }

  predicate SilentAfterShown(trace: seq<Event>) {
    forall i, j | 0 <= i < j < |trace| && trace[i] == Shown(true) :: !trace[j].Dispatched?
  }

  /** A callback's failure is the last event. */
  predicate FailureLast(trace: seq<Event>) {
    forall i | 0 <= i < |trace| - 1 :: !trace[i].CallbackFailed?
  }

  predicate Shaped(trace: seq<Event>) {
    Linked(trace) && SilentAfterShown(trace) && FailureLast(trace)
  }

  function Times(trace: seq<Event>, e: Event): nat {
    multiset(trace)[e]
  }

  function Last(trace: seq<Event>): Event {
    if trace == [] then Began else trace[|trace| - 1]
  }

  /** The provider has been sent to, and what it answers is arriving or has arrived. */
  predicate Answering(e: Event) { e.Dispatched? || e.Arrived? || e.Shown? }

  lemma LinkedAppend(a: seq<Event>, b: seq<Event>)
    requires Linked(a) && Linked(b) && (a != [] && b != [] ==> Follows(Last(a), b[0]))
    ensures Linked(a + b)
  {
    hide Follows;
    var all := a + b;
    forall i | 0 < i < |all| ensures LinkedAt(all, i) {
      if i < |a| {
        assert LinkedAt(a, i);
      } else if i > |a| {
        assert LinkedAt(b, i - |a|);
      }
    }
  }

  lemma SilentAppend(a: seq<Event>, b: seq<Event>)
    requires SilentAfterShown(a) && SilentAfterShown(b) && (Shown(true) in a ==> Dispatched !in b)
    ensures SilentAfterShown(a + b)
  {
    var all := a + b;
    forall i, j | 0 <= i < j < |all| && all[i] == Shown(true) ensures !all[j].Dispatched? {
      if i < |a| <= j {
        assert a[i] in a && b[j - |a|] in b;
      }
    }
  }

  /** Two linked traces that share an event. */
  lemma LinkedOverlap(a: seq<Event>, b: seq<Event>)
    requires a != [] && Linked(a) && Linked([Last(a)] + b)
    ensures Linked(a + b) && Last(a + b) == Last([Last(a)] + b)
  {
    hide Follows;
    var all := a + b;
    forall i | 0 < i < |all| ensures LinkedAt(all, i) {
      if i < |a| {
        assert LinkedAt(a, i);
      } else {
        assert LinkedAt([Last(a)] + b, i - |a| + 1);
      }
    }
  }

  lemma OneLinked(part: StreamPart, prev: Event)
    requires Answering(prev)
    ensures var one := [prev] + HeardOne(part);
      && Linked(one) && FailureLast(one)
      && match Unshown(part)
         case None => Answering(Last(one)) && FailureLast(one + [Began])
         case Some(failure) => Last(one) == CallbackFailed(failure)
  {
    match part
    case Plain => assert [prev] + HeardOne(part) == [prev, Arrived];
    case Delta(nonempty, None) => assert [prev] + HeardOne(part) == [prev, Arrived, Shown(nonempty)];
    case Delta(nonempty, Some(failure)) => assert [prev] + HeardOne(part) == [prev, Arrived, Shown(nonempty), CallbackFailed(failure)];
  }

  lemma {:induction false} HeardLinked(parts: seq<StreamPart>, prev: Event)
    requires Answering(prev)
    ensures Linked([prev] + Heard(parts)) && FailureLast([prev] + Heard(parts))
    ensures match ShowFailure(parts)
      case None => Answering(Last([prev] + Heard(parts)))
      case Some(failure) => Last([prev] + Heard(parts)) == CallbackFailed(failure)
  {
    hide Heard, ShowFailure, HeardOne, Unshown, Linked, FailureLast, Answering;
    HeardFirst(parts);
    if parts == [] {
      assert [prev] + [] == [prev];
      Lone(prev);
    } else {
      var one := [prev] + HeardOne(parts[0]);
      OneLinked(parts[0], prev);
      if Unshown(parts[0]).None? {
        var rest := Heard(parts[1..]);
        HeardLinked(parts[1..], Last(one));
        LinkedOverlap(one, rest);
        FailureOverlap(one, rest);
        assert [prev] + Heard(parts) == one + rest;
      } else {
        assert [prev] + Heard(parts) == one;
      }
    }
  }

  lemma HeardFirst(parts: seq<StreamPart>)
    ensures parts == [] ==> Heard(parts) == [] && ShowFailure(parts) == None
    ensures parts != [] && Unshown(parts[0]).Some? ==> Heard(parts) == HeardOne(parts[0]) && ShowFailure(parts) == Unshown(parts[0])
    ensures parts != [] && Unshown(parts[0]).None? ==>
      Heard(parts) == HeardOne(parts[0]) + Heard(parts[1..]) && ShowFailure(parts) == ShowFailure(parts[1..])
  {
    hide HeardOne, Unshown;
  }

  lemma Lone(e: Event)
    ensures Linked([e]) && FailureLast([e])
  {
  }

  lemma FailureOverlap(a: seq<Event>, b: seq<Event>)
    requires a != [] && FailureLast(a + [Began]) && FailureLast([Last(a)] + b)
    ensures FailureLast(a + b)
  {
    var all := a + b;
    forall i | 0 <= i < |all| - 1 ensures !all[i].CallbackFailed? {
      if i < |a| {
        assert !(a + [Began])[i].CallbackFailed?;
      } else {
        assert !([Last(a)] + b)[i - |a| + 1].CallbackFailed?;
      }
    }
  }

  /** Of one attempt that starts silent: its bounds, its shape, and what its end says. */
  predicate AttemptKept(c: Settings, a: RequestAttempt, told: Told) {
    && told.trace != [] && told.trace[0] == Began && Shaped(told.trace)
    && Times(told.trace, Dispatched) <= 1 + Times(told.trace, FellBack)
    && (c.planned ==> Dispatched !in told.trace)
    && Times(told.trace, FellBack) <= (if a.Streamable? && c.streaming then 1 else 0)
    && (forall kind :: Claimed(kind) !in told.trace)
    && (told.attempt.visibility.Visible? <==> Shown(true) in told.trace)
    && (told.own.Some? ==> told.outcome == Failed(told.own.value) && Last(told.trace) == CallbackFailed(told.own.value))
    && (told.own.None? ==> if c.planned then told.trace == [Began] else Answering(Last(told.trace)))
    && (told.outcome.Settled? ==> told.own.None? && (told.outcome.streamingHealthy <==> a.Streamable? && FellBack !in told.trace))
  }

  lemma Start()
    ensures Shaped([Began]) && Last([Began]) == Began
    ensures forall e :: Times([Began], e) == if e.Began? then 1 else 0
  {
  }

  lemma Grow(trace: seq<Event>, next: Event)
    requires Shaped(trace) && trace != [] && Follows(Last(trace), next) && !Last(trace).CallbackFailed?
    requires next.Dispatched? ==> Shown(true) !in trace
    ensures Shaped(trace + [next]) && Last(trace + [next]) == next
    ensures forall e :: Times(trace + [next], e) == Times(trace, e) + if e == next then 1 else 0
  {
    hide Follows;
    LinkedAppend(trace, [next]);
    SilentAppend(trace, [next]);
  }

  /** What the check and the dispatch, or the failing check, add. */
  lemma CheckGrows(trace: seq<Event>, check: Option<Failure>)
    requires Shaped(trace) && trace != [] && (Last(trace).Began? || Last(trace).FellBack?) && Shown(true) !in trace
    ensures match check
      case None =>
        var all := trace + [Checked, Dispatched];
        Shaped(all) && Last(all) == Dispatched &&
        forall e :: Times(all, e) == Times(trace, e) + if e.Checked? || e.Dispatched? then 1 else 0
      case Some(failure) =>
        var all := trace + [CallbackFailed(failure)];
        Shaped(all) && Last(all) == CallbackFailed(failure) &&
        forall e :: Times(all, e) == Times(trace, e) + if e == CallbackFailed(failure) then 1 else 0
  {
    hide Shaped, Times, Last;
    match check
    case None =>
      Grow(trace, Checked);
      Grow(trace + [Checked], Dispatched);
      assert trace + [Checked] + [Dispatched] == trace + [Checked, Dispatched];
    case Some(failure) => Grow(trace, CallbackFailed(failure));
  }

  lemma TimesMeans(trace: seq<Event>, e: Event)
    ensures Times(trace, e) > 0 <==> e in trace
  {
    assert e in trace <==> e in multiset(trace);
  }

  lemma GeneratedKept(c: Settings, a: RequestAttempt, x: Exchange)
    requires a.visibility.Silent? && !c.planned
    ensures AttemptKept(c, a, Behind([Began], Generated(a, x.check, x.generated, a.Streamable?)))
  {
    hide Shaped, Times, Last;
    var told := Behind([Began], Generated(a, x.check, x.generated, a.Streamable?));
    Start();
    CheckGrows([Began], x.check);
    assert x.check.Some? ==> told.trace == [Began] + [CallbackFailed(x.check.value)];
    forall e ensures Times(told.trace, e) > 0 <==> e in told.trace { TimesMeans(told.trace, e); }
  }

  lemma FallenBackKept(c: Settings, a: RequestAttempt, x: Exchange)
    requires a.visibility.Silent? && a.Streamable? && c.streaming && !c.planned
    ensures AttemptKept(c, a, Behind([Began, Checked, Dispatched], FallenBack(a, x)))
  {
    hide Shaped, Times, Last;
    Start();
    CheckGrows([Began], None);
    var sent := [Began, Checked, Dispatched];
    assert [Began] + [Checked, Dispatched] == sent;
    Grow(sent, FellBack);
    var fell := sent + [FellBack];
    var told := Behind(sent, FallenBack(a, x));
    if x.fallbackShown.Some? {
      CheckGrows(fell, x.fallbackShown);
      assert told.trace == fell + [CallbackFailed(x.fallbackShown.value)];
    } else {
      CheckGrows(fell, x.fallbackCheck);
      assert told.trace == fell + if x.fallbackCheck.Some? then [CallbackFailed(x.fallbackCheck.value)] else [Checked, Dispatched];
    }
    forall e ensures Times(told.trace, e) > 0 <==> e in told.trace { TimesMeans(told.trace, e); }
  }

  lemma {:induction false} HeardTimes(parts: seq<StreamPart>, e: Event)
    requires !e.Arrived? && !e.Shown? && !e.CallbackFailed?
    ensures Times(Heard(parts), e) == 0
  {
    HeardFew(parts);
    TimesMeans(Heard(parts), e);
  }

  lemma TimesAppend(a: seq<Event>, b: seq<Event>)
    ensures forall e :: Times(a + b, e) == Times(a, e) + Times(b, e)
  {
  }

  lemma Quiet(trace: seq<Event>)
    requires Dispatched !in trace
    ensures SilentAfterShown(trace)
  {
    assert forall j | 0 <= j < |trace| :: trace[j] in trace;
  }

  /** Hearing a stream after its dispatch. */
  lemma HeardShaped(parts: seq<StreamPart>)
    ensures var trace := [Began, Checked, Dispatched] + Heard(parts);
      && Shaped(trace)
      && Times(trace, Dispatched) == 1 && Times(trace, FellBack) == 0 && (forall kind :: Times(trace, Claimed(kind)) == 0)
      && (match ShowFailure(parts)
          case None => Answering(Last(trace))
          case Some(failure) => Last(trace) == CallbackFailed(failure))
  {
    hide Linked, SilentAfterShown, FailureLast, Times, Heard, ShowFailure, Last;
    var sent := [Began, Checked, Dispatched];
    var trace := sent + Heard(parts);
    HeardLinks(parts);
    HeardFew(parts);
    Start();
    CheckGrows([Began], None);
    assert [Began] + [Checked, Dispatched] == sent;
    TimesMeans(sent, Shown(true));
    Quiet(Heard(parts));
    SilentAppend(sent, Heard(parts));
    TimesAppend(sent, Heard(parts));
    HeardTimes(parts, Dispatched);
    HeardTimes(parts, FellBack);
    forall kind ensures Times(trace, Claimed(kind)) == 0 { HeardTimes(parts, Claimed(kind)); }
    FailureLastAfter(parts);
  }

  lemma HeardLinks(parts: seq<StreamPart>)
    ensures var trace := [Began, Checked, Dispatched] + Heard(parts);
      && Linked(trace)
      && (match ShowFailure(parts)
          case None => Answering(Last(trace))
          case Some(failure) => Last(trace) == CallbackFailed(failure))
  {
    hide Heard, ShowFailure;
    var sent := [Began, Checked];
    var heard := [Dispatched] + Heard(parts);
    var trace := [Began, Checked, Dispatched] + Heard(parts);
    HeardLinked(parts, Dispatched);
    assert trace == sent + heard;
    LinkedAppend(sent, heard);
    assert Last(trace) == Last(heard);
  }

  lemma FailureLastAfter(parts: seq<StreamPart>)
    ensures FailureLast([Began, Checked, Dispatched] + Heard(parts))
  {
    HeardLinked(parts, Dispatched);
    var heard := [Dispatched] + Heard(parts);
    var trace := [Began, Checked, Dispatched] + Heard(parts);
    forall i | 0 <= i < |trace| - 1 ensures !trace[i].CallbackFailed? {
      if i >= 2 { assert trace[i] == heard[i - 2]; }
    }
  }

  lemma StreamedKept(c: Settings, a: RequestAttempt, x: Exchange)
    requires a.visibility.Silent? && a.Streamable? && c.streaming && !c.planned
    ensures AttemptKept(c, a, Behind([Began], Streamed(a, x)))
  {
    hide Shaped, Times, Last, Heard, ShowFailure;
    var told := Behind([Began], Streamed(a, x));
    if x.check.Some? {
      GeneratedKept(c, a, x);
    } else if ShowFailure(x.parts).None? && x.parts == [] && Passing(x.streamEnd) {
      FallenBackKept(c, a, x);
      NothingHeard();
      assert told == Behind([Began, Checked, Dispatched], FallenBack(a, x));
    } else {
      HeardShaped(x.parts);
      assert told.trace == [Began, Checked, Dispatched] + Heard(x.parts);
      forall e ensures Times(told.trace, e) > 0 <==> e in told.trace { TimesMeans(told.trace, e); }
    }
  }

  lemma NothingHeard()
    ensures Heard([]) == [] && ShowFailure([]) == None
  {
  }

  /** One attempt. */
  lemma AttemptKeeps(c: Settings, a: RequestAttempt, x: Exchange)
    requires a.visibility.Silent?
    ensures AttemptKept(c, a, Attempted(c, a, x))
  {
    hide Shaped, Times, Last, Streamed;
    var told := Attempted(c, a, x);
    Start();
    if x.render.Some? {
      Grow([Began], CallbackFailed(x.render.value));
      forall e ensures Times(told.trace, e) > 0 <==> e in told.trace { TimesMeans(told.trace, e); }
    } else if c.planned {
      assert told.trace == [Began];
    } else if c.streaming && a.Streamable? {
      StreamedKept(c, a, x);
    } else {
      GeneratedKept(c, a, x);
    }
  }

  /**
   * What every request keeps, whatever it is answered. Its events follow one another as `Follows` says: every dispatch
   * comes right after its own passed check, a fallback only right after a dispatch of which nothing arrived, a recovery
   * is claimed before its hook is asked, and only an agreed one begins another attempt. No dispatch follows a shown
   * delta, and a callback's failure ends it. Each recovery is claimed at most once, the stream is given up at most once,
   * and there are at most four dispatches, none in a planned step.
   */
  predicate Kept(c: Settings, a: RequestAttempt, told: Told) {
    && told.trace != [] && told.trace[0] == Began && Shaped(told.trace)
    && Times(told.trace, Dispatched) + Spent(a) <= 3 + Times(told.trace, FellBack)
    && (c.planned ==> Dispatched !in told.trace)
    && Times(told.trace, FellBack) <= (if a.Streamable? && c.streaming then 1 else 0)
    && Times(told.trace, Claimed(MediaRecovery)) <= (if a.media.Used? then 0 else 1)
    && Times(told.trace, Claimed(OverflowRecovery)) <= (if a.overflow.Used? then 0 else 1)
    && (told.own.Some? <==> Last(told.trace).CallbackFailed?)
    && (told.own.Some? ==> told.outcome == Failed(told.own.value) && Last(told.trace) == CallbackFailed(told.own.value))
    && (told.outcome.Settled? ==>
          && !told.outcome.overflow && (told.outcome.streamingHealthy <==> a.Streamable? && FellBack !in told.trace)
          && (c.planned || Answering(Last(told.trace))))
  }

  /** The same after an attempt that is recovered from, before the next one. */
  lemma RecoveryGrows(c: Settings, a: RequestAttempt, told: Told, kind: Recovery, failure: Failure)
    requires AttemptKept(c, a, told) && CallsFor(told) == Some((kind, failure)) && MayRecover(c, told.attempt, kind)
    ensures var asked := told.trace + [Claimed(kind)];
      && Shaped(asked) && Last(asked) == Claimed(kind) && Shown(true) !in asked
      && Follows(Claimed(kind), Agreed(kind))
      && forall e :: Times(asked, e) == Times(told.trace, e) + if e == Claimed(kind) then 1 else 0
  {
    hide Shaped, Times;
    LastIn(told.trace);
    ShownArrived(told.trace);
    Grow(told.trace, Claimed(kind));
  }

  lemma LastIn(trace: seq<Event>)
    ensures trace != [] ==> Last(trace) in trace
  {
  }

  /** A delta that was shown had arrived. */
  lemma ShownArrived(trace: seq<Event>)
    requires trace != [] && trace[0] == Began && Shaped(trace)
    ensures forall nonempty :: Shown(nonempty) in trace ==> Arrived in trace
  {
    forall nonempty | Shown(nonempty) in trace ensures Arrived in trace {
      var i :| 0 <= i < |trace| && trace[i] == Shown(nonempty);
      assert LinkedAt(trace, i);
    }
  }

  /** A first attempt's trace with what comes after it. */
  lemma Joins(c: Settings, a: RequestAttempt, told: Told, kind: Recovery, failure: Failure, claimed: RequestAttempt, again: Told)
    requires a.visibility.Silent? && AttemptKept(c, a, told) && CallsFor(told) == Some((kind, failure)) && MayRecover(c, told.attempt, kind)
    requires told.attempt.media == a.media && told.attempt.overflow == a.overflow
    requires told.attempt.Streamable? <==> a.Streamable? && FellBack !in told.trace
    requires claimed == ClaimRecovery(told.attempt, kind).1 && Kept(c, claimed, again)
    ensures Kept(c, a, Behind(told.trace + [Claimed(kind), Agreed(kind)], again))
  {
    hide Shaped, Times, Last;
    var asked := told.trace + [Claimed(kind)];
    RecoveryGrows(c, a, told, kind, failure);
    Grow(asked, Agreed(kind));
    var agreed := asked + [Agreed(kind)];
    assert agreed == told.trace + [Claimed(kind), Agreed(kind)];
    Then(agreed, again.trace);
    var all := agreed + again.trace;
    forall e ensures Times(all, e) > 0 <==> e in all { TimesMeans(all, e); }
    forall e ensures Times(again.trace, e) > 0 <==> e in again.trace { TimesMeans(again.trace, e); }
    forall e ensures Times(told.trace, e) > 0 <==> e in told.trace { TimesMeans(told.trace, e); }
  }

  lemma Then(agreed: seq<Event>, again: seq<Event>)
    requires Shaped(agreed) && Shaped(again) && agreed != [] && again != [] && again[0] == Began
    requires Last(agreed).Agreed? && Shown(true) !in agreed
    ensures Shaped(agreed + again) && Last(agreed + again) == Last(again)
    ensures forall e :: Times(agreed + again, e) == Times(agreed, e) + Times(again, e)
  {
    hide Follows;
    assert Follows(Last(agreed), again[0]) by { AgreedBegins(Last(agreed)); }
    LinkedAppend(agreed, again);
    SilentAppend(agreed, again);
    TimesAppend(agreed, again);
    var all := agreed + again;
    forall i | 0 <= i < |all| - 1 ensures !all[i].CallbackFailed? {
      if i < |agreed| - 1 { assert !agreed[i].CallbackFailed?; }
      else if i >= |agreed| { assert !again[i - |agreed|].CallbackFailed?; }
    }
  }

  lemma AgreedBegins(prev: Event)
    requires prev.Agreed?
    ensures Follows(prev, Began)
  {
  }

  lemma {:induction false} RequestKeeps(c: Settings, a: RequestAttempt, exchanges: nat -> Exchange)
    requires a.visibility.Silent?
    ensures Kept(c, a, Requested(c, a, exchanges))
    decreases 2 - Spent(a)
  {
    hide Shaped, Times, Last, Attempted, Kept, AttemptKept, Follows;
    var x := exchanges(Spent(a));
    var told := Attempted(c, a, x);
    AttemptSpends(c, a, x);
    AttemptKeeps(c, a, x);
    if CallsFor(told).Some? && MayRecover(c, told.attempt, CallsFor(told).value.0) {
      var (kind, failure) := CallsFor(told).value;
      var claimed := ClaimRecovery(told.attempt, kind).1;
      var asked := told.trace + [Claimed(kind)];
      RecoverySilent(c, a, told, kind, failure);
      match x.hook
      case Retry =>
        RequestKeeps(c, claimed, exchanges);
        var again := Requested(c, claimed, exchanges);
        Joins(c, a, told, kind, failure, claimed, again);
        assert told.trace + ([Claimed(kind), Agreed(kind)] + again.trace) == told.trace + [Claimed(kind), Agreed(kind)] + again.trace;
      case HookFails(own) =>
        HookEnds(c, a, told, kind, failure, x.hook);
        assert told.trace + ([Claimed(kind)] + [CallbackFailed(own)]) == asked + [CallbackFailed(own)];
      case Decline => HookEnds(c, a, told, kind, failure, x.hook);
    } else {
      AttemptEnds(c, a, told);
      assert told.trace + [] == told.trace;
    }
  }

  /** A request gives up streaming exactly by falling back. */
  lemma {:induction false} RequestSpends(c: Settings, a: RequestAttempt, exchanges: nat -> Exchange)
    ensures var told := Requested(c, a, exchanges); told.attempt.Streamable? <==> a.Streamable? && FellBack !in told.trace
    decreases 2 - Spent(a)
  {
    hide Attempted;
    var x := exchanges(Spent(a));
    var told := Attempted(c, a, x);
    AttemptSpends(c, a, x);
    if CallsFor(told).Some? && MayRecover(c, told.attempt, CallsFor(told).value.0) && x.hook.Retry? {
      RequestSpends(c, ClaimRecovery(told.attempt, CallsFor(told).value.0).1, exchanges);
    }
  }

  lemma RecoverySilent(c: Settings, a: RequestAttempt, told: Told, kind: Recovery, failure: Failure)
    requires AttemptKept(c, a, told) && CallsFor(told) == Some((kind, failure)) && MayRecover(c, told.attempt, kind)
    ensures told.attempt.visibility.Silent?
  {
    hide Times, Last, Linked;
    RecoveryGrows(c, a, told, kind, failure);
  }

  lemma AttemptEnds(c: Settings, a: RequestAttempt, told: Told)
    requires AttemptKept(c, a, told)
    ensures CallsFor(told).None? ==> Kept(c, a, told)
    ensures CallsFor(told).Some? ==> told.own.None? && Kept(c, a, told.(outcome := Failed(CallsFor(told).value.1)))
  {
    hide Shaped, Times;
    forall kind ensures Times(told.trace, Claimed(kind)) == 0 { TimesMeans(told.trace, Claimed(kind)); }
  }

  lemma HookEnds(c: Settings, a: RequestAttempt, told: Told, kind: Recovery, failure: Failure, hook: Hook)
    requires AttemptKept(c, a, told) && CallsFor(told) == Some((kind, failure)) && MayRecover(c, told.attempt, kind) && !hook.Retry?
    requires told.attempt.media == a.media && told.attempt.overflow == a.overflow
    ensures var claimed := ClaimRecovery(told.attempt, kind).1;
      var asked := told.trace + [Claimed(kind)];
      Kept(c, a, if hook.HookFails? then Stopped(asked, claimed, hook.failure) else Told(asked, claimed, Failed(failure), None))
  {
    hide Shaped, Times, Last;
    var asked := told.trace + [Claimed(kind)];
    RecoveryGrows(c, a, told, kind, failure);
    if hook.HookFails? { Grow(asked, CallbackFailed(hook.failure)); }
    forall k ensures Times(told.trace, Claimed(k)) == 0 { TimesMeans(told.trace, Claimed(k)); }
  }

  /** How the step ends: a callback's own failure is never taken for a malformed response. */
  datatype StepEnd = Responded(streamingHealthy: bool) | Malformed | StepFailed(failure: Failure) | StepDied

  function Conclude(r: Outcome, own: Option<Failure>): StepEnd {
    match r
    case Settled(_, healthy) => Responded(healthy)
    case Failed(failure) => if own != Some(failure) && failure.malformed then Malformed else StepFailed(failure)
    case Died => StepDied
  }

  /** A linked trace that is being answered was dispatched. */
  lemma {:induction false} AnsweringSent(trace: seq<Event>, n: nat)
    requires Linked(trace) && n < |trace| && trace[0] == Began && Answering(trace[n])
    ensures Dispatched in trace
    decreases n
  {
    if !trace[n].Dispatched? {
      assert LinkedAt(trace, n);
      AnsweringSent(trace, n - 1);
    }
  }

  /** The bounds of one step's request, from its start. */
  lemma RequestBounded(c: Settings, healthy: bool, exchanges: nat -> Exchange)
    ensures var told := Requested(c, InitialAttempt(healthy), exchanges);
      && Shaped(told.trace) && told.trace != [] && told.trace[0] == Began
      && Times(told.trace, Dispatched) <= 4 && (c.planned ==> Dispatched !in told.trace)
      && Times(told.trace, FellBack) <= 1 && (FellBack in told.trace ==> healthy && c.streaming)
      && (forall kind :: Times(told.trace, Claimed(kind)) <= 1)
      && (told.own.Some? <==> Last(told.trace).CallbackFailed?)
      && (told.own.Some? ==> Conclude(told.outcome, told.own) == StepFailed(told.own.value))
      && (Conclude(told.outcome, told.own).Responded? ==>
            && (c.planned || Dispatched in told.trace)
            && (Conclude(told.outcome, told.own).streamingHealthy <==> healthy && FellBack !in told.trace))
  {
    hide Requested, Shaped, Linked, Times;
    var told := Requested(c, InitialAttempt(healthy), exchanges);
    RequestKeeps(c, InitialAttempt(healthy), exchanges);
    TimesMeans(told.trace, FellBack);
    forall kind ensures Times(told.trace, Claimed(kind)) <= 1 {
      match kind case MediaRecovery => case OverflowRecovery =>
    }
    if told.outcome.Settled? && !c.planned {
      LinkedOf(told.trace);
      AnsweringSent(told.trace, |told.trace| - 1);
    }
  }

  lemma LinkedOf(trace: seq<Event>)
    requires Shaped(trace)
    ensures Linked(trace)
  {
  }

  lemma HeardNone()
    ensures Heard([]) == [] && ShowFailure([]) == None
  {
  }

  lemma HeardNext(parts: seq<StreamPart>, i: nat)
    requires i < |parts|
    ensures ShowFailure(parts[i..]) == if Unshown(parts[i]).Some? then Unshown(parts[i]) else ShowFailure(parts[i + 1..])
    ensures forall done :: done + Heard(parts[i..]) ==
                           done + HeardOne(parts[i]) + if Unshown(parts[i]).Some? then [] else Heard(parts[i + 1..])
  {
    hide HeardOne, Unshown;
    assert parts[i..][1..] == parts[i + 1..];
  }

  lemma VisibleNone(a: RequestAttempt)
    ensures VisibleIf(a, []) == a
  {
  }

  lemma VisibleMore(a: RequestAttempt, done: seq<Event>, more: seq<Event>)
    ensures VisibleIf(VisibleIf(a, done), more) == VisibleIf(a, done + more)
  {
  }

  /** Something arrived in a streamed request exactly when its check passed and it has parts. */
  lemma StreamedArrives(a: RequestAttempt, x: Exchange)
    ensures Arrived in Streamed(a, x).trace <==> x.check.None? && x.parts != []
  {
    HeardFew(x.parts);
  }

  /** A check and a dispatch show nothing. */
  lemma VisibleAll(a: RequestAttempt, parts: seq<StreamPart>)
    ensures VisibleIf(a, [Checked, Dispatched] + Heard(parts)) == VisibleIf(a, Heard(parts))
    ensures parts == [] ==> VisibleIf(a, Heard(parts)) == a
  {
  }

  // ---- the request machine ----

  class StepSender {
    const settings: Settings
    var partSeen: bool
    var attempt: RequestAttempt
    var callbackFailure: Option<Failure>
    /** What has happened so far. */
    ghost var trace: seq<Event>

    constructor (settings: Settings, healthy: bool)
      ensures this.settings == settings && attempt == InitialAttempt(healthy) && callbackFailure == None && trace == []
    {
      this.settings := settings;
      partSeen, attempt, callbackFailure, trace := false, InitialAttempt(healthy), None, [];
    }

    /** A callback of the caller; its failure is remembered as its own. */
    method Call(result: Option<Failure>)
      requires callbackFailure == None
      modifies this`callbackFailure, this`trace
      ensures callbackFailure == result
      ensures trace == old(trace) + if result.Some? then [CallbackFailed(result.value)] else []
    {
      callbackFailure := result;
      if result.Some? {
        trace := trace + [CallbackFailed(result.value)];
      }
    }

    /** The state after a stretch of the request that came to `r`. */
    twostate predicate Tells(told: Told, r: Outcome)
      reads this
    {
      trace == old(trace) + told.trace && attempt == told.attempt && callbackFailure == told.own && r == told.outcome
    }

    /** `beforeDispatch`, then the provider's settled request. */
    method Generate(check: Option<Failure>, generated: Ending, streamingHealthy: bool) returns (r: Outcome)
      requires callbackFailure == None
      modifies this`callbackFailure, this`trace
      ensures Tells(Generated(old(attempt), check, generated, streamingHealthy), r)
    {
      Call(check);
      if check.Some? { return Failed(check.value); }
      trace := trace + [Checked, Dispatched];
      match generated
      case Whole(overflow) => r := Settled(overflow, streamingHealthy);
      case Fails(failure) => r := Failed(failure);
      case Dies(_) => r := Died;
    }

    /** One part: it is seen, a nonempty delta makes the request visible, and showing it may fail. */
    method See(part: StreamPart) returns (failed: Option<Failure>)
      requires callbackFailure == None
      modifies this`partSeen, this`attempt, this`callbackFailure, this`trace
      ensures partSeen && failed == Unshown(part) == callbackFailure
      ensures trace == old(trace) + HeardOne(part) && attempt == VisibleIf(old(attempt), HeardOne(part))
    {
      partSeen := true;
      trace := trace + [Arrived];
      failed := None;
      match part {
        case Plain =>
        case Delta(nonempty, shown) =>
          if nonempty { attempt := VisibleAttempt(attempt); }
          trace := trace + [Shown(nonempty)];
          Call(shown);
          failed := shown;
      }
    }

    /** The parts as they arrive, up to the first delta whose showing fails. */
    method Fold(parts: seq<StreamPart>) returns (failed: Option<Failure>)
      requires callbackFailure == None && !partSeen
      modifies this`partSeen, this`attempt, this`callbackFailure, this`trace
      ensures failed == ShowFailure(parts) == callbackFailure
      ensures trace == old(trace) + Heard(parts) && attempt == VisibleIf(old(attempt), Heard(parts))
      ensures partSeen <==> parts != []
    {
      hide Heard, ShowFailure, HeardOne, Unshown, VisibleIf;
      failed := None;
      ghost var done: seq<Event> := [];
      var i := 0;
      VisibleNone(attempt);
      HeardNone();
      assert parts[0..] == parts;
      while i < |parts|
        invariant 0 <= i <= |parts| && callbackFailure == None && failed == None
        invariant partSeen <==> i > 0
        invariant ShowFailure(parts) == ShowFailure(parts[i..])
        invariant trace == old(trace) + done && Heard(parts) == done + Heard(parts[i..]) && attempt == VisibleIf(old(attempt), done)
      {
        HeardNext(parts, i);
        VisibleMore(old(attempt), done, HeardOne(parts[i]));
        failed := See(parts[i]);
        done := done + HeardOne(parts[i]);
        if failed.Some? {
          assert done == done + [] == Heard(parts);
          return;
        }
        i := i + 1;
      }
      assert parts[i..] == [] && done == Heard(parts);
    }

    /** The settled request in place of a stream that broke off with nothing heard; the stream stays marked unhealthy. */
    method FallBack(x: Exchange) returns (r: Outcome)
      requires callbackFailure == None
      modifies this`attempt, this`callbackFailure, this`trace
      ensures Tells(FallenBack(old(attempt), x), r)
    {
      attempt := SettledAttempt(attempt);
      trace := trace + [FellBack];
      Call(x.fallbackShown);
      if x.fallbackShown.Some? { return Failed(x.fallbackShown.value); }
      r := Generate(x.fallbackCheck, x.generated, false);
    }

    /** The streamed request; a failure is the stream's, to be met by falling back, unless something says otherwise. */
    method Stream(x: Exchange) returns (r: Outcome)
      requires callbackFailure == None && !partSeen
      modifies this
      ensures Tells(Streamed(old(attempt), x), r) && (partSeen <==> Arrived in Streamed(old(attempt), x).trace)
    {
      hide Heard, ShowFailure, FallenBack, VisibleIf;
      StreamedArrives(attempt, x);
      VisibleAll(attempt, x.parts);
      ghost var begin := trace;
      Call(x.check);
      if x.check.Some? { return Failed(x.check.value); }
      trace := trace + [Checked, Dispatched];
      var shown := Fold(x.parts);
      if shown.Some? { return Failed(shown.value); }
      match x.streamEnd {
        case Whole(overflow) => return Settled(overflow, true);
        case Fails(failure) =>
          if partSeen || callbackFailure == Some(failure) || failure.turnError || failure.imageRejection || failure.permanent {
            return Failed(failure);
          }
        case Dies(turnError) =>
          if partSeen || turnError { return Died; }
      }
      ghost var fell := FallenBack(attempt, x).trace;
      r := FallBack(x);
      assert begin + [Checked, Dispatched] + Heard(x.parts) + fell == begin + ([Checked, Dispatched] + Heard(x.parts) + fell);
    }

    /** One attempt: a rendering of the step's messages, called once or streamed. */
    method Attempt(x: Exchange) returns (r: Outcome)
      requires callbackFailure == None
      modifies this
      ensures Tells(Attempted(settings, old(attempt), x), r) && (partSeen <==> Arrived in Attempted(settings, old(attempt), x).trace)
    {
      partSeen := false;
      trace := trace + [Began];
      Call(x.render);
      if x.render.Some? { return Failed(x.render.value); }
      var streamable := attempt.Streamable?;
      if settings.planned {
        r := Settled(false, streamable);
      } else if settings.streaming && streamable {
        r := Stream(x);
      } else {
        r := Generate(x.check, x.generated, streamable);
      }
    }

    /** The request with its recoveries; a callback's own failure, a defect and a turn error end it at once. */
    method Send(exchanges: nat -> Exchange) returns (r: Outcome)
      requires callbackFailure == None
      modifies this
      ensures Tells(Requested(settings, old(attempt), exchanges), r)
      decreases 2 - Spent(attempt), 1
    {
      hide Attempted, Recovering;
      ghost var begin := trace;
      var x := exchanges(Spent(attempt));
      AttemptSpends(settings, attempt, x);
      r := Attempt(x);
      match r {
        case Died =>
        case Settled(overflow, _) =>
          if overflow { r := Recover(OverflowRecovery, CONTEXT_OVERFLOW, x.hook, exchanges); }
        case Failed(failure) =>
          if failure.turnError || callbackFailure == Some(failure) {
          } else if failure.overflow {
            r := Recover(OverflowRecovery, failure, x.hook, exchanges);
          } else if !partSeen && failure.imageRejection {
            r := Recover(MediaRecovery, failure, x.hook, exchanges);
          }
      }
    }

    /** The recovery is claimed before its hook is asked, and only a granted hook that agrees sends again. */
    method Recover(kind: Recovery, failure: Failure, hook: Hook, exchanges: nat -> Exchange) returns (r: Outcome)
      requires callbackFailure == None
      modifies this
      ensures Tells(Recovering(settings, old(attempt), kind, failure, hook, exchanges), r)
      decreases 2 - Spent(attempt), 0
    {
      hide Requested;
      ghost var begin := trace;
      r := Failed(failure);
      var present := if kind.MediaRecovery? then settings.onMediaRejected else settings.onContextOverflow;
      if settings.planned || !present { return; }
      var claim := ClaimRecovery(attempt, kind);
      if !claim.0 { return; }
      attempt := claim.1;
      trace := trace + [Claimed(kind)];
      match hook {
        case Retry =>
          trace := trace + [Agreed(kind)];
          ghost var again := Requested(settings, attempt, exchanges).trace;
          r := Send(exchanges);
          assert begin + [Claimed(kind)] + [Agreed(kind)] + again == begin + ([Claimed(kind), Agreed(kind)] + again);
        case Decline =>
        case HookFails(own) =>
          Call(Some(own));
          r := Failed(own);
      }
    }
  }

  /** One step's request from its start, as the loop reads it. */
  method Request(settings: Settings, healthy: bool, exchanges: nat -> Exchange)
    returns (end: StepEnd, fellBack: bool, ghost trace: seq<Event>)
    ensures var told := Requested(settings, InitialAttempt(healthy), exchanges);
      end == Conclude(told.outcome, told.own) && trace == told.trace && (fellBack <==> FellBack in told.trace)
    ensures fellBack ==> healthy && settings.streaming
    ensures end.Responded? ==> (end.streamingHealthy <==> healthy && !fellBack)
    ensures Times(trace, Dispatched) <= 4 && forall kind :: Times(trace, Claimed(kind)) <= 1
    ensures end.Responded? && !settings.planned ==> Dispatched in trace
  {
    hide Times;
    var sender := new StepSender(settings, healthy);
    var r := sender.Send(exchanges);
    end := Conclude(r, sender.callbackFailure);
    trace := sender.trace;
    fellBack := healthy && sender.attempt.SettledOnly?;
    RequestBounded(settings, healthy, exchanges);
    RequestSpends(settings, InitialAttempt(healthy), exchanges);
  }
}
