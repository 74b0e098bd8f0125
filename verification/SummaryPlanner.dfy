/** The summary strategy: which turns one summary folds, and the guard of the paid call that writes it. */
module SummaryPlanner {
  import opened MemoryPolicy
  import opened Prelude

  // ---- the attempt guard ----

  /** One folding of one transcript in one run: the call is identified by its run, its first kept turn and its prompt. */
  datatype Frontier = Frontier(runId: string, keepFromTurn: nat, fingerprint: string)

  datatype SummaryAttempt = Ready(attempted: seq<Frontier>) | Running(frontier: Frontier, attempted: seq<Frontier>) | Failed

  function ClaimSummary(state: SummaryAttempt, frontier: Frontier): (bool, SummaryAttempt) {
    match state
    case Ready(attempted) =>
      if frontier in attempted then (false, state) else (true, Running(frontier, attempted + [frontier]))
    case Running(_, _) => (false, state)
    case Failed => (false, state)
  }

  function SettleSummary(state: SummaryAttempt, succeeded: bool): SummaryAttempt {
    match state
    case Ready(_) => state
    case Running(_, attempted) => if succeeded then Ready(attempted) else Failed
    case Failed => state
  }

  /** What callers do to the guard of one session, in any interleaving. */
  datatype Event = Claim(frontier: Frontier) | Settle(succeeded: bool)

  function After(state: SummaryAttempt, events: seq<Event>): SummaryAttempt {
    if events == [] then state
    else
      var before := After(state, events[..|events| - 1]);
      match events[|events| - 1]
      case Claim(frontier) => ClaimSummary(before, frontier).1
      case Settle(succeeded) => SettleSummary(before, succeeded)
  }

  /** The claims that were granted, each of which pays for one call. */
  function Granted(state: SummaryAttempt, events: seq<Event>): seq<Frontier> {
    if events == [] then []
    else
      var earlier := Granted(state, events[..|events| - 1]);
      match events[|events| - 1]
      case Claim(frontier) =>
        if ClaimSummary(After(state, events[..|events| - 1]), frontier).0 then earlier + [frontier] else earlier
      case Settle(_) => earlier
  }

  const OPENED := Ready([])

  /** No frontier is paid for twice in a session, and until a failure the guard remembers exactly what was. */
  lemma {:induction false} AskedOnce(events: seq<Event>)
    ensures NoDuplicates(Granted(OPENED, events))
    ensures match After(OPENED, events)
      case Ready(attempted) => attempted == Granted(OPENED, events)
      case Running(frontier, attempted) => attempted == Granted(OPENED, events) && attempted != [] && frontier == attempted[|attempted| - 1]
      case Failed => true
  {
    if events != [] {
      AskedOnce(events[..|events| - 1]);
    }
  }

  /** A claim is granted exactly when no call is out, none has failed, and this frontier was never asked. */
  lemma GrantedIff(events: seq<Event>, frontier: Frontier)
    ensures Granted(OPENED, events + [Claim(frontier)]) == Granted(OPENED, events) + [frontier]
            <==> After(OPENED, events).Ready? && frontier !in Granted(OPENED, events)
  {
    AskedOnce(events);
    assert (events + [Claim(frontier)])[..|events|] == events;
  }

  /** After a failure nothing is asked for the rest of the session. */
  lemma {:induction false} NothingAfterFailure(events: seq<Event>, i: nat)
    requires i <= |events| && After(OPENED, events[..i]).Failed?
    ensures After(OPENED, events).Failed? && Granted(OPENED, events) == Granted(OPENED, events[..i])
    decreases |events|
  {
    if i == |events| {
      assert events[..i] == events;
    } else {
      var front := events[..|events| - 1];
      assert front[..i] == events[..i];
      NothingAfterFailure(front, i);
    }
  }

  /** A failure is a failed call: the guard fails only by settling a granted claim without success. */
  lemma FailsBySettling(events: seq<Event>)
    requires events != [] && After(OPENED, events).Failed? && !After(OPENED, events[..|events| - 1]).Failed?
    ensures events[|events| - 1] == Settle(false) && After(OPENED, events[..|events| - 1]).Running?
  {
  }

  // ---- the log ----

  datatype Body = TurnStarted | Summarize(keepFromTurn: nat, summary: string) | Other(content: string)

  datatype Entry = Entry(turn: nat, body: Body)

  function CurrentTurn(entries: seq<Entry>): (r: nat)
    ensures forall e | e in entries && e.body.TurnStarted? :: e.turn <= r
  {
    if entries == [] then 0
    else
      var last := entries[|entries| - 1];
      var earlier := CurrentTurn(entries[..|entries| - 1]);
      assert entries == entries[..|entries| - 1] + [last];
      if last.body.TurnStarted? then Max(earlier, last.turn) else earlier
  }

  /** One batch: all its entries are of the turn it starts, or of the current one. */
  function Recorded(entries: seq<Entry>, bodies: seq<Body>): seq<Entry> {
    var current := CurrentTurn(entries);
    var turn := if TurnStarted in bodies then current + 1 else Max(current, 1);
    entries + seq(|bodies|, i requires 0 <= i < |bodies| => Entry(turn, bodies[i]))
  }

  // ---- the decision ----

  datatype Config = Config(summarizeAtStep: bool, triggerRatio: real, keepRatio: real, cooldownTurns: nat, instructions: string)

  datatype Signal = Signal(phase: Phase, budgetTokens: nat, runId: string)

  datatype Prior = Prior(turn: nat, keepFromTurn: nat, summary: string)

  function LatestSummary(entries: seq<Entry>): Option<Prior> {
    if entries == [] then None
    else
      var last := entries[|entries| - 1];
      match last.body
      case Summarize(keepFromTurn, summary) => Some(Prior(last.turn, keepFromTurn, summary))
      case _ => LatestSummary(entries[..|entries| - 1])
  }

  /** The first turn no summary covers. */
  function PriorKeep(entries: seq<Entry>): nat {
    match LatestSummary(entries) case None => 1 case Some(prior) => prior.keepFromTurn
  }

  function Tail(entries: seq<Entry>, turn: nat): seq<Entry> {
    Filter((e: Entry) => e.turn >= turn, entries)
  }

  /** The reduce over turn, turn - 1, ..., 1. */
  function KeepReduce(entries: seq<Entry>, candidate: nat, kept: nat, keepTokens: real, tokens: seq<Entry> -> nat): nat
    decreases candidate
  {
    if candidate == 0 then kept
    else KeepReduce(entries, candidate - 1, if tokens(Tail(entries, candidate)) as real <= keepTokens then candidate else kept, keepTokens, tokens)
  }

  function KeepFrom(entries: seq<Entry>, turn: nat, keepTokens: real, tokens: seq<Entry> -> nat): nat {
    KeepReduce(entries, turn, turn, keepTokens, tokens)
  }

  predicate TailFits(entries: seq<Entry>, candidate: nat, keepTokens: real, tokens: seq<Entry> -> nat) {
    tokens(Tail(entries, candidate)) as real <= keepTokens
  }

  /** The earliest turn whose tail fits the kept share, or the current turn when none does. */
  lemma {:induction false} KeepReduceIs(
      entries: seq<Entry>, candidate: nat, kept: nat, keepTokens: real, tokens: seq<Entry> -> nat)
    ensures var r := KeepReduce(entries, candidate, kept, keepTokens, tokens);
      && (r == kept || (1 <= r <= candidate && TailFits(entries, r, keepTokens, tokens)))
      && (forall c | 1 <= c <= candidate && TailFits(entries, c, keepTokens, tokens) :: 1 <= r <= c)
    decreases candidate
  {
    if candidate != 0 {
      KeepReduceIs(entries, candidate - 1, if TailFits(entries, candidate, keepTokens, tokens) then candidate else kept, keepTokens, tokens);
    }
  }

  lemma KeepFromIs(entries: seq<Entry>, turn: nat, keepTokens: real, tokens: seq<Entry> -> nat)
    ensures var r := KeepFrom(entries, turn, keepTokens, tokens);
      && r <= turn && (turn > 0 ==> r > 0)
      && (r == turn || TailFits(entries, r, keepTokens, tokens))
      && (forall c | 1 <= c <= turn && TailFits(entries, c, keepTokens, tokens) :: r <= c)
  {
    KeepReduceIs(entries, turn, turn, keepTokens, tokens);
  }

  /** The turns one summary folds, and the earlier summary it takes in. */
  datatype Proposal = Proposal(from: nat, folded: seq<Entry>, earlier: Option<string>)

  predicate Normal(config: Config, phase: Phase) {
    phase.TurnStart? || (if config.summarizeAtStep then phase.Step? else phase.TurnEnd?)
  }

  predicate Cooling(config: Config, entries: seq<Entry>) {
    match LatestSummary(entries)
    case None => false
    case Some(prior) => CurrentTurn(entries) - prior.turn < config.cooldownTurns
  }

  function Between(entries: seq<Entry>, from: nat, until: nat): seq<Entry> {
    Filter((e: Entry) => from <= e.turn < until, entries)
  }

  /** The share of the budget that stays verbatim. */
  function KeepTokens(config: Config, signal: Signal): real {
    signal.budgetTokens as real * config.keepRatio
  }

  function Propose(config: Config, entries: seq<Entry>, signal: Signal, tokens: seq<Entry> -> nat): Option<Proposal> {
    var force := signal.phase.Overflow?;
    if !force && !Normal(config, signal.phase) then None
    else if !force && (tokens(entries) as real <= signal.budgetTokens as real * config.triggerRatio || Cooling(config, entries)) then None
    else
      var from := KeepFrom(entries, CurrentTurn(entries), KeepTokens(config, signal), tokens);
      if from <= PriorKeep(entries) then None
      else Some(Proposal(
                  from, Between(entries, PriorKeep(entries), from),
                  match LatestSummary(entries) case None => None case Some(prior) => Some(prior.summary)))
  }

  /** The summary as an action, if there is one and it makes the request smaller. */
  function Accept(entries: seq<Entry>, from: nat, reply: Option<string>, tokens: seq<Entry> -> nat): Option<Body> {
    match reply
    case None => None
    case Some(summary) =>
      if summary == "" then None
      else if tokens(entries + [Entry(0, Summarize(from, summary))]) < tokens(entries) then Some(Summarize(from, summary))
      else None
  }

  // ---- the log over a session ----

  predicate Rising(entries: seq<Entry>) {
    forall i, j | 0 <= i < j < |entries| :: entries[i].turn <= entries[j].turn
  }

  predicate TurnsOrdered(entries: seq<Entry>) {
    (forall e | e in entries :: 1 <= e.turn <= Max(CurrentTurn(entries), 1)) && Rising(entries)
  }

  /** The first kept turns of the recorded summaries, in order. */
  function Keeps(entries: seq<Entry>): seq<nat> {
    if entries == [] then []
    else
      var earlier := Keeps(entries[..|entries| - 1]);
      match entries[|entries| - 1].body
      case Summarize(keepFromTurn, _) => earlier + [keepFromTurn]
      case _ => earlier
  }

  /** Turn 1, then the first kept turns: summary k folds the turns from bound k up to bound k + 1. */
  function Bounds(entries: seq<Entry>): (r: seq<nat>)
    ensures |r| == |Keeps(entries)| + 1
  {
    [1] + Keeps(entries)
  }

  predicate Increasing(turns: seq<nat>) {
    forall i, j | 0 <= i < j < |turns| :: turns[i] < turns[j]
  }

  /**
   * Summaries advance: each keeps from a later turn than the one before it, none from past the current turn, and each
   * folded exactly the entries of its turns.
   */
  ghost predicate Advancing(entries: seq<Entry>, folds: seq<seq<Entry>>) {
    && Increasing(Bounds(entries))
    && PriorKeep(entries) == Bounds(entries)[|Keeps(entries)|] <= Max(CurrentTurn(entries), 1)
    && |folds| == |Keeps(entries)|
    && forall k | 0 <= k < |folds| :: Folds(entries, k, folds[k])
  }

  /** Whether the slice is the entries of the turns summary k folds. */
  predicate Folds(entries: seq<Entry>, k: nat, slice: seq<Entry>) {
    k < |Keeps(entries)| && slice == Between(entries, Bounds(entries)[k], Bounds(entries)[k + 1])
  }

  lemma {:induction false} AppendAll(entries: seq<Entry>, turn: nat, bodies: seq<Body>)
    requires turn >= CurrentTurn(entries)
    ensures var all := entries + seq(|bodies|, i requires 0 <= i < |bodies| => Entry(turn, bodies[i]));
      && CurrentTurn(all) == (if TurnStarted in bodies then turn else CurrentTurn(entries))
      && ((forall b | b in bodies :: !b.Summarize?) ==> Keeps(all) == Keeps(entries) && LatestSummary(all) == LatestSummary(entries))
    decreases |bodies|
  {
    var all := entries + seq(|bodies|, i requires 0 <= i < |bodies| => Entry(turn, bodies[i]));
    if bodies == [] {
      assert all == entries;
    } else {
      var front := bodies[..|bodies| - 1];
      assert bodies == front + [bodies[|bodies| - 1]];
      AppendAll(entries, turn, front);
      assert all[..|all| - 1] == entries + seq(|front|, i requires 0 <= i < |front| => Entry(turn, front[i]));
    }
  }

  /** Entries of later turns do not change what earlier turns hold. */
  lemma {:induction false} BetweenAppend(entries: seq<Entry>, more: seq<Entry>, from: nat, until: nat)
    ensures Between(entries + more, from, until) == Between(entries, from, until) + Between(more, from, until)
  {
    if entries == [] {
      assert entries + more == more;
    } else {
      BetweenAppend(entries[1..], more, from, until);
      assert (entries + more)[1..] == entries[1..] + more;
    }
  }

  lemma {:induction false} BetweenNone(entries: seq<Entry>, from: nat, until: nat)
    requires forall e | e in entries :: e.turn >= until
    ensures Between(entries, from, until) == []
  {
    if entries != [] {
      BetweenNone(entries[1..], from, until);
    }
  }

  lemma TurnsKept(entries: seq<Entry>, bodies: seq<Body>)
    requires TurnsOrdered(entries)
    ensures TurnsOrdered(Recorded(entries, bodies))
    ensures CurrentTurn(Recorded(entries, bodies)) == CurrentTurn(entries) + if TurnStarted in bodies then 1 else 0
  {
    hide CurrentTurn, Keeps, LatestSummary;
    var current := CurrentTurn(entries);
    var turn := if TurnStarted in bodies then current + 1 else Max(current, 1);
    AppendAll(entries, turn, bodies);
    var all := Recorded(entries, bodies);
    assert forall i | 0 <= i < |entries| :: entries[i] in entries;
    assert forall i | 0 <= i < |all| :: if i < |entries| then all[i] == entries[i] else all[i].turn == turn;
  }

  /** Recording anything but a summary keeps the summaries advancing. */
  lemma RecordAdvances(entries: seq<Entry>, bodies: seq<Body>, folds: seq<seq<Entry>>)
    requires TurnsOrdered(entries) && Advancing(entries, folds)
    requires forall b | b in bodies :: !b.Summarize?
    ensures Advancing(Recorded(entries, bodies), folds)
  {
    hide Folds, TurnsOrdered, LatestSummary, Keeps, CurrentTurn;
    OtherRecorded(entries, bodies);
    TurnsKept(entries, bodies);
    forall k | 0 <= k < |folds| ensures Folds(Recorded(entries, bodies), k, folds[k]) {
      SliceStays(entries, bodies, folds, k);
    }
  }

  lemma OtherRecorded(entries: seq<Entry>, bodies: seq<Body>)
    requires forall b | b in bodies :: !b.Summarize?
    ensures var all := Recorded(entries, bodies);
      && Keeps(all) == Keeps(entries) && Bounds(all) == Bounds(entries) && PriorKeep(all) == PriorKeep(entries)
      && CurrentTurn(all) >= CurrentTurn(entries)
  {
    hide Keeps, LatestSummary, CurrentTurn;
    var current := CurrentTurn(entries);
    AppendAll(entries, if TurnStarted in bodies then current + 1 else Max(current, 1), bodies);
  }

  lemma SliceStays(entries: seq<Entry>, bodies: seq<Body>, folds: seq<seq<Entry>>, k: nat)
    requires Advancing(entries, folds) && k < |folds| && forall b | b in bodies :: !b.Summarize?
    ensures Folds(Recorded(entries, bodies), k, folds[k])
  {
    hide Between, Keeps, LatestSummary, CurrentTurn;
    assert Folds(entries, k, folds[k]);
    OtherRecorded(entries, bodies);
    var current := CurrentTurn(entries);
    LaterKeeps(entries, Recorded(entries, bodies), if TurnStarted in bodies then current + 1 else Max(current, 1),
               Bounds(entries)[k], Bounds(entries)[k + 1]);
  }

  lemma LaterKeeps(entries: seq<Entry>, all: seq<Entry>, turn: nat, from: nat, until: nat)
    requires entries <= all && forall e | e in all[|entries|..] :: e.turn == turn
    requires until <= turn
    ensures Between(all, from, until) == Between(entries, from, until)
  {
    var more := all[|entries|..];
    assert all == entries + more;
    BetweenAppend(entries, more, from, until);
    BetweenNone(more, from, until);
  }

  /** Recording the proposed summary advances them by one. */
  lemma SummaryAdvances(entries: seq<Entry>, folds: seq<seq<Entry>>, from: nat, summary: string)
    requires TurnsOrdered(entries) && Advancing(entries, folds)
    requires PriorKeep(entries) < from <= CurrentTurn(entries)
    ensures var all := Recorded(entries, [Summarize(from, summary)]);
      && Advancing(all, folds + [Between(entries, PriorKeep(entries), from)])
      && Keeps(all) == Keeps(entries) + [from]
  {
    hide Between, Folds;
    var all := Recorded(entries, [Summarize(from, summary)]);
    SummaryRecorded(entries, from, summary);
    var more := folds + [Between(entries, PriorKeep(entries), from)];
    forall k | 0 <= k < |more| ensures Folds(all, k, more[k]) {
      SliceKept(entries, folds, from, summary, k);
    }
  }

  lemma SummaryRecorded(entries: seq<Entry>, from: nat, summary: string)
    ensures var all := Recorded(entries, [Summarize(from, summary)]);
      && CurrentTurn(all) == CurrentTurn(entries)
      && Keeps(all) == Keeps(entries) + [from] && Bounds(all) == Bounds(entries) + [from]
      && PriorKeep(all) == from
  {
    var all := Recorded(entries, [Summarize(from, summary)]);
    AppendAll(entries, Max(CurrentTurn(entries), 1), [Summarize(from, summary)]);
    assert all[..|all| - 1] == entries;
  }

  lemma SliceKept(entries: seq<Entry>, folds: seq<seq<Entry>>, from: nat, summary: string, k: nat)
    requires Advancing(entries, folds) && PriorKeep(entries) < from <= CurrentTurn(entries) && k <= |folds|
    ensures var all := Recorded(entries, [Summarize(from, summary)]);
      Folds(all, k, if k < |folds| then folds[k] else Between(entries, PriorKeep(entries), from))
  {
    hide Between;
    var all := Recorded(entries, [Summarize(from, summary)]);
    SummaryRecorded(entries, from, summary);
    assert k < |folds| ==> Folds(entries, k, folds[k]);
    LaterKeeps(entries, all, Max(CurrentTurn(entries), 1), Bounds(all)[k], Bounds(all)[k + 1]);
  }

  // ---- the folded slices are a partition ----

  function Concat(parts: seq<seq<Entry>>): seq<Entry> {
    if parts == [] then [] else Concat(parts[..|parts| - 1]) + parts[|parts| - 1]
  }

  lemma {:induction false} BetweenJoins(entries: seq<Entry>, from: nat, mid: nat, until: nat)
    requires from <= mid <= until && Rising(entries)
    ensures Between(entries, from, mid) + Between(entries, mid, until) == Between(entries, from, until)
  {
    hide Rising;
    if entries != [] {
      RestRises(entries);
      BetweenJoins(entries[1..], from, mid, until);
      if entries[0].turn >= mid { BetweenNone(entries[1..], from, mid); }
    }
  }

  lemma RestRises(entries: seq<Entry>)
    requires Rising(entries) && entries != []
    ensures Rising(entries[1..])
    ensures forall e | e in entries[1..] :: entries[0].turn <= e.turn
  {
    forall i, j | 0 <= i < j < |entries[1..]| ensures entries[1..][i].turn <= entries[1..][j].turn {
      assert entries[i + 1].turn <= entries[j + 1].turn;
    }
  }

  /** Together the folded slices are the log before the first kept turn: no entry is folded twice, none is left out. */
  lemma {:induction false} SlicesPartition(entries: seq<Entry>, folds: seq<seq<Entry>>, n: nat)
    requires TurnsOrdered(entries) && Advancing(entries, folds) && n <= |folds|
    ensures Concat(folds[..n]) == Between(entries, 1, Bounds(entries)[n])
    decreases n
  {
    if n == 0 {
      BetweenEmpty(entries, 1);
    } else {
      SlicesPartition(entries, folds, n - 1);
      assert folds[..n][..n - 1] == folds[..n - 1];
      assert Folds(entries, n - 1, folds[n - 1]);
      assert Bounds(entries)[0] <= Bounds(entries)[n - 1] < Bounds(entries)[n];
      BetweenJoins(entries, 1, Bounds(entries)[n - 1], Bounds(entries)[n]);
    }
  }

  lemma {:induction false} BetweenEmpty(entries: seq<Entry>, turn: nat)
    ensures Between(entries, turn, turn) == []
  {
    if entries != [] {
      BetweenEmpty(entries[1..], turn);
    }
  }

  // ---- one session over the log ----

  datatype Reply = Answered(text: string) | CallFailed

  class SummarySession {
    var entries: seq<Entry>
    var attempt: SummaryAttempt
    /** The calls paid for, in order, and what each recorded summary folded. */
    ghost var asked: seq<Frontier>
    ghost var folds: seq<seq<Entry>>

    ghost predicate Valid()
      reads this
    {
      && TurnsOrdered(entries) && Advancing(entries, folds)
      && NoDuplicates(asked)
      && (attempt.Ready? ==> attempt.attempted == asked)
      && !attempt.Running?
    }

    /** A session over a stored log. */
    constructor (stored: seq<Entry>, ghost folded: seq<seq<Entry>>)
      requires TurnsOrdered(stored) && Advancing(stored, folded)
      ensures Valid() && entries == stored && folds == folded && asked == [] && attempt == OPENED
    {
      entries, attempt, asked, folds := stored, OPENED, [], folded;
    }

    method Record(bodies: seq<Body>)
      requires Valid()
      requires forall b | b in bodies :: !b.Summarize?
      modifies this`entries
      ensures Valid() && entries == Recorded(old(entries), bodies)
    {
      hide TurnsOrdered, Advancing, Recorded, NoDuplicates;
      TurnsKept(entries, bodies);
      RecordAdvances(entries, bodies, folds);
      entries := Recorded(entries, bodies);
    }

    /** The claim, the paid call and its settlement; None when the call was declined, failed, or timed out. */
    method Ask(frontier: Frontier, reply: Reply) returns (text: Option<string>)
      requires Valid()
      modifies this`attempt, this`asked
      ensures Valid()
      ensures asked == if old(attempt).Ready? && frontier !in old(asked) then old(asked) + [frontier] else old(asked)
      ensures text == if asked != old(asked) && reply.Answered? then Some(reply.text) else None
      ensures attempt.Failed? <==> old(attempt).Failed? || (asked != old(asked) && reply.CallFailed?)
    {
      var claim := ClaimSummary(attempt, frontier);
      attempt := claim.1;
      if claim.0 {
        asked := asked + [frontier];
        attempt := SettleSummary(attempt, reply.Answered?);
        text := if reply.Answered? then Some(reply.text) else None;
      } else {
        text := None;
      }
    }

    method Maintain(config: Config, signal: Signal, tokens: seq<Entry> -> nat, prompt: Proposal -> string, reply: Reply)
      returns (recorded: Option<Body>)
      requires Valid()
      modifies this
      ensures Valid()
      ensures entries == match recorded case None => old(entries) case Some(body) => Recorded(old(entries), [body])
      ensures match Propose(config, old(entries), signal, tokens)
        case None => recorded == None && asked == old(asked) && folds == old(folds) && attempt == old(attempt)
        case Some(proposal) =>
          var frontier := Frontier(signal.runId, proposal.from, prompt(proposal));
          && asked == (if old(attempt).Ready? && frontier !in old(asked) then old(asked) + [frontier] else old(asked))
          && (recorded.Some? <==>
                asked != old(asked) && reply.Answered? && Accept(old(entries), proposal.from, Some(reply.text), tokens).Some?)
          && (recorded.Some? ==>
                && recorded == Accept(old(entries), proposal.from, Some(reply.text), tokens)
                && folds == old(folds) + [proposal.folded] && Keeps(entries) == Keeps(old(entries)) + [proposal.from])
          && (recorded.None? ==> folds == old(folds))
          && (attempt.Failed? <==> old(attempt).Failed? || (asked != old(asked) && reply.CallFailed?))
    {
      hide Propose, Between, Advancing, TurnsOrdered, Recorded, CurrentTurn, Keeps, LatestSummary;
      recorded := None;
      var proposed := Propose(config, entries, signal, tokens);
      if proposed.Some? {
        var proposal := proposed.value;
        var text := Ask(Frontier(signal.runId, proposal.from, prompt(proposal)), reply);
        recorded := Accept(entries, proposal.from, text, tokens);
        if recorded.Some? {
          ProposalIs(config, entries, signal, tokens);
          SummaryAdvances(entries, folds, proposal.from, text.value);
          TurnsKept(entries, [recorded.value]);
          folds := folds + [proposal.folded];
          entries := Recorded(entries, [recorded.value]);
        }
      }
    }
  }

  /** A proposal keeps from a later turn than the last summary and never folds the current turn. */
  lemma ProposalIs(config: Config, entries: seq<Entry>, signal: Signal, tokens: seq<Entry> -> nat)
    ensures var proposed := Propose(config, entries, signal, tokens);
      proposed.Some? ==>
        && PriorKeep(entries) < proposed.value.from <= CurrentTurn(entries)
        && proposed.value.folded == Between(entries, PriorKeep(entries), proposed.value.from)
        && (forall e | e in proposed.value.folded :: e.turn < CurrentTurn(entries))
        && (signal.phase.Overflow? || !Cooling(config, entries))
  {
    hide KeepFrom, KeepTokens, Between, Cooling;
    var keepTokens := KeepTokens(config, signal);
    KeepFromIs(entries, CurrentTurn(entries), keepTokens, tokens);
    var from := KeepFrom(entries, CurrentTurn(entries), keepTokens, tokens);
    assert from <= CurrentTurn(entries);
    BetweenTurns(entries, PriorKeep(entries), from);
  }

  lemma BetweenTurns(entries: seq<Entry>, from: nat, until: nat)
    ensures forall e | e in Between(entries, from, until) :: from <= e.turn < until
  {
  }
}
