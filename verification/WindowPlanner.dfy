/** The window strategy's plans: views of earlier turns, previews of the current turn's results, dropped turns. */
module WindowPlanner {
  import opened MemoryPolicy
  import opened Prelude

  type Id = nat

  datatype Action =
    | CompactViews(entries: seq<Id>, texts: seq<string>)
    | Spill(entry: Id, preview: string)
    | DropTurns(throughTurn: nat, ledger: string)

  datatype ToolResult = ToolResult(id: Id, turn: nat, toolName: string, view: string, pinned: bool)

  datatype Config = Config(compactPreviousTurn: bool, spillMinChars: nat, previewChars: nat, currentTurnFirst: bool)

  /** A log at one moment: its results, those already rewritten, and what the host computes from it. */
  datatype Input = Input(
    results: seq<ToolResult>, rewritten: set<Id>, turn: nat, phase: Phase, budget: int,
    compact: ToolResult -> Option<string>, ledger: nat -> string, tokens: seq<Action> -> int)

  datatype Decision = Actions(actions: seq<Action>) | OverBudget

  const RECALL_CONTEXT := "recall_context"

  const RECALL_PAGE_CHARS := 8000

  // ---- the actions a plan is made of ----

  predicate Older(config: Config, input: Input, r: ToolResult) {
    input.phase.TurnStart? && config.compactPreviousTurn && r.turn < input.turn && !r.pinned && r.id !in input.rewritten
  }

  /** The results whose compact view differs from the view shown. */
  function Compacted(input: Input, older: seq<ToolResult>): (r: seq<(Id, string)>)
    ensures forall c | c in r :: exists o | o in older :: o.id == c.0 && input.compact(o) == Some(c.1) && o.view != c.1
  {
    if older == [] then []
    else
      var rest := Compacted(input, older[1..]);
      match input.compact(older[0])
      case None => rest
      case Some(text) => if text != older[0].view then [(older[0].id, text)] + rest else rest
  }

  function Views(config: Config, input: Input): seq<Action> {
    var compacted := Compacted(input, Filter((r: ToolResult) => Older(config, input, r), input.results));
    if compacted == [] then []
    else [CompactViews(
            seq(|compacted|, i requires 0 <= i < |compacted| => compacted[i].0),
            seq(|compacted|, i requires 0 <= i < |compacted| => compacted[i].1))]
  }

  predicate Spillable(config: Config, input: Input, r: ToolResult) {
    && r.turn == input.turn && !r.pinned && r.toolName != RECALL_CONTEXT && r.id !in input.rewritten
    && |r.view| >= config.spillMinChars
  }

  function InsertByLength(r: ToolResult, sorted: seq<ToolResult>): (s: seq<ToolResult>)
    ensures multiset(s) == multiset(sorted) + multiset{r}
  {
    if sorted == [] then [r]
    else
      var last := sorted[|sorted| - 1];
      assert sorted == sorted[..|sorted| - 1] + [last];
      if |r.view| <= |last.view| then sorted + [r] else InsertByLength(r, sorted[..|sorted| - 1]) + [last]
  }

  /** Longest view first, in log order where lengths are equal. */
  function LongestFirst(results: seq<ToolResult>): (s: seq<ToolResult>)
    ensures multiset(s) == multiset(results)
  {
    if results == [] then []
    else
      assert results == results[..|results| - 1] + [results[|results| - 1]];
      InsertByLength(results[|results| - 1], LongestFirst(results[..|results| - 1]))
  }

  predicate LongestOrder(sorted: seq<ToolResult>) {
    forall i, j | 0 <= i < j < |sorted| :: |sorted[i].view| >= |sorted[j].view|
  }

  function OfLength(n: nat, results: seq<ToolResult>): seq<ToolResult> {
    Filter((r: ToolResult) => |r.view| == n, results)
  }

  lemma OneOfLength(n: nat, r: ToolResult)
    ensures OfLength(n, [r]) == if |r.view| == n then [r] else []
  {
  }

  lemma OfLengthAppends(n: nat, a: seq<ToolResult>, b: seq<ToolResult>)
    ensures OfLength(n, a + b) == OfLength(n, a) + OfLength(n, b)
  {
    FilterAppends((r: ToolResult) => |r.view| == n, a, b);
  }

  lemma LongestAppends(sorted: seq<ToolResult>, last: ToolResult)
    requires LongestOrder(sorted) && forall x | x in sorted :: |x.view| >= |last.view|
    ensures LongestOrder(sorted + [last])
  {
  }

  lemma LongestFront(sorted: seq<ToolResult>)
    requires LongestOrder(sorted) && sorted != []
    ensures LongestOrder(sorted[..|sorted| - 1])
    ensures forall x | x in sorted :: |x.view| >= |sorted[|sorted| - 1].view|
  {
  }

  lemma {:induction false} InsertByLengthSorts(r: ToolResult, sorted: seq<ToolResult>)
    requires LongestOrder(sorted)
    ensures LongestOrder(InsertByLength(r, sorted))
  {
    hide LongestOrder;
    if sorted == [] {
      NoneSorted();
      LongestAppends([], r);
      assert [] + [r] == [r];
    } else {
      var front, last := sorted[..|sorted| - 1], sorted[|sorted| - 1];
      LongestFront(sorted);
      if |r.view| <= |last.view| {
        LongestAppends(sorted, r);
      } else {
        var inserted := InsertByLength(r, front);
        InsertByLengthSorts(r, front);
        forall x | x in inserted ensures |x.view| >= |last.view| {
          assert x in multiset(front) + multiset{r};
        }
        LongestAppends(inserted, last);
      }
    }
  }

  lemma {:induction false} InsertByLengthKeeps(r: ToolResult, sorted: seq<ToolResult>, n: nat)
    requires LongestOrder(sorted)
    ensures OfLength(n, InsertByLength(r, sorted)) == OfLength(n, sorted + [r])
  {
    hide OfLength, LongestOrder;
    if sorted == [] {
      assert [] + [r] == [r];
    } else {
      var front, last := sorted[..|sorted| - 1], sorted[|sorted| - 1];
      if |r.view| > |last.view| {
        LongestFront(sorted);
        InsertByLengthKeeps(r, front, n);
        assert sorted == front + [last];
        OfLengthAppends(n, InsertByLength(r, front), [last]);
        OfLengthAppends(n, front, [last]);
        OfLengthAppends(n, front, [r]);
        OfLengthAppends(n, sorted, [r]);
        OneOfLength(n, r);
        OneOfLength(n, last);
      }
    }
  }

  /** The longest views come first, and equally long ones stay in the order of the log. */
  lemma {:induction false} LongestFirstSorts(results: seq<ToolResult>, n: nat)
    ensures multiset(LongestFirst(results)) == multiset(results) && LongestOrder(LongestFirst(results))
    ensures OfLength(n, LongestFirst(results)) == OfLength(n, results)
  {
    hide OfLength, LongestOrder;
    if results == [] {
      NoneSorted();
    } else {
      var front, last := results[..|results| - 1], results[|results| - 1];
      assert results == front + [last];
      LongestFirstSorts(front, n);
      InsertByLengthSorts(last, LongestFirst(front));
      InsertByLengthKeeps(last, LongestFirst(front), n);
      OfLengthAppends(n, front, [last]);
      OfLengthAppends(n, LongestFirst(front), [last]);
    }
  }

  lemma NoneSorted()
    ensures LongestOrder([])
  {
  }

  /** The preview without the sentence that says how to read on. */
  function Preview(config: Config, view: string): string {
    Take(view, config.previewChars)
  }

  function Spills(config: Config, input: Input): (r: seq<Action>)
    ensures forall a | a in r :: a.Spill?
  {
    var sorted := LongestFirst(Filter((r: ToolResult) => Spillable(config, input, r), input.results));
    seq(|sorted|, i requires 0 <= i < |sorted| => Spill(sorted[i].id, Preview(config, sorted[i].view)))
  }

  /** One drop for each prefix of the earlier turns, shortest first; the current turn is in none. */
  function Drops(input: Input): (r: seq<Action>)
    ensures forall i | 0 <= i < |r| :: r[i].DropTurns? && r[i].throughTurn == i + 1 && r[i].throughTurn < input.turn
    ensures |r| == Max(0, input.turn - 1)
  {
    seq(Max(0, input.turn - 1), (i: nat) => DropTurns(i + 1, input.ledger(i + 1)))
  }

  // ---- the search, over any base, spills, drops and budget test ----

  function FindFirst<T(!new)>(p: T -> bool, xs: seq<T>): (r: Option<T>)
    ensures r.Some? ==> p(r.value) && r.value in xs
    ensures r.None? ==> forall x | x in xs :: !p(x)
  {
    if xs == [] then None else if p(xs[0]) then Some(xs[0]) else FindFirst(p, xs[1..])
  }

  function Dropping(base: seq<Action>, drops: seq<Action>): (r: seq<seq<Action>>)
    ensures |r| == |drops| && forall i | 0 <= i < |r| :: r[i] == base + [drops[i]]
  {
    seq(|drops|, i requires 0 <= i < |drops| => base + [drops[i]])
  }

  /** The reduce over the spills: each is added while what there is so far is over. */
  function SpillWhileOver(actions: seq<Action>, spills: seq<Action>, over: seq<Action> -> bool): seq<Action>
    decreases |spills|
  {
    if spills == [] then actions
    else SpillWhileOver(if over(actions) then actions + [spills[0]] else actions, spills[1..], over)
  }

  function SpillFirst(views: seq<Action>, spills: seq<Action>, drops: seq<Action>, over: seq<Action> -> bool): Option<seq<Action>> {
    var spilled := SpillWhileOver(views, spills, over);
    if !over(spilled) then Some(spilled) else FindFirst((actions: seq<Action>) => !over(actions), Dropping(spilled, drops))
  }

  /** What one spill count of `currentFirst` finds. */
  function AtLevel(level: seq<Action>, drops: seq<Action>, over: seq<Action> -> bool): Option<seq<Action>> {
    if !over(level) then Some(level)
    else
      var candidates := Dropping(level, drops);
      if candidates == [] || over(candidates[|candidates| - 1]) then None
      else FindFirst((actions: seq<Action>) => !over(actions), candidates)
  }

  function CurrentFirstFrom(
      views: seq<Action>, spills: seq<Action>, drops: seq<Action>, over: seq<Action> -> bool, count: nat): Option<seq<Action>>
    requires count <= |spills|
    decreases |spills| - count
  {
    var found := AtLevel(views + spills[..count], drops, over);
    if found.Some? || count == |spills| then found else CurrentFirstFrom(views, spills, drops, over, count + 1)
  }

  function CurrentFirst(views: seq<Action>, spills: seq<Action>, drops: seq<Action>, over: seq<Action> -> bool): Option<seq<Action>> {
    CurrentFirstFrom(views, spills, drops, over, 0)
  }

  /** The reduce that keeps the cheapest, the earlier one where costs are equal. */
  function Cheapest(best: seq<Action>, candidates: seq<seq<Action>>, tokens: seq<Action> -> int): (r: seq<Action>)
    ensures tokens(r) <= tokens(best) && (r == best || (r in candidates && tokens(r) < tokens(best)))
    ensures forall c | c in candidates :: tokens(r) <= tokens(c)
    decreases |candidates|
  {
    if candidates == [] then best
    else Cheapest(if tokens(candidates[0]) < tokens(best) then candidates[0] else best, candidates[1..], tokens)
  }

  function Over(input: Input): seq<Action> -> bool {
    (actions: seq<Action>) => input.tokens(actions) > input.budget
  }

  function Search(config: Config, input: Input): Option<seq<Action>> {
    if config.currentTurnFirst then CurrentFirst(Views(config, input), Spills(config, input), Drops(input), Over(input))
    else SpillFirst(Views(config, input), Spills(config, input), Drops(input), Over(input))
  }

  function Decide(config: Config, input: Input): Decision {
    var views := Views(config, input);
    if input.tokens(views) <= input.budget then Actions(views)
    else
      match Search(config, input)
      case Some(plan) => Actions(plan)
      case None =>
        var spilled := views + Spills(config, input);
        if input.phase.TurnEnd? || input.phase.Overflow?
        then Actions(Cheapest([], [spilled] + Dropping(spilled, Drops(input)), input.tokens))
        else OverBudget
  }

  // ---- plans as two counts ----

  /** The first `spilled` spills and, unless `dropped` is 0, the drop of that many turns. */
  function Plan(views: seq<Action>, spills: seq<Action>, drops: seq<Action>, spilled: nat, dropped: nat): seq<Action>
    requires spilled <= |spills| && dropped <= |drops|
  {
    views + spills[..spilled] + if dropped == 0 then [] else [drops[dropped - 1]]
  }

  predicate Fits(
      views: seq<Action>, spills: seq<Action>, drops: seq<Action>, over: seq<Action> -> bool, spilled: nat, dropped: nat) {
    spilled <= |spills| && dropped <= |drops| && !over(Plan(views, spills, drops, spilled, dropped))
  }

  ghost predicate IsPlan(
      plan: Option<seq<Action>>, views: seq<Action>, spills: seq<Action>, drops: seq<Action>, over: seq<Action> -> bool,
      spilled: nat, dropped: nat) {
    && Fits(views, spills, drops, over, spilled, dropped)
    && plan == Some(Plan(views, spills, drops, spilled, dropped))
  }

  lemma {:induction false} StaysWithin(actions: seq<Action>, spills: seq<Action>, over: seq<Action> -> bool)
    requires !over(actions)
    ensures SpillWhileOver(actions, spills, over) == actions
  {
    if spills != [] {
      StaysWithin(actions, spills[1..], over);
    }
  }

  /** Spilling stops at the first count that fits, or with every spill made. */
  lemma {:induction false} SpillingFrom(
      views: seq<Action>, spills: seq<Action>, drops: seq<Action>, over: seq<Action> -> bool, from: nat)
      returns (spilled: nat)
    requires from <= |spills|
    ensures from <= spilled <= |spills|
    ensures SpillWhileOver(views + spills[..from], spills[from..], over) == Plan(views, spills, drops, spilled, 0)
    ensures forall s | from <= s < spilled :: !Fits(views, spills, drops, over, s, 0)
    ensures spilled < |spills| ==> Fits(views, spills, drops, over, spilled, 0)
    decreases |spills| - from
  {
    var base := views + spills[..from];
    assert Plan(views, spills, drops, from, 0) == base;
    if !over(base) {
      StaysWithin(base, spills[from..], over);
      spilled := from;
    } else if from == |spills| {
      spilled := from;
    } else {
      assert base + [spills[from]] == views + spills[..from + 1];
      assert spills[from..][1..] == spills[from + 1..];
      spilled := SpillingFrom(views, spills, drops, over, from + 1);
    }
  }

  /** The first candidate that fits is the one with the fewest dropped turns. */
  lemma FirstDrop(
      views: seq<Action>, spills: seq<Action>, drops: seq<Action>, over: seq<Action> -> bool, spilled: nat)
      returns (dropped: nat)
    requires spilled <= |spills|
    ensures var found := FindFirst((actions: seq<Action>) => !over(actions), Dropping(views + spills[..spilled], drops));
      if found.Some? then
        && dropped >= 1 && IsPlan(found, views, spills, drops, over, spilled, dropped)
        && forall d | 1 <= d < dropped :: !Fits(views, spills, drops, over, spilled, d)
      else forall d | 1 <= d :: !Fits(views, spills, drops, over, spilled, d)
  {
    var candidates := Dropping(views + spills[..spilled], drops);
    forall d | 1 <= d <= |drops| ensures Plan(views, spills, drops, spilled, d) == candidates[d - 1] && candidates[d - 1] in candidates {
    }
    var first := FirstIndex((actions: seq<Action>) => !over(actions), candidates);
    dropped := first + 1;
  }

  lemma {:induction false} FirstIndex<T(!new)>(p: T -> bool, xs: seq<T>) returns (i: nat)
    ensures FindFirst(p, xs).Some? ==> i < |xs| && FindFirst(p, xs) == Some(xs[i]) && forall j | 0 <= j < i :: !p(xs[j])
  {
    i := 0;
    if xs != [] && !p(xs[0]) {
      var rest := FirstIndex(p, xs[1..]);
      i := rest + 1;
    }
  }

  /**
   * What the default order finds, whatever the costs: the fewest spills that fit without a drop; failing that,
   * every spill and the fewest dropped turns that then fit.
   */
  lemma SpillFirstFinds(views: seq<Action>, spills: seq<Action>, drops: seq<Action>, over: seq<Action> -> bool)
      returns (spilled: nat, dropped: nat)
    ensures var found := SpillFirst(views, spills, drops, over);
      && (found.Some? <==> (exists s :: Fits(views, spills, drops, over, s, 0))
                           || exists d :: Fits(views, spills, drops, over, |spills|, d))
      && (found.Some? ==>
            && IsPlan(found, views, spills, drops, over, spilled, dropped)
            && (forall s | 0 <= s < spilled :: !Fits(views, spills, drops, over, s, 0))
            && (dropped > 0 ==> spilled == |spills|)
            && forall d | 0 <= d < dropped :: !Fits(views, spills, drops, over, spilled, d))
  {
    spilled := SpillingFrom(views, spills, drops, over, 0);
    assert views + spills[..0] == views && spills[0..] == spills;
    dropped := 0;
    var level := Plan(views, spills, drops, spilled, 0);
    assert level == views + spills[..spilled];
    if over(level) {
      dropped := FirstDrop(views, spills, drops, over, spilled);
    } else {
      assert Fits(views, spills, drops, over, spilled, 0);
    }
  }

  /** A spill count `currentFirst` stops at: it fits alone, or it does once all the earlier turns are dropped too. */
  predicate Stops(views: seq<Action>, spills: seq<Action>, drops: seq<Action>, over: seq<Action> -> bool, spilled: nat) {
    Fits(views, spills, drops, over, spilled, 0) || (drops != [] && Fits(views, spills, drops, over, spilled, |drops|))
  }

  lemma LevelFinds(views: seq<Action>, spills: seq<Action>, drops: seq<Action>, over: seq<Action> -> bool, spilled: nat)
      returns (dropped: nat)
    requires spilled <= |spills|
    ensures var found := AtLevel(views + spills[..spilled], drops, over);
      && (found.Some? <==> Stops(views, spills, drops, over, spilled))
      && (found.Some? ==>
            && IsPlan(found, views, spills, drops, over, spilled, dropped)
            && forall d | 0 <= d < dropped :: !Fits(views, spills, drops, over, spilled, d))
  {
    var level := views + spills[..spilled];
    assert Plan(views, spills, drops, spilled, 0) == level;
    dropped := 0;
    if over(level) {
      dropped := FirstDrop(views, spills, drops, over, spilled);
      if drops != [] {
        assert Plan(views, spills, drops, spilled, |drops|) == Dropping(level, drops)[|drops| - 1];
      }
    }
  }

  lemma {:induction false} CurrentFirstFindsFrom(
      views: seq<Action>, spills: seq<Action>, drops: seq<Action>, over: seq<Action> -> bool, count: nat)
      returns (spilled: nat, dropped: nat)
    requires count <= |spills|
    ensures var found := CurrentFirstFrom(views, spills, drops, over, count);
      && (found.Some? <==> exists s :: count <= s && Stops(views, spills, drops, over, s))
      && (found.Some? ==>
            && count <= spilled && IsPlan(found, views, spills, drops, over, spilled, dropped)
            && Stops(views, spills, drops, over, spilled)
            && (forall s | count <= s < spilled :: !Stops(views, spills, drops, over, s))
            && forall d | 0 <= d < dropped :: !Fits(views, spills, drops, over, spilled, d))
    decreases |spills| - count
  {
    hide Fits, Plan, AtLevel;
    spilled := count;
    dropped := LevelFinds(views, spills, drops, over, count);
    if !Stops(views, spills, drops, over, count) && count < |spills| {
      spilled, dropped := CurrentFirstFindsFrom(views, spills, drops, over, count + 1);
    } else if !Stops(views, spills, drops, over, count) {
      forall s | count <= s ensures !Stops(views, spills, drops, over, s) {
        StopsWithin(views, spills, drops, over, s);
      }
    }
  }

  lemma StopsWithin(views: seq<Action>, spills: seq<Action>, drops: seq<Action>, over: seq<Action> -> bool, s: nat)
    ensures Stops(views, spills, drops, over, s) ==> s <= |spills|
  {
  }

  /**
   * What the other order finds, whatever the costs: the first spill count that fits alone or with every earlier
   * turn dropped, and at that count the fewest dropped turns that fit.
   */
  lemma CurrentFirstFinds(views: seq<Action>, spills: seq<Action>, drops: seq<Action>, over: seq<Action> -> bool)
      returns (spilled: nat, dropped: nat)
    ensures var found := CurrentFirst(views, spills, drops, over);
      && (found.Some? <==> exists s :: Stops(views, spills, drops, over, s))
      && (found.Some? ==>
            && IsPlan(found, views, spills, drops, over, spilled, dropped)
            && (forall s | 0 <= s < spilled :: !Stops(views, spills, drops, over, s))
            && forall d | 0 <= d < dropped :: !Fits(views, spills, drops, over, spilled, d))
  {
    spilled, dropped := CurrentFirstFindsFrom(views, spills, drops, over, 0);
  }

  // ---- optimal where one more spill or one more dropped turn never raises the cost ----

  /** Whatever fits still fits with one more spill made or one more turn dropped. */
  ghost predicate Monotone(views: seq<Action>, spills: seq<Action>, drops: seq<Action>, over: seq<Action> -> bool) {
    forall s: nat, d: nat, t: nat, e: nat | Fits(views, spills, drops, over, s, d) && s <= t <= |spills| && d <= e <= |drops| ::
      Fits(views, spills, drops, over, t, e)
  }

  ghost predicate SomePlanFits(views: seq<Action>, spills: seq<Action>, drops: seq<Action>, over: seq<Action> -> bool) {
    exists s, d :: Fits(views, spills, drops, over, s, d)
  }

  /** The default order then drops the fewest turns any fitting plan drops, and where none is dropped makes the fewest spills. */
  lemma SpillFirstOptimal(views: seq<Action>, spills: seq<Action>, drops: seq<Action>, over: seq<Action> -> bool)
      returns (spilled: nat, dropped: nat)
    requires Monotone(views, spills, drops, over)
    ensures var found := SpillFirst(views, spills, drops, over);
      && (found.Some? <==> SomePlanFits(views, spills, drops, over))
      && (found.Some? ==>
            && IsPlan(found, views, spills, drops, over, spilled, dropped)
            && (forall s, d | Fits(views, spills, drops, over, s, d) :: dropped <= d && (dropped == 0 && d == 0 ==> spilled <= s)))
  {
    hide Plan, SpillFirst;
    spilled, dropped := SpillFirstFinds(views, spills, drops, over);
    forall s: nat, d: nat | Fits(views, spills, drops, over, s, d)
      ensures Fits(views, spills, drops, over, |spills|, d)
    {
    }
  }

  /** Current turn first then makes the fewest spills any fitting plan makes, and at that count drops the fewest turns. */
  lemma CurrentFirstOptimal(views: seq<Action>, spills: seq<Action>, drops: seq<Action>, over: seq<Action> -> bool)
      returns (spilled: nat, dropped: nat)
    requires Monotone(views, spills, drops, over)
    ensures var found := CurrentFirst(views, spills, drops, over);
      && (found.Some? <==> SomePlanFits(views, spills, drops, over))
      && (found.Some? ==>
            && IsPlan(found, views, spills, drops, over, spilled, dropped)
            && (forall s, d | Fits(views, spills, drops, over, s, d) :: spilled <= s && (spilled == s ==> dropped <= d)))
  {
    hide Plan, CurrentFirst;
    spilled, dropped := CurrentFirstFinds(views, spills, drops, over);
    forall s: nat, d: nat | Fits(views, spills, drops, over, s, d) ensures Stops(views, spills, drops, over, s) {
      assert Fits(views, spills, drops, over, s, |drops|);
    }
  }

  /** So the two orders find a plan in exactly the same cases. */
  lemma OrdersAgree(views: seq<Action>, spills: seq<Action>, drops: seq<Action>, over: seq<Action> -> bool)
    requires Monotone(views, spills, drops, over)
    ensures SpillFirst(views, spills, drops, over).Some? <==> CurrentFirst(views, spills, drops, over).Some?
  {
    var s, d := SpillFirstOptimal(views, spills, drops, over);
    var t, e := CurrentFirstOptimal(views, spills, drops, over);
  }

  /** Where a longer ledger costs more they need not: one dropped turn fits, the two that could be dropped do not. */
  lemma OrdersMayDiffer(one: Action, two: Action)
    requires one != two
    ensures exists over :: SpillFirst([], [], [one, two], over) == Some([one]) && CurrentFirst([], [], [one, two], over) == None
  {
    var over := (actions: seq<Action>) => actions != [one];
    var candidates := Dropping([], [one, two]);
    assert candidates[0] == [one] && candidates[1] == [two];
    assert SpillFirst([], [], [one, two], over) == Some([one]);
    assert AtLevel([], [one, two], over) == None;
    assert CurrentFirst([], [], [one, two], over) == None;
  }

  /** If neither another spill nor another dropped turn raises the cost, budgets are monotone. */
  lemma CostFallsMonotone(input: Input, views: seq<Action>, spills: seq<Action>, drops: seq<Action>)
    requires forall s: nat, d: nat, t: nat, e: nat | s <= t <= |spills| && d <= e <= |drops| ::
      input.tokens(Plan(views, spills, drops, t, e)) <= input.tokens(Plan(views, spills, drops, s, d))
    ensures Monotone(views, spills, drops, Over(input))
  {
  }

  // ---- every decision ----

  ghost predicate CompactsTo(config: Config, input: Input, id: Id, text: string) {
    exists r | r in input.results :: Older(config, input, r) && r.id == id && input.compact(r) == Some(text)
  }

  /** What an action may do: earlier results compacted, current results spilled, earlier turns dropped. */
  ghost predicate Allowed(config: Config, input: Input, a: Action) {
    match a
    case CompactViews(ids, texts) =>
      && |ids| == |texts|
      && forall i | 0 <= i < |ids| :: CompactsTo(config, input, ids[i], texts[i])
    case Spill(id, preview) =>
      exists r | r in input.results :: Spillable(config, input, r) && r.id == id && preview == Take(r.view, config.previewChars)
    case DropTurns(through, ledger) => 1 <= through < input.turn && ledger == input.ledger(through)
  }

  lemma ViewsAllowed(config: Config, input: Input)
    ensures forall a | a in Views(config, input) :: Allowed(config, input, a)
  {
    var older := Filter((r: ToolResult) => Older(config, input, r), input.results);
    var compacted := Compacted(input, older);
    if compacted != [] {
      var view := Views(config, input)[0];
      forall i | 0 <= i < |compacted| ensures CompactsTo(config, input, view.entries[i], view.texts[i]) {
        assert compacted[i] in compacted;
        var r :| r in older && r.id == compacted[i].0 && input.compact(r) == Some(compacted[i].1);
        assert r in input.results && Older(config, input, r);
      }
      assert Allowed(config, input, view);
      assert Views(config, input) == [view];
    }
  }

  lemma SpillsAllowed(config: Config, input: Input)
    ensures forall a | a in Spills(config, input) :: Allowed(config, input, a)
  {
    var chosen := Filter((r: ToolResult) => Spillable(config, input, r), input.results);
    var sorted := LongestFirst(chosen);
    forall i | 0 <= i < |sorted| ensures sorted[i] in chosen {
      assert sorted[i] in multiset(sorted);
    }
  }

  lemma DropsAllowed(config: Config, input: Input)
    ensures forall a | a in Drops(input) :: Allowed(config, input, a)
  {
  }

  lemma PlanAllowed(config: Config, input: Input, spilled: nat, dropped: nat)
    requires spilled <= |Spills(config, input)| && dropped <= |Drops(input)|
    ensures var plan := Plan(Views(config, input), Spills(config, input), Drops(input), spilled, dropped);
      forall a | a in plan :: Allowed(config, input, a)
  {
    hide Allowed, Views, Spills, Drops;
    ViewsAllowed(config, input);
    SpillsAllowed(config, input);
    DropsAllowed(config, input);
  }

  lemma SearchFinds(config: Config, input: Input) returns (spilled: nat, dropped: nat)
    ensures Search(config, input).Some? ==>
      IsPlan(Search(config, input), Views(config, input), Spills(config, input), Drops(input), Over(input), spilled, dropped)
    ensures !Over(input)(Views(config, input)) ==> Search(config, input) == Some(Views(config, input))
  {
    hide Views, Spills, Drops, Over, Fits, Plan, CurrentFirst, SpillFirst;
    var views, spills, drops, over := Views(config, input), Spills(config, input), Drops(input), Over(input);
    if config.currentTurnFirst {
      spilled, dropped := CurrentFirstFinds(views, spills, drops, over);
    } else {
      spilled, dropped := SpillFirstFinds(views, spills, drops, over);
    }
    if !over(views) {
      ViewsFound(views, spills, drops, over);
    }
  }

  lemma ViewsFound(views: seq<Action>, spills: seq<Action>, drops: seq<Action>, over: seq<Action> -> bool)
    requires !over(views)
    ensures SpillFirst(views, spills, drops, over) == Some(views) && CurrentFirst(views, spills, drops, over) == Some(views)
  {
    StaysWithin(views, spills, over);
    assert views + spills[..0] == views;
  }

  /** The plan of some spill and drop counts. */
  ghost predicate OfCounts(config: Config, input: Input, actions: seq<Action>) {
    exists s: nat, d: nat | s <= |Spills(config, input)| && d <= |Drops(input)| ::
      actions == Plan(Views(config, input), Spills(config, input), Drops(input), s, d)
  }

  /**
   * With no assumption on costs: a decision does only what is allowed (no action reaches the current turn's messages,
   * and a drop ends before it), it fits the budget or is the fallback, and the fallback costs no more than doing
   * nothing, than every spill, or than every spill with any number of dropped turns. The failure is kept for the two
   * phases that send a request next.
   */
  lemma DecideSound(config: Config, input: Input)
    ensures match Decide(config, input)
      case Actions(actions) =>
        && (forall a | a in actions :: Allowed(config, input, a))
        && (input.tokens(Views(config, input)) <= input.budget ==> actions == Views(config, input))
        && (if Search(config, input).Some? then input.tokens(actions) <= input.budget && OfCounts(config, input, actions)
            else (input.phase.TurnEnd? || input.phase.Overflow?) && Fallback(config, input, actions))
      case OverBudget => Search(config, input).None? && (input.phase.TurnStart? || input.phase.Step?)
  {
    hide Allowed, Views, Spills, Drops, Search, Plan;
    var spilled, dropped := SearchFinds(config, input);
    if Search(config, input).Some? {
      PlanAllowed(config, input, spilled, dropped);
    } else if input.phase.TurnEnd? || input.phase.Overflow? {
      FallbackSound(config, input);
    }
    ViewsAllowed(config, input);
  }

  /** Nothing, or some plan with every spill, and cheapest of those. */
  ghost predicate Fallback(config: Config, input: Input, actions: seq<Action>) {
    var spills, drops := Spills(config, input), Drops(input);
    && (actions == [] || exists d | 0 <= d <= |drops| :: actions == Plan(Views(config, input), spills, drops, |spills|, d))
    && input.tokens(actions) <= input.tokens([])
    && forall d | 0 <= d <= |drops| :: input.tokens(actions) <= input.tokens(Plan(Views(config, input), spills, drops, |spills|, d))
  }

  /** With every spill, without a drop or with one: what the fallback chooses from. */
  function Candidates(views: seq<Action>, spills: seq<Action>, drops: seq<Action>): seq<seq<Action>> {
    [views + spills] + Dropping(views + spills, drops)
  }

  lemma CandidatesAre(views: seq<Action>, spills: seq<Action>, drops: seq<Action>)
    ensures |Candidates(views, spills, drops)| == |drops| + 1
    ensures forall d | 0 <= d <= |drops| :: Candidates(views, spills, drops)[d] == Plan(views, spills, drops, |spills|, d)
  {
    assert spills[..|spills|] == spills;
  }

  lemma CheapestPlan(views: seq<Action>, spills: seq<Action>, drops: seq<Action>, tokens: seq<Action> -> int) returns (d: nat)
    ensures var actions := Cheapest([], Candidates(views, spills, drops), tokens);
      && d <= |drops|
      && (actions == [] || actions == Plan(views, spills, drops, |spills|, d))
      && forall other | 0 <= other <= |drops| :: tokens(actions) <= tokens(Plan(views, spills, drops, |spills|, other))
  {
    hide Plan, Candidates, Cheapest;
    var candidates := Candidates(views, spills, drops);
    CandidatesAre(views, spills, drops);
    var actions := Cheapest([], candidates, tokens);
    forall other | 0 <= other <= |drops| ensures tokens(actions) <= tokens(Plan(views, spills, drops, |spills|, other)) {
      assert candidates[other] in candidates;
    }
    d := 0;
    if actions != [] {
      d :| 0 <= d < |candidates| && candidates[d] == actions;
    }
  }

  lemma FallbackSound(config: Config, input: Input)
    ensures var actions := Cheapest([], Candidates(Views(config, input), Spills(config, input), Drops(input)), input.tokens);
      Fallback(config, input, actions) && forall a | a in actions :: Allowed(config, input, a)
  {
    hide Allowed, Views, Spills, Drops, Plan, Candidates;
    var d := CheapestPlan(Views(config, input), Spills(config, input), Drops(input), input.tokens);
    PlanAllowed(config, input, |Spills(config, input)|, d);
  }

  // ---- reading a spilled result on ----

  /** A page of a stored result: its text and where the next page starts, if there is one. */
  datatype Page = Page(text: string, next: Option<nat>)

  datatype Recalled = Answered(page: Page) | OffsetOutOfRange

  function Slice(text: string, from: nat, until: nat): string
    requires from <= until
  {
    text[Min(from, |text|)..Min(until, |text|)]
  }

  function RecallPage(view: string, offset: nat): Page {
    var end := offset + RECALL_PAGE_CHARS;
    Page(Slice(view, offset, end), if end >= |view| then None else Some(end))
  }

  function Recall(view: string, offset: nat): Recalled {
    if offset > 0 && offset >= |view| then OffsetOutOfRange else Answered(RecallPage(view, offset))
  }

  /** What a preview shows, the count it names and the offset it tells the reader to pass. */
  datatype Shown = Shown(text: string, more: nat, offset: nat)

  function SpillPreview(view: string, chars: nat): Shown {
    Shown(Take(view, chars), Max(0, |view| - chars), Min(chars, |view|))
  }

  /** Reading page after page, each from the offset the last one ended with, until one names none. */
  function ReadOn(view: string, offset: nat): string
    decreases |view| - offset
  {
    match Recall(view, offset)
    case OffsetOutOfRange => ""
    case Answered(page) => page.text + match page.next case None => "" case Some(next) => ReadOn(view, next)
  }

  lemma {:induction false} ReadOnReads(view: string, offset: nat)
    requires offset <= |view|
    ensures ReadOn(view, offset) == view[offset..]
    decreases |view| - offset
  {
    var end := offset + RECALL_PAGE_CHARS;
    if end < |view| {
      ReadOnReads(view, end);
      assert ReadOn(view, offset) == view[offset..end] + ReadOn(view, end);
    } else if offset < |view| || offset == 0 {
      assert ReadOn(view, offset) == view[offset..] + "";
    }
  }

  /**
   * A spill loses nothing: the preview and what recalling from its offset reads are the whole view. The offset is
   * readable exactly when the preview says more remains, or the view is empty.
   */
  lemma SpillIsLossless(view: string, chars: nat)
    ensures var shown := SpillPreview(view, chars);
      && shown.text + ReadOn(view, shown.offset) == view
      && shown.more == |ReadOn(view, shown.offset)|
      && (Recall(view, shown.offset).Answered? <==> shown.more > 0 || view == "")
  {
    ReadOnReads(view, Min(chars, |view|));
  }
}
