/** The breaker of degenerate loops: a fold over one signature per decided step. */
module AgentProgress {
  import opened Prelude

  datatype DegeneratePolicy = Disabled | Enabled(nudgeAfter: nat, breakAfter: nat)

  /** The limits a policy is decoded with. */
  predicate ValidPolicy(policy: DegeneratePolicy) {
    policy.Enabled? ==> 1 <= policy.nudgeAfter < policy.breakAfter
  }

  datatype Progress = Progress(stale: nat, seen: set<string>, nudge: bool, broke: bool)

  /** An empty signature is neither fresh nor stale: it changes no count and joins no set. */
  function FoldProgress(seen: set<string>, staleTurns: nat, sig: string, policy: DegeneratePolicy): Progress {
    var stale := if sig == "" then staleTurns else if sig in seen then staleTurns + 1 else 0;
    var all := if sig == "" || sig in seen then seen else seen + {sig};
    match policy
    case Disabled => Progress(stale, all, false, false)
    case Enabled(nudgeAfter, breakAfter) => Progress(stale, all, sig != "" && stale == nudgeAfter, sig != "" && stale >= breakAfter)
  }

  /** The fold over the signatures decided so far. */
  function Folded(sigs: seq<string>, policy: DegeneratePolicy): Progress {
    if sigs == [] then Progress(0, {}, false, false)
    else
      var before := Folded(sigs[..|sigs| - 1], policy);
      FoldProgress(before.seen, before.stale, sigs[|sigs| - 1], policy)
  }

  // ---- what the fold means ----

  function Counted(sigs: seq<string>): (r: seq<string>)
    ensures |r| <= |sigs|
  {
    if sigs == [] then []
    else
      var last := sigs[|sigs| - 1];
      if last == "" then Counted(sigs[..|sigs| - 1]) else Counted(sigs[..|sigs| - 1]) + [last]
  }

  function Occurring(sigs: seq<string>): (r: set<string>) {
    set s | s in sigs
  }

  /** `n` is the longest suffix of `sigs` whose every element occurred earlier. */
  predicate StaleSuffix(n: nat, sigs: seq<string>) {
    && n <= |sigs|
    && (forall j | |sigs| - n <= j < |sigs| :: OccurredBefore(sigs, j))
    && (n < |sigs| ==> !OccurredBefore(sigs, |sigs| - n - 1))
  }

  predicate OccurredBefore(sigs: seq<string>, j: nat)
    requires j < |sigs|
  {
    exists i | 0 <= i < j :: sigs[i] == sigs[j]
  }

  lemma OccurredAppend(sigs: seq<string>, sig: string, j: nat)
    requires j <= |sigs|
    ensures OccurredBefore(sigs + [sig], j) <==> if j < |sigs| then OccurredBefore(sigs, j) else sig in sigs
  {
    assert forall i | 0 <= i < j :: (sigs + [sig])[i] == sigs[i];
  }

  /** The fold keeps exactly the set of signatures so far and the length of the stale suffix, empty signatures aside. */
  lemma {:induction false} FoldMeans(sigs: seq<string>, policy: DegeneratePolicy)
    ensures Folded(sigs, policy).seen == Occurring(Counted(sigs))
    ensures StaleSuffix(Folded(sigs, policy).stale, Counted(sigs))
  {
    SeenMeans(sigs, policy);
    StaleMeans(sigs, policy);
  }

  lemma {:induction false} StaleMeans(sigs: seq<string>, policy: DegeneratePolicy)
    ensures StaleSuffix(Folded(sigs, policy).stale, Counted(sigs))
  {
    hide StaleSuffix, Occurring;
    if sigs == [] {
      NothingStale();
    } else {
      var front, last := sigs[..|sigs| - 1], sigs[|sigs| - 1];
      StaleMeans(front, policy);
      SeenHolds(front, policy, last);
      if last != "" {
        StaleSuffixNext(Folded(front, policy).stale, Counted(front), last);
      }
    }
  }

  lemma SeenHolds(sigs: seq<string>, policy: DegeneratePolicy, s: string)
    ensures s in Folded(sigs, policy).seen <==> s in Counted(sigs)
  {
    SeenMeans(sigs, policy);
  }

  lemma NothingStale()
    ensures StaleSuffix(0, [])
  {
  }

  lemma {:induction false} SeenMeans(sigs: seq<string>, policy: DegeneratePolicy)
    ensures Folded(sigs, policy).seen == Occurring(Counted(sigs))
  {
    if sigs != [] {
      var front, last := sigs[..|sigs| - 1], sigs[|sigs| - 1];
      SeenMeans(front, policy);
      if last != "" {
        assert Occurring(Counted(front) + [last]) == Occurring(Counted(front)) + {last};
      }
    }
  }

  lemma StaleSuffixNext(n: nat, sigs: seq<string>, sig: string)
    requires StaleSuffix(n, sigs)
    ensures StaleSuffix(if sig in sigs then n + 1 else 0, sigs + [sig])
  {
    hide OccurredBefore;
    forall j | 0 <= j <= |sigs|
      ensures OccurredBefore(sigs + [sig], j) <==> if j < |sigs| then OccurredBefore(sigs, j) else sig in sigs
    {
      OccurredAppend(sigs, sig, j);
    }
  }

  /** No other length is the stale suffix's. */
  lemma StaleSuffixUnique(m: nat, n: nat, sigs: seq<string>)
    requires StaleSuffix(m, sigs) && StaleSuffix(n, sigs)
    ensures m == n
  {
    hide OccurredBefore;
  }

  /** Whether the breaker stops the run at the i-th decided step. */
  predicate BrokeAt(sigs: seq<string>, i: nat, policy: DegeneratePolicy) {
    1 <= i <= |sigs| && Folded(sigs[..i], policy).broke
  }

  predicate NudgedAt(sigs: seq<string>, i: nat, policy: DegeneratePolicy) {
    1 <= i <= |sigs| && Folded(sigs[..i], policy).nudge
  }

  /** The counted signatures of `k` rounds, each at most `breakAfter` long. */
  function Rounds(k: nat, breakAfter: nat): nat {
    if k == 0 then 0 else Rounds(k - 1, breakAfter) + breakAfter
  }

  lemma {:induction false} RoundsProduct(k: nat, breakAfter: nat)
    ensures Rounds(k, breakAfter) == k * breakAfter
  {
    if k > 0 {
      RoundsProduct(k - 1, breakAfter);
    }
  }

  lemma {:induction false} RoundsGrow(k: nat, n: nat, breakAfter: nat)
    requires k <= n
    ensures Rounds(k, breakAfter) <= Rounds(n, breakAfter)
  {
    if k < n {
      RoundsGrow(k, n - 1, breakAfter);
    }
  }

  /** What an unbroken fold keeps: every round but the last is full, and the last one is not over. */
  predicate WithinRounds(p: Progress, count: nat, breakAfter: nat) {
    && p.stale < breakAfter
    && (count > 0 ==> p.seen != {} && count <= Rounds(|p.seen| - 1, breakAfter) + p.stale + 1)
    && (count == 0 ==> p.seen == {})
  }

  lemma RoundGrows(p: Progress, sig: string, policy: DegeneratePolicy, count: nat)
    requires policy.Enabled? && WithinRounds(p, count, policy.breakAfter)
    requires !FoldProgress(p.seen, p.stale, sig, policy).broke
    ensures WithinRounds(FoldProgress(p.seen, p.stale, sig, policy), if sig == "" then count else count + 1, policy.breakAfter)
  {
  }

  lemma {:induction false} UnbrokenCount(sigs: seq<string>, policy: DegeneratePolicy)
    requires policy.Enabled? && policy.breakAfter >= 1
    requires forall i | 1 <= i <= |sigs| :: !BrokeAt(sigs, i, policy)
    ensures WithinRounds(Folded(sigs, policy), |Counted(sigs)|, policy.breakAfter)
  {
    if sigs != [] {
      var front := sigs[..|sigs| - 1];
      forall i | 1 <= i <= |front| ensures !BrokeAt(front, i, policy) {
        assert front[..i] == sigs[..i];
        assert !BrokeAt(sigs, i, policy);
      }
      UnbrokenLast(sigs, policy);
      UnbrokenCount(front, policy);
    }
  }

  lemma UnbrokenLast(sigs: seq<string>, policy: DegeneratePolicy)
    requires policy.Enabled? && sigs != [] && !BrokeAt(sigs, |sigs|, policy)
    ensures var front := sigs[..|sigs| - 1];
      WithinRounds(Folded(front, policy), |Counted(front)|, policy.breakAfter) ==>
        WithinRounds(Folded(sigs, policy), |Counted(sigs)|, policy.breakAfter)
  {
    hide WithinRounds;
    var front := sigs[..|sigs| - 1];
    assert sigs[..|sigs|] == sigs;
    if WithinRounds(Folded(front, policy), |Counted(front)|, policy.breakAfter) {
      RoundGrows(Folded(front, policy), sigs[|sigs| - 1], policy, |Counted(front)|);
    }
  }

  /** With k distinct signatures the breaker stops the run by the (k * breakAfter + 1)-th counted step. */
  lemma BreakerBound(sigs: seq<string>, policy: DegeneratePolicy, distinct: set<string>)
    requires policy.Enabled? && policy.breakAfter >= 1
    requires Occurring(Counted(sigs)) <= distinct
    requires |Counted(sigs)| > |distinct| * policy.breakAfter
    ensures exists i :: BrokeAt(sigs, i, policy)
  {
    if forall i | 1 <= i <= |sigs| :: !BrokeAt(sigs, i, policy) {
      UnbrokenCount(sigs, policy);
      SeenMeans(sigs, policy);
      Subset(Folded(sigs, policy).seen, distinct);
      RoundsGrow(|Folded(sigs, policy).seen|, |distinct|, policy.breakAfter);
      RoundsProduct(|distinct|, policy.breakAfter);
    }
  }

  lemma {:induction false} Subset<T>(a: set<T>, b: set<T>)
    requires a <= b
    ensures |a| <= |b|
  {
    if a != {} {
      var x :| x in a;
      Subset(a - {x}, b - {x});
    }
  }

  lemma {:induction false} NoneCountedOut(sigs: seq<string>)
    requires "" !in sigs
    ensures Counted(sigs) == sigs
  {
    if sigs != [] {
      var front := sigs[..|sigs| - 1];
      assert sigs == front + [sigs[|sigs| - 1]];
      NoneCountedOut(front);
    }
  }

  /** A first occurrence of a signature, which restarts the count. */
  predicate FreshAt(sigs: seq<string>, i: nat) {
    1 <= i <= |sigs| && sigs[i - 1] != "" && sigs[i - 1] !in sigs[..i - 1]
  }

  lemma {:induction false} StaleGrows(sigs: seq<string>, i: nat, j: nat, policy: DegeneratePolicy)
    requires i <= j <= |sigs|
    requires forall m | i < m <= j :: !FreshAt(sigs, m)
    ensures Folded(sigs[..i], policy).stale + |Counted(sigs[..j])| - |Counted(sigs[..i])| == Folded(sigs[..j], policy).stale
    decreases j
  {
    if i < j {
      StaleGrows(sigs, i, j - 1, policy);
      assert sigs[..j][..j - 1] == sigs[..j - 1];
      assert !FreshAt(sigs, j);
      SeenMeans(sigs[..j - 1], policy);
      CountedHolds(sigs[..j - 1], sigs[j - 1]);
    }
  }

  lemma {:induction false} CountedHolds(sigs: seq<string>, s: string)
    ensures s in Counted(sigs) <==> s != "" && s in sigs
  {
    if sigs != [] {
      assert sigs == sigs[..|sigs| - 1] + [sigs[|sigs| - 1]];
      CountedHolds(sigs[..|sigs| - 1], s);
    }
  }

  lemma {:induction false} CountedGrows(sigs: seq<string>, i: nat, j: nat)
    requires i <= j <= |sigs|
    ensures |Counted(sigs[..i])| <= |Counted(sigs[..j])|
    decreases j
  {
    if i < j {
      assert sigs[..j][..j - 1] == sigs[..j - 1];
      CountedGrows(sigs, i, j - 1);
    }
  }

  /** Between two nudges the run made new progress: no stale streak is nudged twice. */
  lemma NudgedOnce(sigs: seq<string>, i: nat, j: nat, policy: DegeneratePolicy)
    requires i < j && NudgedAt(sigs, i, policy) && NudgedAt(sigs, j, policy)
    ensures exists m :: i < m <= j && FreshAt(sigs, m)
  {
    if forall m | i < m <= j :: !FreshAt(sigs, m) {
      StaleGrows(sigs, i, j, policy);
      assert sigs[..j][..j - 1] == sigs[..j - 1];
      CountedGrows(sigs, i, j - 1);
    }
  }

  /** The nudge comes before the break: a broken streak was nudged, `breakAfter - nudgeAfter` counted steps earlier. */
  lemma {:induction false} NudgedBeforeBreak(sigs: seq<string>, i: nat, policy: DegeneratePolicy) returns (j: nat)
    requires policy.Enabled? && ValidPolicy(policy) && i <= |sigs|
    requires Folded(sigs[..i], policy).stale >= policy.nudgeAfter
    ensures j <= i && NudgedAt(sigs, j, policy)
    decreases i
  {
    assert sigs[..i][..i - 1] == sigs[..i - 1];
    if Folded(sigs[..i], policy).nudge {
      j := i;
    } else {
      j := NudgedBeforeBreak(sigs, i - 1, policy);
    }
  }
}
