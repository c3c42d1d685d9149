/** Routing policies: each maps an alias's targets to the order in which they are tried
    (gateway/routing/policies.py). */
module Policies {
  import opened Prelude

  datatype Target = Target(provider: string, model: string, weight: real)

  // ---------------------------------------------------------------- weighted

  /** The weight of the first `n` targets. */
  function Cumulative(targets: seq<Target>, n: nat): real
    requires n <= |targets|
  {
    if n == 0 then 0.0 else Cumulative(targets, n - 1) + targets[n - 1].weight
  }

  function Weight(targets: seq<Target>): real {
    Cumulative(targets, |targets|)
  }

  predicate Weighable(targets: seq<Target>) {
    forall t | t in targets :: t.weight >= 0.0
  }

  lemma {:induction false} CumulativeGrows(targets: seq<Target>, m: nat, n: nat)
    requires Weighable(targets) && m <= n <= |targets|
    ensures 0.0 <= Cumulative(targets, m) <= Cumulative(targets, n)
    decreases n, m
  {
    if m < n {
      CumulativeGrows(targets, m, n - 1);
    } else if n > 0 {
      CumulativeGrows(targets, m - 1, n - 1);
    }
  }

  /** The draw of one pass: whatever is drawn, a value between 0 and the total weight, which may be
      negative. */
  function Draw(targets: seq<Target>, draw: real): real {
    Min(Max(Min(0.0, Weight(targets)), draw), Max(0.0, Weight(targets)))
  }

  /** The first target from position `i` on at which the cumulative weight reaches the draw. */
  function PickFrom(targets: seq<Target>, r: real, i: nat): (at: Option<nat>)
    requires i <= |targets|
    ensures at.Some? ==> i <= at.value < |targets|
    decreases |targets| - i
  {
    if i == |targets| then None
    else if r <= Cumulative(targets, i + 1) then Some(i)
    else PickFrom(targets, r, i + 1)
  }

  function Pick(targets: seq<Target>, r: real): (at: Option<nat>)
    ensures at.Some? ==> at.value < |targets|
  {
    PickFrom(targets, r, 0)
  }

  lemma {:induction false} PickFromIsFirst(targets: seq<Target>, r: real, i: nat)
    requires i <= |targets|
    ensures match PickFrom(targets, r, i)
            case None => forall j | i < j <= |targets| :: Cumulative(targets, j) < r
            case Some(k) => r <= Cumulative(targets, k + 1) && forall j | i < j <= k :: Cumulative(targets, j) < r
    decreases |targets| - i
  {
    if i < |targets| && Cumulative(targets, i + 1) < r {
      PickFromIsFirst(targets, r, i + 1);
    }
  }

  /** Each target is chosen exactly on its own stretch of the range of draws, which is as long as
      its weight: the stretches are disjoint and cover the range. */
  lemma {:induction false} PickedOnItsInterval(targets: seq<Target>, r: real, k: nat)
    requires Weighable(targets) && k < |targets| && 0.0 <= r <= Weight(targets)
    ensures Pick(targets, r) == Some(k) <==>
            r <= Cumulative(targets, k + 1) && (k > 0 ==> Cumulative(targets, k) < r)
    ensures Cumulative(targets, k + 1) - Cumulative(targets, k) == targets[k].weight
  {
    PickFromIsFirst(targets, r, 0);
    var p := Pick(targets, r).value;
    if p < k {
      CumulativeGrows(targets, p + 1, k);
    } else if k < p {
      CumulativeGrows(targets, k + 1, p);
    }
  }

  /** Whatever the weights, a pass is certain to pick exactly when some prefix of the list weighs at
      least as much as the highest draw. */
  lemma {:induction false} AlwaysPicksIff(targets: seq<Target>)
    ensures (forall draw :: Pick(targets, Draw(targets, draw)).Some?) <==>
            (exists j :: 0 < j <= |targets| && Max(0.0, Weight(targets)) <= Cumulative(targets, j))
  {
    var top := Max(0.0, Weight(targets));
    assert Draw(targets, top) == top;
    PickFromIsFirst(targets, top, 0);
    if exists j :: 0 < j <= |targets| && top <= Cumulative(targets, j) {
      forall draw
        ensures Pick(targets, Draw(targets, draw)).Some?
      {
        PickFromIsFirst(targets, Draw(targets, draw), 0);
      }
    } else {
      assert Pick(targets, Draw(targets, top)).None?;
    }
  }

  /** `list.remove`: the first equal element goes. */
  function Removed(targets: seq<Target>, t: Target): (r: seq<Target>)
    ensures t in targets ==> |r| == |targets| - 1
  {
    if targets == [] then []
    else if targets[0] == t then targets[1..]
    else [targets[0]] + Removed(targets[1..], t)
  }

  lemma {:induction false} RemovedOne(targets: seq<Target>, t: Target)
    requires t in targets
    ensures multiset(Removed(targets, t)) == multiset(targets) - multiset{t}
    ensures Weighable(targets) ==> Weighable(Removed(targets, t))
  {
    assert targets == [targets[0]] + targets[1..];
    if targets[0] != t {
      RemovedOne(targets[1..], t);
      assert Weighable(targets) ==> Weighable(targets[1..]);
    }
  }

  /** What one pass takes, if anything. */
  function Taken(targets: seq<Target>, draw: real): (t: Option<Target>)
    ensures t.Some? ==> t.value in targets
  {
    var at := Pick(targets, Draw(targets, draw));
    if at.Some? then Some(targets[at.value]) else None
  }

  function Without(targets: seq<Target>, t: Option<Target>): seq<Target> {
    if t.Some? then Removed(targets, t.value) else targets
  }

  /** Where the loop stands: what it has ordered and what remains. */
  datatype Progress = Progress(ordered: seq<Target>, remaining: seq<Target>)

  /** A pass that takes nothing is followed by another draw. */
  function Pass(p: Progress, draw: real): Progress {
    if p.remaining == [] then p
    else
      match Taken(p.remaining, draw)
      case None => p
      case Some(t) => Progress(p.ordered + [t], Removed(p.remaining, t))
  }

  /** Repeated weighted draws without replacement, after the first `n` draws. */
  function After(targets: seq<Target>, draws: seq<real>, n: nat): Progress
    requires n <= |draws|
  {
    if n == 0 then Progress([], targets) else Pass(After(targets, draws, n - 1), draws[n - 1])
  }

  function AllPasses(targets: seq<Target>, draws: seq<real>): Progress {
    After(targets, draws, |draws|)
  }

  /** Every target is ordered exactly once or remains. */
  predicate Complete(targets: seq<Target>, p: Progress) {
    multiset(p.ordered) + multiset(p.remaining) == multiset(targets)
  }

  lemma {:induction false} PassLosesNone(targets: seq<Target>, p: Progress, draw: real)
    requires Complete(targets, p)
    ensures Complete(targets, Pass(p, draw))
  {
    if p.remaining != [] && Taken(p.remaining, draw).Some? {
      var t := Taken(p.remaining, draw).value;
      RemovedOne(p.remaining, t);
      assert multiset(p.remaining) == multiset{t} + (multiset(p.remaining) - multiset{t});
    }
  }

  lemma {:induction false} NoneLost(targets: seq<Target>, draws: seq<real>)
    ensures Complete(targets, AllPasses(targets, draws))
  {
    var p := Progress([], targets);
    for n := 0 to |draws|
      invariant p == After(targets, draws, n) && Complete(targets, p)
    {
      PassLosesNone(targets, p, draws[n]);
      p := Pass(p, draws[n]);
    }
  }

  lemma {:induction false} WeighablePassTakes(targets: seq<Target>, draw: real)
    requires Weighable(targets) && targets != []
    ensures Taken(targets, draw).Some?
  {
    CumulativeGrows(targets, 0, |targets|);
    AlwaysPicksIff(targets);
    assert Max(0.0, Weight(targets)) <= Cumulative(targets, |targets|);
  }

  lemma {:induction false} WeighablePass(p: Progress, draw: real)
    requires Weighable(p.remaining)
    ensures Weighable(Pass(p, draw).remaining)
    ensures |Pass(p, draw).remaining| == if p.remaining == [] then 0 else |p.remaining| - 1
  {
    if p.remaining != [] {
      WeighablePassTakes(p.remaining, draw);
      RemovedOne(p.remaining, Taken(p.remaining, draw).value);
    }
  }

  /** Without negative weights as many draws as there are targets order all of them. */
  lemma {:induction false} WeightedIsPermutation(targets: seq<Target>, draws: seq<real>)
    requires Weighable(targets) && |targets| <= |draws|
    ensures var p := AllPasses(targets, draws);
            p.remaining == [] && multiset(p.ordered) == multiset(targets)
  {
    var p := Progress([], targets);
    for n := 0 to |draws|
      invariant p == After(targets, draws, n) && Weighable(p.remaining)
      invariant |p.remaining| == if n < |targets| then |targets| - n else 0
    {
      WeighablePass(p, draws[n]);
      p := Pass(p, draws[n]);
    }
    NoneLost(targets, draws);
  }

  // ---------------------------------------------------------------- the order of the picks

  /** The draw falls on the stretch of the target at position `k`, as long as its weight. */
  predicate OnStretch(targets: seq<Target>, draw: real, k: nat)
    requires k < |targets|
  {
    var r := Draw(targets, draw);
    r <= Cumulative(targets, k + 1) && (k > 0 ==> Cumulative(targets, k) < r)
  }

  /** A draw within the total weight is the draw itself. */
  lemma {:induction false} DrawIsItself(targets: seq<Target>, draw: real)
    requires 0.0 <= draw <= Weight(targets)
    ensures Draw(targets, draw) == draw
  {
  }

  lemma {:induction false} TakenIsOnStretch(targets: seq<Target>, draw: real) returns (k: nat)
    requires Weighable(targets) && targets != []
    ensures k < |targets| && OnStretch(targets, draw, k) && Taken(targets, draw) == Some(targets[k])
    ensures forall j | 0 <= j < |targets| :: OnStretch(targets, draw, j) <==> j == k
  {
    WeighablePassTakes(targets, draw);
    CumulativeGrows(targets, 0, |targets|);
    k := Pick(targets, Draw(targets, draw)).value;
    forall j | 0 <= j < |targets|
      ensures OnStretch(targets, draw, j) <==> j == k
    {
      PickedOnItsInterval(targets, Draw(targets, draw), j);
    }
  }

  /** `xs` without its first element equal to `x`, the others as they stand. */
  lemma {:induction false} RemovedFirst(targets: seq<Target>, t: Target) returns (i: nat)
    requires t in targets
    ensures i < |targets| && targets[i] == t && t !in targets[..i]
    ensures Removed(targets, t) == targets[..i] + targets[i + 1..]
  {
    if targets[0] == t {
      i := 0;
    } else {
      var j := RemovedFirst(targets[1..], t);
      i := j + 1;
      assert targets[..i] == [targets[0]] + targets[1..][..j];
      assert targets[i + 1..] == targets[1..][j + 1..];
    }
  }

  /** What is ordered is never reordered: later passes only add to the end. */
  lemma {:induction false} OrderOnlyGrows(targets: seq<Target>, draws: seq<real>, m: nat, n: nat)
    requires m <= n <= |draws|
    ensures After(targets, draws, m).ordered <= After(targets, draws, n).ordered
  {
    if m < n {
      OrderOnlyGrows(targets, draws, m, n - 1);
    }
  }

  /** The list without these, one at a time. */
  function Less(targets: seq<Target>, gone: seq<Target>, n: nat): seq<Target>
    requires n <= |gone|
  {
    if n == 0 then targets else Removed(Less(targets, gone, n - 1), gone[n - 1])
  }

  lemma {:induction false} LessOfPrefix(targets: seq<Target>, gone: seq<Target>, more: seq<Target>, n: nat)
    requires n <= |gone|
    ensures Less(targets, gone + more, n) == Less(targets, gone, n)
  {
    if n > 0 {
      LessOfPrefix(targets, gone, more, n - 1);
    }
  }

  /** What remains is the list without what is ordered. */
  predicate Apart(targets: seq<Target>, p: Progress) {
    p.remaining == Less(targets, p.ordered, |p.ordered|)
  }

  lemma {:induction false} PassKeepsApart(targets: seq<Target>, p: Progress, draw: real)
    requires Apart(targets, p)
    ensures Apart(targets, Pass(p, draw))
  {
    if p.remaining != [] && Taken(p.remaining, draw).Some? {
      LessOfPrefix(targets, p.ordered, [Taken(p.remaining, draw).value], |p.ordered|);
    }
  }

  lemma {:induction false} RemainingIsRest(targets: seq<Target>, draws: seq<real>, n: nat)
    requires n <= |draws|
    ensures Apart(targets, After(targets, draws, n))
  {
    var p := Progress([], targets);
    for i := 0 to n
      invariant p == After(targets, draws, i) && Apart(targets, p)
    {
      PassKeepsApart(targets, p, draws[i]);
      p := Pass(p, draws[i]);
    }
  }

  lemma {:induction false} TakenInTurn(targets: seq<Target>, draws: seq<real>, n: nat)
    requires Weighable(targets) && n <= |targets| && n <= |draws|
    ensures var p := After(targets, draws, n);
            Weighable(p.remaining) && |p.ordered| == n && |p.remaining| == |targets| - n
  {
    if n > 0 {
      TakenInTurn(targets, draws, n - 1);
      var p := After(targets, draws, n - 1);
      WeighablePass(p, draws[n - 1]);
      WeighablePassTakes(p.remaining, draws[n - 1]);
    }
  }

  lemma {:induction false} PickInPlace(targets: seq<Target>, p: Progress, q: Progress, ordered: seq<Target>, i: nat,
      k: nat)
    requires Apart(targets, p) && |p.ordered| == i && k < |p.remaining|
    requires q.ordered == p.ordered + [p.remaining[k]] && q.ordered <= ordered
    ensures ordered[i] == p.remaining[k] && Less(targets, ordered, i) == p.remaining
  {
    assert ordered[i] == q.ordered[i];
    assert ordered == p.ordered + ordered[i..];
    LessOfPrefix(targets, p.ordered, ordered[i..], i);
  }

  /** One pass among those before and after it. */
  lemma {:induction false} NextPick(targets: seq<Target>, draws: seq<real>, i: nat)
    returns (p: Progress, q: Progress, ordered: seq<Target>)
    requires Weighable(targets) && i < |targets| <= |draws|
    ensures Apart(targets, p) && Weighable(p.remaining) && |p.ordered| == i && p.remaining != []
    ensures q == Pass(p, draws[i]) && q.ordered <= ordered == AllPasses(targets, draws).ordered
  {
    TakenInTurn(targets, draws, i);
    RemainingIsRest(targets, draws, i);
    OrderOnlyGrows(targets, draws, i + 1, |draws|);
    p, q := After(targets, draws, i), After(targets, draws, i + 1);
    ordered := AllPasses(targets, draws).ordered;
  }

  /** The order is that of the draws: the target at place `i` of the result is the one on whose
      stretch draw `i` falls, among what is left after the `i` targets before it. */
  lemma {:induction false} PickedInOrder(targets: seq<Target>, draws: seq<real>, i: nat) returns (k: nat)
    requires Weighable(targets) && i < |targets| <= |draws|
    ensures var ordered := AllPasses(targets, draws).ordered;
            && |ordered| == |targets|
            && var left := Less(targets, ordered, i);
            && k < |left| && ordered[i] == left[k]
            && forall j | 0 <= j < |left| :: OnStretch(left, draws[i], j) <==> j == k
  {
    var p, q, ordered := NextPick(targets, draws, i);
    k := TakenIsOnStretch(p.remaining, draws[i]);
    PickInPlace(targets, p, q, ordered, i, k);
    AllOrdered(targets, draws);
  }

  lemma {:induction false} AllOrdered(targets: seq<Target>, draws: seq<real>)
    requires Weighable(targets) && |targets| <= |draws|
    ensures |AllPasses(targets, draws).ordered| == |targets|
  {
    var p := AllPasses(targets, draws);
    WeightedIsPermutation(targets, draws);
    assert |multiset(p.ordered)| == |multiset(targets)|;
  }

  /** The first is the weighted pick: it is the target (or one equal to it) on whose stretch the first
      draw falls. */
  lemma {:induction false} FirstIsTheWeightedPick(targets: seq<Target>, draws: seq<real>, k: nat)
    requires Weighable(targets) && k < |targets| <= |draws|
    ensures var ordered := AllPasses(targets, draws).ordered;
            && ordered != []
            && (ordered[0] == targets[k] <==>
                exists j :: 0 <= j < |targets| && targets[j] == targets[k] && OnStretch(targets, draws[0], j))
  {
    var j := PickedInOrder(targets, draws, 0);
    assert Less(targets, AllPasses(targets, draws).ordered, 0) == targets;
  }

  /** A target of negative weight is never taken by the highest draw. */
  lemma {:induction false} TopDrawSparesNegative(p: Progress, t: Target)
    requires t in p.remaining && t.weight < 0.0
    ensures t in Pass(p, Max(0.0, Weight(p.remaining))).remaining
  {
    var top := Max(0.0, Weight(p.remaining));
    assert Draw(p.remaining, top) == top;
    PickFromIsFirst(p.remaining, top, 0);
    var taken := Taken(p.remaining, top);
    if taken.Some? {
      RemovedOne(p.remaining, taken.value);
      assert t in multiset(Removed(p.remaining, taken.value));
    }
  }

  lemma {:induction false} AfterPrefix(targets: seq<Target>, draws: seq<real>, more: seq<real>, n: nat)
    requires n <= |draws|
    ensures After(targets, draws + more, n) == After(targets, draws, n)
  {
    if n > 0 {
      AfterPrefix(targets, draws, more, n - 1);
    }
  }

  lemma {:induction false} OnePassMore(targets: seq<Target>, draws: seq<real>, draw: real)
    ensures AllPasses(targets, draws + [draw]) == Pass(AllPasses(targets, draws), draw)
  {
    AfterPrefix(targets, draws, [draw], |draws|);
  }

  /** With a negative weight the loop can go on for ever: for every number of passes there are draws
      after which the target is still waiting. */
  lemma {:induction false} CanGoOn(targets: seq<Target>, t: Target, n: nat) returns (draws: seq<real>, p: Progress)
    requires t in targets && t.weight < 0.0
    ensures |draws| == n && p == AllPasses(targets, draws) && t in p.remaining
  {
    draws, p := [], Progress([], targets);
    while |draws| < n
      invariant |draws| <= n && p == AllPasses(targets, draws) && t in p.remaining
    {
      var top := Max(0.0, Weight(p.remaining));
      TopDrawSparesNegative(p, t);
      OnePassMore(targets, draws, top);
      draws, p := draws + [top], Pass(p, top);
    }
  }

  ghost predicate EndsWithin(targets: seq<Target>, n: nat) {
    forall draws: seq<real> | |draws| == n :: AllPasses(targets, draws).remaining == []
  }

  /** The loop is certain to end, whatever is drawn, exactly when no weight is negative. */
  lemma {:induction false} SureToEndIff(targets: seq<Target>)
    ensures Weighable(targets) <==> exists n: nat :: EndsWithin(targets, n)
  {
    if Weighable(targets) {
      forall draws: seq<real> | |draws| == |targets|
        ensures AllPasses(targets, draws).remaining == []
      {
        WeightedIsPermutation(targets, draws);
      }
      assert EndsWithin(targets, |targets|);
    } else {
      var t :| t in targets && t.weight < 0.0;
      forall n: nat
        ensures !EndsWithin(targets, n)
      {
        var draws, p := CanGoOn(targets, t, n);
      }
    }
  }

  /** One pass over what remains. */
  method Choose(remaining: seq<Target>, draw: real) returns (t: Option<Target>)
    ensures t == Taken(remaining, draw)
  {
    var total := 0.0;
    for i := 0 to |remaining|
      invariant total == Cumulative(remaining, i)
    {
      total := total + remaining[i].weight;
    }
    var r := Min(Max(Min(0.0, total), draw), Max(0.0, total));
    var cumulative := 0.0;
    for i := 0 to |remaining|
      invariant cumulative == Cumulative(remaining, i)
      invariant PickFrom(remaining, r, i) == Pick(remaining, r)
    {
      cumulative := cumulative + remaining[i].weight;
      if r <= cumulative {
        return Some(remaining[i]);
      }
    }
    t := None;
  }

  lemma {:induction false} NothingMore(targets: seq<Target>, draws: seq<real>, m: nat, n: nat)
    requires m <= n <= |draws| && After(targets, draws, m).remaining == []
    ensures After(targets, draws, n) == After(targets, draws, m)
  {
    if m < n {
      NothingMore(targets, draws, m, n - 1);
    }
  }

  /** The loop, as far as the draws go. */
  method Weighted(targets: seq<Target>, draws: seq<real>) returns (ordered: seq<Target>, remaining: seq<Target>)
    ensures Progress(ordered, remaining) == AllPasses(targets, draws)
  {
    remaining := targets;
    ordered := [];
    var round := 0;
    while remaining != [] && round < |draws|
      invariant round <= |draws| && Progress(ordered, remaining) == After(targets, draws, round)
      decreases |draws| - round
    {
      var t := Choose(remaining, draws[round]);
      if t.Some? {
        ordered := ordered + [t.value];
        remaining := Removed(remaining, t.value);
      }
      round := round + 1;
    }
    if remaining == [] {
      NothingMore(targets, draws, round, |draws|);
    }
  }

  // ---------------------------------------------------------------- sorted policies

  /** A target at its configured place, with its sort key: those without a value come last. */
  datatype Keyed = Keyed(value: Option<real>, at: nat, target: Target)

  /** The order of the sort keys; ties are broken by the configured place. */
  predicate Precedes(x: Keyed, y: Keyed) {
    match (x.value, y.value)
    case (Some(u), Some(v)) => u < v || (u == v && x.at < y.at)
    case (Some(_), None) => true
    case (None, Some(_)) => false
    case (None, None) => x.at < y.at
  }

  function Enumerated(targets: seq<Target>, value: Target -> Option<real>): (keyed: seq<Keyed>)
    ensures |keyed| == |targets|
    ensures forall i | 0 <= i < |targets| :: keyed[i] == Keyed(value(targets[i]), i, targets[i])
  {
    seq(|targets|, i requires 0 <= i < |targets| => Keyed(value(targets[i]), i, targets[i]))
  }

  function Insert(x: Keyed, sorted: seq<Keyed>): seq<Keyed> {
    if sorted == [] || Precedes(x, sorted[0]) then [x] + sorted else [sorted[0]] + Insert(x, sorted[1..])
  }

  function Sort(keyed: seq<Keyed>): seq<Keyed> {
    if keyed == [] then [] else Insert(keyed[0], Sort(keyed[1..]))
  }

  function TargetsOf(keyed: seq<Keyed>): (targets: seq<Target>)
    ensures |targets| == |keyed|
    ensures forall i | 0 <= i < |keyed| :: targets[i] == keyed[i].target
  {
    seq(|keyed|, i requires 0 <= i < |keyed| => keyed[i].target)
  }

  predicate Ascending(keyed: seq<Keyed>) {
    forall i, j | 0 <= i < j < |keyed| :: Precedes(keyed[i], keyed[j])
  }

  predicate DistinctPlaces(keyed: seq<Keyed>) {
    forall i, j | 0 <= i < j < |keyed| :: keyed[i].at != keyed[j].at
  }

  lemma {:induction false} InsertAdds(x: Keyed, sorted: seq<Keyed>)
    ensures multiset(Insert(x, sorted)) == multiset{x} + multiset(sorted)
  {
    if sorted != [] && !Precedes(x, sorted[0]) {
      InsertAdds(x, sorted[1..]);
      assert sorted == [sorted[0]] + sorted[1..];
    }
  }

  lemma {:induction false} TargetsCons(x: Keyed, rest: seq<Keyed>)
    ensures TargetsOf([x] + rest) == [x.target] + TargetsOf(rest)
  {
  }

  lemma {:induction false} InsertAddsTarget(x: Keyed, sorted: seq<Keyed>)
    ensures multiset(TargetsOf(Insert(x, sorted))) == multiset{x.target} + multiset(TargetsOf(sorted))
  {
    if sorted == [] || Precedes(x, sorted[0]) {
      TargetsCons(x, sorted);
    } else {
      InsertAddsTarget(x, sorted[1..]);
      assert sorted == [sorted[0]] + sorted[1..];
      TargetsCons(sorted[0], sorted[1..]);
      TargetsCons(sorted[0], Insert(x, sorted[1..]));
    }
  }

  lemma {:induction false} AscendingCons(x: Keyed, rest: seq<Keyed>)
    requires Ascending(rest) && forall y | y in rest :: Precedes(x, y)
    ensures Ascending([x] + rest)
  {
  }

  lemma {:induction false} InsertAscends(x: Keyed, sorted: seq<Keyed>)
    requires Ascending(sorted) && forall y | y in sorted :: y.at != x.at
    ensures Ascending(Insert(x, sorted))
  {
    if sorted != [] && !Precedes(x, sorted[0]) {
      var first, rest := sorted[0], sorted[1..];
      assert first in sorted;
      InsertAscends(x, rest);
      InsertAdds(x, rest);
      forall y | y in Insert(x, rest)
        ensures Precedes(first, y)
      {
        assert y in multiset(Insert(x, rest));
        assert y == x || y in rest;
      }
      AscendingCons(first, Insert(x, rest));
    } else {
      forall y | y in sorted
        ensures Precedes(x, y)
      {
        var i :| 0 <= i < |sorted| && sorted[i] == y;
        assert i == 0 || Precedes(sorted[0], sorted[i]);
      }
      AscendingCons(x, sorted);
    }
  }

  lemma {:induction false} SortSorts(keyed: seq<Keyed>)
    requires DistinctPlaces(keyed)
    ensures Ascending(Sort(keyed)) && multiset(Sort(keyed)) == multiset(keyed)
  {
    if keyed != [] {
      assert keyed == [keyed[0]] + keyed[1..];
      SortSorts(keyed[1..]);
      forall y | y in Sort(keyed[1..])
        ensures y.at != keyed[0].at
      {
        assert y in multiset(keyed[1..]);
      }
      InsertAscends(keyed[0], Sort(keyed[1..]));
      InsertAdds(keyed[0], Sort(keyed[1..]));
    }
  }

  lemma {:induction false} SortKeepsTargets(keyed: seq<Keyed>)
    ensures multiset(TargetsOf(Sort(keyed))) == multiset(TargetsOf(keyed))
  {
    if keyed != [] {
      SortKeepsTargets(keyed[1..]);
      InsertAddsTarget(keyed[0], Sort(keyed[1..]));
      assert TargetsOf(keyed) == [keyed[0].target] + TargetsOf(keyed[1..]);
    }
  }

  /** The latency-aware order; without signals, the configured one. */
  function LatencyAware(targets: seq<Target>, latency: Option<map<string, real>>): seq<Target> {
    match latency
    case None => targets
    case Some(ms) => TargetsOf(Sort(Enumerated(targets, LatencyKey(ms))))
  }

  function LatencyKey(ms: map<string, real>): Target -> Option<real> {
    (t: Target) => if t.provider in ms then Some(ms[t.provider]) else None
  }

  /** The cost-aware order for given unit prices. */
  function CostAware(targets: seq<Target>, price: Option<string -> real>): seq<Target> {
    match price
    case None => targets
    case Some(cost) => TargetsOf(Sort(Enumerated(targets, CostKey(cost))))
  }

  function CostKey(cost: string -> real): Target -> Option<real> {
    (t: Target) => Some(cost(t.model))
  }

  /** The configured target at place `a` comes before the one at place `b` in a sorted list. */
  predicate ComesBefore(sorted: seq<Keyed>, a: nat, b: nat) {
    exists i, j :: 0 <= i < j < |sorted| && sorted[i].at == a && sorted[j].at == b
  }

  lemma {:induction false} PlaceOf(sorted: seq<Keyed>, keyed: seq<Keyed>, a: nat) returns (i: nat)
    requires multiset(sorted) == multiset(keyed) && a < |keyed|
    ensures i < |sorted| && sorted[i] == keyed[a]
  {
    assert keyed[a] in multiset(sorted);
    i :| 0 <= i < |sorted| && sorted[i] == keyed[a];
  }

  lemma {:induction false} PlacesTell(sorted: seq<Keyed>, keyed: seq<Keyed>, k: nat)
    requires multiset(sorted) == multiset(keyed) && k < |sorted|
    requires forall i | 0 <= i < |keyed| :: keyed[i].at == i
    ensures sorted[k].at < |keyed| && sorted[k] == keyed[sorted[k].at]
  {
    assert sorted[k] in multiset(keyed);
  }

  /** Two targets come in the order of their keys: by value, those without a value last, ties as
      configured. */
  lemma {:induction false} SortedOrder(targets: seq<Target>, value: Target -> Option<real>, a: nat, b: nat)
    requires a < |targets| && b < |targets| && a != b
    ensures var keyed := Enumerated(targets, value);
            ComesBefore(Sort(keyed), a, b) <==> Precedes(keyed[a], keyed[b])
  {
    var keyed := Enumerated(targets, value);
    var sorted := Sort(keyed);
    SortSorts(keyed);
    var i := PlaceOf(sorted, keyed, a);
    var j := PlaceOf(sorted, keyed, b);
    if ComesBefore(sorted, a, b) {
      var i', j' :| 0 <= i' < j' < |sorted| && sorted[i'].at == a && sorted[j'].at == b;
      PlacesTell(sorted, keyed, i');
      PlacesTell(sorted, keyed, j');
    } else {
      assert !(i < j);
      assert i != j;
      assert Precedes(sorted[j], sorted[i]);
    }
  }

  /** Both sorted policies return every configured target exactly once. */
  lemma {:induction false} SortedIsPermutation(targets: seq<Target>, value: Target -> Option<real>)
    ensures multiset(TargetsOf(Sort(Enumerated(targets, value)))) == multiset(targets)
  {
    var keyed := Enumerated(targets, value);
    SortKeepsTargets(keyed);
    assert TargetsOf(keyed) == targets;
  }

  /** Sampled providers first, faster ones before slower ones, and the rest and ties as configured. */
  lemma {:induction false} LatencyAwareOrder(targets: seq<Target>, ms: map<string, real>, a: nat, b: nat)
    requires a < |targets| && b < |targets| && a != b
    ensures var (p, q) := (targets[a].provider, targets[b].provider);
            var sorted := Sort(Enumerated(targets, LatencyKey(ms)));
            && LatencyAware(targets, Some(ms)) == TargetsOf(sorted)
            && multiset(TargetsOf(sorted)) == multiset(targets)
            && (ComesBefore(sorted, a, b) <==>
                if p in ms && q in ms then ms[p] < ms[q] || (ms[p] == ms[q] && a < b)
                else if p in ms || q in ms then p in ms
                else a < b)
    ensures LatencyAware(targets, None) == targets
  {
    SortedOrder(targets, LatencyKey(ms), a, b);
    SortedIsPermutation(targets, LatencyKey(ms));
  }

  /** Cheaper models first, ties as configured. */
  lemma {:induction false} CostAwareOrder(targets: seq<Target>, cost: string -> real, a: nat, b: nat)
    requires a < |targets| && b < |targets| && a != b
    ensures var (u, v) := (cost(targets[a].model), cost(targets[b].model));
            var sorted := Sort(Enumerated(targets, CostKey(cost)));
            && CostAware(targets, Some(cost)) == TargetsOf(sorted)
            && multiset(TargetsOf(sorted)) == multiset(targets)
            && (ComesBefore(sorted, a, b) <==> u < v || (u == v && a < b))
    ensures CostAware(targets, None) == targets
  {
    SortedOrder(targets, CostKey(cost), a, b);
    SortedIsPermutation(targets, CostKey(cost));
  }
}
