/** Scopes do not interfere. With ties broken by age, a lookup is a function of its own scope's
    items; as long as nothing is evicted, every lookup of a scope returns in a run over all scopes
    what it returns when the scope has a cache of its own, although the ids differ. */
module CacheScopes {
  import opened Prelude
  import opened Cache

  // ---------------------------------------------------------------- a lookup with a fixed tie rule

  /** The more similar, and among equals the older. */
  predicate Ahead(like: Likeness, x: Item, y: Item) {
    SimTo(like, x) > SimTo(like, y) || (SimTo(like, x) == SimTo(like, y) && x.id < y.id)
  }

  function Better(like: Likeness, dropped: set<nat>, best: Option<Item>, x: Item): Option<Item> {
    if x.id in dropped || (best.Some? && !Ahead(like, x, best.value)) then best else Some(x)
  }

  /** The first, in that order, of the first `n` items, leaving out those dropped. */
  function BestOf(own: seq<Item>, like: Likeness, dropped: set<nat>, n: nat): Option<Item>
    requires n <= |own|
  {
    if n == 0 then None
    else Better(like, dropped, BestOf(own, like, dropped, n - 1), own[n - 1])
  }

  function Best(own: seq<Item>, like: Likeness, dropped: set<nat>): Option<Item> {
    BestOf(own, like, dropped, |own|)
  }

  datatype Answer = Answer(dropped: set<nat>, hit: Option<Item>)

  /** A lookup in one scope's items that has dropped some and has so many probes left. */
  function Probe(own: seq<Item>, like: Likeness, now: real, threshold: real, dropped: set<nat>, probes: nat): Answer
    decreases probes
  {
    if probes == 0 then Answer(dropped, None)
    else
      match Best(own, like, dropped)
      case None => Answer(dropped, None)
      case Some(b) =>
        if Due(b.expiresAt, now) then Probe(own, like, now, threshold, dropped + {b.id}, probes - 1)
        else Answer(dropped, if SimTo(like, b) >= threshold then Some(b) else None)
  }

  function Own(items: seq<Item>, scope: string): seq<Item> {
    if items == [] then []
    else if items[0].scope == scope then [items[0]] + Own(items[1..], scope)
    else Own(items[1..], scope)
  }

  function LookupIn(items: seq<Item>, scope: string, like: Likeness, now: real, threshold: real): Answer {
    Probe(Own(items, scope), like, now, threshold, {}, PROBES)
  }

  function Settle(items: seq<Item>, a: Answer): seq<Item> {
    match a.hit
    case None => Without(items, a.dropped)
    case Some(h) => Without(items, a.dropped + {h.id}) + [h]
  }

  lemma {:induction false} OwnMembers(items: seq<Item>, scope: string)
    ensures forall x :: x in Own(items, scope) <==> x in items && x.scope == scope
  {
    if items != [] {
      OwnMembers(items[1..], scope);
      assert items == [items[0]] + items[1..];
    }
  }

  lemma {:induction false} OwnDistinct(items: seq<Item>, scope: string)
    requires DistinctIds(items)
    ensures DistinctIds(Own(items, scope))
  {
    if items != [] {
      OwnDistinct(items[1..], scope);
      OwnMembers(items[1..], scope);
      forall x | x in Own(items[1..], scope)
        ensures x.id != items[0].id
      {
        assert x in items[1..];
      }
    }
  }

  lemma {:induction false} BestOfLeads(own: seq<Item>, like: Likeness, dropped: set<nat>, n: nat)
    requires n <= |own|
    ensures match BestOf(own, like, dropped, n)
            case None => forall i | 0 <= i < n :: own[i].id in dropped
            case Some(b) =>
              && b in own && b.id !in dropped
              && forall i | 0 <= i < n && own[i].id !in dropped :: SimTo(like, own[i]) <= SimTo(like, b)
  {
    if n > 0 {
      BestOfLeads(own, like, dropped, n - 1);
    }
  }

  lemma {:induction false} BestLeads(own: seq<Item>, like: Likeness, dropped: set<nat>)
    ensures match Best(own, like, dropped)
            case None => forall x | x in own :: x.id in dropped
            case Some(b) => Foremost(own, like, dropped, b)
  {
    BestOfLeads(own, like, dropped, |own|);
  }

  // ---------------------------------------------------------------- it is what a lookup may do

  predicate Foremost(own: seq<Item>, like: Likeness, dropped: set<nat>, x: Item) {
    && x in own && x.id !in dropped
    && forall y | y in own && y.id !in dropped :: SimTo(like, y) <= SimTo(like, x)
  }

  /** Expired items, each at least as similar as any that is left. */
  predicate Skims(own: seq<Item>, like: Likeness, now: real, dropped: set<nat>) {
    && (forall id | id in dropped :: exists x :: x in own && x.id == id && Due(x.expiresAt, now))
    && (forall x, y | x in own && y in own && x.id in dropped && y.id !in dropped ::
          SimTo(like, x) >= SimTo(like, y))
  }

  predicate Ends(own: seq<Item>, like: Likeness, now: real, threshold: real, a: Answer) {
    match a.hit
    case None =>
      |a.dropped| < PROBES ==> forall x | x in own && x.id !in a.dropped ::
        exists y :: y in own && Foremost(own, like, a.dropped, y)
                    && !Due(y.expiresAt, now) && SimTo(like, y) < threshold
    case Some(h) =>
      && |a.dropped| < PROBES && Foremost(own, like, a.dropped, h)
      && !Due(h.expiresAt, now) && SimTo(like, h) >= threshold
  }

  /** Some answer a lookup may give from one scope's items. */
  predicate Answers(own: seq<Item>, like: Likeness, now: real, threshold: real, a: Answer) {
    |a.dropped| <= PROBES && Skims(own, like, now, a.dropped) && Ends(own, like, now, threshold, a)
  }

  lemma {:induction false} SkimmedIff(items: seq<Item>, scope: string, like: Likeness, now: real, dropped: set<nat>)
    requires DistinctIds(items)
    ensures Skimmed(items, scope, like, now, dropped) <==> Skims(Own(items, scope), like, now, dropped)
  {
    OwnMembers(items, scope);
    var own := Own(items, scope);
    if forall id | id in dropped :: exists x :: x in own && x.id == id && Due(x.expiresAt, now) {
      forall x | x in items && x.id in dropped
        ensures x in own
      {
        var y :| y in own && y.id == x.id;
        SameItem(items, x, y);
      }
    }
  }

  lemma {:induction false} AnswersIffLooked(items: seq<Item>, scope: string, like: Likeness, now: real, threshold: real,
                         a: Answer, after: seq<Item>)
    requires DistinctIds(items)
    ensures Looked(items, scope, like, now, threshold, a.dropped, a.hit, after)
            <==> Answers(Own(items, scope), like, now, threshold, a) && after == Settle(items, a)
  {
    OwnMembers(items, scope);
    SkimmedIff(items, scope, like, now, a.dropped);
    var own := Own(items, scope);
    assert forall x :: Foremost(own, like, a.dropped, x) <==> Front(items, scope, like, a.dropped, x);
  }

  lemma {:induction false} SkimsOneMore(own: seq<Item>, like: Likeness, now: real, dropped: set<nat>, b: Item)
    requires DistinctIds(own) && Skims(own, like, now, dropped)
    requires Foremost(own, like, dropped, b) && Due(b.expiresAt, now)
    ensures Skims(own, like, now, dropped + {b.id})
  {
    forall x | x in own && x.id == b.id
      ensures x == b
    {
      SameItem(own, x, b);
    }
  }

  /** This is how the rule goes on from here. */
  predicate Goes(own: seq<Item>, like: Likeness, now: real, threshold: real, dropped: set<nat>, probes: nat,
      a: Answer) {
    a == Probe(own, like, now, threshold, dropped, probes)
  }

  lemma {:induction false} DueIsDropped(own: seq<Item>, like: Likeness, now: real, threshold: real,
      dropped: set<nat>, probes: nat, b: Item, more: set<nat>, a: Answer)
    requires Best(own, like, dropped) == Some(b) && Due(b.expiresAt, now) && probes > 0
    requires more == dropped + {b.id} && Goes(own, like, now, threshold, dropped, probes, a)
    ensures Goes(own, like, now, threshold, more, probes - 1, a)
  {
  }

  lemma {:induction false} GoesAfterDue(own: seq<Item>, like: Likeness, now: real, threshold: real,
      dropped: set<nat>, probes: nat, b: Item, more: set<nat>, a: Answer)
    requires Best(own, like, dropped) == Some(b) && Due(b.expiresAt, now) && probes > 0
    requires more == dropped + {b.id} && Goes(own, like, now, threshold, more, probes - 1, a)
    ensures Goes(own, like, now, threshold, dropped, probes, a)
  {
  }

  lemma {:induction false} StopAnswers(own: seq<Item>, like: Likeness, now: real, threshold: real, dropped: set<nat>,
      probes: nat, a: Answer)
    requires Skims(own, like, now, dropped) && |dropped| + probes == PROBES
    requires Goes(own, like, now, threshold, dropped, probes, a)
    requires var b := Best(own, like, dropped);
             if b.Some? then Foremost(own, like, dropped, b.value) && (probes == 0 || !Due(b.value.expiresAt, now))
             else forall x | x in own :: x.id in dropped
    ensures Answers(own, like, now, threshold, a)
  {
  }

  /** The rule drops an expired item in front and goes on. */
  lemma {:induction false} RuleGoesOn(own: seq<Item>, like: Likeness, now: real, threshold: real,
                                      dropped: set<nat>, probes: nat, b: Item, a: Answer) returns (more: set<nat>)
    requires DistinctIds(own) && Skims(own, like, now, dropped) && |dropped| + probes == PROBES && probes > 0
    requires Best(own, like, dropped) == Some(b) && Due(b.expiresAt, now)
    requires Goes(own, like, now, threshold, dropped, probes, a)
    ensures Skims(own, like, now, more) && |more| + probes - 1 == PROBES
    ensures Goes(own, like, now, threshold, more, probes - 1, a)
  {
    BestLeads(own, like, dropped);
    SkimsOneMore(own, like, now, dropped, b);
    more := dropped + {b.id};
    DueIsDropped(own, like, now, threshold, dropped, probes, b, more, a);
  }

  lemma {:induction false} RuleStops(own: seq<Item>, like: Likeness, now: real, threshold: real,
                                     dropped: set<nat>, probes: nat, best: Option<Item>, a: Answer)
    requires Skims(own, like, now, dropped) && |dropped| + probes == PROBES
    requires best == Best(own, like, dropped) && (probes == 0 || best.None? || !Due(best.value.expiresAt, now))
    requires Goes(own, like, now, threshold, dropped, probes, a)
    ensures Answers(own, like, now, threshold, a)
  {
    BestLeads(own, like, dropped);
    StopAnswers(own, like, now, threshold, dropped, probes, a);
  }

  /** The fixed tie rule is one of the ways a lookup may go. */
  lemma {:induction false} RuleAnswers(own: seq<Item>, like: Likeness, now: real, threshold: real,
                                       dropped: set<nat>, probes: nat, a: Answer)
    requires DistinctIds(own) && Skims(own, like, now, dropped) && |dropped| + probes == PROBES
    requires Goes(own, like, now, threshold, dropped, probes, a)
    ensures Answers(own, like, now, threshold, a)
    decreases probes
  {
    var best := Best(own, like, dropped);
    if probes == 0 || best.None? || !Due(best.value.expiresAt, now) {
      RuleStops(own, like, now, threshold, dropped, probes, best, a);
    } else {
      var more := RuleGoesOn(own, like, now, threshold, dropped, probes, best.value, a);
      RuleAnswers(own, like, now, threshold, more, probes - 1, a);
    }
  }

  predicate NoTies(own: seq<Item>, like: Likeness) {
    forall x, y | x in own && y in own && SimTo(like, x) == SimTo(like, y) :: x == y
  }

  lemma {:induction false} SameSize(small: set<nat>, large: set<nat>)
    requires small <= large && |large| <= |small|
    ensures small == large
  {
    assert large == small + (large - small) && small !! (large - small);
    assert |large| == |small| + |large - small|;
  }

  /** Where an answer has dropped no more, it ends as the rule does. */
  lemma {:induction false} NoMoreDropped(own: seq<Item>, like: Likeness, now: real, threshold: real,
                      dropped: set<nat>, probes: nat, b: Item, a: Answer)
    requires NoTies(own, like) && Answers(own, like, now, threshold, a) && dropped <= a.dropped
    requires |dropped| + probes == PROBES && probes > 0
    requires Best(own, like, dropped) == Some(b) && Foremost(own, like, dropped, b) && b.id !in a.dropped
    ensures Goes(own, like, now, threshold, dropped, probes, a)
  {
    forall id | id in a.dropped
      ensures id in dropped
    {
      var x :| x in own && x.id == id && Due(x.expiresAt, now);
    }
    assert a.dropped == dropped;
    assert forall y :: Foremost(own, like, dropped, y) ==> y == b;
  }

  lemma {:induction false} AllDropped(own: seq<Item>, like: Likeness, now: real, threshold: real, dropped: set<nat>,
      a: Answer)
    requires Answers(own, like, now, threshold, a) && dropped <= a.dropped
    requires forall x | x in own :: x.id in dropped
    ensures a == Answer(dropped, None)
  {
    forall id | id in a.dropped
      ensures id in dropped
    {
      var x :| x in own && x.id == id && Due(x.expiresAt, now);
    }
    assert a.dropped == dropped;
  }

  lemma {:induction false} NothingLeft(own: seq<Item>, like: Likeness, now: real, threshold: real, dropped: set<nat>,
      probes: nat, a: Answer)
    requires Answers(own, like, now, threshold, a) && dropped <= a.dropped && |dropped| + probes == PROBES
    requires probes == 0 || Best(own, like, dropped).None?
    ensures Goes(own, like, now, threshold, dropped, probes, a)
  {
    if probes == 0 {
      SameSize(dropped, a.dropped);
    } else {
      BestLeads(own, like, dropped);
      AllDropped(own, like, now, threshold, dropped, a);
    }
  }

  /** Without ties there is no other way. */
  lemma {:induction false} OnlyAnswer(own: seq<Item>, like: Likeness, now: real, threshold: real,
                                      dropped: set<nat>, probes: nat, a: Answer)
    requires DistinctIds(own) && NoTies(own, like) && Answers(own, like, now, threshold, a)
    requires dropped <= a.dropped && |dropped| + probes == PROBES
    ensures Goes(own, like, now, threshold, dropped, probes, a)
    decreases probes
  {
    var best := Best(own, like, dropped);
    if probes == 0 || best.None? {
      NothingLeft(own, like, now, threshold, dropped, probes, a);
      return;
    }
    var b := best.value;
    BestLeads(own, like, dropped);
    if b.id in a.dropped {
      var more := dropped + {b.id};
      DroppedIsDue(own, like, now, a.dropped, b);
      OnlyAnswer(own, like, now, threshold, more, probes - 1, a);
      GoesAfterDue(own, like, now, threshold, dropped, probes, b, more, a);
    } else {
      NoMoreDropped(own, like, now, threshold, dropped, probes, b, a);
    }
  }

  lemma {:induction false} DroppedIsDue(own: seq<Item>, like: Likeness, now: real, dropped: set<nat>, b: Item)
    requires DistinctIds(own) && Skims(own, like, now, dropped) && b in own && b.id in dropped
    ensures Due(b.expiresAt, now)
  {
    var x :| x in own && x.id == b.id && Due(x.expiresAt, now);
    SameItem(own, x, b);
  }

  /** So without ties a lookup of the cache goes as the fixed rule says. */
  lemma {:induction false} LookedIsProbe(items: seq<Item>, scope: string, like: Likeness, now: real, threshold: real,
                      dropped: set<nat>, hit: Option<Item>, after: seq<Item>)
    requires DistinctIds(items) && Looked(items, scope, like, now, threshold, dropped, hit, after)
    requires NoTies(Own(items, scope), like)
    ensures Answer(dropped, hit) == LookupIn(items, scope, like, now, threshold)
    ensures after == Settle(items, Answer(dropped, hit))
  {
    AnswersIffLooked(items, scope, like, now, threshold, Answer(dropped, hit), after);
    OwnDistinct(items, scope);
    OnlyAnswer(Own(items, scope), like, now, threshold, {}, PROBES, Answer(dropped, hit));
  }

  lemma {:induction false} ProbeIsLooked(items: seq<Item>, scope: string, like: Likeness, now: real, threshold: real)
    requires DistinctIds(items)
    ensures var a := LookupIn(items, scope, like, now, threshold);
            Looked(items, scope, like, now, threshold, a.dropped, a.hit, Settle(items, a))
  {
    var a := LookupIn(items, scope, like, now, threshold);
    OwnDistinct(items, scope);
    RuleAnswers(Own(items, scope), like, now, threshold, {}, PROBES, a);
    AnswersIffLooked(items, scope, like, now, threshold, a, Settle(items, a));
  }
}
