/** Whole runs over many scopes, compared with the run of one scope alone. The scope's items are
    the same in both, in the same order, up to an order-preserving renaming of ids. */
module ScopeRuns {
  import opened Prelude
  import opened Cache
  import opened CacheScopes
  import CacheRuns

  datatype Op =
    | Lookup(scope: string, vec: Vec, now: real)
    | Insert(scope: string, vec: Vec, response: Response, expiresAt: Option<real>)

  type Run = CacheRuns.Run

  /** An insertion that evicts nothing. */
  function Next(threshold: real, s: Run, op: Op): Run {
    match op
    case Lookup(scope, vec, now) =>
      s.(items := Settle(s.items, LookupIn(s.items, scope, Like(vec), now, threshold)))
    case Insert(scope, vec, response, expiresAt) =>
      CacheRuns.Run(s.items + [Item(s.nextId, scope, vec, response, expiresAt)], s.nextId + 1)
  }

  function After(threshold: real, ops: seq<Op>): Run {
    if ops == [] then CacheRuns.EMPTY else Next(threshold, After(threshold, ops[..|ops| - 1]), ops[|ops| - 1])
  }

  /** The cap is never exceeded, so `Next` is what the cache does. */
  predicate NeverFull(threshold: real, maxEntries: nat, ops: seq<Op>) {
    ops == [] || (
      NeverFull(threshold, maxEntries, ops[..|ops| - 1]) && |After(threshold, ops).items| <= maxEntries)
  }

  function Reply(threshold: real, s: Run, op: Op): Option<Response> {
    if op.Insert? then None
    else
      match LookupIn(s.items, op.scope, Like(op.vec), op.now, threshold).hit
      case None => None
      case Some(h) => Some(h.response)
  }

  /** What the operations on a scope return, in order. */
  function Replies(threshold: real, ops: seq<Op>, scope: string): seq<Option<Response>> {
    if ops == [] then []
    else
      var before, op := ops[..|ops| - 1], ops[|ops| - 1];
      Replies(threshold, before, scope)
      + if op.scope == scope then [Reply(threshold, After(threshold, before), op)] else []
  }

  function Alone(ops: seq<Op>, scope: string): seq<Op> {
    if ops == [] then []
    else
      var op := ops[|ops| - 1];
      Alone(ops[..|ops| - 1], scope) + if op.scope == scope then [op] else []
  }

  // ---------------------------------------------------------------- one scope's part of the list

  lemma {:induction false} OwnWithout(items: seq<Item>, scope: string, ids: set<nat>)
    ensures Own(Without(items, ids), scope) == Without(Own(items, scope), ids)
  {
    if items != [] {
      OwnWithout(items[1..], scope, ids);
    }
  }

  lemma {:induction false} OwnAppend(items: seq<Item>, x: Item, scope: string)
    ensures Own(items + [x], scope) == if x.scope == scope then Own(items, scope) + [x] else Own(items, scope)
  {
    if items != [] {
      assert (items + [x])[1..] == items[1..] + [x];
      OwnAppend(items[1..], x, scope);
    }
  }

  lemma {:induction false} OwnIsShorter(items: seq<Item>, scope: string)
    ensures |Own(items, scope)| <= |items|
  {
    if items != [] {
      OwnIsShorter(items[1..], scope);
    }
  }

  /** An answer only names items of its own scope. */
  lemma {:induction false} AnswerIsOwn(items: seq<Item>, scope: string, like: Likeness, now: real, threshold: real)
    requires DistinctIds(items)
    ensures var a := LookupIn(items, scope, like, now, threshold);
            && (forall x | x in items && x.scope != scope :: x.id !in a.dropped)
            && (a.hit.Some? ==> a.hit.value in items && a.hit.value.scope == scope)
            && forall x | x in items && x.scope != scope :: a.hit.Some? ==> x.id != a.hit.value.id
  {
    var a := LookupIn(items, scope, like, now, threshold);
    ProbeIsLooked(items, scope, like, now, threshold);
    forall x | x in items && x.scope != scope
      ensures x.id !in a.dropped
    {
      if x.id in a.dropped {
        CacheRuns.DroppedAreDue(items, scope, like, now, a.dropped, x);
      }
    }
  }

  /** A lookup leaves the items of every other scope alone. */
  lemma {:induction false} OthersUntouched(items: seq<Item>, at: string, like: Likeness, now: real, threshold: real,
      scope: string)
    requires DistinctIds(items) && at != scope
    ensures Own(Settle(items, LookupIn(items, at, like, now, threshold)), scope) == Own(items, scope)
  {
    var a := LookupIn(items, at, like, now, threshold);
    var ids := if a.hit.Some? then a.dropped + {a.hit.value.id} else a.dropped;
    AnswerIsOwn(items, at, like, now, threshold);
    OwnMembers(items, scope);
    OwnWithout(items, scope, ids);
    WithoutNone(Own(items, scope), ids);
    if a.hit.Some? {
      OwnAppend(Without(items, ids), a.hit.value, scope);
    }
  }

  lemma {:induction false} OwnSettles(items: seq<Item>, scope: string, like: Likeness, now: real, threshold: real)
    requires DistinctIds(items)
    ensures var a := LookupIn(items, scope, like, now, threshold);
            Own(Settle(items, a), scope) == Settle(Own(items, scope), a)
  {
    var a := LookupIn(items, scope, like, now, threshold);
    var ids := if a.hit.Some? then a.dropped + {a.hit.value.id} else a.dropped;
    AnswerIsOwn(items, scope, like, now, threshold);
    OwnWithout(items, scope, ids);
    if a.hit.Some? {
      OwnAppend(Without(items, ids), a.hit.value, scope);
    }
  }

  // ---------------------------------------------------------------- renaming

  type Renaming = map<nat, nat>

  predicate Increasing(rho: Renaming) {
    forall i, j | i in rho && j in rho && i < j :: rho[i] < rho[j]
  }

  function NewId(rho: Renaming, id: nat): nat {
    if id in rho then rho[id] else id
  }

  function NewIds(rho: Renaming, ids: set<nat>): set<nat> {
    set id | id in ids :: NewId(rho, id)
  }

  function NewItem(rho: Renaming, x: Item): Item {
    x.(id := NewId(rho, x.id))
  }

  function Renamed(rho: Renaming, own: seq<Item>): (r: seq<Item>)
    ensures |r| == |own|
    ensures forall i | 0 <= i < |own| :: r[i] == NewItem(rho, own[i])
  {
    if own == [] then [] else [NewItem(rho, own[0])] + Renamed(rho, own[1..])
  }

  predicate Covers(rho: Renaming, own: seq<Item>) {
    forall x | x in own :: x.id in rho
  }

  function NewAnswer(rho: Renaming, a: Answer): Answer {
    Answer(NewIds(rho, a.dropped), if a.hit.Some? then Some(NewItem(rho, a.hit.value)) else None)
  }

  lemma {:induction false} NewIdIn(rho: Renaming, id: nat, ids: set<nat>)
    requires Increasing(rho) && id in rho && ids <= rho.Keys
    ensures NewId(rho, id) in NewIds(rho, ids) <==> id in ids
  {
    if NewId(rho, id) in NewIds(rho, ids) {
      var other :| other in ids && NewId(rho, other) == NewId(rho, id);
      assert other in rho;
      assert other < id || id < other || other == id;
    }
  }

  lemma {:induction false} AheadRenamed(rho: Renaming, like: Likeness, x: Item, y: Item)
    requires Increasing(rho) && x.id in rho && y.id in rho
    ensures Ahead(like, NewItem(rho, x), NewItem(rho, y)) <==> Ahead(like, x, y)
  {
  }

  function NewBest(rho: Renaming, b: Option<Item>): Option<Item> {
    if b.Some? then Some(NewItem(rho, b.value)) else None
  }

  lemma {:induction false} BetterRenamed(rho: Renaming, like: Likeness, dropped: set<nat>, best: Option<Item>, x: Item)
    requires Increasing(rho) && dropped <= rho.Keys && x.id in rho && (best.Some? ==> best.value.id in rho)
    ensures Better(like, NewIds(rho, dropped), NewBest(rho, best), NewItem(rho, x))
            == NewBest(rho, Better(like, dropped, best, x))
  {
    NewIdIn(rho, x.id, dropped);
    if best.Some? {
      AheadRenamed(rho, like, x, best.value);
    }
  }

  lemma {:induction false} BestOfRenamed(rho: Renaming, own: seq<Item>, renamed: seq<Item>, like: Likeness,
      dropped: set<nat>, n: nat)
    returns (best: Option<Item>)
    requires Increasing(rho) && Covers(rho, own) && dropped <= rho.Keys && n <= |own| == |renamed|
    requires forall i | 0 <= i < |own| :: renamed[i] == NewItem(rho, own[i])
    ensures best == BestOf(own, like, dropped, n) && (best.Some? ==> best.value in own)
    ensures BestOf(renamed, like, NewIds(rho, dropped), n) == NewBest(rho, best)
  {
    if n == 0 {
      return None;
    }
    var before := BestOfRenamed(rho, own, renamed, like, dropped, n - 1);
    BetterRenamed(rho, like, dropped, before, own[n - 1]);
    best := Better(like, dropped, before, own[n - 1]);
  }

  lemma {:induction false} NewIdsAdd(rho: Renaming, ids: set<nat>, id: nat)
    ensures NewIds(rho, ids + {id}) == NewIds(rho, ids) + {NewId(rho, id)}
  {
  }

  /** Where a lookup stops with an item in front, or with none. */
  function Stopped(like: Likeness, threshold: real, dropped: set<nat>, probes: nat, best: Option<Item>): Answer {
    Answer(dropped, if probes > 0 && best.Some? && SimTo(like, best.value) >= threshold then best else None)
  }

  predicate GoesOn(now: real, probes: nat, best: Option<Item>) {
    probes > 0 && best.Some? && Due(best.value.expiresAt, now)
  }

  lemma {:induction false} ProbeStops(own: seq<Item>, like: Likeness, now: real, threshold: real, dropped: set<nat>,
      probes: nat, best: Option<Item>, a: Answer)
    requires best == Best(own, like, dropped) && !GoesOn(now, probes, best)
    requires a == Stopped(like, threshold, dropped, probes, best)
    ensures Goes(own, like, now, threshold, dropped, probes, a)
  {
  }

  /** Probing renamed items gives the renamed answer. */
  lemma {:induction false} ProbeRenamed(rho: Renaming, own: seq<Item>, renamed: seq<Item>, like: Likeness, now: real,
                                        threshold: real, dropped: set<nat>, ids: set<nat>, probes: nat)
    returns (a: Answer, a': Answer)
    requires Increasing(rho) && Covers(rho, own) && dropped <= rho.Keys && |own| == |renamed|
    requires ids == NewIds(rho, dropped) && forall i | 0 <= i < |own| :: renamed[i] == NewItem(rho, own[i])
    ensures Goes(own, like, now, threshold, dropped, probes, a)
    ensures Goes(renamed, like, now, threshold, ids, probes, a')
    ensures a' == NewAnswer(rho, a) && a.dropped <= rho.Keys && (a.hit.Some? ==> a.hit.value in own)
    decreases probes
  {
    var best := BestOfRenamed(rho, own, renamed, like, dropped, |own|);
    var best' := NewBest(rho, best);
    if GoesOn(now, probes, best) {
      var more, more' := dropped + {best.value.id}, ids + {best'.value.id};
      NewIdsAdd(rho, dropped, best.value.id);
      a, a' := ProbeRenamed(rho, own, renamed, like, now, threshold, more, more', probes - 1);
      GoesAfterDue(own, like, now, threshold, dropped, probes, best.value, more, a);
      GoesAfterDue(renamed, like, now, threshold, ids, probes, best'.value, more', a');
    } else {
      a, a' := Stopped(like, threshold, dropped, probes, best), Stopped(like, threshold, ids, probes, best');
      ProbeStops(own, like, now, threshold, dropped, probes, best, a);
      ProbeStops(renamed, like, now, threshold, ids, probes, best', a');
    }
  }

  lemma {:induction false} WithoutRenamed(rho: Renaming, own: seq<Item>, ids: set<nat>)
    requires Increasing(rho) && Covers(rho, own) && ids <= rho.Keys
    ensures Without(Renamed(rho, own), NewIds(rho, ids)) == Renamed(rho, Without(own, ids))
  {
    if own != [] {
      assert own[0] in own && forall x | x in own[1..] :: x in own;
      NewIdIn(rho, own[0].id, ids);
      WithoutRenamed(rho, own[1..], ids);
      assert Renamed(rho, own)[1..] == Renamed(rho, own[1..]);
    }
  }

  lemma {:induction false} RenamedAppend(rho: Renaming, own: seq<Item>, x: Item)
    ensures Renamed(rho, own + [x]) == Renamed(rho, own) + [NewItem(rho, x)]
  {
    if own != [] {
      assert (own + [x])[1..] == own[1..] + [x];
      RenamedAppend(rho, own[1..], x);
    }
  }

  lemma {:induction false} SettleRenamed(rho: Renaming, own: seq<Item>, a: Answer)
    requires Increasing(rho) && Covers(rho, own) && a.dropped <= rho.Keys && (a.hit.Some? ==> a.hit.value in own)
    ensures Settle(Renamed(rho, own), NewAnswer(rho, a)) == Renamed(rho, Settle(own, a))
    ensures Covers(rho, Settle(own, a))
  {
    match a.hit
    case None =>
      WithoutRenamed(rho, own, a.dropped);
      WithoutMembers(own, a.dropped);
    case Some(h) =>
      NewIdsAdd(rho, a.dropped, h.id);
      WithoutRenamed(rho, own, a.dropped + {h.id});
      WithoutMembers(own, a.dropped + {h.id});
      RenamedAppend(rho, Without(own, a.dropped + {h.id}), h);
  }

  /** A larger renaming that agrees where it matters. */
  lemma {:induction false} RenamedMore(rho: Renaming, id: nat, new_: nat, own: seq<Item>)
    requires Covers(rho, own) && id !in rho
    ensures Renamed(rho[id := new_], own) == Renamed(rho, own)
    ensures Covers(rho[id := new_], own)
  {
    if own != [] {
      assert own[0] in own && forall x | x in own[1..] :: x in own;
      RenamedMore(rho, id, new_, own[1..]);
    }
  }

  // ---------------------------------------------------------------- side by side

  predicate Fresh(s: Run) {
    DistinctIds(s.items) && forall x | x in s.items :: x.id < s.nextId
  }

  /** The operation as a step of the cache. */
  function StepOf(threshold: real, s: Run, op: Op): CacheRuns.Step {
    match op
    case Lookup(scope, vec, now) =>
      var a := LookupIn(s.items, scope, Like(vec), now, threshold);
      CacheRuns.Lookup(scope, vec, now, a.dropped, a.hit)
    case Insert(scope, vec, response, expiresAt) =>
      CacheRuns.Insert(Item(s.nextId, scope, vec, response, expiresAt))
  }

  /** As long as the cap is not exceeded, these are steps the cache may take. */
  lemma {:induction false} NextIsCacheStep(threshold: real, maxEntries: nat, s: Run, op: Op)
    requires Fresh(s) && |s.items| <= maxEntries && |Next(threshold, s, op).items| <= maxEntries
    ensures CacheRuns.Allowed(CacheRuns.Config(threshold, maxEntries), s, StepOf(threshold, s, op))
    ensures CacheRuns.Next(CacheRuns.Config(threshold, maxEntries), s, StepOf(threshold, s, op))
            == Next(threshold, s, op)
    ensures Fresh(Next(threshold, s, op))
  {
    var c, step := CacheRuns.Config(threshold, maxEntries), StepOf(threshold, s, op);
    if op.Lookup? {
      ProbeIsLooked(s.items, op.scope, Like(op.vec), op.now, threshold);
    }
    CacheRuns.SoundNext(c, s, step);
  }

  predicate Mimics(rho: Renaming, full: Run, alone: Run, scope: string) {
    && Increasing(rho) && Covers(rho, Own(full.items, scope))
    && (forall id | id in rho :: id < full.nextId && rho[id] < alone.nextId)
    && alone.items == Renamed(rho, Own(full.items, scope))
  }

  lemma {:induction false} OwnOfRenamed(rho: Renaming, items: seq<Item>, scope: string)
    ensures Own(Renamed(rho, Own(items, scope)), scope) == Renamed(rho, Own(items, scope))
  {
    if items != [] {
      OwnOfRenamed(rho, items[1..], scope);
      if items[0].scope == scope {
        var own, rest := Own(items, scope), Own(items[1..], scope);
        assert own[1..] == rest;
        assert Renamed(rho, own)[1..] == Renamed(rho, rest);
      }
    }
  }

  lemma {:induction false} LookupMimics(threshold: real, rho: Renaming, full: Run, alone: Run, op: Op)
    requires op.Lookup? && Fresh(full) && Mimics(rho, full, alone, op.scope)
    ensures Mimics(rho, Next(threshold, full, op), Next(threshold, alone, op), op.scope)
    ensures Reply(threshold, full, op) == Reply(threshold, alone, op)
  {
    var scope, like, now, own := op.scope, Like(op.vec), op.now, Own(full.items, op.scope);
    var a := LookupIn(full.items, scope, like, now, threshold);
    OwnOfRenamed(rho, full.items, scope);
    assert NewIds(rho, {}) == {};
    var probed, probed' := ProbeRenamed(rho, own, Renamed(rho, own), like, now, threshold, {}, {}, PROBES);
    assert LookupIn(alone.items, scope, like, now, threshold) == NewAnswer(rho, a);
    OwnSettles(full.items, scope, like, now, threshold);
    SettleRenamed(rho, own, a);
  }

  lemma {:induction false} InsertMimics(threshold: real, rho: Renaming, full: Run, alone: Run, op: Op)
    requires op.Insert? && Fresh(full) && Mimics(rho, full, alone, op.scope)
    ensures Mimics(rho[full.nextId := alone.nextId], Next(threshold, full, op), Next(threshold, alone, op), op.scope)
  {
    var own, rho' := Own(full.items, op.scope), rho[full.nextId := alone.nextId];
    var x := Item(full.nextId, op.scope, op.vec, op.response, op.expiresAt);
    OwnAppend(full.items, x, op.scope);
    RenamedMore(rho, full.nextId, alone.nextId, own);
    RenamedAppend(rho', own, x);
  }

  lemma {:induction false} OtherMimics(threshold: real, rho: Renaming, full: Run, alone: Run, op: Op, scope: string)
    requires op.scope != scope && Fresh(full) && Mimics(rho, full, alone, scope)
    ensures Mimics(rho, Next(threshold, full, op), alone, scope)
  {
    match op
    case Lookup(at, vec, now) =>
      OthersUntouched(full.items, at, Like(vec), now, threshold, scope);
    case Insert(at, vec, response, expiresAt) =>
      OwnAppend(full.items, Item(full.nextId, at, vec, response, expiresAt), scope);
  }

  lemma {:induction false} SideBySide(threshold: real, maxEntries: nat, ops: seq<Op>, scope: string)
    returns (rho: Renaming)
    requires NeverFull(threshold, maxEntries, ops)
    ensures Fresh(After(threshold, ops)) && |After(threshold, ops).items| <= maxEntries
    ensures Mimics(rho, After(threshold, ops), After(threshold, Alone(ops, scope)), scope)
    ensures Replies(threshold, ops, scope) == Replies(threshold, Alone(ops, scope), scope)
    ensures NeverFull(threshold, maxEntries, Alone(ops, scope))
  {
    rho := map[];
    if ops != [] {
      var before, op := ops[..|ops| - 1], ops[|ops| - 1];
      rho := SideBySide(threshold, maxEntries, before, scope);
      var full, alone := After(threshold, before), After(threshold, Alone(before, scope));
      NextIsCacheStep(threshold, maxEntries, full, op);
      if op.scope != scope {
        OtherMimics(threshold, rho, full, alone, op, scope);
        assert Alone(ops, scope) == Alone(before, scope);
      } else {
        var less, more := Alone(before, scope), Alone(ops, scope);
        assert more == less + [op] && more[..|more| - 1] == less;
        if op.Lookup? {
          LookupMimics(threshold, rho, full, alone, op);
        } else {
          InsertMimics(threshold, rho, full, alone, op);
          rho := rho[full.nextId := alone.nextId];
        }
        OwnIsShorter(After(threshold, ops).items, scope);
      }
    }
  }

  /** In a run that never fills the cache, every operation on a scope returns what it returns in
      the run of that scope's operations alone; and that run does not fill the cache either. */
  lemma {:induction false} ScopesDoNotInterfere(threshold: real, maxEntries: nat, ops: seq<Op>, scope: string)
    requires NeverFull(threshold, maxEntries, ops)
    ensures Replies(threshold, ops, scope) == Replies(threshold, Alone(ops, scope), scope)
    ensures NeverFull(threshold, maxEntries, Alone(ops, scope))
  {
    var rho := SideBySide(threshold, maxEntries, ops, scope);
  }
}
