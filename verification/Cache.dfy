/** The semantic cache (gateway/cache/semantic_cache.py). Three structures are kept in step:
    one vector index per scope, a map of entries and a recency order over all scopes. `Valid`
    says how they fit together, and `Contents` reads them as one list of items, least recently
    touched first, on which every operation is specified. */
module Cache {
  import opened Prelude

  type Vec = seq<real>

  /** The inner product; the cosine similarity for normalised vectors. */
  function Similarity(a: Vec, b: Vec): real {
    if a == [] || b == [] then 0.0 else a[0] * b[0] + Similarity(a[1..], b[1..])
  }

  /** The products of the first `n` components, added up. */
  function Products(a: Vec, b: Vec, n: nat): real
    requires n <= |a| && n <= |b|
  {
    if n == 0 then 0.0 else Products(a, b, n - 1) + a[n - 1] * b[n - 1]
  }

  lemma {:induction false} ProductsFromSecond(a: Vec, b: Vec, n: nat)
    requires 0 < |a| && 0 < |b| && n < |a| && n < |b|
    ensures Products(a, b, n + 1) == a[0] * b[0] + Products(a[1..], b[1..], n)
  {
    if n > 0 {
      ProductsFromSecond(a, b, n - 1);
    }
  }

  /** It is the sum of the products of corresponding components. */
  lemma {:induction false} SimilarityIsInnerProduct(a: Vec, b: Vec)
    ensures Similarity(a, b) == Products(a, b, if |a| <= |b| then |a| else |b|)
  {
    if a != [] && b != [] {
      SimilarityIsInnerProduct(a[1..], b[1..]);
      ProductsFromSecond(a, b, if |a| <= |b| then |a| - 1 else |b| - 1);
    }
  }

  /** How similar stored vectors are to a query. Search and lookup are specified for any measure. */
  type Likeness = Vec -> real

  function Like(query: Vec): Likeness {
    (v: Vec) => Similarity(query, v)
  }

  /** A stored completion; nothing depends on its structure. */
  type Response = string

  datatype Entry = Entry(scope: string, response: Response, expiresAt: Option<real>)

  datatype Vector = Vector(id: nat, vec: Vec)

  datatype Hit = Hit(sim: real, id: nat)

  /** A cache entry with all that the three structures know of it. */
  datatype Item = Item(id: nat, scope: string, vec: Vec, response: Response, expiresAt: Option<real>)

  predicate Due(expiresAt: Option<real>, now: real) {
    expiresAt.Some? && now >= expiresAt.value
  }

  // ---------------------------------------------------------------- one flat index

  function Find(index: seq<Vector>, id: nat): (r: Option<Vec>)
    ensures r.None? <==> forall i | 0 <= i < |index| :: index[i].id != id
  {
    if index == [] then None
    else if index[0].id == id then Some(index[0].vec)
    else Find(index[1..], id)
  }

  predicate Holds(index: seq<Vector>, id: nat) {
    exists i :: 0 <= i < |index| && index[i].id == id
  }

  predicate Distinct(index: seq<Vector>) {
    forall i, j | 0 <= i < j < |index| :: index[i].id != index[j].id
  }

  lemma {:induction false} FindAt(index: seq<Vector>, i: nat)
    requires Distinct(index) && i < |index|
    ensures Find(index, index[i].id) == Some(index[i].vec)
  {
    if i > 0 {
      FindAt(index[1..], i - 1);
    }
  }

  lemma {:induction false} FindAppend(index: seq<Vector>, v: Vector, id: nat)
    requires Find(index, v.id).None?
    ensures Find(index + [v], id) == if id == v.id then Some(v.vec) else Find(index, id)
  {
    if index != [] {
      assert (index + [v])[1..] == index[1..] + [v];
      FindAppend(index[1..], v, id);
    }
  }

  /** `remove_ids` with one id: the other vectors keep their order. */
  function Dropped(index: seq<Vector>, id: nat): seq<Vector> {
    if index == [] then []
    else if index[0].id == id then Dropped(index[1..], id)
    else [index[0]] + Dropped(index[1..], id)
  }

  lemma {:induction false} DroppedKeeps(index: seq<Vector>, id: nat)
    ensures forall v :: v in Dropped(index, id) <==> v in index && v.id != id
    ensures forall other | other != id :: Find(Dropped(index, id), other) == Find(index, other)
    ensures Distinct(index) ==> Distinct(Dropped(index, id))
  {
    if index != [] {
      DroppedKeeps(index[1..], id);
      assert index == [index[0]] + index[1..];
      var rest := Dropped(index[1..], id);
      if index[0].id != id {
        assert Dropped(index, id)[1..] == rest;
        if Distinct(index) {
          forall j | 0 <= j < |rest|
            ensures rest[j].id != index[0].id
          {
            assert rest[j] in index[1..];
          }
        }
      }
    }
  }

  /** The `k` vectors most similar to the query, in descending order, ties in any order. */
  ghost predicate TopK(index: seq<Vector>, like: Likeness, k: nat, hits: seq<Hit>) {
    && |hits| == k
    && (forall i | 0 <= i < k :: Find(index, hits[i].id).Some?
                                 && hits[i].sim == like(Find(index, hits[i].id).value))
    && (forall i, j | 0 <= i < j < k :: hits[i].id != hits[j].id && hits[i].sim >= hits[j].sim)
    && (forall v, i | v in index && 0 <= i < k :: Among(hits, v.id) || like(v.vec) <= hits[i].sim)
  }

  predicate Among(hits: seq<Hit>, id: nat) {
    exists i :: 0 <= i < |hits| && hits[i].id == id
  }

  lemma {:induction false} MostSimilar(index: seq<Vector>, like: Likeness) returns (best: nat)
    requires index != []
    ensures best < |index|
    ensures forall i | 0 <= i < |index| :: like(index[i].vec) <= like(index[best].vec)
  {
    best := 0;
    for n := 1 to |index|
      invariant best < |index|
      invariant forall i | 0 <= i < n :: like(index[i].vec) <= like(index[best].vec)
    {
      if like(index[n].vec) > like(index[best].vec) {
        best := n;
      }
    }
  }

  /** What a search has found and what it has left. */
  ghost predicate Searched(index: seq<Vector>, like: Likeness, hits: seq<Hit>, rest: seq<Vector>) {
    && TopK(index, like, |hits|, hits)
    && Distinct(rest) && |rest| + |hits| == |index|
    && (forall v :: v in rest <==> v in index && !Among(hits, v.id))
    && (forall v, i | v in rest && 0 <= i < |hits| :: like(v.vec) <= hits[i].sim)
  }

  lemma {:induction false} AmongAppend(hits: seq<Hit>, h: Hit, id: nat)
    ensures Among(hits + [h], id) <==> Among(hits, id) || id == h.id
  {
    assert (hits + [h])[|hits|] == h;
    assert forall i | 0 <= i < |hits| :: (hits + [h])[i] == hits[i];
  }

  lemma {:induction false} RemoveAt(index: seq<Vector>, at: nat)
    requires Distinct(index) && at < |index|
    ensures var rest := index[..at] + index[at + 1..];
            Distinct(rest) && forall v :: v in rest <==> v in index && v.id != index[at].id
  {
    var rest := index[..at] + index[at + 1..];
    forall v | v in index && v.id != index[at].id
      ensures v in rest
    {
      var i :| 0 <= i < |index| && index[i] == v;
      assert if i < at then rest[i] == v else rest[i - 1] == v;
    }
  }

  /** The best vector not yet found extends the ranking. */
  lemma {:induction false} TopKNext(index: seq<Vector>, like: Likeness, hits: seq<Hit>, h: Hit)
    requires TopK(index, like, |hits|, hits) && !Among(hits, h.id)
    requires Find(index, h.id).Some? && h.sim == like(Find(index, h.id).value)
    requires forall i | 0 <= i < |hits| :: h.sim <= hits[i].sim
    requires forall v | v in index && !Among(hits, v.id) :: like(v.vec) <= h.sim
    ensures TopK(index, like, |hits| + 1, hits + [h])
  {
    assert forall i | 0 <= i < |hits| :: Among(hits, hits[i].id);
    forall id
      ensures Among(hits + [h], id) <==> Among(hits, id) || id == h.id
    {
      AmongAppend(hits, h, id);
    }
  }

  lemma {:induction false} RestNext(index: seq<Vector>, hits: seq<Hit>, rest: seq<Vector>, h: Hit, rest': seq<Vector>)
    requires forall v :: v in rest <==> v in index && !Among(hits, v.id)
    requires forall v :: v in rest' <==> v in rest && v.id != h.id
    ensures forall v :: v in rest' <==> v in index && !Among(hits + [h], v.id)
  {
    forall v
      ensures v in rest' <==> v in index && !Among(hits + [h], v.id)
    {
      AmongAppend(hits, h, v.id);
    }
  }

  lemma {:induction false} TopGrows(index: seq<Vector>, like: Likeness, hits: seq<Hit>, rest: seq<Vector>, v: Vector,
      h: Hit)
    requires Distinct(index) && Searched(index, like, hits, rest) && v in rest && h == Hit(like(v.vec), v.id)
    requires forall i | 0 <= i < |rest| :: like(rest[i].vec) <= like(v.vec)
    ensures TopK(index, like, |hits| + 1, hits + [h])
  {
    var at :| 0 <= at < |index| && index[at] == v;
    FindAt(index, at);
    TopKNext(index, like, hits, h);
  }

  lemma {:induction false} SearchedNext(index: seq<Vector>, like: Likeness, hits: seq<Hit>, rest: seq<Vector>,
      best: nat)
    requires Distinct(index) && Searched(index, like, hits, rest) && best < |rest|
    requires forall i | 0 <= i < |rest| :: like(rest[i].vec) <= like(rest[best].vec)
    ensures Searched(index, like, hits + [Hit(like(rest[best].vec), rest[best].id)],
                     rest[..best] + rest[best + 1..])
  {
    var v, rest' := rest[best], rest[..best] + rest[best + 1..];
    var h := Hit(like(v.vec), v.id);
    TopGrows(index, like, hits, rest, v, h);
    RemoveAt(rest, best);
    RestNext(index, hits, rest, h, rest');
    RestBelow(like, hits, rest, h, rest');
  }

  lemma {:induction false} RestBelow(like: Likeness, hits: seq<Hit>, rest: seq<Vector>, h: Hit, rest': seq<Vector>)
    requires forall v, i | v in rest && 0 <= i < |hits| :: like(v.vec) <= hits[i].sim
    requires forall v | v in rest' :: v in rest && like(v.vec) <= h.sim
    ensures forall v, i | v in rest' && 0 <= i < |hits + [h]| :: like(v.vec) <= (hits + [h])[i].sim
  {
  }

  /** An exact search of a flat index, free in its choice among equals. */
  method Search(index: seq<Vector>, like: Likeness, k: nat) returns (hits: seq<Hit>)
    requires Distinct(index) && k <= |index|
    ensures TopK(index, like, k, hits)
    ensures k == |index| ==> forall v | v in index :: Among(hits, v.id)
  {
    hits := [];
    var rest := index;
    while |hits| < k
      invariant |hits| <= k && Searched(index, like, hits, rest)
    {
      ghost var some := MostSimilar(rest, like);
      var best: nat :| best < |rest| &&
        forall i | 0 <= i < |rest| :: like(rest[i].vec) <= like(rest[best].vec);
      SearchedNext(index, like, hits, rest, best);
      hits := hits + [Hit(like(rest[best].vec), rest[best].id)];
      rest := rest[..best] + rest[best + 1..];
    }
  }

  // ---------------------------------------------------------------- lists of items

  function Without(items: seq<Item>, ids: set<nat>): seq<Item> {
    if items == [] then []
    else if items[0].id in ids then Without(items[1..], ids)
    else [items[0]] + Without(items[1..], ids)
  }

  lemma {:induction false} WithoutMembers(items: seq<Item>, ids: set<nat>)
    ensures forall x :: x in Without(items, ids) <==> x in items && x.id !in ids
    ensures |Without(items, ids)| <= |items|
  {
    if items != [] {
      WithoutMembers(items[1..], ids);
      assert items == [items[0]] + items[1..];
    }
  }

  lemma {:induction false} WithoutTwice(items: seq<Item>, ids: set<nat>, more: set<nat>)
    ensures Without(Without(items, ids), more) == Without(items, ids + more)
  {
    if items != [] {
      WithoutTwice(items[1..], ids, more);
    }
  }

  lemma {:induction false} WithoutNone(items: seq<Item>, ids: set<nat>)
    requires forall x | x in items :: x.id !in ids
    ensures Without(items, ids) == items
  {
    if items != [] {
      WithoutNone(items[1..], ids);
    }
  }

  predicate DistinctIds(items: seq<Item>) {
    forall i, j | 0 <= i < j < |items| :: items[i].id != items[j].id
  }

  lemma {:induction false} WithoutDistinct(items: seq<Item>, ids: set<nat>)
    requires DistinctIds(items)
    ensures DistinctIds(Without(items, ids))
  {
    if items != [] {
      WithoutDistinct(items[1..], ids);
      WithoutMembers(items[1..], ids);
      forall x | x in Without(items[1..], ids)
        ensures x.id != items[0].id
      {
        assert x in items[1..];
      }
    }
  }

  /** The most recently touched `n` items. */
  function KeepLast(items: seq<Item>, n: nat): seq<Item> {
    if |items| <= n then items else items[|items| - n..]
  }

  function SimTo(like: Likeness, x: Item): real {
    like(x.vec)
  }

  predicate Within(x: Item, scope: string, dropped: set<nat>) {
    x.scope == scope && x.id !in dropped
  }

  /** One of the most similar items of the scope that are left. */
  predicate Front(items: seq<Item>, scope: string, like: Likeness, dropped: set<nat>, x: Item) {
    && x in items && Within(x, scope, dropped)
    && forall y | y in items && Within(y, scope, dropped) :: SimTo(like, y) <= SimTo(like, x)
  }

  /** A lookup examines at most this many items. */
  const PROBES := 5

  /** Expired items of the scope, each at least as similar as any that is left. */
  predicate Skimmed(items: seq<Item>, scope: string, like: Likeness, now: real, dropped: set<nat>) {
    && (forall id | id in dropped ::
          exists x :: x in items && x.id == id && x.scope == scope && Due(x.expiresAt, now))
    && (forall x, y | x in items && y in items && x.id in dropped && Within(y, scope, dropped) ::
          SimTo(like, x) >= SimTo(like, y))
  }

  /** What a lookup may do to the list: skim expired items off the top of the ranking, then serve
      the item in front, or end because the probes are used up, nothing is left, or the item in
      front is too dissimilar. */
  predicate Looked(items: seq<Item>, scope: string, like: Likeness, now: real, threshold: real,
                   dropped: set<nat>, hit: Option<Item>, after: seq<Item>)
  {
    match hit
    case None =>
      && |dropped| <= PROBES && Skimmed(items, scope, like, now, dropped)
      && after == Without(items, dropped)
      && (|dropped| < PROBES ==> forall x | x in items && Within(x, scope, dropped) ::
            exists y :: y in items && Front(items, scope, like, dropped, y)
                        && !Due(y.expiresAt, now) && SimTo(like, y) < threshold)
    case Some(h) =>
      && |dropped| < PROBES && Skimmed(items, scope, like, now, dropped)
      && Front(items, scope, like, dropped, h)
      && !Due(h.expiresAt, now) && SimTo(like, h) >= threshold
      && after == Without(items, dropped + {h.id}) + [h]
  }

  // ---------------------------------------------------------------- how the structures fit

  ghost predicate Linked(indexes: map<string, seq<Vector>>, entries: map<nat, Entry>) {
    && (forall s | s in indexes :: Distinct(indexes[s]))
    && (forall s, i | s in indexes && 0 <= i < |indexes[s]| ::
          indexes[s][i].id in entries && entries[indexes[s][i].id].scope == s)
    && (forall id | id in entries ::
          entries[id].scope in indexes && Holds(indexes[entries[id].scope], id))
  }

  ghost predicate Ordered(entries: map<nat, Entry>, lru: seq<nat>) {
    && (forall i, j | 0 <= i < j < |lru| :: lru[i] != lru[j])
    && (forall id :: id in lru <==> id in entries)
  }

  function ItemOf(indexes: map<string, seq<Vector>>, entries: map<nat, Entry>, id: nat): (x: Item)
    ensures x.id == id
  {
    if id in entries && entries[id].scope in indexes then
      var e := entries[id];
      Item(id, e.scope, Find(indexes[e.scope], id).GetOr([]), e.response, e.expiresAt)
    else
      Item(id, "", [], "", None)
  }

  function Listing(indexes: map<string, seq<Vector>>, entries: map<nat, Entry>, lru: seq<nat>): (items: seq<Item>)
    ensures |items| == |lru|
    ensures forall i | 0 <= i < |lru| :: items[i] == ItemOf(indexes, entries, lru[i])
  {
    seq(|lru|, i requires 0 <= i < |lru| => ItemOf(indexes, entries, lru[i]))
  }

  lemma {:induction false} ListingFrame(
    indexes: map<string, seq<Vector>>, entries: map<nat, Entry>,
    indexes': map<string, seq<Vector>>, entries': map<nat, Entry>, lru: seq<nat>)
    requires forall i | 0 <= i < |lru| :: ItemOf(indexes, entries, lru[i]) == ItemOf(indexes', entries', lru[i])
    ensures Listing(indexes, entries, lru) == Listing(indexes', entries', lru)
  {
  }

  function Cut(lru: seq<nat>, id: nat): seq<nat> {
    if lru == [] then []
    else if lru[0] == id then Cut(lru[1..], id)
    else [lru[0]] + Cut(lru[1..], id)
  }

  lemma {:induction false} CutKeeps(lru: seq<nat>, id: nat)
    ensures forall other :: other in Cut(lru, id) <==> other in lru && other != id
    ensures (forall i, j | 0 <= i < j < |lru| :: lru[i] != lru[j]) ==>
              forall i, j | 0 <= i < j < |Cut(lru, id)| :: Cut(lru, id)[i] != Cut(lru, id)[j]
  {
    if lru != [] {
      CutKeeps(lru[1..], id);
      assert lru == [lru[0]] + lru[1..];
      var rest := Cut(lru[1..], id);
      if lru[0] != id {
        assert Cut(lru, id)[1..] == rest;
        if forall i, j | 0 <= i < j < |lru| :: lru[i] != lru[j] {
          forall j | 0 <= j < |rest|
            ensures rest[j] != lru[0]
          {
            assert rest[j] in lru[1..];
          }
        }
      }
    }
  }

  lemma {:induction false} CutFirst(lru: seq<nat>, id: nat)
    requires id !in lru
    ensures Cut(lru, id) == lru
  {
    if lru != [] {
      CutFirst(lru[1..], id);
    }
  }

  lemma {:induction false} ListingCut(indexes: map<string, seq<Vector>>, entries: map<nat, Entry>, lru: seq<nat>,
      id: nat)
    ensures Listing(indexes, entries, Cut(lru, id)) == Without(Listing(indexes, entries, lru), {id})
  {
    if lru != [] {
      var items := Listing(indexes, entries, lru);
      ListingCut(indexes, entries, lru[1..], id);
      assert items[1..] == Listing(indexes, entries, lru[1..]);
      if lru[0] != id {
        ListingCons(indexes, entries, lru[0], Cut(lru[1..], id));
      }
    }
  }

  lemma {:induction false} ListingCons(indexes: map<string, seq<Vector>>, entries: map<nat, Entry>, id: nat,
      lru: seq<nat>)
    ensures Listing(indexes, entries, [id] + lru) == [ItemOf(indexes, entries, id)] + Listing(indexes, entries, lru)
  {
  }

  function Unindexed(indexes: map<string, seq<Vector>>, entries: map<nat, Entry>, id: nat): map<string, seq<Vector>> {
    if id in entries && entries[id].scope in indexes then
      indexes[entries[id].scope := Dropped(indexes[entries[id].scope], id)]
    else indexes
  }

  /** Removing one entry from all three structures removes one item from the list. */
  lemma {:induction false} RemovedEverywhere(indexes: map<string, seq<Vector>>, entries: map<nat, Entry>,
      lru: seq<nat>, id: nat)
    requires Linked(indexes, entries) && Ordered(entries, lru) && id in entries
    ensures var indexes', entries', lru' := Unindexed(indexes, entries, id), entries - {id}, Cut(lru, id);
            && Linked(indexes', entries') && Ordered(entries', lru')
            && Listing(indexes', entries', lru') == Without(Listing(indexes, entries, lru), {id})
  {
    var indexes', entries', lru' := Unindexed(indexes, entries, id), entries - {id}, Cut(lru, id);
    RemovedFromIndex(indexes, entries, id);
    CutKeeps(lru, id);
    ListingCut(indexes, entries, lru, id);
    ListingFrame(indexes, entries, indexes', entries', lru');
  }

  lemma {:induction false} RemovedFromIndex(indexes: map<string, seq<Vector>>, entries: map<nat, Entry>, id: nat)
    requires Linked(indexes, entries) && id in entries
    ensures var indexes', entries' := Unindexed(indexes, entries, id), entries - {id};
            && Linked(indexes', entries')
            && forall other | other != id ::
                 ItemOf(indexes', entries', other) == ItemOf(indexes, entries, other)
  {
    var scope := entries[id].scope;
    var indexes': map<string, seq<Vector>> := Unindexed(indexes, entries, id);
    var entries': map<nat, Entry> := entries - {id};
    DroppedKeeps(indexes[scope], id);
    forall s: string, i | s in indexes' && 0 <= i < |indexes'[s]|
      ensures indexes'[s][i].id in entries' && entries'[indexes'[s][i].id].scope == s
    {
      if s == scope {
        assert indexes'[s][i] in indexes[s];
      }
    }
  }

  function IndexFor(indexes: map<string, seq<Vector>>, scope: string): seq<Vector> {
    if scope in indexes then indexes[scope] else []
  }

  lemma {:induction false} DistinctAppend(index: seq<Vector>, v: Vector)
    requires Distinct(index) && Find(index, v.id).None?
    ensures Distinct(index + [v])
  {
  }

  lemma {:induction false} AddedToIndex(indexes: map<string, seq<Vector>>, entries: map<nat, Entry>, v: Vector,
      e: Entry)
    requires Linked(indexes, entries) && v.id !in entries
    ensures var indexes', entries' := indexes[e.scope := IndexFor(indexes, e.scope) + [v]], entries[v.id := e];
            && Linked(indexes', entries')
            && ItemOf(indexes', entries', v.id) == Item(v.id, e.scope, v.vec, e.response, e.expiresAt)
            && forall other | other != v.id ::
                 ItemOf(indexes', entries', other) == ItemOf(indexes, entries, other)
  {
    var index := IndexFor(indexes, e.scope);
    var indexes': map<string, seq<Vector>> := indexes[e.scope := index + [v]];
    var entries': map<nat, Entry> := entries[v.id := e];
    assert Find(index, v.id).None?;
    DistinctAppend(index, v);
    assert (index + [v])[|index|] == v;
    assert forall i | 0 <= i < |index| :: (index + [v])[i] == index[i];
    forall id
      ensures Find(index + [v], id) == if id == v.id then Some(v.vec) else Find(index, id)
    {
      FindAppend(index, v, id);
    }
    forall s: string, i | s in indexes' && 0 <= i < |indexes'[s]|
      ensures indexes'[s][i].id in entries' && entries'[indexes'[s][i].id].scope == s
    {
      if s == e.scope && i < |index| {
        assert indexes'[s][i] == indexes[s][i];
      }
    }
  }

  lemma {:induction false} OrderedAppend(entries: map<nat, Entry>, lru: seq<nat>, id: nat, e: Entry)
    requires Ordered(entries, lru) && id !in entries
    ensures Ordered(entries[id := e], lru + [id])
  {
    assert forall other :: other in lru + [id] <==> other in lru || other == id;
  }

  lemma {:induction false} ListingAppend(
    indexes: map<string, seq<Vector>>, entries: map<nat, Entry>, lru: seq<nat>, id: nat)
    ensures Listing(indexes, entries, lru + [id]) == Listing(indexes, entries, lru) + [ItemOf(indexes, entries, id)]
  {
    assert forall i | 0 <= i < |lru| :: (lru + [id])[i] == lru[i];
  }

  /** Adding a new entry to all three structures appends one item to the list. */
  lemma {:induction false} AddedEverywhere(indexes: map<string, seq<Vector>>, entries: map<nat, Entry>, lru: seq<nat>,
                        v: Vector, e: Entry)
    requires Linked(indexes, entries) && Ordered(entries, lru) && v.id !in entries
    ensures var indexes', entries' := indexes[e.scope := IndexFor(indexes, e.scope) + [v]], entries[v.id := e];
            && Linked(indexes', entries') && Ordered(entries', lru + [v.id])
            && Listing(indexes', entries', lru + [v.id])
               == Listing(indexes, entries, lru) + [Item(v.id, e.scope, v.vec, e.response, e.expiresAt)]
  {
    var indexes': map<string, seq<Vector>> := indexes[e.scope := IndexFor(indexes, e.scope) + [v]];
    var entries': map<nat, Entry> := entries[v.id := e];
    AddedToIndex(indexes, entries, v, e);
    OrderedAppend(entries, lru, v.id, e);
    forall i | 0 <= i < |lru|
      ensures lru[i] != v.id
    {
      assert lru[i] in lru;
    }
    ListingFrame(indexes, entries, indexes', entries', lru);
    ListingAppend(indexes', entries', lru, v.id);
  }

  lemma {:induction false} OrderedTouch(entries: map<nat, Entry>, lru: seq<nat>, id: nat)
    requires Ordered(entries, lru) && id in entries
    ensures Ordered(entries, Cut(lru, id) + [id])
  {
    CutKeeps(lru, id);
    var lru' := Cut(lru, id) + [id];
    forall i | 0 <= i < |Cut(lru, id)|
      ensures Cut(lru, id)[i] != id
    {
      assert Cut(lru, id)[i] in Cut(lru, id);
    }
    assert forall other :: other in lru' <==> other in Cut(lru, id) || other == id;
  }

  lemma {:induction false} TouchedLast(indexes: map<string, seq<Vector>>, entries: map<nat, Entry>, lru: seq<nat>,
      id: nat)
    requires Ordered(entries, lru) && id in entries
    ensures Ordered(entries, Cut(lru, id) + [id])
    ensures Listing(indexes, entries, Cut(lru, id) + [id])
            == Without(Listing(indexes, entries, lru), {id}) + [ItemOf(indexes, entries, id)]
  {
    OrderedTouch(entries, lru, id);
    ListingCut(indexes, entries, lru, id);
    ListingAppend(indexes, entries, Cut(lru, id), id);
  }

  lemma {:induction false} AsManyAsListed(entries: map<nat, Entry>, lru: seq<nat>)
    requires Ordered(entries, lru)
    ensures |entries| == |lru|
  {
    if lru != [] {
      var rest := entries - {lru[0]};
      assert lru == [lru[0]] + lru[1..];
      assert lru[0] in entries;
      AsManyAsListed(rest, lru[1..]);
      assert rest.Keys == entries.Keys - {lru[0]};
      assert |rest| == |rest.Keys| && |entries| == |entries.Keys|;
    } else {
      assert entries == map[];
    }
  }

  // ---------------------------------------------------------------- the ranking and the list

  /** A scope's index holds exactly the vectors of the scope's items. */
  lemma {:induction false} IndexMirrorsList(indexes: map<string, seq<Vector>>, entries: map<nat, Entry>,
      lru: seq<nat>, scope: string)
    requires Linked(indexes, entries) && Ordered(entries, lru)
    ensures forall x | x in Listing(indexes, entries, lru) && x.scope == scope ::
              scope in indexes && Vector(x.id, x.vec) in indexes[scope]
    ensures scope in indexes ==> forall i | 0 <= i < |indexes[scope]| ::
              var v := indexes[scope][i]; var x := ItemOf(indexes, entries, v.id);
              x in Listing(indexes, entries, lru) && x.scope == scope && x.vec == v.vec
  {
    var items := Listing(indexes, entries, lru);
    forall x | x in items && x.scope == scope
      ensures scope in indexes && Vector(x.id, x.vec) in indexes[scope]
    {
      var i :| 0 <= i < |items| && items[i] == x;
      assert lru[i] in lru;
      FoundInIndex(indexes[scope], x.id);
    }
    if scope in indexes {
      forall i | 0 <= i < |indexes[scope]|
        ensures var v := indexes[scope][i]; var x := ItemOf(indexes, entries, v.id);
                x in items && x.scope == scope && x.vec == v.vec
      {
        var id := indexes[scope][i].id;
        FindAt(indexes[scope], i);
        assert id in lru;
        var j :| 0 <= j < |lru| && lru[j] == id;
        assert items[j] == ItemOf(indexes, entries, id);
      }
    }
  }

  lemma {:induction false} FoundInIndex(index: seq<Vector>, id: nat)
    requires Find(index, id).Some?
    ensures Vector(id, Find(index, id).value) in index
  {
    if index[0].id == id {
      assert index[0] == Vector(id, Find(index, id).value);
    } else {
      FoundInIndex(index[1..], id);
    }
  }

  /** The items of a ranking, most similar first, cut off after the last probe. */
  predicate Ranked(items: seq<Item>, scope: string, like: Likeness, top: seq<Item>) {
    && |top| <= PROBES && DistinctIds(top)
    && (forall i | 0 <= i < |top| :: top[i] in items && top[i].scope == scope)
    && (forall i, j | 0 <= i < j < |top| :: SimTo(like, top[i]) >= SimTo(like, top[j]))
    && (forall x, i | x in items && x.scope == scope && 0 <= i < |top| ::
          x in top || SimTo(like, x) <= SimTo(like, top[i]))
    && (|top| < PROBES ==> forall x | x in items && x.scope == scope :: x in top)
  }

  function IdsOf(xs: seq<Item>): set<nat> {
    set x | x in xs :: x.id
  }

  lemma {:induction false} IdsOfAppend(xs: seq<Item>, x: Item)
    ensures IdsOf(xs + [x]) == IdsOf(xs) + {x.id}
  {
    forall id
      ensures id in IdsOf(xs + [x]) <==> id in IdsOf(xs) || id == x.id
    {
      assert forall y :: y in xs + [x] <==> y in xs || y == x;
      assert x in xs + [x];
    }
  }

  lemma {:induction false} CountIds(xs: seq<Item>)
    requires DistinctIds(xs)
    ensures |IdsOf(xs)| == |xs|
  {
    if xs != [] {
      var n := |xs| - 1;
      CountIds(xs[..n]);
      IdsOfAppend(xs[..n], xs[n]);
      assert xs[..n] + [xs[n]] == xs;
      assert xs[n].id !in IdsOf(xs[..n]);
    }
  }

  lemma {:induction false} SameItem(items: seq<Item>, x: Item, y: Item)
    requires DistinctIds(items) && x in items && y in items && x.id == y.id
    ensures x == y
  {
  }

  /** What is left after the first `i` of a ranking is no more similar than any of them, nor
      than the next. */
  lemma {:induction false} BelowPrefix(items: seq<Item>, scope: string, like: Likeness, top: seq<Item>, i: nat,
      y: Item, j: nat)
    requires Ranked(items, scope, like, top) && j <= i <= |top| && j < |top|
    requires y in items && Within(y, scope, IdsOf(top[..i]))
    ensures SimTo(like, y) <= SimTo(like, top[j])
  {
    assert forall k | 0 <= k < i :: top[k] in top[..i];
  }

  /** The ids of the first `i` of a ranking are skimmed when all of them are due. */
  lemma {:induction false} SkimmedPrefix(items: seq<Item>, scope: string, like: Likeness, now: real, top: seq<Item>,
      i: nat)
    requires Ranked(items, scope, like, top) && DistinctIds(items) && i <= |top|
    requires forall j | 0 <= j < i :: Due(top[j].expiresAt, now)
    ensures Skimmed(items, scope, like, now, IdsOf(top[..i])) && |IdsOf(top[..i])| == i
  {
    var dropped := IdsOf(top[..i]);
    CountIds(top[..i]);
    forall id | id in dropped
      ensures exists x :: x in items && x.id == id && x.scope == scope && Due(x.expiresAt, now)
    {
      var x :| x in top[..i] && x.id == id;
      assert x in items;
    }
    forall x, y | x in items && y in items && x.id in dropped && Within(y, scope, dropped)
      ensures SimTo(like, x) >= SimTo(like, y)
    {
      var j :| 0 <= j < i && top[..i][j].id == x.id;
      SameItem(items, x, top[j]);
      BelowPrefix(items, scope, like, top, i, y, j);
    }
  }

  lemma {:induction false} FrontNext(items: seq<Item>, scope: string, like: Likeness, top: seq<Item>, i: nat)
    requires Ranked(items, scope, like, top) && i < |top|
    ensures Front(items, scope, like, IdsOf(top[..i]), top[i])
  {
    forall y | y in items && Within(y, scope, IdsOf(top[..i]))
      ensures SimTo(like, y) <= SimTo(like, top[i])
    {
      BelowPrefix(items, scope, like, top, i, y, i);
    }
  }

  lemma {:induction false} ListedDistinct(indexes: map<string, seq<Vector>>, entries: map<nat, Entry>, lru: seq<nat>)
    requires Ordered(entries, lru)
    ensures DistinctIds(Listing(indexes, entries, lru))
  {
  }

  lemma {:induction false} ListedEntry(indexes: map<string, seq<Vector>>, entries: map<nat, Entry>, lru: seq<nat>,
      x: Item)
    requires Linked(indexes, entries) && Ordered(entries, lru) && x in Listing(indexes, entries, lru)
    ensures x.id in entries && ItemOf(indexes, entries, x.id) == x
    ensures entries[x.id] == Entry(x.scope, x.response, x.expiresAt)
  {
    var items := Listing(indexes, entries, lru);
    var i :| 0 <= i < |items| && items[i] == x;
    assert lru[i] in lru;
  }

  function TopItems(indexes: map<string, seq<Vector>>, entries: map<nat, Entry>, hits: seq<Hit>): (top: seq<Item>)
    ensures |top| == |hits|
    ensures forall i | 0 <= i < |top| :: top[i] == ItemOf(indexes, entries, hits[i].id)
  {
    seq(|hits|, i requires 0 <= i < |hits| => ItemOf(indexes, entries, hits[i].id))
  }

  lemma {:induction false} HitIsItem(indexes: map<string, seq<Vector>>, entries: map<nat, Entry>, lru: seq<nat>,
                  scope: string, like: Likeness, hit: Hit)
    requires Linked(indexes, entries) && Ordered(entries, lru) && scope in indexes
    requires Find(indexes[scope], hit.id).Some? && hit.sim == like(Find(indexes[scope], hit.id).value)
    ensures var x := ItemOf(indexes, entries, hit.id);
            x in Listing(indexes, entries, lru) && x.scope == scope && hit.sim == SimTo(like, x)
  {
    IndexMirrorsList(indexes, entries, lru, scope);
    FoundInIndex(indexes[scope], hit.id);
  }

  lemma {:induction false} RankedFrom(items: seq<Item>, scope: string, like: Likeness, hits: seq<Hit>, top: seq<Item>)
    requires |top| == |hits| <= PROBES
    requires forall i | 0 <= i < |top| ::
      top[i] in items && top[i].scope == scope && top[i].id == hits[i].id && SimTo(like, top[i]) == hits[i].sim
    requires forall i, j | 0 <= i < j < |hits| :: hits[i].id != hits[j].id && hits[i].sim >= hits[j].sim
    requires forall x | x in items && x.scope == scope ::
      x in top || (|hits| >= PROBES && forall i | 0 <= i < |hits| :: SimTo(like, x) <= hits[i].sim)
    ensures Ranked(items, scope, like, top)
  {
  }

  /** Searching a scope's index ranks the scope's items. */
  lemma {:induction false} SearchRanks(indexes: map<string, seq<Vector>>, entries: map<nat, Entry>, lru: seq<nat>,
                    scope: string, like: Likeness, hits: seq<Hit>)
    requires Linked(indexes, entries) && Ordered(entries, lru) && scope in indexes
    requires |hits| <= PROBES && TopK(indexes[scope], like, |hits|, hits)
    requires |hits| < PROBES ==> forall v | v in indexes[scope] :: Among(hits, v.id)
    ensures Ranked(Listing(indexes, entries, lru), scope, like, TopItems(indexes, entries, hits))
    ensures forall i | 0 <= i < |hits| :: hits[i].sim == SimTo(like, TopItems(indexes, entries, hits)[i])
  {
    var items, top := Listing(indexes, entries, lru), TopItems(indexes, entries, hits);
    forall i | 0 <= i < |hits|
      ensures top[i] in items && top[i].scope == scope && hits[i].sim == SimTo(like, top[i])
    {
      HitIsItem(indexes, entries, lru, scope, like, hits[i]);
    }
    forall x | x in items && x.scope == scope
      ensures x in top || (|hits| >= PROBES && forall i | 0 <= i < |hits| :: SimTo(like, x) <= hits[i].sim)
    {
      RankedOrBelow(indexes, entries, lru, scope, like, hits, x);
    }
    RankedFrom(items, scope, like, hits, top);
  }

  lemma {:induction false} RankedOrBelow(indexes: map<string, seq<Vector>>, entries: map<nat, Entry>, lru: seq<nat>,
                      scope: string, like: Likeness, hits: seq<Hit>, x: Item)
    requires Linked(indexes, entries) && Ordered(entries, lru) && scope in indexes
    requires TopK(indexes[scope], like, |hits|, hits)
    requires |hits| < PROBES ==> forall v | v in indexes[scope] :: Among(hits, v.id)
    requires x in Listing(indexes, entries, lru) && x.scope == scope
    ensures x in TopItems(indexes, entries, hits)
            || (|hits| >= PROBES && forall i | 0 <= i < |hits| :: SimTo(like, x) <= hits[i].sim)
  {
    IndexMirrorsList(indexes, entries, lru, scope);
    var v := Vector(x.id, x.vec);
    assert v in indexes[scope];
    if Among(hits, x.id) {
      var i :| 0 <= i < |hits| && hits[i].id == x.id;
      ListedEntry(indexes, entries, lru, x);
      assert TopItems(indexes, entries, hits)[i] == x;
    }
  }

  // ---------------------------------------------------------------- the least recently touched go first

  lemma {:induction false} CutHead(lru: seq<nat>)
    requires lru != [] && forall i, j | 0 <= i < j < |lru| :: lru[i] != lru[j]
    ensures Cut(lru, lru[0]) == lru[1..]
  {
    CutFirst(lru[1..], lru[0]);
  }

  lemma {:induction false} WithoutHead(items: seq<Item>)
    requires items != [] && DistinctIds(items)
    ensures Without(items, {items[0].id}) == items[1..]
  {
    WithoutNone(items[1..], {items[0].id});
  }

  lemma {:induction false} OneEvicted(items: seq<Item>, gone: nat)
    requires DistinctIds(items) && gone < |items|
    ensures Without(items[gone..], {items[gone].id}) == items[gone + 1..]
  {
    WithoutHead(items[gone..]);
    assert items[gone..][1..] == items[gone + 1..];
  }

  // ---------------------------------------------------------------- the three structures as one value

  datatype Store = Store(
    indexes: map<string, seq<Vector>>, entries: map<nat, Entry>, lru: seq<nat>, nextId: nat)

  ghost predicate Fits(st: Store) {
    match st
    case Store(indexes, entries, lru, nextId) =>
      Linked(indexes, entries) && Ordered(entries, lru) && forall id | id in entries :: id < nextId
  }

  function ListOf(st: Store): (items: seq<Item>)
    ensures |items| == |st.lru|
  {
    Listing(st.indexes, st.entries, st.lru)
  }

  function Removed(st: Store, id: nat): Store {
    Store(Unindexed(st.indexes, st.entries, id), st.entries - {id}, Cut(st.lru, id), st.nextId)
  }

  function Touched(st: Store, id: nat): Store {
    st.(lru := Cut(st.lru, id) + [id])
  }

  function Added(st: Store, vec: Vec, e: Entry): Store {
    Store(st.indexes[e.scope := IndexFor(st.indexes, e.scope) + [Vector(st.nextId, vec)]],
          st.entries[st.nextId := e], st.lru + [st.nextId], st.nextId + 1)
  }

  lemma {:induction false} RemovedFits(st: Store, id: nat)
    requires Fits(st) && id in st.entries
    ensures Fits(Removed(st, id)) && ListOf(Removed(st, id)) == Without(ListOf(st), {id})
  {
    RemovedEverywhere(st.indexes, st.entries, st.lru, id);
  }

  lemma {:induction false} TouchedFits(st: Store, id: nat)
    requires Fits(st) && id in st.entries
    ensures Fits(Touched(st, id))
    ensures ListOf(Touched(st, id)) == Without(ListOf(st), {id}) + [ItemOf(st.indexes, st.entries, id)]
  {
    TouchedLast(st.indexes, st.entries, st.lru, id);
  }

  lemma {:induction false} AddedFits(st: Store, vec: Vec, e: Entry)
    requires Fits(st)
    ensures Fits(Added(st, vec, e))
    ensures ListOf(Added(st, vec, e)) == ListOf(st) + [Item(st.nextId, e.scope, vec, e.response, e.expiresAt)]
  {
    AddedEverywhere(st.indexes, st.entries, st.lru, Vector(st.nextId, vec), e);
  }

  /** An eviction loop that has removed the first `gone` items. */
  ghost predicate Evicting(items: seq<Item>, st: Store, gone: nat) {
    match st
    case Store(_, entries, lru, _) =>
      && Fits(st) && DistinctIds(items) && |entries| == |lru|
      && gone <= |items| && ListOf(st) == items[gone..]
  }

  lemma {:induction false} EvictionStarts(st: Store)
    requires Fits(st)
    ensures Evicting(ListOf(st), st, 0) && |ListOf(st)| == |st.entries|
  {
    ListedDistinct(st.indexes, st.entries, st.lru);
    AsManyAsListed(st.entries, st.lru);
  }

  /** The front of the recency order taken out of all three structures. */
  function Popped(st: Store): Store
    requires st.lru != []
  {
    Store(Unindexed(st.indexes, st.entries, st.lru[0]), st.entries - {st.lru[0]}, st.lru[1..], st.nextId)
  }

  lemma {:induction false} EvictionGoesOn(items: seq<Item>, st: Store, gone: nat)
    requires Evicting(items, st, gone) && |st.entries| > 0
    ensures st.lru != [] && |st.entries| == |items| - gone
    ensures Evicting(items, Popped(st), gone + 1)
    ensures |Popped(st).entries| == |st.entries| - 1
  {
    assert st.lru[0] in st.lru;
    RemovedFits(st, st.lru[0]);
    CutHead(st.lru);
    OneEvicted(items, gone);
    assert ListOf(st)[0] == items[gone];
    AsManyAsListed(Removed(st, st.lru[0]).entries, st.lru[1..]);
  }

  // ---------------------------------------------------------------- one lookup

  /** A lookup that has dropped the first `i` of its ranking and has this much of the list left. */
  predicate Probing(items: seq<Item>, now: real, top: seq<Item>, left: seq<Item>, dropped: set<nat>, i: nat) {
    && i <= |top| && dropped == IdsOf(top[..i]) && left == Without(items, dropped)
    && forall j | 0 <= j < i :: Due(top[j].expiresAt, now)
  }

  lemma {:induction false} ProbeStarts(items: seq<Item>, now: real, top: seq<Item>)
    ensures Probing(items, now, top, items, {}, 0)
  {
    WithoutNone(items, IdsOf(top[..0]));
  }

  lemma {:induction false} NextIsLeft(items: seq<Item>, scope: string, like: Likeness, now: real, top: seq<Item>,
      left: seq<Item>, dropped: set<nat>, i: nat)
    requires DistinctIds(items) && Ranked(items, scope, like, top)
    requires Probing(items, now, top, left, dropped, i) && i < |top|
    ensures top[i] in left
  {
    FrontNext(items, scope, like, top, i);
    WithoutMembers(items, dropped);
  }

  lemma {:induction false} ProbeDrops(items: seq<Item>, now: real, top: seq<Item>, left: seq<Item>,
      dropped: set<nat>, i: nat)
    requires Probing(items, now, top, left, dropped, i)
    requires i < |top| && Due(top[i].expiresAt, now)
    ensures Probing(items, now, top, Without(left, {top[i].id}), dropped + {top[i].id}, i + 1)
  {
    WithoutTwice(items, dropped, {top[i].id});
    IdsOfAppend(top[..i], top[i]);
    assert top[..i + 1] == top[..i] + [top[i]];
  }

  lemma {:induction false} ProbeServes(items: seq<Item>, scope: string, like: Likeness, now: real, threshold: real,
                    top: seq<Item>, left: seq<Item>, dropped: set<nat>, i: nat)
    requires DistinctIds(items) && Ranked(items, scope, like, top)
    requires Probing(items, now, top, left, dropped, i) && i < |top|
    requires !Due(top[i].expiresAt, now) && SimTo(like, top[i]) >= threshold
    ensures Looked(items, scope, like, now, threshold, dropped, Some(top[i]),
                   Without(left, {top[i].id}) + [top[i]])
  {
    SkimmedPrefix(items, scope, like, now, top, i);
    FrontNext(items, scope, like, top, i);
    WithoutTwice(items, dropped, {top[i].id});
  }

  lemma {:induction false} ProbeMisses(items: seq<Item>, scope: string, like: Likeness, now: real, threshold: real,
                    top: seq<Item>, left: seq<Item>, dropped: set<nat>, i: nat)
    requires DistinctIds(items) && Ranked(items, scope, like, top) && Probing(items, now, top, left, dropped, i)
    requires i < |top| ==> !Due(top[i].expiresAt, now) && SimTo(like, top[i]) < threshold
    ensures Looked(items, scope, like, now, threshold, dropped, None, left)
  {
    SkimmedPrefix(items, scope, like, now, top, i);
    if i < |top| {
      FrontNext(items, scope, like, top, i);
    } else {
      assert top[..i] == top;
    }
  }

  lemma {:induction false} NothingToProbe(st: Store, scope: string, like: Likeness, now: real, threshold: real)
    requires Fits(st) && IndexFor(st.indexes, scope) == []
    ensures Looked(ListOf(st), scope, like, now, threshold, {}, None, ListOf(st))
  {
    IndexMirrorsList(st.indexes, st.entries, st.lru, scope);
    WithoutNone(ListOf(st), {});
  }

  /** A time to live of zero counts as none, and none never expires. */
  function Expiry(ttlS: Option<real>, now: real): Option<real> {
    if ttlS.Some? && ttlS.value != 0.0 then Some(now + ttlS.value) else None
  }

  class SemanticCache {
    const threshold: real
    const ttlS: Option<real>
    const maxEntries: nat
    var indexes: map<string, seq<Vector>>
    var entries: map<nat, Entry>
    var lru: seq<nat>
    var nextId: nat

    ghost function State(): Store
      reads this
    {
      Store(indexes, entries, lru, nextId)
    }

    ghost predicate Valid()
      reads this
    {
      Fits(State())
    }

    /** The items, least recently touched first. */
    ghost function Contents(): seq<Item>
      reads this
    {
      ListOf(State())
    }

    constructor (threshold: real, ttlS: Option<real>, maxEntries: nat)
      ensures Valid() && Contents() == [] && nextId == 0
      ensures this.threshold == threshold && this.ttlS == ttlS && this.maxEntries == maxEntries
    {
      this.threshold, this.ttlS, this.maxEntries := threshold, ttlS, maxEntries;
      indexes, entries, lru, nextId := map[], map[], [], 0;
    }

    method RemoveFromIndex(id: nat)
      modifies `indexes
      ensures indexes == old(Unindexed(indexes, entries, id))
    {
      if id in entries {
        var scope := entries[id].scope;
        if scope in indexes {
          indexes := indexes[scope := Dropped(indexes[scope], id)];
        }
      }
    }

    method Remove(id: nat)
      requires Valid() && id in entries
      modifies this
      ensures Valid() && Contents() == Without(old(Contents()), {id}) && nextId == old(nextId)
    {
      RemovedFits(State(), id);
      RemoveFromIndex(id);
      entries := entries - {id};
      lru := Cut(lru, id);
      assert State() == Removed(old(State()), id);
    }

    method EvictOldest()
      requires lru != []
      modifies this
      ensures State() == Popped(old(State()))
    {
      var oldest := lru[0];
      lru := lru[1..];
      RemoveFromIndex(oldest);
      entries := entries - {oldest};
    }

    /** Evicts the least recently touched items until the cap is met. */
    method EvictIfNeeded()
      requires Valid()
      modifies this
      ensures Valid() && Contents() == KeepLast(old(Contents()), maxEntries) && nextId == old(nextId)
    {
      ghost var items, gone := Contents(), 0;
      EvictionStarts(State());
      while |entries| > maxEntries
        invariant Evicting(items, State(), gone) && nextId == old(nextId)
        invariant |entries| == |items| - gone && (gone > 0 ==> |entries| >= maxEntries)
        decreases |entries|
      {
        EvictionGoesOn(items, State(), gone);
        EvictOldest();
        gone := gone + 1;
      }
    }

    /** Serves the most similar live item of the scope, if it is among the probes and clears the
        threshold, and makes it the most recently touched. */
    method Get(scope: string, vec: Vec, now: real)
      returns (r: Option<Response>, ghost dropped: set<nat>, ghost hit: Option<Item>)
      requires Valid()
      modifies this
      ensures Valid() && nextId == old(nextId)
      ensures Looked(old(Contents()), scope, Like(vec), now, threshold, dropped, hit, Contents())
      ensures r == match hit case None => None case Some(h) => Some(h.response)
    {
      if scope !in indexes || |indexes[scope]| == 0 {
        NothingToProbe(State(), scope, Like(vec), now, threshold);
        return None, {}, None;
      }
      var k := if |indexes[scope]| < PROBES then |indexes[scope]| else PROBES;
      var hits, top := RankItems(scope, Like(vec), k);
      r, dropped, hit := Probe(hits, now, scope, Like(vec), top);
    }

    method RemoveIfDue(id: nat, now: real, ghost x: Item) returns (expired: bool)
      requires Valid() && x in Contents() && x.id == id
      modifies this
      ensures Valid() && nextId == old(nextId) && expired == Due(x.expiresAt, now)
      ensures Contents() == if expired then Without(old(Contents()), {id}) else old(Contents())
    {
      var entry := EntryOf(id, x);
      expired := Due(entry.expiresAt, now);
      if expired {
        Remove(id);
      }
    }

    /** The hit in front goes if it has expired. */
    method DropFront(ghost items: seq<Item>, hit: Hit, now: real, ghost scope: string, ghost like: Likeness,
                     ghost top: seq<Item>, ghost left: seq<Item>, ghost dropped: set<nat>, ghost i: nat)
      returns (expired: bool, ghost left': seq<Item>, ghost dropped': set<nat>)
      requires Valid() && DistinctIds(items) && Ranked(items, scope, like, top) && i < |top| && hit.id == top[i].id
      requires Contents() == left && Probing(items, now, top, left, dropped, i)
      modifies this
      ensures Valid() && nextId == old(nextId) && Contents() == left'
      ensures Probing(items, now, top, left', dropped', if expired then i + 1 else i)
      ensures !expired ==> top[i] in left' && !Due(top[i].expiresAt, now)
    {
      NextIsLeft(items, scope, like, now, top, left, dropped, i);
      expired := RemoveIfDue(hit.id, now, top[i]);
      left', dropped' := left, dropped;
      if expired {
        ProbeDrops(items, now, top, left, dropped, i);
        left', dropped' := Without(left, {top[i].id}), dropped + {top[i].id};
      }
    }

    /** The head of the loop over the hits: as long as the one in front has expired, it goes. */
    method DropExpired(hits: seq<Hit>, now: real, ghost scope: string, ghost like: Likeness, ghost top: seq<Item>)
      returns (i: nat, ghost left: seq<Item>, ghost dropped: set<nat>)
      requires Valid() && DistinctIds(Contents()) && Ranked(Contents(), scope, like, top) && |hits| == |top|
      requires forall i | 0 <= i < |hits| :: hits[i] == Hit(SimTo(like, top[i]), top[i].id)
      modifies this
      ensures Valid() && nextId == old(nextId) && Contents() == left
      ensures i <= |hits| && Probing(old(Contents()), now, top, left, dropped, i)
      ensures i < |hits| ==> top[i] in left && !Due(top[i].expiresAt, now)
    {
      ghost var items := Contents();
      left, dropped, i := items, {}, 0;
      ProbeStarts(items, now, top);
      while i < |hits|
        invariant Valid() && nextId == old(nextId) && i <= |hits|
        invariant Contents() == left && Probing(items, now, top, left, dropped, i)
      {
        var expired;
        expired, left, dropped := DropFront(items, hits[i], now, scope, like, top, left, dropped, i);
        if !expired {
          return;
        }
        i := i + 1;
      }
    }

    /** Serves the hit in front as the most recently touched. */
    method ServeFront(ghost items: seq<Item>, hit: Hit, ghost now: real, ghost scope: string, ghost like: Likeness,
                      ghost top: seq<Item>, ghost left: seq<Item>, ghost dropped: set<nat>, ghost i: nat)
      returns (r: Response)
      requires Valid() && DistinctIds(items) && Ranked(items, scope, like, top) && i < |top|
      requires hit == Hit(SimTo(like, top[i]), top[i].id) && hit.sim >= threshold
      requires Contents() == left && top[i] in left && Probing(items, now, top, left, dropped, i)
      requires !Due(top[i].expiresAt, now)
      modifies this
      ensures Valid() && nextId == old(nextId) && r == top[i].response
      ensures Looked(items, scope, like, now, threshold, dropped, Some(top[i]), Contents())
    {
      var entry := EntryOf(hit.id, top[i]);
      ProbeServes(items, scope, like, now, threshold, top, left, dropped, i);
      MoveToEnd(hit.id, top[i]);
      r := entry.response;
    }

    /** Goes through the hits of a search, most similar first. */
    method Probe(hits: seq<Hit>, now: real, ghost scope: string, ghost like: Likeness, ghost top: seq<Item>)
      returns (r: Option<Response>, ghost dropped: set<nat>, ghost hit: Option<Item>)
      requires Valid() && DistinctIds(Contents()) && Ranked(Contents(), scope, like, top) && |hits| == |top|
      requires forall i | 0 <= i < |hits| :: hits[i] == Hit(SimTo(like, top[i]), top[i].id)
      modifies this
      ensures Valid() && nextId == old(nextId)
      ensures Looked(old(Contents()), scope, like, now, threshold, dropped, hit, Contents())
      ensures r == match hit case None => None case Some(h) => Some(h.response)
    {
      ghost var items, left := Contents(), [];
      var i;
      r, hit := None, None;
      i, left, dropped := DropExpired(hits, now, scope, like, top);
      if i < |hits| && hits[i].sim >= threshold {
        var served := ServeFront(items, hits[i], now, scope, like, top, left, dropped, i);
        r, hit := Some(served), Some(top[i]);
      } else {
        ProbeMisses(items, scope, like, now, threshold, top, left, dropped, i);
      }
    }

    method RankItems(scope: string, like: Likeness, k: nat) returns (hits: seq<Hit>, ghost top: seq<Item>)
      requires Valid() && scope in indexes
      requires k == if |indexes[scope]| < PROBES then |indexes[scope]| else PROBES
      ensures |hits| == |top| == k && DistinctIds(Contents()) && Ranked(Contents(), scope, like, top)
      ensures forall i | 0 <= i < k :: hits[i] == Hit(SimTo(like, top[i]), top[i].id)
    {
      hits := Search(indexes[scope], like, k);
      top := TopItems(indexes, entries, hits);
      ListedDistinct(indexes, entries, lru);
      SearchRanks(indexes, entries, lru, scope, like, hits);
    }

    method EntryOf(id: nat, ghost x: Item) returns (entry: Entry)
      requires Valid() && x in Contents() && x.id == id
      ensures id in entries && entry == entries[id] == Entry(x.scope, x.response, x.expiresAt)
    {
      ListedEntry(indexes, entries, lru, x);
      entry := entries[id];
    }

    method MoveToEnd(id: nat, ghost x: Item)
      requires Valid() && x in Contents() && x.id == id
      modifies `lru
      ensures Valid() && Contents() == Without(old(Contents()), {id}) + [x]
    {
      ListedEntry(indexes, entries, lru, x);
      TouchedFits(State(), id);
      lru := Cut(lru, id) + [id];
    }

    /** Stores a completion as the most recently touched item and evicts from the other end. */
    method Set(scope: string, vec: Vec, response: Response, now: real)
      requires Valid()
      modifies this
      ensures Valid() && nextId == old(nextId) + 1
      ensures Contents() == KeepLast(
                old(Contents()) + [Item(old(nextId), scope, vec, response, Expiry(ttlS, now))], maxEntries)
    {
      ghost var start := State();
      var index := if scope in indexes then indexes[scope] else [];
      var id := nextId;
      nextId := nextId + 1;
      var e := Entry(scope, response, Expiry(ttlS, now));
      indexes := indexes[scope := index + [Vector(id, vec)]];
      entries := entries[id := e];
      lru := lru + [id];
      AddedFits(start, vec, e);
      assert State() == Added(start, vec, e);
      EvictIfNeeded();
    }
  }
}
