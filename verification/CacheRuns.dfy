/** The cache against a brute-force search of its list, and whole runs of lookups and insertions:
    how many lookups can come back without an answer that is there, and who is evicted. */
module CacheRuns {
  import opened Prelude
  import opened Cache

  // ---------------------------------------------------------------- one lookup and brute force

  predicate LiveMatch(x: Item, scope: string, like: Likeness, now: real, threshold: real) {
    x.scope == scope && !Due(x.expiresAt, now) && SimTo(like, x) >= threshold
  }

  /** What a search of the whole list would look for. */
  predicate HasAnswer(items: seq<Item>, scope: string, like: Likeness, now: real, threshold: real) {
    exists x :: x in items && LiveMatch(x, scope, like, now, threshold)
  }

  lemma {:induction false} DroppedAreDue(items: seq<Item>, scope: string, like: Likeness, now: real,
      dropped: set<nat>, x: Item)
    requires DistinctIds(items) && Skimmed(items, scope, like, now, dropped) && x in items && x.id in dropped
    ensures x.scope == scope && Due(x.expiresAt, now)
  {
    var y :| y in items && y.id == x.id && y.scope == scope && Due(y.expiresAt, now);
    SameItem(items, x, y);
  }

  /** A hit is a live item of the scope that clears the threshold, and everything in the scope
      that is strictly more similar has expired. */
  lemma {:induction false} HitIsBestLive(items: seq<Item>, scope: string, like: Likeness, now: real, threshold: real,
                      dropped: set<nat>, h: Item, after: seq<Item>)
    requires DistinctIds(items) && Looked(items, scope, like, now, threshold, dropped, Some(h), after)
    ensures h in items && LiveMatch(h, scope, like, now, threshold)
    ensures forall x | x in items && x.scope == scope && SimTo(like, x) > SimTo(like, h) :: Due(x.expiresAt, now)
    ensures after[|after| - 1] == h
  {
    forall x | x in items && x.scope == scope && SimTo(like, x) > SimTo(like, h)
      ensures Due(x.expiresAt, now)
    {
      DroppedAreDue(items, scope, like, now, dropped, x);
    }
  }

  /** A lookup that has not used up its probes answers exactly when brute force does. */
  lemma {:induction false} AgreesWithBruteForce(items: seq<Item>, scope: string, like: Likeness, now: real,
      threshold: real,
                             dropped: set<nat>, hit: Option<Item>, after: seq<Item>)
    requires DistinctIds(items) && Looked(items, scope, like, now, threshold, dropped, hit, after)
    requires |dropped| < PROBES
    ensures hit.Some? <==> HasAnswer(items, scope, like, now, threshold)
  {
    forall x | x in items && LiveMatch(x, scope, like, now, threshold)
      ensures hit.Some?
    {
      if x.id in dropped {
        DroppedAreDue(items, scope, like, now, dropped, x);
      }
    }
  }

  /** A miss although there is an answer. */
  predicate Incomplete(items: seq<Item>, scope: string, like: Likeness, now: real, threshold: real, hit: Option<Item>) {
    hit.None? && HasAnswer(items, scope, like, now, threshold)
  }

  /** The ids of the scope's expired items. */
  function DueIds(items: seq<Item>, scope: string, now: real): set<nat> {
    set x | x in items && x.scope == scope && Due(x.expiresAt, now) :: x.id
  }

  /** The ids of the scope's expired items that rank ahead of an item. */
  function DueAhead(items: seq<Item>, like: Likeness, now: real, b: Item): set<nat> {
    set x | x in items && x.scope == b.scope && Due(x.expiresAt, now) && SimTo(like, x) >= SimTo(like, b) :: x.id
  }

  /** A most similar live item of the scope. */
  predicate BestLive(items: seq<Item>, scope: string, like: Likeness, now: real, b: Item) {
    && b in items && b.scope == scope && !Due(b.expiresAt, now)
    && forall x | x in items && x.scope == scope && !Due(x.expiresAt, now) :: SimTo(like, x) <= SimTo(like, b)
  }

  /** Those that are strictly more similar. */
  function DueStrictlyAhead(items: seq<Item>, like: Likeness, now: real, b: Item): set<nat> {
    set x | x in items && x.scope == b.scope && Due(x.expiresAt, now) && SimTo(like, x) > SimTo(like, b) :: x.id
  }

  lemma {:induction false} MissedBehind(items: seq<Item>, scope: string, like: Likeness, now: real, threshold: real,
      dropped: set<nat>, after: seq<Item>, b: Item)
    requires DistinctIds(items) && Looked(items, scope, like, now, threshold, dropped, None, after)
    requires BestLive(items, scope, like, now, b) && SimTo(like, b) >= threshold
    ensures |DueAhead(items, like, now, b)| >= PROBES
  {
    var ahead := DueAhead(items, like, now, b);
    AgreesWhenShort(items, scope, like, now, threshold, dropped, after, b);
    if b.id in dropped {
      DroppedAreDue(items, scope, like, now, dropped, b);
    }
    forall id | id in dropped
      ensures id in ahead
    {
      var x :| x in items && x.id == id && x.scope == scope && Due(x.expiresAt, now);
      assert SimTo(like, x) >= SimTo(like, b);
    }
    SubsetSize(dropped, ahead);
  }

  lemma {:induction false} HitThroughFew(items: seq<Item>, scope: string, like: Likeness, now: real, threshold: real,
      dropped: set<nat>, h: Item, after: seq<Item>, b: Item)
    requires DistinctIds(items) && Looked(items, scope, like, now, threshold, dropped, Some(h), after)
    requires BestLive(items, scope, like, now, b)
    ensures |DueStrictlyAhead(items, like, now, b)| < PROBES
  {
    var ahead := DueStrictlyAhead(items, like, now, b);
    HitIsBestLive(items, scope, like, now, threshold, dropped, h, after);
    forall id | id in ahead
      ensures id in dropped
    {
      var x :| x in items && x.scope == b.scope && Due(x.expiresAt, now)
               && SimTo(like, x) > SimTo(like, b) && x.id == id;
      assert SimTo(like, x) > SimTo(like, h);
    }
    SubsetSize(ahead, dropped);
  }

  /** When there is an answer, enough strictly more similar expired items force a miss, and a miss
      has at least as many expired items that are no less similar; ties decide in between. */
  lemma {:induction false} IncompleteBetween(items: seq<Item>, scope: string, like: Likeness, now: real,
      threshold: real, dropped: set<nat>, hit: Option<Item>, after: seq<Item>, b: Item)
    requires DistinctIds(items) && Looked(items, scope, like, now, threshold, dropped, hit, after)
    requires BestLive(items, scope, like, now, b) && SimTo(like, b) >= threshold
    ensures |DueStrictlyAhead(items, like, now, b)| >= PROBES ==>
              Incomplete(items, scope, like, now, threshold, hit)
    ensures Incomplete(items, scope, like, now, threshold, hit) ==> |DueAhead(items, like, now, b)| >= PROBES
  {
    assert LiveMatch(b, scope, like, now, threshold);
    match hit
    case None => MissedBehind(items, scope, like, now, threshold, dropped, after, b);
    case Some(h) => HitThroughFew(items, scope, like, now, threshold, dropped, h, after, b);
  }

  /** When no expired item ties with the best live one, a lookup misses it exactly when at least
      as many expired items rank ahead of it as there are probes. */
  lemma {:induction false} IncompleteIff(items: seq<Item>, scope: string, like: Likeness, now: real, threshold: real,
                      dropped: set<nat>, hit: Option<Item>, after: seq<Item>, b: Item)
    requires DistinctIds(items) && Looked(items, scope, like, now, threshold, dropped, hit, after)
    requires BestLive(items, scope, like, now, b) && SimTo(like, b) >= threshold
    requires forall x | x in items && x.scope == scope && Due(x.expiresAt, now) :: SimTo(like, x) != SimTo(like, b)
    ensures Incomplete(items, scope, like, now, threshold, hit) <==> |DueAhead(items, like, now, b)| >= PROBES
  {
    IncompleteBetween(items, scope, like, now, threshold, dropped, hit, after, b);
    assert DueAhead(items, like, now, b) == DueStrictlyAhead(items, like, now, b);
  }

  lemma {:induction false} AgreesWhenShort(items: seq<Item>, scope: string, like: Likeness, now: real, threshold: real,
                        dropped: set<nat>, after: seq<Item>, b: Item)
    requires DistinctIds(items) && Looked(items, scope, like, now, threshold, dropped, None, after)
    requires b in items && LiveMatch(b, scope, like, now, threshold)
    ensures |dropped| == PROBES
  {
    if |dropped| < PROBES {
      AgreesWithBruteForce(items, scope, like, now, threshold, dropped, None, after);
    }
  }

  lemma {:induction false} SubsetSize(a: set<nat>, b: set<nat>)
    requires a <= b
    ensures |b - a| == |b| - |a|
    ensures |a| <= |b|
  {
    assert b == a + (b - a) && a !! (b - a);
  }

  // ---------------------------------------------------------------- a miss that is incomplete

  const TTL: Option<real> := Some(1.0)

  /** Stored at time 0 by a cache whose entries live for one second. */
  function StaleItem(id: nat): Item {
    Item(id, "s", [1.0], "stale", Expiry(TTL, 0.0))
  }

  /** Stored by the same cache at time 1.5. */
  const FRESH := Item(5, "s", [0.9], "fresh", Expiry(TTL, 1.5))

  const QUERY: Likeness := Like([1.0])

  lemma {:induction false} StaleSims(id: nat)
    ensures SimTo(QUERY, StaleItem(id)) == 1.0 && SimTo(QUERY, FRESH) == 0.9
  {
    Inner1(1.0, 1.0);
    Inner1(1.0, 0.9);
  }

  lemma {:induction false} StaleAreSkimmed(items: seq<Item>, dropped: set<nat>)
    requires dropped == {0, 1, 2, 3, 4} && forall id | id in dropped :: StaleItem(id) in items
    requires forall x | x in items :: x == FRESH || x == StaleItem(x.id)
    ensures Skimmed(items, "s", QUERY, 2.0, dropped)
  {
    forall id | id in dropped
      ensures exists x :: x in items && x.id == id && x.scope == "s" && Due(x.expiresAt, 2.0)
    {
      assert StaleItem(id) in items;
    }
    forall x | x in items
      ensures SimTo(QUERY, x) == if x == FRESH then 0.9 else 1.0
    {
      StaleSims(x.id);
    }
  }

  lemma {:induction false} StaleMembers(items: seq<Item>)
    requires |items| == 6 && items[5] == FRESH && forall i | 0 <= i < 5 :: items[i] == StaleItem(i)
    ensures forall id: nat | id < 5 :: StaleItem(id) in items
    ensures FRESH in items && forall x | x in items :: x == FRESH || x == StaleItem(x.id)
  {
    forall id: nat | id < 5
      ensures StaleItem(id) in items
    {
      assert items[id] in items;
    }
  }

  /** A lookup that has used up its probes on expired items misses what is left. */
  lemma {:induction false} FreshIsMissed(items: seq<Item>, dropped: set<nat>)
    requires FRESH in items && |dropped| == 5 && Skimmed(items, "s", QUERY, 2.0, dropped)
    ensures Looked(items, "s", QUERY, 2.0, 0.5, dropped, None, Without(items, dropped))
    ensures Incomplete(items, "s", QUERY, 2.0, 0.5, None)
  {
    StaleSims(0);
    assert LiveMatch(FRESH, "s", QUERY, 2.0, 0.5);
  }

  /** Five expired items ahead of a live match: the lookup returns nothing. */
  lemma {:induction false} StaleHideFresh(items: seq<Item>)
    requires |items| == 6 && items[5] == FRESH && forall i | 0 <= i < 5 :: items[i] == StaleItem(i)
    ensures Looked(items, "s", QUERY, 2.0, 0.5, {0, 1, 2, 3, 4}, None, [FRESH])
    ensures Incomplete(items, "s", QUERY, 2.0, 0.5, None)
    ensures Without(items, {0, 1, 2, 3, 4}) == [FRESH]
  {
    var dropped: set<nat> := {0, 1, 2, 3, 4};
    StaleMembers(items);
    StaleAreSkimmed(items, dropped);
    WithoutAllButLast(items, dropped);
    FreshIsMissed(items, dropped);
  }

  lemma {:induction false} Inner1(x: real, y: real)
    ensures Similarity([x], [y]) == x * y
  {
    assert Similarity([x], [y]) == x * y + Similarity([x][1..], [y][1..]);
  }

  lemma {:induction false} WithoutAllButLast(items: seq<Item>, ids: set<nat>)
    requires items != [] && items[|items| - 1].id !in ids
    requires forall i | 0 <= i < |items| - 1 :: items[i].id in ids
    ensures Without(items, ids) == [items[|items| - 1]]
  {
    if |items| > 1 {
      WithoutAllButLast(items[1..], ids);
    }
  }

  // ---------------------------------------------------------------- whole runs

  datatype Config = Config(threshold: real, maxEntries: nat)

  datatype Step =
    | Lookup(scope: string, vec: Vec, now: real, dropped: set<nat>, hit: Option<Item>)
    | Insert(x: Item)

  datatype Run = Run(items: seq<Item>, nextId: nat)

  const EMPTY := Run([], 0)

  function Next(c: Config, s: Run, step: Step): Run {
    match step
    case Lookup(_, _, _, dropped, None) => s.(items := Without(s.items, dropped))
    case Lookup(_, _, _, dropped, Some(h)) => s.(items := Without(s.items, dropped + {h.id}) + [h])
    case Insert(x) => Run(KeepLast(s.items + [x], c.maxEntries), s.nextId + 1)
  }

  /** What the cache's two operations promise. */
  predicate Allowed(c: Config, s: Run, step: Step) {
    match step
    case Lookup(scope, vec, now, dropped, hit) =>
      Looked(s.items, scope, Like(vec), now, c.threshold, dropped, hit, Next(c, s, step).items)
    case Insert(x) => x.id == s.nextId
  }

  function After(c: Config, s: Run, steps: seq<Step>): Run {
    if steps == [] then s else Next(c, After(c, s, steps[..|steps| - 1]), steps[|steps| - 1])
  }

  predicate Legal(c: Config, s: Run, steps: seq<Step>) {
    steps == [] || (
      var before := steps[..|steps| - 1];
      Legal(c, s, before) && Allowed(c, After(c, s, before), steps[|steps| - 1]))
  }

  /** A stored answer is served to a query like its own until it has lived for its time to live, and
      for ever when there is none: however a lookup goes in a cache that holds nothing else. */
  lemma {:induction false} ServedForItsTime(x: Item, ttlS: Option<real>, stored: real, like: Likeness, now: real,
      threshold: real, dropped: set<nat>, hit: Option<Item>, after: seq<Item>)
    requires x.expiresAt == Expiry(ttlS, stored)
    requires Looked([x], x.scope, like, now, threshold, dropped, hit, after)
    ensures var lives := ttlS.None? || ttlS.value == 0.0 || now - stored < ttlS.value;
            hit == if lives && like(x.vec) >= threshold then Some(x) else None
  {
    assert x in [x] && Front([x], x.scope, like, {}, x);
    OnlyTheDueGo(x, like, now, dropped);
  }

  lemma {:induction false} OnlyTheDueGo(x: Item, like: Likeness, now: real, dropped: set<nat>)
    requires Skimmed([x], x.scope, like, now, dropped)
    ensures dropped == {} || (dropped == {x.id} && Due(x.expiresAt, now))
  {
    forall id | id in dropped
      ensures id == x.id && Due(x.expiresAt, now)
    {
      var y :| y in [x] && y.id == id && y.scope == x.scope && Due(y.expiresAt, now);
    }
  }

  /** Ids are never reused, and the cap holds after every step. */
  predicate Sound(c: Config, s: Run) {
    && DistinctIds(s.items) && |s.items| <= c.maxEntries
    && forall x | x in s.items :: x.id < s.nextId
  }

  lemma {:induction false} WithoutShrinks(items: seq<Item>, ids: set<nat>, x: Item)
    requires x in items && x.id in ids
    ensures |Without(items, ids)| < |items|
  {
    if items[0] == x {
      WithoutMembers(items[1..], ids);
    } else {
      WithoutShrinks(items[1..], ids, x);
    }
  }

  lemma {:induction false} SoundNext(c: Config, s: Run, step: Step)
    requires Sound(c, s) && Allowed(c, s, step)
    ensures Sound(c, Next(c, s, step))
  {
    match step
    case Lookup(_, _, _, dropped, None) =>
      WithoutDistinct(s.items, dropped);
      WithoutMembers(s.items, dropped);
    case Lookup(_, _, _, dropped, Some(h)) =>
      var ids := dropped + {h.id};
      WithoutDistinct(s.items, ids);
      WithoutMembers(s.items, ids);
      WithoutShrinks(s.items, ids, h);
      forall x | x in Without(s.items, ids)
        ensures x.id != h.id
      {
      }
    case Insert(x) =>
  }

  lemma {:induction false} AlwaysSound(c: Config, s: Run, steps: seq<Step>)
    requires Sound(c, s) && Legal(c, s, steps)
    ensures Sound(c, After(c, s, steps))
  {
    if steps != [] {
      var before := steps[..|steps| - 1];
      AlwaysSound(c, s, before);
      SoundNext(c, After(c, s, before), steps[|steps| - 1]);
    }
  }

  function StaleStores(n: nat): seq<Step> {
    if n == 0 then [] else StaleStores(n - 1) + [Insert(StaleItem(n - 1))]
  }

  const ROOMY := Config(0.5, 10)

  lemma {:induction false} StaleStored(s: Run, n: nat)
    requires n < 5 && s.nextId == n && |s.items| == n && forall i | 0 <= i < n :: s.items[i] == StaleItem(i)
    ensures Allowed(ROOMY, s, Insert(StaleItem(n)))
    ensures var t := Next(ROOMY, s, Insert(StaleItem(n)));
            t.nextId == n + 1 && |t.items| == n + 1 && forall i | 0 <= i < n + 1 :: t.items[i] == StaleItem(i)
  {
  }

  lemma {:induction false} StaleRun(n: nat)
    requires n <= 5
    ensures Legal(ROOMY, EMPTY, StaleStores(n))
    ensures var s := After(ROOMY, EMPTY, StaleStores(n));
            s.nextId == n && |s.items| == n && forall i | 0 <= i < n :: s.items[i] == StaleItem(i)
  {
    if n > 0 {
      StaleRun(n - 1);
      var before := StaleStores(n - 1);
      StaleStored(After(ROOMY, EMPTY, before), n - 1);
      LegalAppend(ROOMY, EMPTY, before, Insert(StaleItem(n - 1)));
    }
  }

  /** Such a lookup ends a run of one cache with one time to live: five stores at time 0, one at
      time 1.5, and a query at time 2 to which the last store is the answer. */
  lemma {:induction false} IncompleteMissExample()
    ensures var stores := StaleStores(5) + [Insert(FRESH)];
            var lookup := Lookup("s", [1.0], 2.0, {0, 1, 2, 3, 4}, None);
            && Legal(ROOMY, EMPTY, stores + [lookup])
            && Incomplete(After(ROOMY, EMPTY, stores).items, "s", QUERY, 2.0, ROOMY.threshold, None)
  {
    var stores := StaleStores(5) + [Insert(FRESH)];
    var lookup := Lookup("s", [1.0], 2.0, {0, 1, 2, 3, 4}, None);
    StaleRun(5);
    LegalAppend(ROOMY, EMPTY, StaleStores(5), Insert(FRESH));
    StaleHideFresh(After(ROOMY, EMPTY, stores).items);
    LegalAppend(ROOMY, EMPTY, stores, lookup);
  }

  // ---------------------------------------------------------------- the cache itself runs so

  datatype Call = Get(scope: string, vec: Vec, now: real) | Set(scope: string, vec: Vec, response: Response, now: real)

  ghost function View(cache: SemanticCache): Run
    reads cache
  {
    Run(cache.Contents(), cache.nextId)
  }

  function ConfigOf(cache: SemanticCache): Config {
    Config(cache.threshold, cache.maxEntries)
  }

  /** One call of the cache is one step. */
  method Perform(cache: SemanticCache, call: Call) returns (ghost step: Step)
    requires cache.Valid()
    modifies cache
    ensures cache.Valid()
    ensures Allowed(ConfigOf(cache), old(View(cache)), step)
    ensures View(cache) == Next(ConfigOf(cache), old(View(cache)), step)
  {
    match call
    case Get(scope, vec, now) =>
      var r, dropped, hit := cache.Get(scope, vec, now);
      step := Lookup(scope, vec, now, dropped, hit);
    case Set(scope, vec, response, now) =>
      cache.Set(scope, vec, response, now);
      step := Insert(Item(old(cache.nextId), scope, vec, response, Expiry(cache.ttlS, now)));
  }

  lemma {:induction false} LegalAppend(c: Config, s: Run, steps: seq<Step>, step: Step)
    requires Legal(c, s, steps) && Allowed(c, After(c, s, steps), step)
    ensures Legal(c, s, steps + [step])
    ensures After(c, s, steps + [step]) == Next(c, After(c, s, steps), step)
  {
    assert (steps + [step])[..|steps|] == steps;
  }

  /** Any sequence of calls of a new cache is a legal run, so all that is proved of runs holds. */
  method PerformAll(cache: SemanticCache, calls: seq<Call>) returns (ghost steps: seq<Step>)
    requires cache.Valid()
    modifies cache
    ensures cache.Valid()
    ensures Legal(ConfigOf(cache), old(View(cache)), steps)
    ensures View(cache) == After(ConfigOf(cache), old(View(cache)), steps)
  {
    steps := [];
    for i := 0 to |calls|
      invariant cache.Valid() && Legal(ConfigOf(cache), old(View(cache)), steps)
      invariant View(cache) == After(ConfigOf(cache), old(View(cache)), steps)
    {
      var step := Perform(cache, calls[i]);
      LegalAppend(ConfigOf(cache), old(View(cache)), steps, step);
      steps := steps + [step];
    }
  }

  // ---------------------------------------------------------------- lookups without their answer

  /** How many lookups of the scope missed an answer that was there. */
  function IncompleteMisses(c: Config, s: Run, steps: seq<Step>, scope: string): nat {
    if steps == [] then 0
    else
      var n := |steps| - 1;
      IncompleteMisses(c, s, steps[..n], scope) + OneIncomplete(c, After(c, s, steps[..n]), steps[n], scope)
  }

  function OneIncomplete(c: Config, s: Run, step: Step, scope: string): nat {
    if step.Lookup? && step.scope == scope
       && Incomplete(s.items, scope, Like(step.vec), step.now, c.threshold, step.hit) then 1 else 0
  }

  /** The scope's clock stands still, and nothing is stored already expired. */
  predicate FrozenAt(steps: seq<Step>, scope: string, now: real) {
    forall i | 0 <= i < |steps| :: StepAt(steps[i], scope, now)
  }

  predicate StepAt(step: Step, scope: string, now: real) {
    match step
    case Lookup(at, _, time, _, _) => at == scope ==> time == now
    case Insert(x) => !Due(x.expiresAt, now)
  }

  lemma {:induction false} LookupUsesUpExpired(items: seq<Item>, scope: string, like: Likeness, now: real,
      threshold: real,
                            dropped: set<nat>, hit: Option<Item>, after: seq<Item>)
    requires DistinctIds(items) && Looked(items, scope, like, now, threshold, dropped, hit, after)
    ensures |DueIds(after, scope, now)| + |dropped| <= |DueIds(items, scope, now)|
    ensures Incomplete(items, scope, like, now, threshold, hit) ==> |dropped| == PROBES
  {
    var due := DueIds(items, scope, now);
    assert dropped <= due;
    var ids := if hit.Some? then dropped + {hit.value.id} else dropped;
    WithoutMembers(items, ids);
    assert DueIds(after, scope, now) <= due - dropped;
    SubsetSize(dropped, due);
    SubsetSize(DueIds(after, scope, now), due - dropped);
    if Incomplete(items, scope, like, now, threshold, hit) && |dropped| < PROBES {
      AgreesWithBruteForce(items, scope, like, now, threshold, dropped, hit, after);
    }
  }

  lemma {:induction false} OthersExpireNothing(c: Config, s: Run, step: Step, scope: string, now: real)
    requires Allowed(c, s, step)
    requires step.Lookup? ==> step.scope != scope
    requires step.Insert? ==> !Due(step.x.expiresAt, now)
    ensures |DueIds(Next(c, s, step).items, scope, now)| <= |DueIds(s.items, scope, now)|
  {
    var after := Next(c, s, step).items;
    if step.Lookup? {
      WithoutMembers(s.items, if step.hit.Some? then step.dropped + {step.hit.value.id} else step.dropped);
    }
    assert DueIds(after, scope, now) <= DueIds(s.items, scope, now);
    SubsetSize(DueIds(after, scope, now), DueIds(s.items, scope, now));
  }

  lemma {:induction false} ExpiredNext(c: Config, s: Run, step: Step, scope: string, now: real)
    requires Sound(c, s) && Allowed(c, s, step)
    requires StepAt(step, scope, now)
    ensures |DueIds(Next(c, s, step).items, scope, now)| + PROBES * OneIncomplete(c, s, step, scope)
            <= |DueIds(s.items, scope, now)|
  {
    if step.Lookup? && step.scope == scope {
      LookupUsesUpExpired(s.items, scope, Like(step.vec), now, c.threshold, step.dropped, step.hit,
                          Next(c, s, step).items);
    } else {
      OthersExpireNothing(c, s, step, scope, now);
    }
  }

  /** Each incomplete miss uses up five of the scope's expired items, so at a frozen clock there
      are at most a fifth as many as expired items, whatever else happens in between. */
  lemma {:induction false} IncompleteMissesBound(c: Config, s: Run, steps: seq<Step>, scope: string, now: real)
    requires Sound(c, s) && Legal(c, s, steps) && FrozenAt(steps, scope, now)
    ensures |DueIds(After(c, s, steps).items, scope, now)| + PROBES * IncompleteMisses(c, s, steps, scope)
            <= |DueIds(s.items, scope, now)|
    ensures IncompleteMisses(c, s, steps, scope) <= |DueIds(s.items, scope, now)| / PROBES
  {
    if steps != [] {
      var n := |steps| - 1;
      IncompleteMissesBound(c, s, steps[..n], scope, now);
      AlwaysSound(c, s, steps[..n]);
      ExpiredNext(c, After(c, s, steps[..n]), steps[n], scope, now);
    }
  }

  // ---------------------------------------------------------------- who is evicted

  /** The ids touched, by being stored or served, in order. */
  function Touches(steps: seq<Step>): seq<nat> {
    if steps == [] then []
    else
      var before := Touches(steps[..|steps| - 1]);
      match steps[|steps| - 1]
      case Lookup(_, _, _, _, None) => before
      case Lookup(_, _, _, _, Some(h)) => before + [h.id]
      case Insert(x) => before + [x.id]
  }

  /** When an id was last touched; 0 if never. */
  function LastTouch(history: seq<nat>, id: nat): nat {
    if history == [] then 0
    else if history[|history| - 1] == id then |history|
    else LastTouch(history[..|history| - 1], id)
  }

  lemma {:induction false} LastTouchBound(history: seq<nat>, id: nat)
    ensures LastTouch(history, id) <= |history|
  {
    if history != [] {
      LastTouchBound(history[..|history| - 1], id);
    }
  }

  lemma {:induction false} LastTouchAppend(history: seq<nat>, touched: nat, id: nat)
    ensures LastTouch(history + [touched], id) == if id == touched then |history| + 1 else LastTouch(history, id)
  {
    assert (history + [touched])[..|history|] == history;
  }

  predicate InTouchOrder(items: seq<Item>, history: seq<nat>) {
    forall i, j | 0 <= i < j < |items| :: LastTouch(history, items[i].id) < LastTouch(history, items[j].id)
  }

  lemma {:induction false} WithoutInOrder(items: seq<Item>, ids: set<nat>, history: seq<nat>)
    requires InTouchOrder(items, history)
    ensures InTouchOrder(Without(items, ids), history)
  {
    if items != [] {
      WithoutInOrder(items[1..], ids, history);
      WithoutMembers(items[1..], ids);
      forall x | x in Without(items[1..], ids)
        ensures LastTouch(history, items[0].id) < LastTouch(history, x.id)
      {
        assert x in items[1..];
      }
    }
  }

  lemma {:induction false} TouchedGoesLast(items: seq<Item>, x: Item, history: seq<nat>)
    requires InTouchOrder(items, history) && forall y | y in items :: y.id != x.id
    ensures InTouchOrder(items + [x], history + [x.id])
  {
    forall id
      ensures LastTouch(history + [x.id], id) == if id == x.id then |history| + 1 else LastTouch(history, id)
    {
      LastTouchAppend(history, x.id, id);
    }
    forall i, j | 0 <= i < j < |items + [x]|
      ensures LastTouch(history + [x.id], (items + [x])[i].id) < LastTouch(history + [x.id], (items + [x])[j].id)
    {
      assert items[i] in items;
      LastTouchBound(history, items[i].id);
      if j < |items| {
        assert items[j] in items;
      }
    }
  }

  lemma {:induction false} TouchOrderNext(c: Config, s: Run, step: Step, history: seq<nat>, history': seq<nat>)
    requires Sound(c, s) && Allowed(c, s, step) && InTouchOrder(s.items, history)
    requires history' == match step
                         case Lookup(_, _, _, _, None) => history
                         case Lookup(_, _, _, _, Some(h)) => history + [h.id]
                         case Insert(x) => history + [x.id]
    ensures InTouchOrder(Next(c, s, step).items, history')
  {
    match step
    case Lookup(_, _, _, dropped, None) =>
      WithoutInOrder(s.items, dropped, history);
    case Lookup(_, _, _, dropped, Some(h)) =>
      var ids := dropped + {h.id};
      WithoutInOrder(s.items, ids, history);
      WithoutMembers(s.items, ids);
      TouchedGoesLast(Without(s.items, ids), h, history);
    case Insert(x) =>
      TouchedGoesLast(s.items, x, history);
  }

  /** In every run the list is ordered by last touch. */
  lemma {:induction false} AlwaysInTouchOrder(c: Config, steps: seq<Step>)
    requires Legal(c, EMPTY, steps)
    ensures InTouchOrder(After(c, EMPTY, steps).items, Touches(steps))
  {
    if steps != [] {
      var before := steps[..|steps| - 1];
      AlwaysSound(c, EMPTY, before);
      AlwaysInTouchOrder(c, before);
      TouchOrderNext(c, After(c, EMPTY, before), steps[|steps| - 1], Touches(before), Touches(steps));
    }
  }

  lemma {:induction false} OldestGo(items: seq<Item>, n: nat, history: seq<nat>, gone: Item, kept: Item)
    requires InTouchOrder(items, history)
    requires gone in items && gone !in KeepLast(items, n) && kept in KeepLast(items, n)
    ensures LastTouch(history, gone.id) < LastTouch(history, kept.id)
    ensures |KeepLast(items, n)| == n
  {
    var cut, left := |items| - n, KeepLast(items, n);
    var i :| 0 <= i < |items| && items[i] == gone;
    var j :| 0 <= j < |left| && left[j] == kept;
    forall k | cut <= k < |items|
      ensures items[k] in left
    {
      assert left[k - cut] == items[k];
    }
    assert items[j + cut] == kept;
  }

  /** After any run, storing an item evicts no more than the cap demands, and whoever is evicted
      was touched before everyone who stays, whatever their scopes. */
  lemma {:induction false} LeastRecentlyTouchedGo(c: Config, steps: seq<Step>, x: Item, gone: Item, kept: Item)
    requires Legal(c, EMPTY, steps + [Insert(x)])
    requires gone in After(c, EMPTY, steps).items + [x] && gone !in After(c, EMPTY, steps + [Insert(x)]).items
    requires kept in After(c, EMPTY, steps + [Insert(x)]).items
    ensures LastTouch(Touches(steps + [Insert(x)]), gone.id) < LastTouch(Touches(steps + [Insert(x)]), kept.id)
    ensures |After(c, EMPTY, steps + [Insert(x)]).items| == c.maxEntries
  {
    var all := steps + [Insert(x)];
    assert all[..|all| - 1] == steps;
    AlwaysSound(c, EMPTY, steps);
    AlwaysInTouchOrder(c, steps);
    TouchedGoesLast(After(c, EMPTY, steps).items, x, Touches(steps));
    OldestGo(After(c, EMPTY, steps).items + [x], c.maxEntries, Touches(all), gone, kept);
  }
}
