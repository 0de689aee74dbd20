/** The signing-key cache of a replica: serialized reloads and the unknown-key refresh. */
module KeyCaches {
  import opened Common
  import opened SigningKeys

  // ----- caches only move forward -----

  lemma CacheStep(w: World, ev: Event, r: ReplicaId)
    requires Inv(w) && Enabled(w, ev) && r in w.replicas
    ensures r in Apply(w, ev).replicas && w.replicas[r].version <= Apply(w, ev).replicas[r].version
    ensures w.history <= Apply(w, ev).history
  {
    assert ReplicaOk(w, w.replicas[r]);
  }

  /** Because reloads are serialized, a replica's cache is read from ever newer tables. */
  lemma {:induction false} CachesMoveForward(w: World, es: seq<Event>, r: ReplicaId)
    requires Inv(w) && Legal(w, es) && r in w.replicas
    ensures r in Run(w, es).replicas && w.replicas[r].version <= Run(w, es).replicas[r].version
    ensures w.history <= Run(w, es).history
    decreases |es|
  {
    if es != [] {
      CacheStep(w, es[0], r);
      StepKeepsInv(w, es[0]);
      CachesMoveForward(Apply(w, es[0]), es[1..], r);
    }
  }

  /** The cache holds just the active and grace keys of one table. */
  predicate Mirrors(c: Cache, t: Table) {
    c.grace == GraceKids(t) && ActiveKids(t) == (if c.active.Some? then {c.active.value} else {})
  }

  ghost predicate CacheOk(w: World, r: ReplicaId) {
    r in w.replicas ==>
      && w.replicas[r].version < |w.history|
      && Mirrors(w.replicas[r].cache, w.history[w.replicas[r].version])
  }

  lemma SingleMirrors(c: Cache, t: Table)
    requires |ActiveKids(t)| == 1
    ensures Mirrors(Reloaded(c, t), t)
  {
    var k := Reloaded(c, t).active.value;
    SubsetSize({k}, ActiveKids(t));
  }

  lemma ReloadMirrors(c: Cache, before: Table, t: Table)
    requires Mirrors(c, before) && TableOk(t) && (before != map[] ==> t != map[])
    ensures Mirrors(Reloaded(c, t), t)
  {
    if t != map[] {
      ActiveIsOne(t);
      SingleMirrors(c, t);
    } else {
      assert before == map[];
    }
  }

  lemma CacheOkStep(w: World, ev: Event, r: ReplicaId)
    requires Inv(w) && Enabled(w, ev) && CacheOk(w, r)
    ensures CacheOk(Apply(w, ev), r)
  {
    if ev.EndReload? && ev.r == r {
      var p := w.replicas[r];
      assert ReplicaOk(w, p);
      ReloadMirrors(p.cache, w.history[p.version], w.history[p.reading.value]);
    }
  }

  lemma {:induction false} RunKeepsCaches(w: World, es: seq<Event>, r: ReplicaId)
    requires Inv(w) && Legal(w, es) && CacheOk(w, r)
    ensures CacheOk(Run(w, es), r)
    decreases |es|
  {
    if es != [] {
      CacheOkStep(w, es[0], r);
      StepKeepsInv(w, es[0]);
      RunKeepsCaches(Apply(w, es[0]), es[1..], r);
    }
  }

  /** In every reachable state each cache is exactly some committed table, its version. */
  lemma CachesMirrorHistory(es: seq<Event>, r: ReplicaId)
    requires Legal(EMPTY, es)
    ensures CacheOk(Run(EMPTY, es), r)
  {
    RunKeepsCaches(EMPTY, es, r);
  }

  /** Steps during a replica's reload that are not that reload's own end. */
  predicate Meanwhile(es: seq<Event>, r: ReplicaId) {
    forall ev | ev in es :: ev != EndReload(r) && ev != FailReload(r)
  }

  lemma ReadingStays(w: World, ev: Event, r: ReplicaId)
    requires Enabled(w, ev) && r in w.replicas && w.replicas[r].reading.Some? && Meanwhile([ev], r)
    ensures r in Apply(w, ev).replicas && Apply(w, ev).replicas[r] == w.replicas[r]
    ensures w.history <= Apply(w, ev).history
  {
    assert ev in [ev];
  }

  lemma {:induction false} ReadingIsKept(w: World, es: seq<Event>, r: ReplicaId)
    requires Legal(w, es) && r in w.replicas && w.replicas[r].reading.Some? && Meanwhile(es, r)
    ensures r in Run(w, es).replicas && Run(w, es).replicas[r] == w.replicas[r]
    ensures w.history <= Run(w, es).history
    decreases |es|
  {
    if es != [] {
      assert es[0] in es && forall ev | ev in es[1..] :: ev in es;
      ReadingStays(w, es[0], r);
      ReadingIsKept(Apply(w, es[0]), es[1..], r);
    }
  }

  /**
   * A reload that ends leaves the cache with the active and grace keys of the table as it
   * was when the reload began, whatever happened since; one that fails can be tried again.
   */
  lemma ReloadCatchesUp(w: World, es: seq<Event>, r: ReplicaId)
    requires Inv(w) && Enabled(w, BeginReload(r)) && Current(w) != map[]
    requires Legal(Apply(w, BeginReload(r)), es) && Meanwhile(es, r)
    ensures var w1 := Run(Apply(w, BeginReload(r)), es);
            && Enabled(w1, EndReload(r)) && Enabled(w1, FailReload(r))
            && Mirrors(Apply(w1, EndReload(r)).replicas[r].cache, Current(w))
            && Enabled(Apply(w1, FailReload(r)), BeginReload(r))
  {
    var begun := Apply(w, BeginReload(r));
    StepKeepsInv(w, BeginReload(r));
    ReadingIsKept(begun, es, r);
    RunKeepsInv(begun, es);
    ActiveIsOne(Current(w));
    SingleMirrors(w.replicas[r].cache, Current(w));
  }

  // ----- looking a key up -----

  datatype Row = Row(kid: Kid, active: bool)

  /** The reload query's rows: each active or grace key once. */
  ghost predicate Lists(rows: seq<Row>, t: Table) {
    && (forall i, j | 0 <= i < j < |rows| :: rows[i].kid != rows[j].kid)
    && (forall i | 0 <= i < |rows| ::
          rows[i].kid in t && t[rows[i].kid].status == (if rows[i].active then Active else Grace))
    && (forall k | k in t && !t[k].status.Retired? :: exists i :: 0 <= i < |rows| && rows[i].kid == k)
  }

  /** A key not cached is looked for in the table at most once an interval; `None` is a failed query. */
  ghost function AfterLookup(c: Cache, k: Kid, t: Option<Table>, now: int): Cache {
    if Cached(c, k) || Throttled(c, now) then c
    else
      var c1 := c.(lastRefresh := Some(now));
      if t.Some? then Reloaded(c1, t.value) else c1
  }

  class KeyCache {
    var activeKey: Option<Kid>
    var graceKeys: set<Kid>
    var lastUnknownKidRefresh: Option<int>

    constructor ()
      ensures Contents() == Cache(None, {}, None)
    {
      activeKey, graceKeys, lastUnknownKidRefresh := None, {}, None;
    }

    ghost function Contents(): Cache
      reads this
    {
      Cache(activeKey, graceKeys, lastUnknownKidRefresh)
    }

    method ReloadKeysLocked(rows: seq<Row>, ghost t: Table) returns (ok: bool)
      requires Lists(rows, t)
      modifies this`activeKey, this`graceKeys
      ensures Contents() == Reloaded(old(Contents()), t)
      ensures ok <==> |set k | k in t && t[k].status.Active?| == 1
      ensures ok ==>
                && activeKey.Some? && activeKey.value in t && t[activeKey.value].status.Active?
                && graceKeys == set k | k in t && t[k].status.Grace?
      ensures !ok ==> activeKey.None? && graceKeys == old(graceKeys)
    {
      var newActive: Option<Kid> := None;
      var newGrace := {};
      var i := 0;
      while i < |rows|
        invariant 0 <= i <= |rows|
        invariant Contents() == old(Contents())
        invariant newGrace == GraceIn(rows[..i])
        invariant ActiveIn(rows[..i]) == (if newActive.Some? then {newActive.value} else {})
      {
        SplitRow(rows, i);
        if rows[i].active {
          if newActive.Some? {
            TwoActive(rows, t, newActive.value, i);
            activeKey := None;
            return false;
          }
          newActive := Some(rows[i].kid);
        } else {
          newGrace := newGrace + {rows[i].kid};
        }
        i := i + 1;
      }
      assert rows[..i] == rows;
      ListedKeys(rows, t);
      if newActive.None? {
        activeKey := None;
        return false;
      }
      activeKey, graceKeys := newActive, newGrace;
      assert activeKey.value in ActiveKids(t);
      return true;
    }

    method VerificationKey(k: Kid, rows: Option<seq<Row>>, now: int, ghost t: Table) returns (found: bool)
      requires rows.Some? ==> Lists(rows.value, t)
      modifies this
      ensures Contents() == AfterLookup(old(Contents()), k, if rows.Some? then Some(t) else None, now)
      ensures var cached := old(activeKey) == Some(k) || k in old(graceKeys);
              var due := old(lastUnknownKidRefresh).None? || now >= old(lastUnknownKidRefresh).value + 1000;
              && (found <==> cached || (due && rows.Some? && |set j | j in t && t[j].status.Active?| == 1
                                        && k in t && (t[k].status.Active? || t[k].status.Grace?)))
              && lastUnknownKidRefresh == (if cached || !due then old(lastUnknownKidRefresh) else Some(now))
    {
      if activeKey == Some(k) || k in graceKeys {
        return true;
      }
      if lastUnknownKidRefresh.Some? && now - lastUnknownKidRefresh.value < REFRESH_INTERVAL {
        return false;
      }
      lastUnknownKidRefresh := Some(now);
      if rows.None? {
        return false;
      }
      var ok := ReloadKeysLocked(rows.value, t);
      if !ok {
        return false;
      }
      SingleMirrors(old(Contents()).(lastRefresh := Some(now)), t);
      assert k in ActiveKids(t) || k in GraceKids(t) <==> k in t && !t[k].status.Retired?;
      assert ActiveKids(t) == {activeKey.value};
      return activeKey == Some(k) || k in graceKeys;
    }
  }

  function ActiveIn(rows: seq<Row>): set<Kid> { set i | 0 <= i < |rows| && rows[i].active :: rows[i].kid }
  function GraceIn(rows: seq<Row>): set<Kid> { set i | 0 <= i < |rows| && !rows[i].active :: rows[i].kid }

  lemma SplitRow(rows: seq<Row>, i: nat)
    requires i < |rows|
    ensures ActiveIn(rows[..i + 1]) == ActiveIn(rows[..i]) + (if rows[i].active then {rows[i].kid} else {})
    ensures GraceIn(rows[..i + 1]) == GraceIn(rows[..i]) + (if rows[i].active then {} else {rows[i].kid})
  {
    assert rows[..i + 1] == rows[..i] + [rows[i]];
    assert rows[..i + 1][i] == rows[i];
    assert forall j | 0 <= j < i :: rows[..i + 1][j] == rows[..i][j];
  }

  lemma ListedKeys(rows: seq<Row>, t: Table)
    requires Lists(rows, t)
    ensures ActiveIn(rows) == ActiveKids(t) && GraceIn(rows) == GraceKids(t)
  {}

  lemma TwoActive(rows: seq<Row>, t: Table, k: Kid, i: nat)
    requires Lists(rows, t) && i < |rows| && rows[i].active && k in ActiveIn(rows[..i])
    ensures |ActiveKids(t)| != 1
  {
    assert k in ActiveKids(t) && rows[i].kid in ActiveKids(t) && k != rows[i].kid;
    if |ActiveKids(t)| == 1 {
      SubsetSize({k, rows[i].kid}, ActiveKids(t));
    }
  }

  // ----- the refresh is throttled -----

  datatype Lookup = Lookup(k: Kid, t: Option<Table>, now: int)

  predicate Queries(c: Cache, l: Lookup) { !Cached(c, l.k) && !Throttled(c, l.now) }

  /** The times at which a series of lookups goes to the database. */
  ghost function QueryTimes(c: Cache, ls: seq<Lookup>): seq<int>
    decreases |ls|
  {
    if ls == [] then []
    else
      (if Queries(c, ls[0]) then [ls[0].now] else [])
      + QueryTimes(AfterLookup(c, ls[0].k, ls[0].t, ls[0].now), ls[1..])
  }

  /** However many unknown keys are presented, and whatever the queries return, they are an interval apart. */
  lemma {:induction false} QueriesAreSpaced(c: Cache, ls: seq<Lookup>)
    ensures var q := QueryTimes(c, ls);
            && (forall i | 0 <= i < |q| - 1 :: q[i] + REFRESH_INTERVAL <= q[i + 1])
            && (q != [] && c.lastRefresh.Some? ==> c.lastRefresh.value + REFRESH_INTERVAL <= q[0])
    decreases |ls|
  {
    if ls != [] {
      QueriesAreSpaced(AfterLookup(c, ls[0].k, ls[0].t, ls[0].now), ls[1..]);
    }
  }
}
