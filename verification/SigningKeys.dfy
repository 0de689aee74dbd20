/** Token-signing keys: bootstrap, rotation and retirement by many replicas, and their key caches. */
module SigningKeys {
  import opened Common

  datatype Kid = Kid(num: int)
  datatype ReplicaId = ReplicaId(num: int)
  datatype RotationId = RotationId(num: int)

  const DAY: nat := 86400000
  const REFRESH_INTERVAL: nat := 1000

  datatype KeyStatus = Active | Grace | Retired
  datatype KeyRow = KeyRow(status: KeyStatus, graceUntil: Option<int>)

  type Table = map<Kid, KeyRow>

  function ActiveKids(t: Table): set<Kid> { set k | k in t && t[k].status.Active? }
  function GraceKids(t: Table): set<Kid> { set k | k in t && t[k].status.Grace? }

  // ----- the transactions, each behind the advisory lock -----

  function Bootstrap(t: Table, k: Kid): Table {
    if ActiveKids(t) == {} then t[k := KeyRow(Active, None)] else t
  }

  /** Demotes the active row, then inserts the new one; any other count of active rows aborts. */
  function Rotate(t: Table, k: Kid, readAt: int): Table {
    if |ActiveKids(t)| == 1 then
      (map j | j in t :: if t[j].status.Active? then KeyRow(Grace, Some(readAt + DAY)) else t[j])
      [k := KeyRow(Active, None)]
    else t
  }

  predicate Expired(r: KeyRow, readAt: int) { r.status.Grace? && r.graceUntil.Some? && r.graceUntil.value < readAt }

  function Retire(t: Table, readAt: int): Table {
    map j | j in t :: if Expired(t[j], readAt) then t[j].(status := Retired) else t[j]
  }

  /** The key table as the service's transactions change it, the advisory lock held. */
  class KeyTable {
    var rows: Table

    method CountActive() returns (count: nat)
      ensures count == |ActiveKids(rows)|
    {
      var left := rows.Keys;
      count := 0;
      ghost var counted: set<Kid> := {};
      while left != {}
        invariant left <= rows.Keys && count == |counted|
        invariant counted <= rows.Keys - left
        invariant forall k | k in rows.Keys - left :: k in counted <==> rows[k].status.Active?
        decreases |left|
      {
        var k :| k in left;
        left := left - {k};
        if rows[k].status.Active? {
          counted := counted + {k};
          count := count + 1;
        }
      }
      assert counted == ActiveKids(rows);
    }

    /** A count above one is the broken invariant the caller reports. */
    method EnsureInitialKey(k: Kid) returns (ok: bool)
      modifies this
      ensures ok <==> |set j | j in old(rows) && old(rows)[j].status.Active?| <= 1
      ensures rows == if forall j | j in old(rows) :: !old(rows)[j].status.Active?
                      then old(rows)[k := KeyRow(Active, None)] else old(rows)
      ensures rows == Bootstrap(old(rows), k)
    {
      var count := CountActive();
      assert ActiveKids(rows) == {} <==> forall j | j in rows :: !rows[j].status.Active? by {
        assert forall j | j in rows && rows[j].status.Active? :: j in ActiveKids(rows);
      }
      if count >= 1 {
        return count == 1;
      }
      rows := rows[k := KeyRow(Active, None)];
      ok := true;
    }

    method RotateKey(k: Kid, readAt: int) returns (ok: bool)
      modifies this
      ensures ok <==> |set j | j in old(rows) && old(rows)[j].status.Active?| == 1
      ensures !ok ==> rows == old(rows)
      ensures ok ==>
                && rows.Keys == old(rows).Keys + {k} && rows[k] == KeyRow(Active, None)
                && forall j | j in old(rows) && j != k ::
                     rows[j] == if old(rows)[j].status.Active? then KeyRow(Grace, Some(readAt + 86400000))
                                else old(rows)[j]
      ensures rows == Rotate(old(rows), k, readAt)
    {
      var count := CountActive();
      if count != 1 {
        return false;
      }
      rows := map j | j in rows :: if rows[j].status.Active? then KeyRow(Grace, Some(readAt + DAY)) else rows[j];
      rows := rows[k := KeyRow(Active, None)];
      ok := true;
    }

    /** Afterwards no grace key is past its deadline; only those that were are changed, and the active key never. */
    method RetireExpired(readAt: int)
      modifies this
      ensures rows == Retire(old(rows), readAt)
      ensures rows.Keys == old(rows).Keys && ActiveKids(rows) == old(ActiveKids(rows))
      ensures forall k | k in rows :: !Expired(rows[k], readAt)
      ensures forall k | k in rows ::
                var r := old(rows)[k];
                rows[k] == if r.status.Grace? && r.graceUntil.Some? && r.graceUntil.value < readAt
                           then KeyRow(Retired, r.graceUntil) else r
    {
      rows := map j | j in rows ::
        if rows[j].status.Grace? && rows[j].graceUntil.Some? && rows[j].graceUntil.value < readAt
        then KeyRow(Retired, rows[j].graceUntil) else rows[j];
    }
  }

  // ----- one replica's cache -----

  datatype Cache = Cache(active: Option<Kid>, grace: set<Kid>, lastRefresh: Option<int>)

  /** The swap at the end of a reload; a broken invariant only clears the active key. */
  ghost function Reloaded(c: Cache, t: Table): Cache {
    if |ActiveKids(t)| == 1 then
      var k :| k in ActiveKids(t); c.(active := Some(k), grace := GraceKids(t))
    else c.(active := None)
  }

  predicate Cached(c: Cache, k: Kid) { c.active == Some(k) || k in c.grace }

  predicate Throttled(c: Cache, now: int) { c.lastRefresh.Some? && now - c.lastRefresh.value < REFRESH_INTERVAL }

  // ----- every run -----

  /** `version` is the index in the table's history of the reading a cache was swapped from. */
  datatype Replica = Replica(cache: Cache, version: nat, reading: Option<nat>)

  datatype Demotion = Demotion(readAt: int, at: int)

  /**
   * `history` is every committed table, oldest first.  `rotations` are calls that have
   * read the clock and not yet got the lock; `demotions` records each key's demotion.
   */
  datatype World = World(
    history: seq<Table>, now: int,
    rotations: map<RotationId, int>, replicas: map<ReplicaId, Replica>,
    used: set<Kid>, demotions: map<Kid, Demotion>)

  datatype Event =
    | Tick(time: int)
    | BootstrapKey(k: Kid)
    | ReadClock(id: RotationId)
    | CommitRotation(id: RotationId, k: Kid)
    | RetireKeys(readAt: int)
    | StartReplica(r: ReplicaId)
    | BeginReload(r: ReplicaId)              // takes reloadMu and queries
    | EndReload(r: ReplicaId)                // swaps and releases reloadMu
    | FailReload(r: ReplicaId)

  function Current(w: World): Table {
    if w.history == [] then map[] else w.history[|w.history| - 1]
  }

  predicate Enabled(w: World, ev: Event) {
    && w.history != []
    && match ev
       case Tick(t) => w.now <= t
       case BootstrapKey(k) => k !in w.used
       case ReadClock(id) => id !in w.rotations
       case CommitRotation(id, k) => id in w.rotations && k !in w.used
       case RetireKeys(readAt) => readAt <= w.now
       case StartReplica(r) => r !in w.replicas
       case BeginReload(r) => r in w.replicas && w.replicas[r].reading.None?
       case EndReload(r) => r in w.replicas && w.replicas[r].reading.Some? && w.replicas[r].reading.value < |w.history|
       case FailReload(r) => r in w.replicas
  }

  function TableAfter(w: World, ev: Event): Table
    requires Enabled(w, ev)
  {
    match ev
    case BootstrapKey(k) => Bootstrap(Current(w), k)
    case CommitRotation(id, k) => Rotate(Current(w), k, w.rotations[id])
    case RetireKeys(readAt) => Retire(Current(w), readAt)
    case _ => Current(w)
  }

  ghost function ReplicasAfter(w: World, ev: Event): map<ReplicaId, Replica>
    requires Enabled(w, ev)
  {
    match ev
    case StartReplica(r) => w.replicas[r := Replica(Cache(None, {}, None), 0, None)]
    case BeginReload(r) => w.replicas[r := w.replicas[r].(reading := Some(|w.history| - 1))]
    case EndReload(r) =>
      var p := w.replicas[r];
      w.replicas[r := Replica(Reloaded(p.cache, w.history[p.reading.value]), p.reading.value, None)]
    case FailReload(r) => w.replicas[r := w.replicas[r].(reading := None)]
    case _ => w.replicas
  }

  function Demoted(d: map<Kid, Demotion>, t: Table, readAt: int, at: int): map<Kid, Demotion> {
    map k | k in d.Keys + ActiveKids(t) :: if k in ActiveKids(t) then Demotion(readAt, at) else d[k]
  }

  function DemotionsAfter(w: World, ev: Event): map<Kid, Demotion>
    requires Enabled(w, ev)
  {
    if ev.CommitRotation? && |ActiveKids(Current(w))| == 1
    then Demoted(w.demotions, Current(w), w.rotations[ev.id], w.now) else w.demotions
  }

  ghost function Apply(w: World, ev: Event): World
    requires Enabled(w, ev)
  {
    World(w.history + [TableAfter(w, ev)],
          if ev.Tick? then ev.time else w.now,
          if ev.ReadClock? then w.rotations[ev.id := w.now]
          else if ev.CommitRotation? then w.rotations - {ev.id} else w.rotations,
          ReplicasAfter(w, ev),
          if ev.BootstrapKey? || ev.CommitRotation? then w.used + {ev.k} else w.used,
          DemotionsAfter(w, ev))
  }

  ghost predicate Legal(w: World, es: seq<Event>)
    decreases |es|
  {
    es == [] || (Enabled(w, es[0]) && Legal(Apply(w, es[0]), es[1..]))
  }

  ghost function Run(w: World, es: seq<Event>): World
    requires Legal(w, es)
    decreases |es|
  {
    if es == [] then w else Run(Apply(w, es[0]), es[1..])
  }

  const EMPTY: World := World([map[]], 0, map[], map[], {}, map[])

  // ----- invariant -----

  predicate AtMostOne(t: Table) {
    forall j, k | j in t && k in t && t[j].status.Active? && t[k].status.Active? :: j == k
  }

  /** Once any row exists, one is active. */
  predicate TableOk(t: Table) { AtMostOne(t) && (t == map[] || ActiveKids(t) != {}) }

  /** active -> grace -> retired, and a grace deadline never moves. */
  predicate RowForward(r: KeyRow, r': KeyRow) {
    && (r.status.Grace? ==> !r'.status.Active? && r'.graceUntil == r.graceUntil)
    && (r.status.Retired? ==> r' == r)
  }

  ghost predicate Forward(t: Table, t': Table) {
    forall k | k in t :: k in t' && RowForward(t[k], t'[k])
  }

  /** A key that is no longer active was demoted, and its grace runs from the rotation's clock reading. */
  predicate DemotionOk(r: KeyRow, d: Option<Demotion>, now: int) {
    r.status.Active? ||
    (&& d.Some? && d.value.readAt <= d.value.at <= now
     && r.graceUntil == Some(d.value.readAt + DAY)
     && (r.status.Retired? ==> d.value.readAt + DAY < now))
  }

  function Lookup<V>(m: map<Kid, V>, k: Kid): Option<V> { if k in m then Some(m[k]) else None }

  predicate ReplicaOk(w: World, p: Replica) {
    p.version < |w.history| && (p.reading.Some? ==> p.version <= p.reading.value < |w.history|)
  }

  ghost predicate HistoryOk(history: seq<Table>) {
    && history != [] && history[0] == map[]
    && (forall i | 0 <= i < |history| :: TableOk(history[i]))
    && (forall i, j | 0 <= i < j < |history| && history[i] != map[] :: history[j] != map[])
  }

  ghost predicate Inv(w: World) {
    && HistoryOk(w.history)
    && Current(w).Keys <= w.used
    && (forall k | k in Current(w) :: DemotionOk(Current(w)[k], Lookup(w.demotions, k), w.now))
    && (forall id | id in w.rotations :: w.rotations[id] <= w.now)
    && (forall r | r in w.replicas :: ReplicaOk(w, w.replicas[r]))
  }

  lemma OneElement(s: set<Kid>, k: Kid)
    requires k in s && forall j | j in s :: j == k
    ensures s == {k} && |s| == 1
  {
    assert s == {k};
  }

  lemma ActiveIsOne(t: Table)
    requires TableOk(t) && t != map[]
    ensures |ActiveKids(t)| == 1
  {
    var k :| k in ActiveKids(t);
    OneElement(ActiveKids(t), k);
  }

  lemma TableStep(w: World, ev: Event)
    requires Inv(w) && Enabled(w, ev)
    ensures TableOk(TableAfter(w, ev)) && Forward(Current(w), TableAfter(w, ev))
    ensures TableAfter(w, ev).Keys <= Apply(w, ev).used
  {
    var t := Current(w);
    var t' := TableAfter(w, ev);
    if ev.BootstrapKey? {
      if ActiveKids(t) == {} {
        assert ev.k in ActiveKids(t');
      }
    } else if ev.CommitRotation? {
      if |ActiveKids(t)| == 1 {
        assert ev.k in ActiveKids(t');
      }
    } else if ev.RetireKeys? {
      assert ActiveKids(t') == ActiveKids(t);
    }
  }

  lemma RotationDemotes(t: Table, d: map<Kid, Demotion>, next: Kid, readAt: int, now: int, k: Kid)
    requires readAt <= now && |ActiveKids(t)| == 1 && next !in t
    requires k in Rotate(t, next, readAt) && (k in t ==> DemotionOk(t[k], Lookup(d, k), now))
    ensures DemotionOk(Rotate(t, next, readAt)[k], Lookup(Demoted(d, t, readAt, now), k), now)
  {
    if k in t {
      assert k in ActiveKids(t) <==> t[k].status.Active?;
    }
  }

  lemma DemotionStep(w: World, ev: Event, k: Kid)
    requires Inv(w) && Enabled(w, ev) && k in TableAfter(w, ev)
    ensures DemotionOk(TableAfter(w, ev)[k], Lookup(Apply(w, ev).demotions, k), Apply(w, ev).now)
  {
    if ev.CommitRotation? {
      if |ActiveKids(Current(w))| == 1 {
        RotationDemotes(Current(w), w.demotions, ev.k, w.rotations[ev.id], w.now, k);
      }
    } else if k in Current(w) {
      assert Lookup(Apply(w, ev).demotions, k) == Lookup(w.demotions, k);
      assert DemotionOk(Current(w)[k], Lookup(w.demotions, k), w.now);
    }
  }

  lemma StepKeepsInv(w: World, ev: Event)
    requires Inv(w) && Enabled(w, ev)
    ensures Inv(Apply(w, ev))
  {
    TableStep(w, ev);
    var w' := Apply(w, ev);
    forall k | k in TableAfter(w, ev) ensures DemotionOk(TableAfter(w, ev)[k], Lookup(w'.demotions, k), w'.now) {
      DemotionStep(w, ev, k);
    }
  }

  lemma {:induction false} RunKeepsInv(w: World, es: seq<Event>)
    requires Inv(w) && Legal(w, es)
    ensures Inv(Run(w, es))
    decreases |es|
  {
    if es != [] {
      StepKeepsInv(w, es[0]);
      RunKeepsInv(Apply(w, es[0]), es[1..]);
    }
  }

  lemma ReachableInv(es: seq<Event>)
    requires Legal(EMPTY, es)
    ensures Inv(Run(EMPTY, es))
  {
    RunKeepsInv(EMPTY, es);
  }

  // ----- what it gives -----

  /** Exactly one key is active in every reachable state in which any key was ever inserted. */
  lemma ExactlyOneActive(es: seq<Event>)
    requires Legal(EMPTY, es)
    ensures var t := Current(Run(EMPTY, es)); t != map[] ==> exists k :: ActiveKids(t) == {k}
  {
    ReachableInv(es);
    var t := Current(Run(EMPTY, es));
    if t != map[] {
      var k :| k in ActiveKids(t);
      OneElement(ActiveKids(t), k);
    }
  }

  /** Keys are never lost and only move active, grace, retired; so bootstrapped is for good. */
  lemma {:induction false} KeysMoveForward(w: World, es: seq<Event>, k: Kid)
    requires Inv(w) && Legal(w, es) && k in Current(w)
    ensures k in Current(Run(w, es)) && RowForward(Current(w)[k], Current(Run(w, es))[k])
    decreases |es|
  {
    if es != [] {
      TableStep(w, es[0]);
      StepKeepsInv(w, es[0]);
      KeysMoveForward(Apply(w, es[0]), es[1..], k);
      assert RowForward(Current(w)[k], TableAfter(w, es[0])[k]);
    }
  }

  /** A key is retired only after its full day of grace, counted from the clock its rotation read. */
  lemma GraceIsKept(es: seq<Event>, k: Kid)
    requires Legal(EMPTY, es) && k in Current(Run(EMPTY, es)) && Current(Run(EMPTY, es))[k].status.Retired?
    ensures var w := Run(EMPTY, es);
            k in w.demotions && w.demotions[k].readAt + DAY < w.now
  {
    ReachableInv(es);
    var w := Run(EMPTY, es);
    assert DemotionOk(Current(w)[k], Lookup(w.demotions, k), w.now);
  }

  // ----- the clock is read before the lock -----

  predicate WaitsAtMost(w: World, wait: nat) {
    forall k | k in w.demotions :: w.demotions[k].at - w.demotions[k].readAt <= wait
  }

  /** Every retired key had its day of grace counted from its demotion. */
  predicate FullGrace(w: World) {
    forall k | k in Current(w) && Current(w)[k].status.Retired? :: k in w.demotions && w.demotions[k].at + DAY < w.now
  }

  lemma {:induction false} Snoc(w: World, es: seq<Event>, ev: Event)
    requires Legal(w, es) && Enabled(Run(w, es), ev)
    ensures Legal(w, es + [ev]) && Run(w, es + [ev]) == Apply(Run(w, es), ev)
    decreases |es|
  {
    if es == [] {
      assert es + [ev] == [ev];
      assert Legal(Apply(w, ev), []);
    } else {
      Snoc(Apply(w, es[0]), es[1..], ev);
      assert (es + [ev])[1..] == es[1..] + [ev];
    }
  }

  lemma WaitingRotation() returns (es: seq<Event>)
    ensures Legal(EMPTY, es)
    ensures var w := Run(EMPTY, es);
            && w.history != [] && w.now == 1 && w.rotations == map[RotationId(1) := 0] && w.demotions == map[]
            && w.used == {Kid(1)} && Current(w) == map[Kid(1) := KeyRow(Active, None)]
  {
    Snoc(EMPTY, [], BootstrapKey(Kid(1)));
    es := [] + [BootstrapKey(Kid(1))];
    Snoc(EMPTY, es, ReadClock(RotationId(1)));
    es := es + [ReadClock(RotationId(1))];
    Snoc(EMPTY, es, Tick(1));
    es := es + [Tick(1)];
    assert ActiveKids(map[]) == {};
  }

  lemma RotateSole(j: Kid, k: Kid, readAt: int, at: int)
    requires j != k
    ensures var t: Table := map[j := KeyRow(Active, None)];
            && |ActiveKids(t)| == 1
            && Rotate(t, k, readAt) == map[j := KeyRow(Grace, Some(readAt + DAY)), k := KeyRow(Active, None)]
            && Demoted(map[], t, readAt, at) == map[j := Demotion(readAt, at)]
  {
    OneElement(ActiveKids(map[j := KeyRow(Active, None)]), j);
  }

  lemma LateDemotion() returns (es: seq<Event>)
    ensures Legal(EMPTY, es)
    ensures var w := Run(EMPTY, es);
            && w.history != [] && w.now == 1 && w.demotions == map[Kid(1) := Demotion(0, 1)]
            && Current(w) == map[Kid(1) := KeyRow(Grace, Some(DAY)), Kid(2) := KeyRow(Active, None)]
  {
    es := WaitingRotation();
    RotateSole(Kid(1), Kid(2), 0, 1);
    var rotate := CommitRotation(RotationId(1), Kid(2));
    var w := Run(EMPTY, es);
    assert TableAfter(w, rotate) == Rotate(Current(w), Kid(2), 0);
    Snoc(EMPTY, es, rotate);
    es := es + [rotate];
  }

  lemma SlowRotation() returns (es: seq<Event>)
    ensures Legal(EMPTY, es) && WaitsAtMost(Run(EMPTY, es), 1) && !FullGrace(Run(EMPTY, es))
  {
    es := LateDemotion();
    Snoc(EMPTY, es, Tick(DAY + 1));
    es := es + [Tick(DAY + 1)];
    Snoc(EMPTY, es, RetireKeys(DAY + 1));
    es := es + [RetireKeys(DAY + 1)];
    assert Current(Run(EMPTY, es))[Kid(1)].status == Retired;
  }

  /** So the day counts from the demotion itself exactly when no rotation waits for the lock. */
  lemma FullGraceIffNoWait(wait: nat)
    ensures (forall es | Legal(EMPTY, es) && WaitsAtMost(Run(EMPTY, es), wait) ::
        FullGrace(Run(EMPTY, es))) <==> wait == 0
  {
    if wait == 0 {
      forall es | Legal(EMPTY, es) && WaitsAtMost(Run(EMPTY, es), wait) ensures FullGrace(Run(EMPTY, es)) {
        var w := Run(EMPTY, es);
        forall k | k in Current(w) && Current(w)[k].status.Retired?
          ensures k in w.demotions && w.demotions[k].at + DAY < w.now
        {
          GraceIsKept(es, k);
        }
      }
    } else {
      var es := SlowRotation();
      assert WaitsAtMost(Run(EMPTY, es), wait) && !FullGrace(Run(EMPTY, es));
    }
  }
}
