/** The cleanup-run table: one active run, held by a lease. */
module CleanupRuns {
  import opened Common

  datatype RunId = RunId(num: int)
  datatype OwnerId = OwnerId(num: int)

  const LEASE_TTL: nat := 120000
  const GRACE: nat := 600000

  datatype Status = Queued | Running | Completed | Failed

  datatype Row = Row(status: Status, owner: Option<OwnerId>, lease: Option<int>, created: int, processed: nat)

  type Table = map<RunId, Row>

  predicate Active(r: Row) { r.status.Queued? || r.status.Running? }

  function ActiveRuns(t: Table): set<RunId> { set id | id in t && Active(t[id]) }

  predicate LeaseHeld(r: Row, now: int) { r.lease.Some? && now < r.lease.value }

  // ----- the statements -----

  predicate Stale(r: Row, now: int) {
    Active(r) && if r.lease.Some? then r.lease.value <= now else r.created < now - GRACE
  }

  function Recover(t: Table, now: int): Table {
    map id | id in t ::
      if Stale(t[id], now) then t[id].(status := Failed, owner := None, lease := None) else t[id]
  }

  /** The insert after recovery; the unique index over active rows turns a second one away. */
  predicate MayQueue(t: Table) { ActiveRuns(t) == {} }

  function Queue(t: Table, id: RunId, owner: OwnerId, now: int): Table {
    if MayQueue(t) then t[id := Row(Queued, Some(owner), Some(now + LEASE_TTL), now, 0)] else t
  }

  predicate Holds(t: Table, id: RunId, owner: OwnerId, status: Status) {
    id in t && t[id].status == status && t[id].owner == Some(owner)
  }

  predicate MayClaim(t: Table, id: RunId, owner: OwnerId, now: int) {
    Holds(t, id, owner, Queued) && LeaseHeld(t[id], now)
  }

  /** The claim's lease runs from the process's own clock reading. */
  function Claim(t: Table, id: RunId, owner: OwnerId, started: int, now: int): Table {
    if MayClaim(t, id, owner, now) then t[id := t[id].(status := Running, lease := Some(started + LEASE_TTL))] else t
  }

  predicate MayWrite(t: Table, id: RunId, owner: OwnerId, now: int) {
    Holds(t, id, owner, Running) && LeaseHeld(t[id], now)
  }

  function Renew(t: Table, id: RunId, owner: OwnerId, now: int): Table {
    if MayWrite(t, id, owner, now) then t[id := t[id].(lease := Some(now + LEASE_TTL))] else t
  }

  function Report(t: Table, id: RunId, owner: OwnerId, processed: nat, now: int): Table {
    if MayWrite(t, id, owner, now) then t[id := t[id].(lease := Some(now + LEASE_TTL), processed := processed)] else t
  }

  /** The terminal write asks for the owner, not for a live lease. */
  function Finish(t: Table, id: RunId, owner: OwnerId, ok: bool, processed: nat): Table {
    if Holds(t, id, owner, Running) then
      t[id := t[id].(status := if ok then Completed else Failed, owner := None, lease := None, processed := processed)]
    else t
  }

  /** The run table as one process changes it. */
  class RunTable {
    var rows: Table

    /** Fails every active run whose lease is over, or that never had one and is ten minutes old. */
    method RecoverStaleRuns(now: int)
      modifies this
      ensures rows == Recover(old(rows), now)
      ensures rows.Keys == old(rows).Keys && forall id | id in rows ::
                var r := old(rows)[id];
                var lapsed := if r.lease.Some? then r.lease.value <= now else r.created + 600000 < now;
                rows[id] == if (r.status.Queued? || r.status.Running?) && lapsed
                            then r.(status := Failed, owner := None, lease := None) else r
    {
      rows := map id | id in rows ::
        if Stale(rows[id], now) then rows[id].(status := Failed, owner := None, lease := None) else rows[id];
    }

    /** Recovers, then inserts; refused exactly while another run is active. */
    method QueueRun(id: RunId, owner: OwnerId, recoveredAt: int, now: int) returns (queued: bool)
      requires id !in rows
      modifies this
      ensures rows == Queue(Recover(old(rows), recoveredAt), id, owner, now)
      ensures var recovered := Recover(old(rows), recoveredAt);
              && (queued <==> forall j | j in recovered ::
                    !recovered[j].status.Queued? && !recovered[j].status.Running?)
              && (queued ==> rows == recovered[id := Row(Queued, Some(owner), Some(now + 120000), now, 0)])
              && (!queued ==> rows == recovered)
    {
      RecoverStaleRuns(recoveredAt);
      queued := ActiveRuns(rows) == {};
      assert queued <==> forall j | j in rows :: !rows[j].status.Queued? && !rows[j].status.Running? by {
        assert forall j | j in rows && Active(rows[j]) :: j in ActiveRuns(rows);
      }
      if queued { rows := rows[id := Row(Queued, Some(owner), Some(now + LEASE_TTL), now, 0)]; }
    }

    method ClaimRun(id: RunId, owner: OwnerId, started: int, now: int) returns (claimed: bool)
      modifies this
      ensures rows == Claim(old(rows), id, owner, started, now)
      ensures claimed <==>
                && id in old(rows) && old(rows)[id].status.Queued? && old(rows)[id].owner == Some(owner)
                && old(rows)[id].lease.Some? && now < old(rows)[id].lease.value
      ensures rows == if !claimed then old(rows)
                      else old(rows)[id := old(rows)[id].(status := Running, lease := Some(started + 120000))]
    {
      claimed := id in rows && rows[id].status == Queued && rows[id].owner == Some(owner) && LeaseHeld(rows[id], now);
      if claimed { rows := rows[id := rows[id].(status := Running, lease := Some(started + LEASE_TTL))]; }
    }

    method RenewLease(id: RunId, owner: OwnerId, now: int) returns (held: bool)
      modifies this
      ensures rows == Renew(old(rows), id, owner, now)
      ensures held <==>
                && id in old(rows) && old(rows)[id].status.Running? && old(rows)[id].owner == Some(owner)
                && old(rows)[id].lease.Some? && now < old(rows)[id].lease.value
      ensures rows == if !held then old(rows) else old(rows)[id := old(rows)[id].(lease := Some(now + 120000))]
    {
      held := id in rows && rows[id].status == Running && rows[id].owner == Some(owner) && LeaseHeld(rows[id], now);
      if held { rows := rows[id := rows[id].(lease := Some(now + LEASE_TTL))]; }
    }

    method UpdateRunProgress(id: RunId, owner: OwnerId, processed: nat, now: int) returns (held: bool)
      modifies this
      ensures rows == Report(old(rows), id, owner, processed, now)
      ensures held <==>
                && id in old(rows) && old(rows)[id].status.Running? && old(rows)[id].owner == Some(owner)
                && old(rows)[id].lease.Some? && now < old(rows)[id].lease.value
      ensures rows == if !held then old(rows)
                      else old(rows)[id := old(rows)[id].(lease := Some(now + 120000), processed := processed)]
    {
      held := id in rows && rows[id].status == Running && rows[id].owner == Some(owner) && LeaseHeld(rows[id], now);
      if held { rows := rows[id := rows[id].(lease := Some(now + LEASE_TTL), processed := processed)]; }
    }

    /** The terminal write: its owner's, lapsed or not. */
    method FinishRun(id: RunId, owner: OwnerId, ok: bool, processed: nat) returns (written: bool)
      modifies this
      ensures rows == Finish(old(rows), id, owner, ok, processed)
      ensures written <==> id in old(rows) && old(rows)[id].status.Running? && old(rows)[id].owner == Some(owner)
      ensures rows == if !written then old(rows) else old(rows)[id := old(rows)[id].(
                        status := if ok then Completed else Failed, owner := None, lease := None,
                        processed := processed)]
    {
      written := id in rows && rows[id].status == Running && rows[id].owner == Some(owner);
      if written {
        var status := Failed;
        if ok { status := Completed; }
        rows := rows[id := rows[id].(status := status, owner := None, lease := None, processed := processed)];
      }
    }
  }

  // ----- every run of them -----

  /** `queuedBy` records which process queued each run; run ids are generated and never reused. */
  datatype World = World(table: Table, now: int, queuedBy: map<RunId, OwnerId>)

  datatype Event =
    | Tick(time: int)
    | RecoverStale
    | QueueRun(id: RunId, owner: OwnerId)
    | ClaimRun(id: RunId, owner: OwnerId, started: int)
    | RenewLease(id: RunId, owner: OwnerId)
    | ReportProgress(id: RunId, owner: OwnerId, processed: nat)
    | FinishRun(id: RunId, owner: OwnerId, ok: bool, processed: nat)
    | Prune(gone: set<RunId>)

  predicate Enabled(w: World, ev: Event) {
    match ev
    case Tick(t) => w.now <= t
    case QueueRun(id, _) => id !in w.queuedBy
    case ClaimRun(_, _, started) => started <= w.now
    case Prune(gone) => forall id | id in gone :: id in w.table && !Active(w.table[id])
    case _ => true
  }

  function TableAfter(w: World, ev: Event): Table {
    match ev
    case Tick(_) => w.table
    case RecoverStale => Recover(w.table, w.now)
    case QueueRun(id, o) => Queue(w.table, id, o, w.now)
    case ClaimRun(id, o, started) => Claim(w.table, id, o, started, w.now)
    case RenewLease(id, o) => Renew(w.table, id, o, w.now)
    case ReportProgress(id, o, p) => Report(w.table, id, o, p, w.now)
    case FinishRun(id, o, ok, p) => Finish(w.table, id, o, ok, p)
    case Prune(gone) => w.table - gone
  }

  function Apply(w: World, ev: Event): World
    requires Enabled(w, ev)
  {
    World(TableAfter(w, ev), if ev.Tick? then ev.time else w.now,
          if ev.QueueRun? && MayQueue(w.table) then w.queuedBy[ev.id := ev.owner] else w.queuedBy)
  }

  predicate Legal(w: World, es: seq<Event>)
    decreases |es|
  {
    es == [] || (Enabled(w, es[0]) && Legal(Apply(w, es[0]), es[1..]))
  }

  function Run(w: World, es: seq<Event>): World
    requires Legal(w, es)
    decreases |es|
  {
    if es == [] then w else Run(Apply(w, es[0]), es[1..])
  }

  const EMPTY: World := World(map[], 0, map[])

  predicate AtMostOne(t: Table) { forall i, j | i in t && j in t && Active(t[i]) && Active(t[j]) :: i == j }

  ghost predicate Inv(w: World) {
    && AtMostOne(w.table) && w.table.Keys <= w.queuedBy.Keys
    && (forall id | id in w.table ::
          w.table[id].owner == if Active(w.table[id]) then Some(w.queuedBy[id]) else None)
  }

  lemma StepKeepsInv(w: World, ev: Event)
    requires Inv(w) && Enabled(w, ev)
    ensures Inv(Apply(w, ev))
  {
    if ev.QueueRun? && MayQueue(w.table) {
      forall id | id in w.table ensures !Active(w.table[id]) {
        assert id !in ActiveRuns(w.table);
      }
    }
  }

  lemma {:induction false} RunKeepsInv(w: World, es: seq<Event>)
    requires Inv(w) && Legal(w, es)
    ensures Inv(Run(w, es))
    decreases |es|
  {
    if es != [] {
      StepKeepsInv(w, es[0]);
      RunKeepsInv(Apply(w, es[0]), es[1..]);
    }
  }

  /** In every reachable state at most one run is queued or running, and only the process that queued it holds it. */
  lemma OneActiveRun(es: seq<Event>, i: RunId, j: RunId, owner: OwnerId, now: int)
    requires Legal(EMPTY, es)
    ensures var t := Run(EMPTY, es).table; i in ActiveRuns(t) && j in ActiveRuns(t) ==> i == j
    ensures var w := Run(EMPTY, es);
            MayClaim(w.table, i, owner, now) || MayWrite(w.table, i, owner, now) ==>
              ActiveRuns(w.table) == {i} && i in w.queuedBy && w.queuedBy[i] == owner
  {
    RunKeepsInv(EMPTY, es);
  }

  /** A run is queued exactly when the lease of any active one is over, so a crashed process blocks none for good. */
  lemma LapsedRunsMakeRoom(w: World, id: RunId, owner: OwnerId)
    requires id !in w.queuedBy && id !in w.table
    ensures var w1 := Apply(w, RecoverStale);
            && Enabled(w1, QueueRun(id, owner))
            && var w2 := Apply(w1, QueueRun(id, owner));
               (id in w2.table && w2.table[id] == Row(Queued, Some(owner), Some(w.now + 120000), w.now, 0)) <==>
                 forall j | j in w.table && (w.table[j].status.Queued? || w.table[j].status.Running?) ::
                   if w.table[j].lease.Some? then w.table[j].lease.value <= w.now
                   else w.table[j].created + 600000 < w.now
  {
    var recovered := Recover(w.table, w.now);
    forall j | j in w.table ensures j in ActiveRuns(recovered) <==> Active(w.table[j]) && !Stale(w.table[j], w.now) {}
    assert forall j | j in w.table && Active(w.table[j]) && !Stale(w.table[j], w.now) :: j in ActiveRuns(recovered);
  }

  /** The lease writes of the process that holds a run keep it alive, its claim starts it and its last write ends it. */
  lemma OwnWritesLand(w: World, ev: Event, id: RunId, owner: OwnerId)
    requires Enabled(w, ev) && id in w.table && w.table[id].owner == Some(owner)
    requires w.table[id].lease.Some? && w.now < w.table[id].lease.value
    ensures var r := w.table[id]; var t' := Apply(w, ev).table;
            && (r.status.Running? && ev == RenewLease(id, owner) ==>
                  t' == w.table[id := r.(lease := Some(w.now + 120000))])
            && (r.status.Running? && ev.ReportProgress? && ev.id == id && ev.owner == owner ==>
                  t' == w.table[id := r.(lease := Some(w.now + 120000), processed := ev.processed)])
            && (r.status.Queued? && ev.ClaimRun? && ev.id == id && ev.owner == owner ==>
                  t' == w.table[id := r.(status := Running, lease := Some(ev.started + 120000))])
            && (r.status.Running? && ev.FinishRun? && ev.id == id && ev.owner == owner ==>
                  t' == w.table[id := r.(status := if ev.ok then Completed else Failed, owner := None, lease := None,
                                         processed := ev.processed)])
  {}

  /** Pruning takes ended runs out of the table and leaves the rest. */
  lemma PruneDrops(w: World, gone: set<RunId>)
    requires Enabled(w, Prune(gone))
    ensures var t' := Apply(w, Prune(gone)).table;
            && (forall id :: id in t' <==> id in w.table && id !in gone)
            && (forall id | id in t' :: t'[id] == w.table[id])
            && ActiveRuns(t') == ActiveRuns(w.table)
  {}

  // ----- an ended run is never written again -----

  predicate Ended(w: World, id: RunId, r: Row) {
    !Active(r) && id in w.queuedBy && (id in w.table ==> w.table[id] == r)
  }

  lemma {:induction false} EndedForGood(w: World, es: seq<Event>, id: RunId, r: Row)
    requires Legal(w, es) && Ended(w, id, r)
    ensures Ended(Run(w, es), id, r)
    decreases |es|
  {
    if es != [] {
      assert Ended(Apply(w, es[0]), id, r);
      EndedForGood(Apply(w, es[0]), es[1..], id, r);
    }
  }

  /**
   * Once recovery has failed a run its old process may go on, but every write it then
   * makes misses: the row stays as recovery left it, for every run after.
   */
  lemma RecoveredIsFenced(w: World, id: RunId, es: seq<Event>, owner: OwnerId, now: int)
    requires Inv(w) && id in w.table && Stale(w.table[id], w.now)
    requires Legal(Apply(w, RecoverStale), es)
    ensures var w' := Run(Apply(w, RecoverStale), es);
            && (id in w'.table ==>
                  w'.table[id] == Row(Failed, None, None, w.table[id].created, w.table[id].processed))
            && !MayClaim(w'.table, id, owner, now) && !MayWrite(w'.table, id, owner, now)
            && !Holds(w'.table, id, owner, Running)
  {
    var r := Recover(w.table, w.now)[id];
    EndedForGood(Apply(w, RecoverStale), es, id, r);
  }

  /** A process whose heartbeats land in time is never recovered: its run stays its own. */
  predicate KeptUp(w: World, id: RunId, owner: OwnerId) {
    id in w.queuedBy && w.queuedBy[id] == owner && Holds(w.table, id, owner, Running) && LeaseHeld(w.table[id], w.now)
  }

  predicate OthersOrBeats(w: World, ev: Event, id: RunId) {
    (ev.Tick? ==> id in w.table && w.table[id].lease.Some? && ev.time < w.table[id].lease.value)
    && (ev.FinishRun? ==> ev.id != id)
  }

  predicate KeepsUp(w: World, es: seq<Event>, id: RunId)
    requires Legal(w, es)
    decreases |es|
  {
    es == [] || (OthersOrBeats(w, es[0], id) && KeepsUp(Apply(w, es[0]), es[1..], id))
  }

  lemma {:induction false} HeartbeatsKeepTheRun(w: World, es: seq<Event>, id: RunId, owner: OwnerId)
    requires Inv(w) && Legal(w, es) && KeptUp(w, id, owner) && KeepsUp(w, es, id)
    ensures KeptUp(Run(w, es), id, owner)
    decreases |es|
  {
    if es != [] {
      StepKeepsInv(w, es[0]);
      assert KeptUp(Apply(w, es[0]), id, owner);
      HeartbeatsKeepTheRun(Apply(w, es[0]), es[1..], id, owner);
    }
  }
}
