/** Every task of a type some process runs can be brought to an end by the queue's ordinary steps. */
module TaskQueueEndings {
  import opened Common
  import opened TaskModel
  import opened TaskQueue
  import opened TaskQueueRuns
  import opened ClaimQuery
  import Admission
  import TaskStore

  /** The types a process has registered, the cap per tenant, the reaper's batch and the lease. */
  datatype Setting = Setting(types: set<string>, cap: int, batch: nat, lease: nat)

  /**
   * The passing of time, what the claim query picks with no row locked, and the reaper's
   * full batches, the second statement only when the first would find nothing.
   */
  ghost predicate Ordinary(w: World, ev: Event, c: Setting) {
    match ev
    case Tick(_) => true
    case ClaimTask(id, _, _, until) =>
      WindowPick(w.db, c.types, c.cap, w.now, {}, id) && until == w.now + c.lease
    case ReapRetry(chosen) => TaskStore.OldestLeases(w.db.tasks, RetryableOrphans(w.db, w.now), c.batch, chosen)
    case ReapFail(chosen) =>
      && RetryableOrphans(w.db, w.now) == {}
      && TaskStore.OldestLeases(w.db.tasks, Orphans(w.db, w.now), c.batch, chosen)
    case _ => false
  }

  ghost predicate AllOrdinary(w: World, es: seq<Event>, c: Setting)
    requires Legal(w, es)
    decreases |es|
  {
    es == [] || (Ordinary(w, es[0], c) && AllOrdinary(Apply(w, es[0]), es[1..], c))
  }

  ghost predicate Ends(w: World, es: seq<Event>, id: TaskId, c: Setting) {
    && Legal(w, es) && AllOrdinary(w, es, c)
    && id in Run(w, es).db.tasks && Run(w, es).db.tasks[id].status.Terminal()
  }

  lemma ConsEnds(w: World, ev: Event, es: seq<Event>, id: TaskId, c: Setting)
    requires Enabled(w, ev) && Ordinary(w, ev, c) && Ends(Apply(w, ev), es, id, c)
    ensures Ends(w, [ev] + es, id, c)
  {
    Cons(w, ev, es);
    assert ([ev] + es)[1..] == es;
  }

  // ----- what is left to do, over all rows -----

  function Left(tasks: map<TaskId, Task>, id: TaskId): nat {
    if id in tasks then Max(0, Remaining(tasks[id])) else 0
  }

  ghost function Total(tasks: map<TaskId, Task>, ids: set<TaskId>): nat
    decreases |ids|
  {
    if ids == {} then 0
    else
      var id :| id in ids;
      Left(tasks, id) + Total(tasks, ids - {id})
  }

  lemma {:induction false} TotalSplits(tasks: map<TaskId, Task>, ids: set<TaskId>, id: TaskId)
    requires id in ids
    ensures Total(tasks, ids) == Left(tasks, id) + Total(tasks, ids - {id})
    decreases |ids|
  {
    var first :| first in ids && Total(tasks, ids) == Left(tasks, first) + Total(tasks, ids - {first});
    if first != id {
      TotalSplits(tasks, ids - {first}, id);
      TotalSplits(tasks, ids - {id}, first);
      assert ids - {first} - {id} == ids - {id} - {first};
    }
  }

  lemma {:induction false} TotalGrows(a: map<TaskId, Task>, b: map<TaskId, Task>, ids: set<TaskId>)
    requires forall id | id in ids :: Left(a, id) <= Left(b, id)
    ensures Total(a, ids) <= Total(b, ids)
    decreases |ids|
  {
    if ids != {} {
      var id :| id in ids;
      TotalSplits(a, ids, id);
      TotalSplits(b, ids, id);
      TotalGrows(a, b, ids - {id});
    }
  }

  lemma TotalDrops(a: map<TaskId, Task>, b: map<TaskId, Task>, ids: set<TaskId>, id: TaskId)
    requires id in ids && Left(a, id) < Left(b, id)
    requires forall j | j in ids :: Left(a, j) <= Left(b, j)
    ensures Total(a, ids) < Total(b, ids)
  {
    TotalSplits(a, ids, id);
    TotalSplits(b, ids, id);
    TotalGrows(a, b, ids - {id});
  }

  /** A claim, a requeue and a failure each leave a row less to do. */
  predicate Working(m: Move) { m.Taken? || m.Requeued? || m.Lost? }

  lemma MoveLowers(db: Db, id: TaskId, r: Task, m: Move, now: int)
    requires RowOk(id, r) && Starts(db, m, Some(r)) && Working(m)
    ensures 0 <= Remaining(MovedRow(id, r, m, now)) < Remaining(r)
  {}

  predicate Works(ev: Event) { ev.ClaimTask? || ev.ReapRetry? || ev.ReapFail? }

  lemma WritesWork(w: World, ev: Event, id: TaskId)
    requires Works(ev) && id in Writes(w, ev)
    ensures Working(MoveAt(Writes(w, ev), id))
  {}

  lemma RowMoves(w: World, ev: Event, id: TaskId)
    requires RowsOk(w) && Enabled(w, ev) && Works(ev) && id in w.db.tasks
    ensures id in Apply(w, ev).db.tasks
    ensures id in Writes(w, ev) ==>
              var m := MoveAt(Writes(w, ev), id);
              && Starts(w.db, m, Some(w.db.tasks[id])) && Working(m)
              && Apply(w, ev).db.tasks[id] == MovedRow(id, w.db.tasks[id], m, w.now)
    ensures id !in Writes(w, ev) ==> Apply(w, ev).db.tasks[id] == w.db.tasks[id]
  {
    RowEffect(w, ev, id);
    assert Find(Apply(w, ev).db.tasks, id) ==
           RowAfter(id, Some(w.db.tasks[id]), MoveAt(Writes(w, ev), id), w.now);
    if id in Writes(w, ev) {
      WritesWork(w, ev, id);
    }
  }

  lemma RowLowers(w: World, ev: Event, id: TaskId)
    requires RowsOk(w) && Enabled(w, ev) && Works(ev) && id in w.db.tasks
    ensures id in Apply(w, ev).db.tasks
    ensures id in Writes(w, ev) ==> Left(Apply(w, ev).db.tasks, id) < Left(w.db.tasks, id)
    ensures id !in Writes(w, ev) ==> Apply(w, ev).db.tasks[id] == w.db.tasks[id]
  {
    RowMoves(w, ev, id);
    if id in Writes(w, ev) {
      MoveLowers(w.db, id, w.db.tasks[id], MoveAt(Writes(w, ev), id), w.now);
    }
  }

  /** What a task needs for its end to be in reach. */
  ghost predicate InReach(w: World, id: TaskId, p: WorkerId, c: Setting) {
    && Inv(w) && TaskQueue.Running(w, p) && id in w.db.tasks && w.db.tasks[id].taskType in c.types
    && |InFlight(w.db, w.db.tasks[id].tenant)| <= c.cap
  }

  lemma CapStays(w: World, ev: Event, tenant: string)
    requires RowsOk(w) && Enabled(w, ev) && !ev.Submit?
    ensures |InFlight(Apply(w, ev).db, tenant)| <= |InFlight(w.db, tenant)|
  {
    Admission.QueueStepSettles(w, ev);
    SubsetSize(InFlight(Apply(w, ev).db, tenant), InFlight(w.db, tenant));
  }

  lemma TypeKept(w: World, ev: Event, id: TaskId)
    requires RowsOk(w) && Enabled(w, ev) && !ev.Submit? && id in Apply(w, ev).db.tasks
    ensures id in w.db.tasks
    ensures Apply(w, ev).db.tasks[id].taskType == w.db.tasks[id].taskType
    ensures Apply(w, ev).db.tasks[id].tenant == w.db.tasks[id].tenant
  {
    Admission.RowStepSettles(w, ev, id);
  }

  lemma ProcsStay(w: World, ev: Event)
    requires Enabled(w, ev) && (Works(ev) || ev.Tick?)
    ensures Apply(w, ev).procs == w.procs
  {}

  lemma StepStaysInReach(w: World, ev: Event, id: TaskId, p: WorkerId, c: Setting)
    requires InReach(w, id, p, c) && Enabled(w, ev) && (Works(ev) || ev.Tick?)
    requires id in Apply(w, ev).db.tasks
    ensures InReach(Apply(w, ev), id, p, c)
  {
    StepKeepsInv(w, ev);
    CapStays(w, ev, w.db.tasks[id].tenant);
    TypeKept(w, ev, id);
    ProcsStay(w, ev);
  }

  predicate Due(r: Task, now: int) { (r.status.Pending? && r.availableAt <= now) || Orphan(r, now) }

  lemma WaitUntilDue(w: World, id: TaskId, p: WorkerId, c: Setting) returns (tick: Event)
    requires InReach(w, id, p, c) && !w.db.tasks[id].status.Terminal()
    ensures tick.Tick? && Enabled(w, tick)
    ensures var w' := Apply(w, tick); InReach(w', id, p, c) && w'.db == w.db && Due(w'.db.tasks[id], w'.now)
  {
    var r := w.db.tasks[id];
    assert RowOk(id, r);
    tick := Tick(if r.status.Pending? then Max(w.now, r.availableAt) else Max(w.now, r.lease.value + 1));
    Ticks(w, tick.time);
    StepStaysInReach(w, tick, id, p, c);
  }

  /** The oldest ranked row is there to claim: the task itself is ranked. */
  lemma SomethingToClaim(w: World, id: TaskId, p: WorkerId, c: Setting) returns (pick: TaskId)
    requires InReach(w, id, p, c) && w.db.tasks[id].status.Pending? && w.db.tasks[id].availableAt <= w.now
    ensures WindowPick(w.db, c.types, c.cap, w.now, {}, pick) && Enabled(w, ClaimTask(pick, p, None, w.now + c.lease))
  {
    AdmittedRowsAreRanked(w.db, c.types, c.cap, w.now, id);
    var ranked := Ranked(w.db, c.types, c.cap, w.now);
    pick := OldestExists(w.db, ranked);
    assert ranked - {} == ranked;
  }

  /** The next step on the way, and a row it brings closer to its end. */
  lemma NextStep(w: World, id: TaskId, p: WorkerId, c: Setting) returns (ev: Event, moved: TaskId)
    requires InReach(w, id, p, c) && c.batch > 0 && Due(w.db.tasks[id], w.now)
    ensures Enabled(w, ev) && Ordinary(w, ev, c) && Works(ev) && moved in Writes(w, ev) && moved in w.db.tasks
  {
    if w.db.tasks[id].status.Pending? {
      moved := SomethingToClaim(w, id, p, c);
      ev := ClaimTask(moved, p, None, w.now + c.lease);
    } else if RetryableOrphans(w.db, w.now) != {} {
      var chosen := TaskStore.OldestLeasesExist(w.db.tasks, RetryableOrphans(w.db, w.now), c.batch);
      moved :| moved in chosen;
      ev := ReapRetry(chosen);
    } else {
      assert id in Orphans(w.db, w.now);
      var chosen := TaskStore.OldestLeasesExist(w.db.tasks, Orphans(w.db, w.now), c.batch);
      moved :| moved in chosen;
      ev := ReapFail(chosen);
    }
  }

  lemma StepLowers(w: World, ev: Event, moved: TaskId)
    requires Inv(w) && Enabled(w, ev) && Works(ev) && moved in Writes(w, ev) && moved in w.db.tasks
    ensures w.db.tasks.Keys <= Apply(w, ev).db.tasks.Keys
    ensures Total(Apply(w, ev).db.tasks, w.db.tasks.Keys) < Total(w.db.tasks, w.db.tasks.Keys)
  {
    forall j | j in w.db.tasks
      ensures j in Apply(w, ev).db.tasks && Left(Apply(w, ev).db.tasks, j) <= Left(w.db.tasks, j)
    {
      RowLowers(w, ev, j);
    }
    RowLowers(w, ev, moved);
    TotalDrops(Apply(w, ev).db.tasks, w.db.tasks, w.db.tasks.Keys, moved);
  }

  lemma SameRows(w: World, ev: Event)
    requires Inv(w) && Enabled(w, ev) && Works(ev)
    ensures Apply(w, ev).db.tasks.Keys == w.db.tasks.Keys
  {
    forall j ensures j in Apply(w, ev).db.tasks <==> j in w.db.tasks {
      RowEffect(w, ev, j);
      assert Find(Apply(w, ev).db.tasks, j).Some? <==> j in Apply(w, ev).db.tasks;
      if j in Writes(w, ev) { WritesWork(w, ev, j); }
    }
  }

  /**
   * From every state that keeps the invariant, with one process up that runs the task's
   * type, and the tenant's pending and running rows within the cap as admission keeps
   * them, any task can be ended, even if no claimed attempt ever runs.
   */
  lemma {:induction false} CanAlwaysEnd(w: World, id: TaskId, p: WorkerId, c: Setting) returns (es: seq<Event>)
    requires InReach(w, id, p, c) && c.batch > 0
    ensures Ends(w, es, id, c)
    decreases Total(w.db.tasks, w.db.tasks.Keys)
  {
    if w.db.tasks[id].status.Terminal() { return []; }
    var tick := WaitUntilDue(w, id, p, c);
    var w1 := Apply(w, tick);
    var next, moved := NextStep(w1, id, p, c);
    StepLowers(w1, next, moved);
    SameRows(w1, next);
    StepStaysInReach(w1, next, id, p, c);
    es := CanAlwaysEnd(Apply(w1, next), id, p, c);
    ConsEnds(w1, next, es, id, c);
    ConsEnds(w, tick, [next] + es, id, c);
    es := [tick] + ([next] + es);
  }

  // ----- and of no other type -----

  lemma UnregisteredIsNotWritten(w: World, ev: Event, id: TaskId, c: Setting)
    requires Enabled(w, ev) && Ordinary(w, ev, c)
    requires id in w.db.tasks && w.db.tasks[id].status.Pending? && w.db.tasks[id].taskType !in c.types
    ensures id !in Writes(w, ev)
  {}

  /** A pending row of a type no process registered is claimed by none, so such steps never change it. */
  lemma {:induction false} UnregisteredStaysPending(w: World, es: seq<Event>, id: TaskId, c: Setting)
    requires RowsOk(w) && Legal(w, es) && AllOrdinary(w, es, c)
    requires id in w.db.tasks && w.db.tasks[id].status.Pending? && w.db.tasks[id].taskType !in c.types
    ensures id in Run(w, es).db.tasks && Run(w, es).db.tasks[id] == w.db.tasks[id]
    decreases |es|
  {
    if es != [] {
      UnregisteredIsNotWritten(w, es[0], id, c);
      if Works(es[0]) {
        RowMoves(w, es[0], id);
      }
      StepRows(w, es[0]);
      UnregisteredStaysPending(Apply(w, es[0]), es[1..], id, c);
    }
  }

  /**
   * Which pending tasks ordinary steps can end: with the tenant within the cap and a
   * process up, exactly those of a registered type.
   */
  lemma EndsExactlyIfRegistered(w: World, id: TaskId, p: WorkerId, c: Setting)
    requires Inv(w) && TaskQueue.Running(w, p) && id in w.db.tasks && w.db.tasks[id].status.Pending?
    requires |InFlight(w.db, w.db.tasks[id].tenant)| <= c.cap && c.batch > 0
    ensures (exists es :: Ends(w, es, id, c)) <==> w.db.tasks[id].taskType in c.types
  {
    if w.db.tasks[id].taskType in c.types {
      var es := CanAlwaysEnd(w, id, p, c);
    } else {
      forall es | Legal(w, es) && AllOrdinary(w, es, c) ensures !Ends(w, es, id, c) {
        UnregisteredStaysPending(w, es, id, c);
      }
    }
  }
}
