/**
 * Runs of the task queue: any number of processes, their executions, their
 * crashes and shutdowns, the reaper, cancellation and deletion, interleaved one
 * statement at a time.  An execution stays in `execs` until its goroutine ends,
 * even when its row has long moved on.
 */
module TaskQueue {
  import opened Common
  import opened TaskModel

  datatype ExecId = ExecId(num: int)

  /** Drained: Stop has seen every goroutine of the process exit. */
  datatype Phase = Up | Stopping | Drained | Crashed

  datatype Exec = Exec(worker: WorkerId, request: RequestId)

  /** Per task: claims, hand-backs by a stopping worker, and changes of the status column. */
  datatype Tally = Tally(claims: nat, releases: nat, changes: nat)

  datatype World = World(
    db: Db, now: int,
    procs: map<WorkerId, Phase>,
    execs: map<ExecId, Exec>,
    handed: set<WorkerId>,          // processes whose releaseWorker has succeeded
    minted: set<TaskId>,            // every task id ever generated
    tally: map<TaskId, Tally>)

  datatype Event =
    | Tick(time: int)
    | Boot(proc: WorkerId)
    | BeginStop(proc: WorkerId)
    | Drain(proc: WorkerId)
    | Release(proc: WorkerId)
    | Crash(proc: WorkerId)
    | Submit(id: TaskId, rec: InsertRecord, began: int)   // now() is the transaction's start
    | ClaimTask(id: TaskId, proc: WorkerId, exec: Option<ExecId>, until: int)
    | Beat(e: ExecId, until: int)
    | Finish(e: ExecId, outcome: Outcome)
    | Bill(e: ExecId)
    | End(e: ExecId)
    | ReapRetry(chosen: set<TaskId>)
    | ReapFail(chosen: set<TaskId>)
    | CancelTask(id: TaskId)
    | Delete(id: TaskId)
    | Post(request: RequestId, amount: int)               // the settlement worker, whatever the row's status
    | DeliveryWrite(id: TaskId, d: Delivery)

  const EMPTY: World := World(Db(map[], map[], {}), 0, map[], map[], {}, {}, map[])

  predicate Running(w: World, p: WorkerId) { p in w.procs && (w.procs[p].Up? || w.procs[p].Stopping?) }

  /**
   * When a step can happen.  A claim may lose its answer (`exec` is None): the row
   * is then running with no execution behind it.  Reaps choose any of the rows
   * their sub-select allows, because SKIP LOCKED may pass over some.
   */
  predicate Enabled(w: World, ev: Event) {
    match ev
    case Tick(t) => w.now <= t
    case Boot(p) => p !in w.procs
    case BeginStop(p) => p in w.procs && w.procs[p].Up?
    case Drain(p) => p in w.procs && w.procs[p].Stopping? && forall e | e in w.execs :: w.execs[e].worker != p
    case Release(p) => p in w.procs && w.procs[p].Drained?
    case Crash(p) => p in w.procs
    case Submit(id, rec, began) => id !in w.minted && rec.maxAttempts >= 1 && began <= w.now
    case ClaimTask(id, p, exec, until) =>
      && id in w.db.tasks && w.db.tasks[id].status.Pending? && w.db.tasks[id].availableAt <= w.now
      && Running(w, p) && (exec.Some? ==> exec.value !in w.execs)
    case Beat(e, _) => e in w.execs
    case Finish(e, _) => e in w.execs
    case Bill(e) => e in w.execs
    case End(e) => e in w.execs
    case ReapRetry(chosen) => chosen <= RetryableOrphans(w.db, w.now)
    case ReapFail(chosen) => chosen <= Orphans(w.db, w.now)
    case CancelTask(_) => true
    case Delete(_) => true
    case Post(_, _) => true
    case DeliveryWrite(id, d) =>
      id in w.db.deliveries && d.event == w.db.deliveries[id].event && d.url == w.db.deliveries[id].url
  }

  /** The table state after a step. */
  function DbAfter(w: World, ev: Event): Db
    requires Enabled(w, ev)
  {
    match ev
    case Release(p) => ReleaseWorker(w.db, p)
    case Submit(id, rec, began) => Insert(w.db, id, rec, began)
    case ClaimTask(id, p, _, until) => Claim(w.db, id, p, until, w.now)
    case Beat(e, until) => Heartbeat(w.db, w.execs[e].request.task, w.execs[e].worker, until)
    case Finish(e, o) => Complete(w.db, w.execs[e].request.task, w.execs[e].worker, o, w.now)
    case Bill(e) => w.db.(keys := w.db.keys + {w.execs[e].request})
    case ReapRetry(chosen) => ReapRetryable(w.db, chosen, w.now)
    case ReapFail(chosen) => ReapDead(w.db, chosen, w.now)
    case CancelTask(id) => Cancel(w.db, id, w.now)
    case Delete(id) => DeleteTask(w.db, id)
    case Post(q, amount) => Settle(w.db, q, amount)
    case DeliveryWrite(id, d) => w.db.(deliveries := w.db.deliveries[id := d])
    case _ => w.db
  }

  // ----- the same step, seen from one task -----

  datatype Move =
    | Same | Born(rec: InsertRecord, began: int) | Taken(proc: WorkerId, until: int) | Renewed(until: int)
    | Requeued | Lost | Freed(proc: WorkerId) | Halted | Ended(outcome: Outcome) | Gone | Charged(amount: int)

  function Find<K, V>(m: map<K, V>, k: K): Option<V> { if k in m then Some(m[k]) else None }

  /** The rows a step writes, and how. */
  function Writes(w: World, ev: Event): map<TaskId, Move> {
    match ev
    case Submit(id, rec, began) => map[id := Born(rec, began)]
    case ClaimTask(id, p, _, until) => map[id := Taken(p, until)]
    case Beat(e, until) =>
      if e in w.execs && HeldBy(w.db, w.execs[e].request.task, w.execs[e].worker)
      then map[w.execs[e].request.task := Renewed(until)] else map[]
    case Finish(e, o) =>
      if e in w.execs && HeldBy(w.db, w.execs[e].request.task, w.execs[e].worker)
      then map[w.execs[e].request.task := Ended(o)] else map[]
    case Release(p) => map id | id in w.db.tasks && HeldBy(w.db, id, p) && !Billed(w.db, w.db.tasks[id]) :: Freed(p)
    case ReapRetry(chosen) => map id | id in chosen :: Requeued
    case ReapFail(chosen) => map id | id in chosen :: Lost
    case CancelTask(id) => if id in w.db.tasks && w.db.tasks[id].status.InFlight() then map[id := Halted] else map[]
    case Delete(id) => map[id := Gone]
    case Post(q, amount) => map id | id in w.db.tasks && w.db.tasks[id].requestId == Some(q) :: Charged(amount)
    case _ => map[]
  }

  function MoveAt(mv: map<TaskId, Move>, id: TaskId): Move { if id in mv then mv[id] else Same }

  /** The row a move can start from. */
  predicate Starts(db: Db, m: Move, r: Option<Task>) {
    match m
    case Same => true
    case Gone => true
    case Charged(_) => r.Some?
    case Born(rec, _) => r.None? && rec.maxAttempts >= 1
    case Taken(_, _) => r.Some? && r.value.status.Pending?
    case Halted => r.Some? && r.value.status.InFlight()
    case Requeued => r.Some? && r.value.status.Running? && r.value.attempt < r.value.maxAttempts && !Billed(db, r.value)
    case Freed(p) => r.Some? && r.value.status.Running? && r.value.worker == Some(p) && !Billed(db, r.value)
    case _ => r.Some? && r.value.status.Running?
  }

  function MovedRow(id: TaskId, r: Task, m: Move, now: int): Task {
    match m
    case Taken(p, until) => ClaimedRow(id, r, p, until, now)
    case Renewed(until) => r.(lease := Some(until))
    case Requeued => RequeuedRow(r, now)
    case Lost => LostRow(r, now)
    case Freed(_) => ReleasedRow(r)
    case Halted => CancelledRow(r, now)
    case Ended(o) => CompletedRow(r, o, now)
    case Charged(amount) => ChargedRow(r, amount)
    case _ => r
  }

  function RowAfter(id: TaskId, r: Option<Task>, m: Move, now: int): Option<Task> {
    if m.Born? then Some(InsertedRow(m.rec, m.began))
    else if m.Gone? || r.None? then None
    else Some(MovedRow(id, r.value, m, now))
  }

  /** The three statements that end a task also insert its delivery. */
  function DeliveryAfter(d: Option<Delivery>, r: Option<Task>, m: Move, now: int): Option<Delivery> {
    if m.Gone? then None
    else if (m.Lost? || m.Halted? || m.Ended?) && r.Some? && r.value.webhook != "" && d.None?
    then Some(NewDelivery(r.value, now)) else d
  }

  function TallyAfter(t: Tally, m: Move, before: Option<Task>, after: Option<Task>): Tally {
    Tally(t.claims + (if m.Taken? then 1 else 0),
          t.releases + (if m.Freed? then 1 else 0),
          t.changes + (if before.Some? && after.Some? && before.value.status != after.value.status then 1 else 0))
  }

  function TalliesAfter(w: World, ev: Event): map<TaskId, Tally>
    requires Enabled(w, ev)
  {
    map id | id in w.tally.Keys + (if ev.Submit? then {ev.id} else {}) ::
      if id !in w.tally then Tally(0, 0, 0)
      else TallyAfter(w.tally[id], MoveAt(Writes(w, ev), id), Find(w.db.tasks, id), Find(DbAfter(w, ev).tasks, id))
  }

  function ProcsAfter(w: World, ev: Event): map<WorkerId, Phase> {
    match ev
    case Boot(p) => w.procs[p := Up]
    case BeginStop(p) => w.procs[p := Stopping]
    case Drain(p) => w.procs[p := Drained]
    case Crash(p) => w.procs[p := Crashed]
    case _ => w.procs
  }

  /** The execution a claim starts when its answer arrives. */
  function Started(w: World, id: TaskId, p: WorkerId): Exec {
    Exec(p, RequestId(id, if id in w.db.tasks then w.db.tasks[id].attempt + 1 else 0))
  }

  function ExecsAfter(w: World, ev: Event): map<ExecId, Exec> {
    match ev
    case Crash(p) => map e | e in w.execs && w.execs[e].worker != p :: w.execs[e]
    case ClaimTask(id, p, exec, _) => if exec.Some? then w.execs[exec.value := Started(w, id, p)] else w.execs
    case End(e) => w.execs - {e}
    case _ => w.execs
  }

  function Apply(w: World, ev: Event): World
    requires Enabled(w, ev)
  {
    World(
      DbAfter(w, ev),
      if ev.Tick? then ev.time else w.now,
      ProcsAfter(w, ev),
      ExecsAfter(w, ev),
      if ev.Release? then w.handed + {ev.proc} else w.handed,
      if ev.Submit? then w.minted + {ev.id} else w.minted,
      TalliesAfter(w, ev))
  }

  /** Every step of the list can happen when its turn comes. */
  predicate Legal(w: World, es: seq<Event>)
    decreases |es|
  {
    es == [] || (Enabled(w, es[0]) && Legal(Apply(w, es[0]), es[1..]))
  }

  function Run(w: World, es: seq<Event>): World
    requires Legal(w, es)
    decreases |es|
  {
    if es == [] then w else Run(Apply(w, es[0]), es[1..])
  }

  // ----- the invariant -----

  /** The bound on attempts that no claim tests, and which columns a status leaves NULL. */
  predicate RowOk(id: TaskId, r: Task) {
    && r.maxAttempts >= 1
    && (r.status.Pending? ==> r.attempt < r.maxAttempts && r.worker.None? && r.lease.None?)
    && (r.status.Running? ==>
          && 1 <= r.attempt <= r.maxAttempts && r.worker.Some? && r.lease.Some?
          && r.requestId == Some(RequestId(id, r.attempt)))
    && (r.status.Terminal() ==> r.attempt <= r.maxAttempts && r.worker.None? && r.lease.None?)
  }

  ghost predicate RowsOk(w: World) {
    && w.db.tasks.Keys <= w.minted
    && w.tally.Keys == w.minted
    && (forall id | id in w.db.tasks :: RowOk(id, w.db.tasks[id]) && TallyRowOk(w.db.tasks[id], w.tally[id]))
    && (forall id | id in w.db.tasks && w.db.tasks[id].status.Running? :: w.db.tasks[id].worker.value in w.procs)
  }

  /** Executions and billed ids never run ahead of the attempt counter, and request ids are unique. */
  ghost predicate ExecsOk(w: World) {
    && (forall e | e in w.execs :: w.execs[e].request.task in w.minted && Running(w, w.execs[e].worker))
    && (forall e | e in w.execs && w.execs[e].request.task in w.db.tasks ::
          ExecFits(w.db.tasks[w.execs[e].request.task], w.execs[e]))
    && (forall e, f | e in w.execs && f in w.execs && e != f :: w.execs[e].request != w.execs[f].request)
  }

  /** An attempt still executing is no later than the row's, and is its worker's when it is the row's. */
  predicate ExecFits(r: Task, x: Exec) {
    && x.request.attempt <= r.attempt
    && (r.status.Running? && r.attempt == x.request.attempt ==> r.worker == Some(x.worker))
  }

  ghost predicate KeysOk(w: World) {
    forall k | k in w.db.keys ::
      k.task in w.minted && (k.task in w.db.tasks ==> k.attempt <= w.db.tasks[k.task].attempt)
  }

  /** A process whose hand-back succeeded is drained, or has exited since. */
  ghost predicate HandedOk(w: World) {
    && (forall p | p in w.handed :: p in w.procs && (w.procs[p].Drained? || w.procs[p].Crashed?))
    && (forall p, id | p in w.handed && id in w.db.tasks && w.db.tasks[id].worker == Some(p) ::
          Billed(w.db, w.db.tasks[id]))
  }

  /** A task has a delivery exactly when it ended and gave a URL, and the two agree. */
  predicate Matched(r: Option<Task>, d: Option<Delivery>) {
    && (d.Some? <==> r.Some? && r.value.status.Terminal() && r.value.webhook != "")
    && (d.Some? ==> d.value.event == r.value.status && d.value.url == r.value.webhook)
  }

  ghost predicate OutboxOk(w: World) {
    forall id :: Matched(Find(w.db.tasks, id), Find(w.db.deliveries, id))
  }

  /** Status changes a row can still make without another hand-back. */
  function Remaining(r: Task): int {
    if r.status.Terminal() then 0
    else 2 * (r.maxAttempts - r.attempt) + (if r.status.Running? then 1 else 0)
  }

  predicate TallyRowOk(r: Task, t: Tally) {
    && r.attempt == t.claims - t.releases
    && t.changes + Remaining(r) <= 2 * r.maxAttempts + 2 * t.releases
  }

  ghost predicate Inv(w: World) {
    RowsOk(w) && ExecsOk(w) && KeysOk(w) && HandedOk(w) && OutboxOk(w)
  }


  // ----- what a step does, without saying which step it was -----

  ghost predicate RowStep(w: World, mv: map<TaskId, Move>, w': World) {
    && w.minted <= w'.minted && w.db.keys <= w'.db.keys && w.procs.Keys <= w'.procs.Keys
    && (forall id ::
          && Starts(w.db, MoveAt(mv, id), Find(w.db.tasks, id))
          && (MoveAt(mv, id).Born? ==> id !in w.minted && id in w'.minted)
          && (MoveAt(mv, id).Taken? ==> Running(w, MoveAt(mv, id).proc))
          && Find(w'.db.tasks, id) == RowAfter(id, Find(w.db.tasks, id), MoveAt(mv, id), w.now))
  }

  ghost predicate TallyStep(w: World, mv: map<TaskId, Move>, w': World) {
    && w'.tally.Keys == w'.minted
    && (forall id | id in w'.minted && id !in w.minted :: id in w'.tally && w'.tally[id] == Tally(0, 0, 0))
    && (forall id | id in w.minted && id in w.tally ::
          && id in w'.tally
          && w'.tally[id] == TallyAfter(w.tally[id], MoveAt(mv, id), Find(w.db.tasks, id), Find(w'.db.tasks, id)))
  }

  /** Executions only go away, except the one a claim starts; a hand-back finds none of its process's left. */
  ghost predicate ExecStep(w: World, mv: map<TaskId, Move>, w': World) {
    && (forall e | e in w'.execs && e !in w.execs ::
          var x := w'.execs[e];
          && x.request.task in w.db.tasks && MoveAt(mv, x.request.task).Taken?
          && MoveAt(mv, x.request.task).proc == x.worker
          && x.request.attempt == w.db.tasks[x.request.task].attempt + 1)
    && (forall e, f | e in w'.execs && f in w'.execs && e !in w.execs && f !in w.execs :: e == f)
    && (forall e | e in w'.execs && e in w.execs :: w'.execs[e] == w.execs[e])
    && (forall e | e in w'.execs :: Running(w', w'.execs[e].worker))
    && (forall id, e | MoveAt(mv, id).Freed? && e in w.execs :: w.execs[e].worker != MoveAt(mv, id).proc)
  }

  /** Only a live execution's own id is billed, by a step that writes no row. */
  ghost predicate KeyStep(w: World, mv: map<TaskId, Move>, w': World) {
    forall k | k in w'.db.keys && k !in w.db.keys ::
      MoveAt(mv, k.task).Same? && exists e | e in w.execs :: w.execs[e].request == k
  }

  ghost predicate HandStep(w: World, mv: map<TaskId, Move>, w': World) {
    && (forall p | p in w'.handed :: p in w'.procs && (w'.procs[p].Drained? || w'.procs[p].Crashed?))
    && (forall p, id | p in w'.handed && p !in w.handed && id in w.db.tasks && w.db.tasks[id].worker == Some(p) ::
          MoveAt(mv, id).Freed? || Billed(w.db, w.db.tasks[id]))
    && (forall id | MoveAt(mv, id).Taken? :: MoveAt(mv, id).proc !in w'.handed)
  }

  ghost predicate OutboxStep(w: World, mv: map<TaskId, Move>, w': World) {
    forall id ::
      || Find(w'.db.deliveries, id)
          == DeliveryAfter(Find(w.db.deliveries, id), Find(w'.db.tasks, id), MoveAt(mv, id), w.now)
      || (&& MoveAt(mv, id).Same? && id in w.db.deliveries && id in w'.db.deliveries
          && w'.db.deliveries[id].event == w.db.deliveries[id].event
          && w'.db.deliveries[id].url == w.db.deliveries[id].url)
  }

  ghost predicate Step(w: World, mv: map<TaskId, Move>, w': World) {
    RowStep(w, mv, w') && TallyStep(w, mv, w') && ExecStep(w, mv, w') && KeyStep(w, mv, w') && HandStep(w, mv, w')
    && OutboxStep(w, mv, w')
  }

  // ----- every step is one -----

  /** The statements that write many rows. */
  lemma ManyRowsEffect(w: World, ev: Event, id: TaskId)
    requires Enabled(w, ev) && (ev.Release? || ev.ReapRetry? || ev.ReapFail? || ev.Post?)
    ensures var m := MoveAt(Writes(w, ev), id);
            && Starts(w.db, m, Find(w.db.tasks, id)) && !m.Born? && !m.Taken?
            && Find(DbAfter(w, ev).tasks, id) == RowAfter(id, Find(w.db.tasks, id), m, w.now)
  {}

  lemma OneRowEffect(w: World, ev: Event, id: TaskId)
    requires Enabled(w, ev) && !ev.Release? && !ev.ReapRetry? && !ev.ReapFail? && !ev.Post?
    requires w.db.tasks.Keys <= w.minted
    ensures var m := MoveAt(Writes(w, ev), id);
            && Starts(w.db, m, Find(w.db.tasks, id))
            && (m.Born? ==> id !in w.minted && ev.Submit? && ev.id == id)
            && (m.Taken? ==> Running(w, m.proc))
            && Find(DbAfter(w, ev).tasks, id) == RowAfter(id, Find(w.db.tasks, id), m, w.now)
  {}

  lemma RowEffect(w: World, ev: Event, id: TaskId)
    requires Enabled(w, ev) && w.db.tasks.Keys <= w.minted
    ensures var m := MoveAt(Writes(w, ev), id);
            && Starts(w.db, m, Find(w.db.tasks, id))
            && (m.Born? ==> id !in w.minted && ev.Submit? && ev.id == id)
            && (m.Taken? ==> Running(w, m.proc))
            && Find(DbAfter(w, ev).tasks, id) == RowAfter(id, Find(w.db.tasks, id), m, w.now)
  {
    if ev.Release? || ev.ReapRetry? || ev.ReapFail? || ev.Post? {
      ManyRowsEffect(w, ev, id);
    } else {
      OneRowEffect(w, ev, id);
    }
  }

  lemma DeliveryEffect(w: World, ev: Event, id: TaskId)
    requires Enabled(w, ev) && w.db.tasks.Keys <= w.minted && !ev.DeliveryWrite?
    ensures Find(DbAfter(w, ev).deliveries, id)
            == DeliveryAfter(
                 Find(w.db.deliveries, id), Find(DbAfter(w, ev).tasks, id), MoveAt(Writes(w, ev), id), w.now)
  {}

  lemma IsRowStep(w: World, ev: Event)
    requires Enabled(w, ev) && w.db.tasks.Keys <= w.minted
    ensures RowStep(w, Writes(w, ev), Apply(w, ev))
  {
    forall id
      ensures var m := MoveAt(Writes(w, ev), id);
              && Starts(w.db, m, Find(w.db.tasks, id))
              && (m.Born? ==> id !in w.minted && id in Apply(w, ev).minted)
              && (m.Taken? ==> Running(w, m.proc))
              && Find(Apply(w, ev).db.tasks, id) == RowAfter(id, Find(w.db.tasks, id), m, w.now)
    {
      RowEffect(w, ev, id);
    }
  }

  lemma IsTallyStep(w: World, ev: Event)
    requires Enabled(w, ev) && w.tally.Keys == w.minted
    ensures TallyStep(w, Writes(w, ev), Apply(w, ev))
  {}

  lemma ExecGoesOn(w: World, ev: Event, e: ExecId)
    requires Enabled(w, ev) && !ev.ClaimTask? && e in ExecsAfter(w, ev)
    ensures e in w.execs && ExecsAfter(w, ev)[e] == w.execs[e]
    ensures Running(w, w.execs[e].worker) ==>
              (var p, procs := w.execs[e].worker, ProcsAfter(w, ev); p in procs && (procs[p].Up? || procs[p].Stopping?))
  {}

  lemma FreedOnceDrained(w: World, ev: Event, id: TaskId)
    requires Enabled(w, ev) && MoveAt(Writes(w, ev), id).Freed?
    ensures !Running(w, MoveAt(Writes(w, ev), id).proc)
  {}

  lemma IsExecStep(w: World, ev: Event)
    requires Enabled(w, ev) && !ev.ClaimTask?
    requires forall e | e in w.execs :: Running(w, w.execs[e].worker)
    ensures ExecStep(w, Writes(w, ev), Apply(w, ev))
  {
    var w' := Apply(w, ev);
    forall e | e in w'.execs ensures e in w.execs && w'.execs[e] == w.execs[e] && Running(w', w'.execs[e].worker) {
      ExecGoesOn(w, ev, e);
    }
    forall id | MoveAt(Writes(w, ev), id).Freed? ensures !Running(w, MoveAt(Writes(w, ev), id).proc) {
      FreedOnceDrained(w, ev, id);
    }
  }

  lemma IsClaimStep(w: World, ev: Event)
    requires Enabled(w, ev) && ev.ClaimTask?
    requires forall e | e in w.execs :: Running(w, w.execs[e].worker)
    ensures ExecStep(w, Writes(w, ev), Apply(w, ev))
  {}

  lemma IsKeyStep(w: World, ev: Event)
    requires Enabled(w, ev)
    ensures KeyStep(w, Writes(w, ev), Apply(w, ev))
  {}

  lemma IsHandStep(w: World, ev: Event)
    requires Enabled(w, ev)
    requires forall p | p in w.handed :: p in w.procs && (w.procs[p].Drained? || w.procs[p].Crashed?)
    requires forall id | id in w.db.tasks :: RowOk(id, w.db.tasks[id])
    ensures HandStep(w, Writes(w, ev), Apply(w, ev))
  {}

  lemma IsOutboxStep(w: World, ev: Event)
    requires Enabled(w, ev) && w.db.tasks.Keys <= w.minted
    ensures OutboxStep(w, Writes(w, ev), Apply(w, ev))
  {
    if !ev.DeliveryWrite? {
      forall id
        ensures Find(Apply(w, ev).db.deliveries, id)
                == DeliveryAfter(
                     Find(w.db.deliveries, id), Find(Apply(w, ev).db.tasks, id), MoveAt(Writes(w, ev), id), w.now)
      {
        DeliveryEffect(w, ev, id);
      }
    }
  }

  lemma IsStep(w: World, ev: Event)
    requires Inv(w) && Enabled(w, ev)
    ensures Step(w, Writes(w, ev), Apply(w, ev))
  {
    IsRowStep(w, ev);
    IsTallyStep(w, ev);
    if ev.ClaimTask? { IsClaimStep(w, ev); } else { IsExecStep(w, ev); }
    IsKeyStep(w, ev);
    IsHandStep(w, ev);
    IsOutboxStep(w, ev);
  }

  // ----- and keeps the invariant -----

  lemma RowKept(db: Db, id: TaskId, r: Task, m: Move, now: int, t: Tally)
    requires RowOk(id, r) && TallyRowOk(r, t) && Starts(db, m, Some(r))
    ensures var r' := RowAfter(id, Some(r), m, now);
            r'.Some? ==> RowOk(id, r'.value) && TallyRowOk(r'.value, TallyAfter(t, m, Some(r), r'))
  {}

  lemma RowsKept(w: World, mv: map<TaskId, Move>, w': World)
    requires RowsOk(w) && RowStep(w, mv, w') && TallyStep(w, mv, w')
    ensures RowsOk(w')
  {
    forall id | id in w'.db.tasks
      ensures id in w'.minted && RowOk(id, w'.db.tasks[id]) && TallyRowOk(w'.db.tasks[id], w'.tally[id])
      ensures w'.db.tasks[id].status.Running? ==> w'.db.tasks[id].worker.value in w'.procs
    {
      assert Find(w'.db.tasks, id) == RowAfter(id, Find(w.db.tasks, id), MoveAt(mv, id), w.now);
      if id in w.db.tasks {
        RowKept(w.db, id, w.db.tasks[id], MoveAt(mv, id), w.now, w.tally[id]);
      }
    }
  }

  lemma StepRows(w: World, ev: Event)
    requires RowsOk(w) && Enabled(w, ev)
    ensures RowsOk(Apply(w, ev))
  {
    IsRowStep(w, ev);
    IsTallyStep(w, ev);
    RowsKept(w, Writes(w, ev), Apply(w, ev));
  }

  lemma ExecRowKept(db: Db, id: TaskId, r: Task, m: Move, now: int, x: Exec)
    requires RowOk(id, r) && Starts(db, m, Some(r)) && ExecFits(r, x)
    requires m.Freed? ==> x.worker != m.proc
    ensures var r' := RowAfter(id, Some(r), m, now); r'.Some? ==> ExecFits(r'.value, x)
  {}

  lemma RequestsStayDistinct(w: World, mv: map<TaskId, Move>, w': World)
    requires RowsOk(w) && ExecsOk(w) && RowStep(w, mv, w') && ExecStep(w, mv, w')
    ensures forall e, f | e in w'.execs && f in w'.execs && e != f :: w'.execs[e].request != w'.execs[f].request
  {}

  lemma ExecsKept(w: World, mv: map<TaskId, Move>, w': World)
    requires RowsOk(w) && ExecsOk(w) && RowStep(w, mv, w') && ExecStep(w, mv, w')
    ensures ExecsOk(w')
  {
    RequestsStayDistinct(w, mv, w');
    forall e | e in w'.execs && w'.execs[e].request.task in w'.db.tasks
      ensures ExecFits(w'.db.tasks[w'.execs[e].request.task], w'.execs[e])
    {
      var x := w'.execs[e];
      var id := x.request.task;
      assert Find(w'.db.tasks, id) == RowAfter(id, Find(w.db.tasks, id), MoveAt(mv, id), w.now);
      if e in w.execs && id in w.db.tasks {
        ExecRowKept(w.db, id, w.db.tasks[id], MoveAt(mv, id), w.now, x);
      }
    }
  }

  /** No move but a claim changes a row's attempt downwards, except the hand-back of an unbilled one. */
  lemma KeyRowKept(db: Db, id: TaskId, r: Task, m: Move, now: int, k: RequestId)
    requires RowOk(id, r) && Starts(db, m, Some(r)) && k in db.keys && k.task == id && k.attempt <= r.attempt
    ensures var r' := RowAfter(id, Some(r), m, now); r'.Some? ==> k.attempt <= r'.value.attempt
  {
    assert k == RequestId(k.task, k.attempt);
  }

  lemma KeysKept(w: World, mv: map<TaskId, Move>, w': World)
    requires RowsOk(w) && ExecsOk(w) && KeysOk(w) && RowStep(w, mv, w') && KeyStep(w, mv, w')
    ensures KeysOk(w')
  {
    forall k | k in w'.db.keys
      ensures k.task in w'.minted && (k.task in w'.db.tasks ==> k.attempt <= w'.db.tasks[k.task].attempt)
    {
      var id := k.task;
      assert Find(w'.db.tasks, id) == RowAfter(id, Find(w.db.tasks, id), MoveAt(mv, id), w.now);
      if k in w.db.keys && id in w.db.tasks {
        KeyRowKept(w.db, id, w.db.tasks[id], MoveAt(mv, id), w.now, k);
      }
    }
  }

  /** A row carrying a process's id after a move carried it before, unless that process just took it. */
  lemma HandedRowKept(db: Db, id: TaskId, r: Option<Task>, m: Move, now: int, p: WorkerId)
    requires (r.Some? ==> RowOk(id, r.value)) && Starts(db, m, r) && !(m.Taken? && m.proc == p)
    requires RowAfter(id, r, m, now).Some? && RowAfter(id, r, m, now).value.worker == Some(p)
    ensures r.Some? && !m.Freed? && r.value.worker == Some(p)
    ensures RowAfter(id, r, m, now).value.requestId == r.value.requestId
  {}

  lemma HandedKept(w: World, mv: map<TaskId, Move>, w': World)
    requires RowsOk(w) && HandedOk(w) && RowStep(w, mv, w') && HandStep(w, mv, w')
    ensures HandedOk(w')
  {
    forall p, id | p in w'.handed && id in w'.db.tasks && w'.db.tasks[id].worker == Some(p)
      ensures Billed(w'.db, w'.db.tasks[id])
    {
      assert Find(w'.db.tasks, id) == RowAfter(id, Find(w.db.tasks, id), MoveAt(mv, id), w.now);
      HandedRowKept(w.db, id, Find(w.db.tasks, id), MoveAt(mv, id), w.now, p);
    }
  }

  lemma MatchedKept(db: Db, id: TaskId, r: Option<Task>, d: Option<Delivery>, m: Move, now: int)
    requires Starts(db, m, r) && Matched(r, d)
    ensures Matched(RowAfter(id, r, m, now), DeliveryAfter(d, RowAfter(id, r, m, now), m, now))
  {}

  lemma OutboxKept(w: World, mv: map<TaskId, Move>, w': World)
    requires OutboxOk(w) && RowStep(w, mv, w') && OutboxStep(w, mv, w')
    ensures OutboxOk(w')
  {
    forall id
      ensures Matched(Find(w'.db.tasks, id), Find(w'.db.deliveries, id))
    {
      assert Matched(Find(w.db.tasks, id), Find(w.db.deliveries, id));
      assert Find(w'.db.tasks, id) == RowAfter(id, Find(w.db.tasks, id), MoveAt(mv, id), w.now);
      MatchedKept(w.db, id, Find(w.db.tasks, id), Find(w.db.deliveries, id), MoveAt(mv, id), w.now);
    }
  }

  lemma AnyStepKeepsInv(w: World, mv: map<TaskId, Move>, w': World)
    requires Inv(w) && Step(w, mv, w')
    ensures Inv(w')
  {
    RowsKept(w, mv, w');
    ExecsKept(w, mv, w');
    KeysKept(w, mv, w');
    HandedKept(w, mv, w');
    OutboxKept(w, mv, w');
  }

  lemma StepKeepsInv(w: World, ev: Event)
    requires Inv(w) && Enabled(w, ev)
    ensures Inv(Apply(w, ev))
  {
    IsStep(w, ev);
    AnyStepKeepsInv(w, Writes(w, ev), Apply(w, ev));
  }

  lemma {:induction false} RunKeepsInv(w: World, es: seq<Event>)
    requires Inv(w) && Legal(w, es)
    ensures Inv(Run(w, es))
    decreases |es|
  {
    if es != [] {
      StepKeepsInv(w, es[0]);
      RunKeepsInv(Apply(w, es[0]), es[1..]);
    }
  }
}
