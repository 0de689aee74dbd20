/**
 * The two tables of the asynchronous task queue, and the SQL statements that write
 * them, as functions from one table state to the next: the queue's own and the
 * settlement worker's.  A statement is one atomic step; `now` is its clock reading.
 */
module TaskModel {
  import opened Common

  /** Identifiers are compared, and task ids are also ordered (by `num`). */
  datatype TaskId = TaskId(num: int)
  datatype WorkerId = WorkerId(name: int)

  datatype Status = Pending | Running | Completed | Failed | Cancelled {
    predicate Terminal() { Completed? || Failed? || Cancelled? }
    predicate InFlight() { Pending? || Running? }
  }

  /** The text `atsk_<task id>_<attempt>`: one value for each pair. */
  datatype RequestId = RequestId(task: TaskId, attempt: nat)

  /** The partial unique index covers (scope, key) when the key is not null. */
  datatype IdemKey = IdemKey(scope: string, key: string)

  datatype Task = Task(
    taskType: string, tenant: string, input: string,
    idem: Option<IdemKey>,
    webhook: string,                 // "" is SQL NULL
    status: Status,
    worker: Option<WorkerId>, lease: Option<int>,
    attempt: nat, maxAttempts: nat,
    requestId: Option<RequestId>,
    createdAt: int, availableAt: int,
    startedAt: Option<int>, completedAt: Option<int>, expiresAt: int,
    charge: int, output: string, errorCode: string)

  datatype DeliveryStatus = Queued | Sending | Delivered | GaveUp {
    predicate Done() { Delivered? || GaveUp? }
  }

  /** One row of the webhook outbox; the unique index on task_id makes the task id its key. */
  datatype Delivery = Delivery(
    event: Status, url: string,
    status: DeliveryStatus,
    worker: Option<WorkerId>, lease: Option<int>,
    attempt: nat, maxAttempts: nat, availableAt: int)

  datatype Db = Db(
    tasks: map<TaskId, Task>,
    deliveries: map<TaskId, Delivery>,
    keys: set<RequestId>)            // ai_request_keys

  /** What a handler's run amounts to once writeTerminal has normalized it. */
  datatype Outcome = Outcome(failed: bool, output: string, errorCode: string, charge: int)

  /** The column default of ai_async_task_deliveries.max_attempts. */
  const DELIVERY_MAX_ATTEMPTS: nat := 6

  // ----- row transitions -----

  function ClaimedRow(id: TaskId, r: Task, w: WorkerId, until: int, now: int): Task {
    r.(status := Running, worker := Some(w), lease := Some(until),
       attempt := r.attempt + 1,
       startedAt := if r.startedAt.Some? then r.startedAt else Some(now),
       requestId := Some(RequestId(id, r.attempt + 1)))
  }

  function Min(a: int, b: int): int { if a <= b then a else b }
  function Max(a: int, b: int): int { if a >= b then a else b }
  function Pow2(n: nat): nat { if n == 0 then 1 else 2 * Pow2(n - 1) }

  /** Seconds a requeued orphan waits: 5 * 2^min(attempt, 6), at most 300. */
  function Backoff(attempt: nat): int { Min(300, 5 * Pow2(Min(attempt, 6))) }

  /** Five seconds, doubled with every attempt; five minutes from the sixth on. */
  lemma BackoffGrows(attempt: nat)
    ensures Backoff(0) == 5 && (attempt < 5 ==> Backoff(attempt + 1) == 2 * Backoff(attempt))
    ensures attempt >= 6 ==> Backoff(attempt) == 300
  {
    assert Pow2(0) == 1 && Pow2(1) == 2 && Pow2(2) == 4 && Pow2(3) == 8;
    assert Pow2(4) == 16 && Pow2(5) == 32 && Pow2(6) == 64;
  }

  function RequeuedRow(r: Task, now: int): Task {
    r.(status := Pending, worker := None, lease := None, availableAt := now + Backoff(r.attempt))
  }

  function LostRow(r: Task, now: int): Task {
    r.(status := Failed, worker := None, lease := None,
       errorCode := "worker_lost", completedAt := Some(now))
  }

  function ReleasedRow(r: Task): Task {
    r.(status := Pending, worker := None, lease := None, startedAt := None,
       attempt := Max(r.attempt - 1, 0))
  }

  function CancelledRow(r: Task, now: int): Task {
    r.(status := Cancelled, worker := None, lease := None,
       errorCode := "cancelled", completedAt := Some(now))
  }

  function CompletedRow(r: Task, o: Outcome, now: int): Task {
    r.(status := if o.failed then Failed else Completed,
       output := o.output, errorCode := o.errorCode,
       charge := Max(r.charge, o.charge),
       completedAt := Some(now), worker := None, lease := None)
  }

  function ChargedRow(r: Task, amount: int): Task { r.(charge := Max(r.charge, amount)) }

  // ----- row predicates used by the WHERE clauses -----

  predicate HeldBy(db: Db, id: TaskId, w: WorkerId) {
    id in db.tasks && db.tasks[id].worker == Some(w) && db.tasks[id].status.Running?
  }

  predicate Billed(db: Db, r: Task) { r.requestId.Some? && r.requestId.value in db.keys }

  predicate Orphan(r: Task, now: int) { r.status.Running? && r.lease.Some? && r.lease.value < now }

  predicate Retryable(db: Db, r: Task, now: int) {
    Orphan(r, now) && r.attempt < r.maxAttempts && !Billed(db, r)
  }

  function Orphans(db: Db, now: int): set<TaskId> {
    set id | id in db.tasks && Orphan(db.tasks[id], now)
  }

  function RetryableOrphans(db: Db, now: int): set<TaskId> {
    set id | id in db.tasks && Retryable(db, db.tasks[id], now)
  }

  // ----- statements -----

  /** A submission ready to persist: Prepare's output plus the caller's identity. */
  datatype InsertRecord = InsertRecord(
    taskType: string, tenant: string, input: string, idem: Option<IdemKey>,
    webhook: string, maxAttempts: nat, expiresAt: int)

  function InsertedRow(rec: InsertRecord, now: int): Task {
    Task(rec.taskType, rec.tenant, rec.input, rec.idem, rec.webhook, Pending, None, None,
         0, rec.maxAttempts, None, now, now, None, None, rec.expiresAt, 0, "", "")
  }

  function Insert(db: Db, id: TaskId, rec: InsertRecord, now: int): Db {
    db.(tasks := db.tasks[id := InsertedRow(rec, now)])
  }

  function NewDelivery(r: Task, now: int): Delivery {
    Delivery(r.status, r.webhook, Queued, None, None, 0, DELIVERY_MAX_ATTEMPTS, now)
  }

  /** INSERT ... WHERE webhook_url is set ... ON CONFLICT (task_id) DO NOTHING, for one written row. */
  function Enqueue(ds: map<TaskId, Delivery>, id: TaskId, r: Task, now: int): map<TaskId, Delivery> {
    if r.webhook != "" && id !in ds then ds[id := NewDelivery(r, now)] else ds
  }

  function Claim(db: Db, id: TaskId, w: WorkerId, until: int, now: int): Db
    requires id in db.tasks
  {
    db.(tasks := db.tasks[id := ClaimedRow(id, db.tasks[id], w, until, now)])
  }

  function Heartbeat(db: Db, id: TaskId, w: WorkerId, until: int): Db {
    if HeldBy(db, id, w) then db.(tasks := db.tasks[id := db.tasks[id].(lease := Some(until))]) else db
  }

  function Complete(db: Db, id: TaskId, w: WorkerId, o: Outcome, now: int): Db {
    if HeldBy(db, id, w) then
      var r := CompletedRow(db.tasks[id], o, now);
      db.(tasks := db.tasks[id := r], deliveries := Enqueue(db.deliveries, id, r, now))
    else db
  }

  function Cancel(db: Db, id: TaskId, now: int): Db {
    if id in db.tasks && db.tasks[id].status.InFlight() then
      var r := CancelledRow(db.tasks[id], now);
      db.(tasks := db.tasks[id := r], deliveries := Enqueue(db.deliveries, id, r, now))
    else db
  }

  /** The rows the sub-select chose go back to pending. */
  function ReapRetryable(db: Db, chosen: set<TaskId>, now: int): Db {
    db.(tasks := map id | id in db.tasks ::
          if id in chosen then RequeuedRow(db.tasks[id], now) else db.tasks[id])
  }

  /** The rows the sub-select chose fail, and each one with a URL gets its delivery. */
  function ReapDead(db: Db, chosen: set<TaskId>, now: int): Db {
    db.(tasks := map id | id in db.tasks ::
          if id in chosen then LostRow(db.tasks[id], now) else db.tasks[id],
        deliveries := map id |
          id in db.deliveries.Keys + (set i | i in chosen && i in db.tasks && db.tasks[i].webhook != "") ::
          if id in db.deliveries then db.deliveries[id] else NewDelivery(LostRow(db.tasks[id], now), now))
  }

  function ReleaseWorker(db: Db, w: WorkerId): Db {
    db.(tasks := map id | id in db.tasks ::
          if HeldBy(db, id, w) && !Billed(db, db.tasks[id]) then ReleasedRow(db.tasks[id]) else db.tasks[id])
  }

  /** The settlement worker posts a request's charge on whatever row carries its id, in any status. */
  function Settle(db: Db, q: RequestId, amount: int): Db {
    db.(tasks := map id | id in db.tasks ::
          if db.tasks[id].requestId == Some(q) then ChargedRow(db.tasks[id], amount) else db.tasks[id])
  }

  function DeleteTask(db: Db, id: TaskId): Db {
    db.(tasks := db.tasks - {id}, deliveries := db.deliveries - {id})
  }
}
