/**
 * The Postgres store: one method per statement, updating the tables in place.  Each
 * method's effect on the tables is the statement of the same name in TaskModel or
 * Deliveries; the reads it makes (a candidate row, the oldest leases) are scans.
 */
module TaskStore {
  import opened Common
  import opened TaskModel
  import Admission
  import ClaimQuery
  import Deliveries

  /** What one insert transaction reports: a new row, a key already used, or no room. */
  datatype InsertAnswer = Inserted | DuplicateKey | AtCapacity

  /** A queued delivery of the event, due now, unless the task gave no URL or has one already. */
  ghost predicate Announced(
    before: map<TaskId, Delivery>, after: map<TaskId, Delivery>, id: TaskId, event: Status, url: string, now: int)
  {
    if url == "" || id in before then after == before
    else after == before[id := Delivery(event, url, Queued, None, None, 0, 6, now)]
  }

  /** ORDER BY lease_expires_at LIMIT n over the rows a WHERE clause kept. */
  ghost predicate OldestLeases(tasks: map<TaskId, Task>, eligible: set<TaskId>, limit: nat, chosen: set<TaskId>) {
    && chosen <= eligible <= tasks.Keys
    && |chosen| == Min(limit, |eligible|)
    && forall c, e | c in chosen && e in eligible && e !in chosen :: LeaseOf(tasks, c) <= LeaseOf(tasks, e)
  }

  function LeaseOf(tasks: map<TaskId, Task>, id: TaskId): int
  {
    if id in tasks && tasks[id].lease.Some? then tasks[id].lease.value else 0
  }

  function ByLease(tasks: map<TaskId, Task>): TaskId -> SortKey { id => (LeaseOf(tasks, id), 0) }

  method ChooseOldest(tasks: map<TaskId, Task>, eligible: set<TaskId>, limit: nat) returns (chosen: set<TaskId>)
    requires eligible <= tasks.Keys
    ensures OldestLeases(tasks, eligible, limit, chosen)
  {
    chosen := ChooseFirst(eligible, ByLease(tasks), limit);
    FirstAreOldest(tasks, eligible, limit, chosen);
  }

  lemma FirstAreOldest(tasks: map<TaskId, Task>, eligible: set<TaskId>, limit: nat, chosen: set<TaskId>)
    requires eligible <= tasks.Keys && AreFirst(eligible, ByLease(tasks), limit, chosen)
    ensures OldestLeases(tasks, eligible, limit, chosen)
  {
    forall c, e | c in chosen && e in eligible && e !in chosen ensures LeaseOf(tasks, c) <= LeaseOf(tasks, e) {
      assert Upto(ByLease(tasks)(c), ByLease(tasks)(e));
    }
  }

  /** Such a choice always exists, and is not empty unless there is nothing to choose. */
  lemma OldestLeasesExist(tasks: map<TaskId, Task>, eligible: set<TaskId>, limit: nat) returns (chosen: set<TaskId>)
    requires eligible <= tasks.Keys && limit > 0
    ensures OldestLeases(tasks, eligible, limit, chosen) && (eligible != {} ==> chosen != {})
  {
    chosen := FirstExist(eligible, ByLease(tasks), limit);
    FirstAreOldest(tasks, eligible, limit, chosen);
  }

  function DueLease(ds: map<TaskId, Delivery>, id: TaskId): int {
    if id in ds && ds[id].lease.Some? then ds[id].lease.value else 0
  }

  function ByDueLease(ds: map<TaskId, Delivery>): TaskId -> SortKey { id => (DueLease(ds, id), 0) }

  function ByDueTime(ds: map<TaskId, Delivery>): TaskId -> SortKey {
    id => (if id in ds then ds[id].availableAt else 0, 0)
  }

  function ByExpiry(tasks: map<TaskId, Task>): TaskId -> SortKey {
    id => (if id in tasks then tasks[id].expiresAt else 0, 0)
  }

  /** One statement fails the rows and announces them. */
  lemma FailedTogether(db: Db, db': Db, chosen: set<TaskId>, now: int)
    requires chosen <= db.tasks.Keys && db'.keys == db.keys && db'.tasks.Keys == db.tasks.Keys
    requires forall id | id in db.tasks ::
               db'.tasks[id] == if id in chosen then LostRow(db.tasks[id], now) else db.tasks[id]
    requires forall id :: id in db'.deliveries <==> id in db.deliveries || (id in chosen && db'.tasks[id].webhook != "")
    requires forall id | id in db'.deliveries ::
               db'.deliveries[id] == if id in db.deliveries then db.deliveries[id]
                                     else Delivery(Failed, db'.tasks[id].webhook, Queued, None, None, 0, 6, now)
    ensures db' == TaskModel.ReapDead(db, chosen, now)
  {
    assert db'.tasks == TaskModel.ReapDead(db, chosen, now).tasks;
    assert db'.deliveries == TaskModel.ReapDead(db, chosen, now).deliveries;
  }

  /** A run whose lease is over. */
  predicate Lapsed(r: Task, now: int) {
    r.status.Running? && r.lease.Some? && r.lease.value < now
  }

  lemma LeastExpiresFirst(tasks: map<TaskId, Task>, ids: set<TaskId>, first: TaskId)
    requires ids <= tasks.Keys && IsLeast(ids, ByExpiry(tasks), first)
    ensures forall id | id in ids :: tasks[first].expiresAt <= tasks[id].expiresAt
  {
    assert forall id | id in ids :: Upto(ByExpiry(tasks)(first), ByExpiry(tasks)(id));
  }

  class PostgresStore {
    var tasks: map<TaskId, Task>
    var deliveries: map<TaskId, Delivery>
    var keys: set<RequestId>

    constructor ()
      ensures State() == Db(map[], map[], {})
    {
      tasks, deliveries, keys := map[], map[], {};
    }

    function State(): Db
      reads this
    {
      Db(tasks, deliveries, keys)
    }

    /** One insert transaction run alone: count and insert, then the check that tells a replay from a full tenant. */
    method Insert(id: TaskId, rec: InsertRecord, cap: int, now: int) returns (answer: InsertAnswer)
      requires id !in tasks
      modifies this`tasks
      ensures answer.DuplicateKey? <==> rec.idem.Some? && exists j | j in old(tasks) :: old(tasks)[j].idem == rec.idem
      ensures var unended := |set j | j in old(tasks) && old(tasks)[j].tenant == rec.tenant
                                && (old(tasks)[j].status.Pending? || old(tasks)[j].status.Running?)|;
              && (answer.AtCapacity? ==> cap > 0 && unended >= cap)
              && (answer.Inserted? ==> cap <= 0 || unended < cap)
      ensures !answer.Inserted? ==> tasks == old(tasks)
      ensures answer.Inserted? ==>
                tasks == old(tasks)[id :=
                  Task(rec.taskType, rec.tenant, rec.input, rec.idem, rec.webhook, Pending, None, None,
                       0, rec.maxAttempts, None, now, now, None, None, rec.expiresAt, 0, "", "")]
      ensures State() == if answer.Inserted? then TaskModel.Insert(old(State()), id, rec, now) else old(State())
    {
      var rivals := Admission.Conflicts(State(), rec);
      var unended := set j | j in tasks && tasks[j].tenant == rec.tenant
                         && (tasks[j].status.Pending? || tasks[j].status.Running?);
      assert forall j | j in tasks && rec.idem.Some? && tasks[j].idem == rec.idem :: j in rivals;
      if (cap <= 0 || |unended| < cap) && rivals == {} {
        tasks := tasks[id := InsertedRow(rec, now)];
        return Inserted;
      }
      if rivals != {} {
        return DuplicateKey;
      }
      return AtCapacity;
    }

    method Claim(types: set<string>, cap: int, w: WorkerId, lease: int, now: int)
        returns (claimed: Option<(TaskId, RequestId)>)
      modifies this
      ensures claimed.None? ==> State() == old(State())
      ensures claimed.None? <==>
                types == {} || forall id | ClaimQuery.Eligible(old(State()), types, now, id) ::
                                 !ClaimQuery.HasRoom(old(State()), cap, now, id)
      ensures claimed.Some? ==>
                var (id, request) := claimed.value;
                && ClaimQuery.OldestWithRoom(old(State()), types, cap, now, id)
                && State() == TaskModel.Claim(old(State()), id, w, now + lease, now)
                && request == RequestId(id, old(tasks)[id].attempt + 1)
      ensures claimed.Some? ==>
                var (id, request) := claimed.value; var r := old(tasks)[id];
                && r.status.Pending? && r.availableAt <= now && r.taskType in types
                && tasks == old(tasks)[id := r.(
                     status := Running, worker := Some(w), lease := Some(now + lease),
                     attempt := r.attempt + 1, requestId := Some(request),
                     startedAt := if r.startedAt.Some? then r.startedAt else Some(now))]
                && deliveries == old(deliveries) && keys == old(keys)
      ensures claimed.Some? ==> forall t | t <= now + lease ::
                  claimed.value.0 !in Orphans(State(), t) && claimed.value.0 !in RetryableOrphans(State(), t)
    {
      if types == {} { return None; }
      var pick := ClaimQuery.FindCandidate(State(), types, cap, now, {});
      ClaimQuery.NothingToClaim(State(), types, cap, now);
      if pick.None? { return None; }
      var id := pick.value;
      ClaimQuery.WindowIsOldestWithRoom(State(), types, cap, now, id);
      var r := tasks[id];
      var request := RequestId(id, r.attempt + 1);
      tasks := tasks[id := r.(
        status := Running, worker := Some(w), lease := Some(now + lease), attempt := r.attempt + 1,
        startedAt := if r.startedAt.None? then Some(now) else r.startedAt, requestId := Some(request))];
      claimed := Some((id, request));
    }

    method Heartbeat(id: TaskId, w: WorkerId, lease: int, now: int) returns (held: bool)
      modifies this`tasks
      ensures held <==> id in old(tasks) && old(tasks)[id].worker == Some(w) && old(tasks)[id].status.Running?
      ensures tasks == if held then old(tasks)[id := old(tasks)[id].(lease := Some(now + lease))] else old(tasks)
      ensures State() == TaskModel.Heartbeat(old(State()), id, w, now + lease)
    {
      held := id in tasks && tasks[id].worker == Some(w) && tasks[id].status == Running;
      if held { tasks := tasks[id := tasks[id].(lease := Some(now + lease))]; }
    }

    /** The tail the three ending statements share: the row is written and its delivery inserted. */
    method WriteEnded(id: TaskId, r: Task, now: int)
      modifies this`tasks, this`deliveries
      ensures State() == old(State()).(tasks := old(tasks)[id := r], deliveries := Enqueue(old(deliveries), id, r, now))
    {
      tasks := tasks[id := r];
      if r.webhook != "" && id !in deliveries {
        deliveries := deliveries[id :=
          Delivery(r.status, r.webhook, Queued, None, None, 0, DELIVERY_MAX_ATTEMPTS, now)];
      }
    }

    method Complete(id: TaskId, w: WorkerId, o: Outcome, now: int) returns (written: bool)
      modifies this`tasks, this`deliveries
      ensures written <==> id in old(tasks) && old(tasks)[id].worker == Some(w) && old(tasks)[id].status.Running?
      ensures written ==>
                var r := old(tasks)[id];
                && tasks == old(tasks)[id := r.(
                     status := if o.failed then Failed else Completed,
                     output := o.output, errorCode := o.errorCode,
                     charge := if r.charge < o.charge then o.charge else r.charge,
                     completedAt := Some(now), worker := None, lease := None)]
                && Announced(old(deliveries), deliveries, id, tasks[id].status, r.webhook, now)
      ensures !written ==> State() == old(State())
      ensures State() == TaskModel.Complete(old(State()), id, w, o, now)
    {
      written := id in tasks && tasks[id].worker == Some(w) && tasks[id].status == Running;
      if written {
        var r := tasks[id];
        WriteEnded(id, r.(
          status := if o.failed then Failed else Completed, output := o.output, errorCode := o.errorCode,
          charge := if r.charge >= o.charge then r.charge else o.charge,
          completedAt := Some(now), worker := None, lease := None), now);
      }
    }

    method Cancel(id: TaskId, now: int) returns (cancelled: bool)
      modifies this`tasks, this`deliveries
      ensures cancelled <==> id in old(tasks) && (old(tasks)[id].status.Pending? || old(tasks)[id].status.Running?)
      ensures cancelled ==>
                && tasks == old(tasks)[id := old(tasks)[id].(
                     status := Cancelled, errorCode := "cancelled",
                     completedAt := Some(now), worker := None, lease := None)]
                && Announced(old(deliveries), deliveries, id, Cancelled, old(tasks)[id].webhook, now)
      ensures !cancelled ==> State() == old(State())
      ensures State() == TaskModel.Cancel(old(State()), id, now)
    {
      cancelled := id in tasks && (tasks[id].status == Pending || tasks[id].status == Running);
      if cancelled {
        WriteEnded(id, tasks[id].(
          status := Cancelled, errorCode := "cancelled", completedAt := Some(now), worker := None, lease := None), now);
      }
    }

    method ReapRetryable(limit: nat, now: int) returns (count: nat, ghost chosen: set<TaskId>)
      modifies this`tasks
      ensures OldestLeases(old(tasks), RetryableOrphans(old(State()), now), limit, chosen)
      ensures count == |chosen| && State() == TaskModel.ReapRetryable(old(State()), chosen, now)
      ensures forall id | id in chosen ::
                && id in old(tasks) && Lapsed(old(tasks)[id], now)
                && old(tasks)[id].attempt < old(tasks)[id].maxAttempts
                && (old(tasks)[id].requestId.Some? ==> old(tasks)[id].requestId.value !in old(keys))
      ensures tasks.Keys == old(tasks).Keys && forall id | id in tasks ::
                tasks[id] == if id !in chosen then old(tasks)[id] else old(tasks)[id].(
                  status := Pending, worker := None, lease := None,
                  availableAt := now + Backoff(old(tasks)[id].attempt))
    {
      var picked := ChooseOldest(tasks, RetryableOrphans(State(), now), limit);
      tasks := map id | id in tasks :: if id in picked then RequeuedRow(tasks[id], now) else tasks[id];
      count, chosen := |picked|, picked;
    }

    /** INSERT ... SELECT FROM dead: one delivery for each failed row that gave a URL. */
    method EnqueueLost(lost: set<TaskId>, now: int)
      requires forall id | id in lost :: id in tasks && tasks[id].status.Failed?
      modifies this`deliveries
      ensures forall id :: id in deliveries <==> id in old(deliveries) || (id in lost && tasks[id].webhook != "")
      ensures forall id | id in deliveries ::
                deliveries[id] == if id in old(deliveries) then old(deliveries)[id]
                                  else Delivery(Failed, tasks[id].webhook, Queued, None, None, 0, 6, now)
    {
      var todo := lost;
      while todo != {}
        invariant todo <= lost
        invariant forall id ::
          id in deliveries <==> id in old(deliveries) || (id in lost - todo && tasks[id].webhook != "")
        invariant forall id | id in deliveries ::
          deliveries[id] == if id in old(deliveries) then old(deliveries)[id]
                            else Delivery(Failed, tasks[id].webhook, Queued, None, None, 0, 6, now)
        decreases |todo|
      {
        var id :| id in todo;
        todo := todo - {id};
        if tasks[id].webhook != "" && id !in deliveries {
          deliveries := deliveries[id :=
            Delivery(Failed, tasks[id].webhook, Queued, None, None, 0, DELIVERY_MAX_ATTEMPTS, now)];
        }
      }
    }

    method ReapDead(limit: nat, now: int) returns (count: nat, ghost chosen: set<TaskId>)
      modifies this`tasks, this`deliveries
      ensures OldestLeases(old(tasks), Orphans(old(State()), now), limit, chosen)
      ensures count == |chosen| && State() == TaskModel.ReapDead(old(State()), chosen, now)
      ensures forall id | id in chosen :: id in old(tasks) && Lapsed(old(tasks)[id], now)
      ensures tasks.Keys == old(tasks).Keys && forall id | id in tasks ::
                tasks[id] == if id !in chosen then old(tasks)[id] else old(tasks)[id].(
                  status := Failed, errorCode := "worker_lost", completedAt := Some(now), worker := None, lease := None)
      ensures forall id :: id in deliveries <==> id in old(deliveries) || (id in chosen && tasks[id].webhook != "")
      ensures forall id | id in deliveries ::
                deliveries[id] == if id in old(deliveries) then old(deliveries)[id]
                                  else Delivery(Failed, tasks[id].webhook, Queued, None, None, 0, 6, now)
    {
      var picked := ChooseOldest(tasks, Orphans(State(), now), limit);
      tasks := map id | id in tasks :: if id in picked then LostRow(tasks[id], now) else tasks[id];
      EnqueueLost(picked, now);
      count, chosen := |picked|, picked;
      FailedTogether(old(State()), State(), chosen, now);
    }

    method ReleaseWorker(w: WorkerId) returns (count: nat)
      modifies this`tasks
      ensures State() == TaskModel.ReleaseWorker(old(State()), w)
      ensures forall id | id in tasks && tasks[id].worker == Some(w) && tasks[id].status.Running? ::
          tasks[id].requestId.Some? && tasks[id].requestId.value in keys
      ensures tasks.Keys == old(tasks).Keys && forall id | id in tasks ::
                var r := old(tasks)[id];
                tasks[id] ==
                if r.worker != Some(w) || !r.status.Running? || (r.requestId.Some? && r.requestId.value in keys) then r
                else r.(status := Pending, worker := None, lease := None, startedAt := None,
                        attempt := if r.attempt == 0 then 0 else r.attempt - 1)
    {
      var mine := set id | id in tasks && HeldBy(State(), id, w) && !Billed(State(), tasks[id]);
      count := |mine|;
      tasks := map id | id in tasks :: if id in mine then ReleasedRow(tasks[id]) else tasks[id];
    }

    /** ORDER BY expires_at LIMIT n over the rows past their time to live, whatever their status. */
    method ListExpired(limit: nat, now: int) returns (ids: seq<TaskId>)
      ensures |ids| <= limit && forall i, j | 0 <= i < j < |ids| :: ids[i] != ids[j]
      ensures forall id | id in ids :: id in tasks && tasks[id].expiresAt < now
      ensures forall id | id in tasks && tasks[id].expiresAt < now && id !in ids ::
                |ids| == limit && forall j | j in ids :: tasks[j].expiresAt <= tasks[id].expiresAt
    {
      ids := [];
      var expired := set id | id in tasks && tasks[id].expiresAt < now;
      var left := expired;
      while |ids| < limit && left != {}
        invariant left <= expired && |ids| <= limit && forall i, j | 0 <= i < j < |ids| :: ids[i] != ids[j]
        invariant forall id :: id in ids <==> id in expired - left
        invariant forall id, j | id in left && j in ids :: tasks[j].expiresAt <= tasks[id].expiresAt
        decreases |left|
      {
        var first := FindLeast(left, ByExpiry(tasks));
        LeastExpiresFirst(tasks, left, first);
        ids := ids + [first];
        left := left - {first};
      }
    }

    method DeleteTask(id: TaskId)
      modifies this`tasks, this`deliveries
      ensures State() == TaskModel.DeleteTask(old(State()), id)
      ensures id !in tasks && id !in deliveries
      ensures forall j | j != id ::
                && (j in tasks <==> j in old(tasks)) && (j in deliveries <==> j in old(deliveries))
                && (j in tasks ==> tasks[j] == old(tasks)[j])
                && (j in deliveries ==> deliveries[j] == old(deliveries)[j])
    {
      deliveries := deliveries - {id};
      tasks := tasks - {id};
    }

    // ----- the outbox -----

    method FirstDue(now: int) returns (first: Option<TaskId>)
      ensures first.None? <==> forall id | id in deliveries :: !Deliveries.Claimable(deliveries[id], now)
      ensures first.Some? ==>
                && first.value in deliveries && Deliveries.Claimable(deliveries[first.value], now)
                && forall j | j in deliveries && Deliveries.Claimable(deliveries[j], now) ::
                     deliveries[first.value].availableAt <= deliveries[j].availableAt
    {
      var ready := set id | id in deliveries && Deliveries.Claimable(deliveries[id], now);
      if ready == {} {
        assert forall id | id in deliveries && Deliveries.Claimable(deliveries[id], now) :: id in ready;
        return None;
      }
      var id := FindLeast(ready, ByDueTime(deliveries));
      forall j | j in deliveries && Deliveries.Claimable(deliveries[j], now)
        ensures deliveries[id].availableAt <= deliveries[j].availableAt
      {
        assert j in ready && Upto(ByDueTime(deliveries)(id), ByDueTime(deliveries)(j));
      }
      first := Some(id);
    }

    method ClaimDelivery(w: WorkerId, lease: int, now: int) returns (claimed: Option<TaskId>)
      modifies this`deliveries
      ensures claimed.None? ==> State() == old(State())
      ensures claimed.None? <==> forall id | id in old(deliveries) :: !Deliveries.Claimable(old(deliveries)[id], now)
      ensures claimed.Some? ==>
                var id := claimed.value;
                && id in old(deliveries) && Deliveries.Claimable(old(deliveries)[id], now)
                && old(deliveries)[id].attempt < old(deliveries)[id].maxAttempts
                && (if old(deliveries)[id].status.Queued? then old(deliveries)[id].availableAt <= now
                    else old(deliveries)[id].status.Sending? && old(deliveries)[id].lease.Some?
                         && old(deliveries)[id].lease.value < now)
                && (forall j | j in old(deliveries) && Deliveries.Claimable(old(deliveries)[j], now) ::
                      old(deliveries)[id].availableAt <= old(deliveries)[j].availableAt)
                && deliveries == old(deliveries)[id := old(deliveries)[id].(
                     status := Sending, worker := Some(w), lease := Some(now + lease),
                     attempt := old(deliveries)[id].attempt + 1)]
                && deliveries[id] == Deliveries.ClaimedDelivery(old(deliveries)[id], w, now + lease)
    {
      var candidate := FirstDue(now);
      if candidate.None? { return None; }
      var first := candidate.value;
      var d := deliveries[first];
      deliveries := deliveries[first := d.(status := Sending, worker := Some(w), lease := Some(now + lease),
          attempt := d.attempt + 1)];
      claimed := Some(first);
    }

    method FinishDelivery(id: TaskId, w: WorkerId, o: Deliveries.DeliveryOutcome, now: int) returns (written: bool)
      modifies this`deliveries
      ensures written <==>
                id in old(deliveries) && old(deliveries)[id].worker == Some(w) && old(deliveries)[id].status.Sending?
      ensures !written ==> deliveries == old(deliveries)
      ensures written ==>
                var d := old(deliveries)[id];
                deliveries == old(deliveries)[id := d.(
                  worker := None, lease := None,
                  status := if o.Succeed? then Delivered else if o.GiveUp? then GaveUp else Queued,
                  availableAt := if o.Retry? then now + o.after else d.availableAt)]
      ensures State() == old(State()).(deliveries := Deliveries.Finish(old(deliveries), id, w, o, now))
    {
      written := id in deliveries && deliveries[id].worker == Some(w) && deliveries[id].status == Sending;
      if written {
        var d := deliveries[id].(worker := None, lease := None);
        match o {
          case Succeed => d := d.(status := Delivered);
          case GiveUp => d := d.(status := GaveUp);
          case Retry(after) => d := d.(status := Queued, availableAt := now + after);
        }
        deliveries := deliveries[id := d];
      }
    }

    method ReapDeadDeliveries(limit: nat, now: int) returns (count: nat, ghost chosen: set<TaskId>)
      modifies this`deliveries
      ensures forall id | id in chosen ::
                && id in old(deliveries) && Deliveries.Reapable(old(deliveries)[id], now)
                && old(deliveries)[id].status.Sending? && old(deliveries)[id].attempt >= old(deliveries)[id].maxAttempts
                && old(deliveries)[id].lease.Some? && old(deliveries)[id].lease.value < now
      ensures count == |chosen| <= limit
      ensures forall id | id in old(deliveries) && Deliveries.Reapable(old(deliveries)[id], now) && id !in chosen ::
                count == limit && forall c | c in chosen ::
                    DueLease(old(deliveries), c) <= DueLease(old(deliveries), id)
      ensures State() == old(State()).(deliveries := Deliveries.ReapDead(old(deliveries), chosen))
      ensures deliveries.Keys == old(deliveries).Keys && forall id | id in deliveries ::
                var d := old(deliveries)[id];
                deliveries[id] == if id in chosen then d.(status := GaveUp, worker := None, lease := None) else d
    {
      var picked := ChooseSpent(limit, now);
      deliveries := map id | id in deliveries ::
        if id in picked then deliveries[id].(status := GaveUp, worker := None, lease := None) else deliveries[id];
      count, chosen := |picked|, picked;
    }

    /** The sub-select: lapsed deliveries without attempts left, longest lapsed first. */
    method ChooseSpent(limit: nat, now: int) returns (picked: set<TaskId>)
      ensures |picked| <= limit && forall id | id in picked ::
          id in deliveries && Deliveries.Reapable(deliveries[id], now)
      ensures forall id | id in deliveries && Deliveries.Reapable(deliveries[id], now) && id !in picked ::
                |picked| == limit && forall c | c in picked :: DueLease(deliveries, c) <= DueLease(deliveries, id)
    {
      var spent := set id | id in deliveries && Deliveries.Reapable(deliveries[id], now);
      picked := ChooseFirst(spent, ByDueLease(deliveries), limit);
      forall id | id in spent && id !in picked
        ensures |picked| == limit && forall c | c in picked :: DueLease(deliveries, c) <= DueLease(deliveries, id)
      {
        SubsetSize(picked, spent);
        assert forall c | c in picked :: Upto(ByDueLease(deliveries)(c), ByDueLease(deliveries)(id));
      }
    }

    method ReleaseDeliveries(w: WorkerId, now: int) returns (count: nat)
      modifies this`deliveries
      ensures State() == old(State()).(deliveries := Deliveries.Release(old(deliveries), w, now))
      ensures deliveries.Keys == old(deliveries).Keys && forall id | id in deliveries ::
                var d := old(deliveries)[id];
                deliveries[id] == if d.worker != Some(w) || !d.status.Sending? then d else d.(
                  status := Queued, worker := None, lease := None, availableAt := now,
                  attempt := if d.attempt == 0 then 0 else d.attempt - 1)
      ensures forall id | id in deliveries :: !Deliveries.Held(deliveries[id], w)
    {
      var mine := set id | id in deliveries && Deliveries.Held(deliveries[id], w);
      count := |mine|;
      deliveries := map id | id in deliveries ::
        if id in mine then Deliveries.ReleasedDelivery(deliveries[id], now) else deliveries[id];
    }
  }
}
