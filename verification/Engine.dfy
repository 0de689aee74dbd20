/** One process's engine: what a run writes, when work is handed back, and who can be cancelled. */
module Engine {
  import opened Common
  import opened TaskModel
  import opened TaskStore
  import Deliveries
  import Reaper

  // ----- runClaimed -----

  datatype HandlerStatus = ReturnsCompleted | ReturnsFailed | ReturnsOther

  /** How execute ends: a result, or an error that may be marked retryable. */
  datatype Ending =
    | SubjectGone
    | Returned(status: HandlerStatus, output: string, failure: Option<string>, charge: int)
    | Erred(retryable: bool)

  /** What runClaimed writes; None leaves the lease to expire. */
  function TerminalWrite(attempt: nat, registeredMax: nat, e: Ending): Option<Outcome> {
    match e
    case Erred(retryable) =>
      if retryable && attempt < registeredMax then None
      else Some(Outcome(true, "", "task_execution_failed", 0))
    case SubjectGone => Some(Outcome(true, "", "subject_unavailable", 0))
    case Returned(status, output, failure, charge) =>
      match status
      case ReturnsCompleted => Some(Outcome(false, output, if failure.Some? then failure.value else "", charge))
      case ReturnsFailed =>
        Some(Outcome(true, output, if failure.Some? then failure.value else "task_execution_failed", charge))
      case ReturnsOther => Some(Outcome(true, "", "task_execution_failed", 0))
  }

  /**
   * A held row after its run.  It ended with what its handler gave: completed with the
   * handler's output, or failed with the handler's code or the one for its kind of error,
   * and no charge lost.  Or it is untouched, and then the reaper will requeue it if it
   * has an attempt left and did not bill.  `registeredMax` is the bound the process's
   * handlers were registered with, which a redeploy may have changed since the row was
   * inserted.
   */
  lemma RunEndsOrLeavesToReaper(
    db: Db, id: TaskId, w: WorkerId, registeredMax: nat, e: Ending, now: int, later: int)
    requires HeldBy(db, id, w) && db.tasks[id].lease.Some? && db.tasks[id].lease.value < later
    ensures var r := db.tasks[id];
            var write := TerminalWrite(r.attempt, registeredMax, e);
            var answered := e.Returned? && !e.status.ReturnsOther?;
            (write.None? <==> e == Erred(true) && r.attempt < registeredMax)
            && if write.Some? then
              var r' := Complete(db, id, w, write.value, now).tasks[id];
              && r'.status == (if e.Returned? && e.status.ReturnsCompleted? then Completed else Failed)
              && r'.output == (if answered then e.output else "")
              && r'.errorCode ==
                   (if e.SubjectGone? then "subject_unavailable"
                    else if answered && e.failure.Some? then e.failure.value
                    else if r'.status.Completed? then "" else "task_execution_failed")
              && r.charge <= r'.charge && (answered ==> e.charge <= r'.charge)
              && (r'.charge == r.charge || r'.charge == if answered then e.charge else 0)
              && r'.completedAt == Some(now) && r'.worker.None? && r'.lease.None?
              && r' == r.(status := r'.status, output := r'.output, errorCode := r'.errorCode,
                          charge := r'.charge, completedAt := Some(now), worker := None, lease := None)
            else
              && Orphan(r, later)
              && (Retryable(db, r, later) <==> r.attempt < r.maxAttempts && !Billed(db, r))
              && (registeredMax <= r.maxAttempts ==> (Retryable(db, r, later) <==> !Billed(db, r)))
  {}

  /**
   * When the two bounds differ: registered higher, a retryable error on the row's last
   * attempt is left to the reaper, which fails it as lost; registered lower, it fails at
   * once with attempts unused.
   */
  lemma BoundsMayDiffer(db: Db, id: TaskId, w: WorkerId, registeredMax: nat, later: int)
    requires HeldBy(db, id, w) && db.tasks[id].lease.Some? && db.tasks[id].lease.value < later
    ensures var r := db.tasks[id];
            && (r.attempt == r.maxAttempts < registeredMax ==>
                  TerminalWrite(r.attempt, registeredMax, Erred(true)).None?
                  && id in Orphans(db, later) - RetryableOrphans(db, later))
            && (registeredMax <= r.attempt < r.maxAttempts ==>
                  TerminalWrite(r.attempt, registeredMax, Erred(true))
                      == Some(Outcome(true, "", "task_execution_failed", 0)))
  {}

  // ----- shutdown and reaping -----

  class Engine {
    const workerId: WorkerId
    const batch: nat
    const store: PostgresStore
    var started: bool
    var stopped: bool
    var released: bool

    constructor (workerId: WorkerId, batch: nat, store: PostgresStore)
      ensures this.workerId == workerId && this.batch == batch && this.store == store
      ensures !started && !stopped && !released && Valid()
    {
      this.workerId, this.batch, this.store := workerId, batch, store;
      started, stopped, released := false, false, false;
    }

    ghost predicate Valid()
      reads this
    {
      released ==> started && stopped
    }

    /** Reports whether the workers were launched; never after Stop, never twice. */
    method Start() returns (launched: bool)
      requires Valid()
      modifies this
      ensures Valid()
      ensures launched <==> !old(started) && !old(stopped)
      ensures started == (old(started) || launched) && stopped == old(stopped) && released == old(released)
    {
      if started || stopped { return false; }
      started := true;
      launched := true;
    }

    /**
     * Stop: refuse new work, wait for every goroutine, then hand back.  `drained` says
     * whether the wait beat the caller's deadline; the two flags whether each
     * hand-back statement reached the database.
     */
    method Stop(drained: bool, tasksReachable: bool, outboxReachable: bool, now: int) returns (ok: bool)
      requires Valid()
      modifies this, store
      ensures Valid() && stopped && started == old(started)
      ensures !old(started) ==> ok && store.State() == old(store.State())
      ensures !drained ==> store.State() == old(store.State()) && (old(started) ==> !ok)
      ensures old(released) ==> store.State() == old(store.State()) && released
      ensures old(started) ==> (ok <==> drained && released)
      ensures ok && old(started) && !old(released) ==>
                && (forall id | id in store.tasks && store.tasks[id].worker == Some(workerId)
                    && store.tasks[id].status.Running? ::
                      Billed(store.State(), store.tasks[id]))
                && (forall id | id in store.deliveries :: !Deliveries.Held(store.deliveries[id], workerId))
      ensures old(started) && drained && !old(released) ==>
                && store.tasks == (if tasksReachable then ReleaseWorker(old(store.State()), workerId).tasks
                    else old(store.tasks))
                && store.deliveries == (if outboxReachable then Deliveries.Release(old(store.deliveries), workerId, now)
                                        else old(store.deliveries))
                && store.keys == old(store.keys)
    {
      stopped := true;
      if !started { return true; }
      if !drained { return false; }
      if released { return true; }
      var errors := 0;
      if tasksReachable { var n := store.ReleaseWorker(workerId); } else { errors := errors + 1; }
      if outboxReachable { var n := store.ReleaseDeliveries(workerId, now); } else { errors := errors + 1; }
      if errors == 0 { released := true; }
      return errors == 0;
    }

    /** A pass stops at the first of its two task statements that fails; the outbox comes last. */
    method ReapOnce(requeueReachable: bool, failReachable: bool, outboxReachable: bool, t1: int, t2: int, t3: int)
        returns (ghost c1: set<TaskId>, ghost c2: set<TaskId>, ghost c3: set<TaskId>)
      requires t1 <= t2
      modifies store
      ensures !requeueReachable ==> store.State() == old(store.State())
      ensures requeueReachable && !failReachable ==>
                && OldestLeases(old(store.tasks), RetryableOrphans(old(store.State()), t1), batch, c1)
                && store.State() == TaskModel.ReapRetryable(old(store.State()), c1, t1)
      ensures requeueReachable && failReachable ==>
                && Reaper.PassChoices(old(store.State()), batch, t1, c1, t2, c2)
                && var passed := Reaper.Pass(old(store.State()), t1, c1, t2, c2);
                   && store.State() == passed.(deliveries := Deliveries.ReapDead(passed.deliveries, c3))
                   && (forall id | id in c3 ::
                         outboxReachable && id in passed.deliveries && Deliveries.Reapable(passed.deliveries[id], t3))
                   && (outboxReachable ==> forall id | id in passed.deliveries - c3 ::
                         !Deliveries.Reapable(passed.deliveries[id], t3) || |c3| == batch)
    {
      c1, c2, c3 := {}, {}, {};
      if !requeueReachable { return; }
      var retried;
      retried, c1 := store.ReapRetryable(batch, t1);
      if !failReachable { return; }
      var failed;
      failed, c2 := store.ReapDead(batch, t2);
      if outboxReachable {
        var ended;
        ended, c3 := store.ReapDeadDeliveries(batch, t3);
      } else {
        assert Deliveries.ReapDead(store.deliveries, {}) == store.deliveries;
      }
    }

    /**
     * Deletes the rows past their time to live, deliveries with them.  A hook that fails
     * does not stop a deletion, and a deletion that fails (`failing`) does not stop the rest.
     */
    method SweepExpired(failing: set<TaskId>, now: int) returns (ids: seq<TaskId>)
      modifies store
      ensures |ids| <= batch && forall id | id in ids :: id in old(store.tasks) && old(store.tasks)[id].expiresAt < now
      ensures forall id | id in old(store.tasks) && old(store.tasks)[id].expiresAt < now && id !in ids ::
                |ids| == batch
                && forall j | j in ids :: old(store.tasks)[j].expiresAt <= old(store.tasks)[id].expiresAt
      ensures store.tasks == old(store.tasks) - (set id | id in ids && id !in failing)
      ensures store.deliveries == old(store.deliveries) - (set id | id in ids && id !in failing)
      ensures store.keys == old(store.keys)
      ensures |ids| < batch ==> forall id | id in store.tasks && store.tasks[id].expiresAt < now :: id in failing
    {
      ids := store.ListExpired(batch, now);
      var i := 0;
      while i < |ids|
        invariant 0 <= i <= |ids|
        invariant store.tasks == old(store.tasks) - Deletable(ids[..i], failing)
        invariant store.deliveries == old(store.deliveries) - Deletable(ids[..i], failing)
        invariant store.keys == old(store.keys)
      {
        OneMoreDeletable(ids, i, failing);
        if ids[i] !in failing {
          store.DeleteTask(ids[i]);
        }
        i := i + 1;
      }
      assert ids[..i] == ids;
    }
  }

  function Deletable(ids: seq<TaskId>, failing: set<TaskId>): set<TaskId> { set id | id in ids && id !in failing }

  lemma OneMoreDeletable(ids: seq<TaskId>, i: nat, failing: set<TaskId>)
    requires i < |ids|
    ensures Deletable(ids[..i + 1], failing) ==
            Deletable(ids[..i], failing) + (if ids[i] in failing then {} else {ids[i]})
  {
    assert ids[..i + 1] == ids[..i] + [ids[i]];
  }

  // ----- the cancel handles of one process -----

  datatype RunId = RunId(num: int)

  /** `live` maps each running execution to its task; `handles` is Engine.cancels. */
  datatype Handles = Handles(live: map<RunId, TaskId>, handles: map<TaskId, RunId>)

  datatype HandleEvent = Register(run: RunId, task: TaskId) | Unregister(run: RunId)

  predicate HandleEnabled(h: Handles, ev: HandleEvent) {
    match ev
    case Register(run, _) => run !in h.live
    case Unregister(run) => run in h.live
  }

  /** The map is keyed by task, so the deferred unregister removes whatever handle is there. */
  function HandleStep(h: Handles, ev: HandleEvent): Handles {
    match ev
    case Register(run, task) => Handles(h.live[run := task], h.handles[task := run])
    case Unregister(run) =>
      Handles(h.live - {run}, if run in h.live then h.handles - {h.live[run]} else h.handles)
  }

  predicate Reachable(h: Handles) {
    forall run | run in h.live :: h.live[run] in h.handles && h.handles[h.live[run]] == run
  }

  predicate NoOverlap(h: Handles) {
    forall a, b | a in h.live && b in h.live && h.live[a] == h.live[b] :: a == b
  }

  ghost predicate AlwaysReachable(h: Handles, es: seq<HandleEvent>)
    decreases |es|
  {
    Reachable(h) && (es != [] && HandleEnabled(h, es[0]) ==> AlwaysReachable(HandleStep(h, es[0]), es[1..]))
  }

  ghost predicate NeverOverlaps(h: Handles, es: seq<HandleEvent>)
    decreases |es|
  {
    NoOverlap(h) && (es != [] && HandleEnabled(h, es[0]) ==> NeverOverlaps(HandleStep(h, es[0]), es[1..]))
  }

  /**
   * A process can stop each of its runs through `cancels` all along exactly when it never
   * runs two attempts of one task at once; after an overlap the older attempt's exit takes
   * the newer one's handle with it.
   */
  lemma {:induction false} HandlesReachEveryRun(h: Handles, es: seq<HandleEvent>)
    requires Reachable(h)
    ensures AlwaysReachable(h, es) <==> NeverOverlaps(h, es)
    decreases |es|
  {
    assert NoOverlap(h);
    if es != [] && HandleEnabled(h, es[0]) {
      var h' := HandleStep(h, es[0]);
      if NoOverlap(h') {
        forall run | run in h'.live ensures h'.live[run] in h'.handles && h'.handles[h'.live[run]] == run {
          assert es[0].run in h'.live ==> h'.live[run] == h'.live[es[0].run] ==> run == es[0].run;
          assert run in h.live ==> h.live[run] in h.handles && h.handles[h.live[run]] == run;
        }
        HandlesReachEveryRun(h', es[1..]);
      } else {
        assert !Reachable(h');
      }
    }
  }

  /**
   * An overlap takes the older run's handle at once, and the older run's exit takes the
   * newer's: then a run is live that Cancel cannot reach.
   */
  lemma OverlapLosesHandles(h: Handles, older: RunId, newer: RunId)
    requires Reachable(h) && older in h.live && newer !in h.live
    ensures var task := h.live[older];
            var h1 := HandleStep(h, Register(newer, task));
            var h2 := HandleStep(h1, Unregister(older));
            && HandleEnabled(h, Register(newer, task)) && HandleEnabled(h1, Unregister(older))
            && h1.handles[task] == newer
            && newer in h2.live && h2.live[newer] == task && task !in h2.handles
  {}
}
