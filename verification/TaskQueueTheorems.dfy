/** What the queue promises, over every run from the empty tables. */
module TaskQueueTheorems {
  import opened Common
  import opened TaskModel
  import opened TaskQueue

  ghost predicate Reachable(w: World) {
    exists es :: Legal(EMPTY, es) && Run(EMPTY, es) == w
  }

  lemma EmptyInv()
    ensures Inv(EMPTY)
  {}

  lemma ReachableInv(w: World)
    requires Reachable(w)
    ensures Inv(w)
  {
    EmptyInv();
    var es :| Legal(EMPTY, es) && Run(EMPTY, es) == w;
    RunKeepsInv(EMPTY, es);
  }

  /**
   * Whatever crashed, was reaped or was handed back, no two live executions share a
   * request id, and the id the next claim of a task would settle is held by no live
   * execution and has never reached ai_request_keys.
   */
  lemma RequestIdsAreDistinct(w: World)
    requires Reachable(w)
    ensures forall e, f | e in w.execs && f in w.execs && e != f :: w.execs[e].request != w.execs[f].request
    ensures forall id | id in w.db.tasks && w.db.tasks[id].status.Pending? ::
              var next := RequestId(id, w.db.tasks[id].attempt + 1);
              next !in w.db.keys && forall e | e in w.execs :: w.execs[e].request != next
  {
    ReachableInv(w);
  }

  /** Claim never tests max_attempts; the bound holds all the same, and the counter is claims less hand-backs. */
  lemma AttemptsAreBounded(w: World, id: TaskId)
    requires Reachable(w) && id in w.db.tasks
    ensures id in w.tally
    ensures var r := w.db.tasks[id]; var t := w.tally[id];
            && (r.status.Pending? ==> r.attempt < r.maxAttempts)
            && (r.status.Running? ==> 1 <= r.attempt <= r.maxAttempts)
            && r.attempt == t.claims - t.releases
            && t.claims <= r.maxAttempts + t.releases
            && t.changes <= 2 * r.maxAttempts + 2 * t.releases
  {
    ReachableInv(w);
    assert RowOk(id, w.db.tasks[id]) && TallyRowOk(w.db.tasks[id], w.tally[id]);
  }

  /** In every reachable state a task has a delivery exactly when it ended and gave a URL. */
  lemma DeliveryMatchesOutcome(w: World, id: TaskId)
    requires Reachable(w)
    ensures id in w.db.deliveries <==>
              id in w.db.tasks && w.db.tasks[id].status.Terminal() && w.db.tasks[id].webhook != ""
    ensures id in w.db.deliveries ==>
              w.db.deliveries[id].event == w.db.tasks[id].status && w.db.deliveries[id].url == w.db.tasks[id].webhook
  {
    ReachableInv(w);
    assert Matched(Find(w.db.tasks, id), Find(w.db.deliveries, id));
  }

  /** Once Stop has handed a process's work back, any row still carrying its id is a billed attempt. */
  lemma StopLeavesOnlyBilledRows(w: World, p: WorkerId, id: TaskId)
    requires Reachable(w) && p in w.handed && id in w.db.tasks && w.db.tasks[id].worker == Some(p)
    ensures w.db.tasks[id].status.Running? && Billed(w.db, w.db.tasks[id])
  {
    ReachableInv(w);
    assert RowOk(id, w.db.tasks[id]);
  }

  /** Every column but the charge is as it was, and the charge is no lower. */
  predicate Frozen(r: Task, r': Task) { r' == r.(charge := r'.charge) && r.charge <= r'.charge }

  lemma StepFreezes(w: World, ev: Event, id: TaskId)
    requires RowsOk(w) && Enabled(w, ev) && id in w.minted
    ensures var before := Find(w.db.tasks, id); var after := Find(Apply(w, ev).db.tasks, id);
            && (before.None? ==> after.None?)
            && (before.Some? && after.Some? ==>
                  && (before.value.status.Terminal() ==> Frozen(before.value, after.value))
                  && before.value.charge <= after.value.charge)
  {
    RowEffect(w, ev, id);
    if id in w.db.tasks {
      MoveFreezes(w.db, id, w.db.tasks[id], MoveAt(Writes(w, ev), id), w.now);
    }
  }

  lemma MoveFreezes(db: Db, id: TaskId, r: Task, m: Move, now: int)
    requires Starts(db, m, Some(r))
    ensures var r' := RowAfter(id, Some(r), m, now);
            r'.Some? ==> r.charge <= r'.value.charge && (r.status.Terminal() ==> Frozen(r, r'.value))
  {}

  /**
   * Once a row ended, its status, output, error, times and request id never change while
   * it exists; the settlement worker may still raise its charge, which never falls, ended
   * or not.
   */
  lemma {:induction false} TerminalIsForever(w: World, es: seq<Event>, id: TaskId)
    requires Inv(w) && Legal(w, es) && id in w.db.tasks && id in Run(w, es).db.tasks
    ensures w.db.tasks[id].status.Terminal() ==> Frozen(w.db.tasks[id], Run(w, es).db.tasks[id])
    ensures w.db.tasks[id].charge <= Run(w, es).db.tasks[id].charge
    decreases |es|
  {
    if es != [] {
      var w1 := Apply(w, es[0]);
      StepKeepsInv(w, es[0]);
      StepFreezes(w, es[0], id);
      if id !in w1.db.tasks {
        DeletedIsForever(w1, es[1..], id);
      }
      TerminalIsForever(w1, es[1..], id);
    }
  }

  /** A task id that is gone, or was never inserted after being generated, does not come back. */
  lemma {:induction false} DeletedIsForever(w: World, es: seq<Event>, id: TaskId)
    requires Inv(w) && Legal(w, es) && id in w.minted && id !in w.db.tasks
    ensures id !in Run(w, es).db.tasks
    decreases |es|
  {
    if es != [] {
      StepKeepsInv(w, es[0]);
      StepFreezes(w, es[0], id);
      DeletedIsForever(Apply(w, es[0]), es[1..], id);
    }
  }

  /**
   * DeleteTerminal checks the status, runs the handler's hook, then deletes by id alone: nothing
   * can revive the row between.
   */
  lemma CheckedDeleteIsSafe(w: World, es: seq<Event>, id: TaskId)
    requires Inv(w) && Legal(w, es) && id in w.db.tasks && w.db.tasks[id].status.Terminal()
    requires id in Run(w, es).db.tasks
    ensures Run(w, es).db.tasks[id].status.Terminal()
    ensures forall e | e in Run(w, es).execs :: !HeldBy(Run(w, es).db, id, Run(w, es).execs[e].worker)
  {
    TerminalIsForever(w, es, id);
  }

  // ----- every statement does its work -----

  predicate Unheld(r: Task) { r.worker.None? && r.lease.None? }

  /** A beat renews its row's lease, a reap requeues or fails the rows it chose, a hand-back frees its process's. */
  lemma LeasesMove(w: World, ev: Event, id: TaskId)
    requires Enabled(w, ev) && id in w.db.tasks
    ensures !ev.Delete? ==> id in Apply(w, ev).db.tasks
    ensures !ev.Delete? ==>
            var r, r' := w.db.tasks[id], Apply(w, ev).db.tasks[id];
            && (ev.Beat? && w.execs[ev.e].request.task == id && HeldBy(w.db, id, w.execs[ev.e].worker) ==>
                  r' == r.(lease := Some(ev.until)))
            && (ev.ReapRetry? && id in ev.chosen ==>
                  r'.status.Pending? && Unheld(r') && r'.availableAt == w.now + Backoff(r.attempt)
                  && r'.attempt == r.attempt)
            && (ev.ReapFail? && id in ev.chosen ==>
                  r'.status.Failed? && Unheld(r') && r'.errorCode == "worker_lost" && r'.completedAt == Some(w.now))
            && (ev.Release? && r.worker == Some(ev.proc) && r.status.Running?
                && !(r.requestId.Some? && r.requestId.value in w.db.keys) && r.attempt > 0 ==>
                  r'.status.Pending? && Unheld(r') && r'.startedAt.None? && r'.attempt == r.attempt - 1)
  {}

  /** A cancellation ends a task in flight, a deletion takes it and its delivery, a charge posted is never lost. */
  lemma TasksEnd(w: World, ev: Event, id: TaskId)
    requires Enabled(w, ev) && id in w.db.tasks
    ensures var r := w.db.tasks[id]; var db' := Apply(w, ev).db;
            && (ev.Delete? && ev.id == id ==> id !in db'.tasks && id !in db'.deliveries)
            && (ev.CancelTask? && ev.id == id && (r.status.Pending? || r.status.Running?) ==>
                  && id in db'.tasks && db'.tasks[id].status.Cancelled? && Unheld(db'.tasks[id])
                  && db'.tasks[id].errorCode == "cancelled" && db'.tasks[id].completedAt == Some(w.now)
                  && (r.webhook != "" ==> id in db'.deliveries))
            && (ev.Post? && r.requestId == Some(ev.request) ==>
                  && id in db'.tasks && db'.tasks[id] == r.(charge := db'.tasks[id].charge)
                  && db'.tasks[id].charge == if r.charge < ev.amount then ev.amount else r.charge)
            && (ev.Bill? ==> w.execs[ev.e].request in db'.keys)
  {}

  /** What the tallies count: claims, hand-backs, and steps after which the status is another. */
  lemma TalliesCount(w: World, ev: Event, id: TaskId)
    requires Enabled(w, ev) && id in w.tally
    ensures id in Apply(w, ev).tally
    ensures var before, after := w.db.tasks, Apply(w, ev).db.tasks; var t, t' := w.tally[id], Apply(w, ev).tally[id];
            && t'.claims == t.claims + (if ev.ClaimTask? && ev.id == id then 1 else 0)
            && t'.releases == t.releases +
                 (if ev.Release? && id in before && before[id].worker == Some(ev.proc) && before[id].status.Running?
                     && !(before[id].requestId.Some? && before[id].requestId.value in w.db.keys) then 1 else 0)
            && t'.changes == t.changes +
                 (if id in before && id in after && before[id].status != after[id].status then 1 else 0)
  {}

  // ----- a lease kept up -----

  /** Execution `e` is on its row's current attempt, and the row's lease has not lapsed. */
  predicate HoldsRow(w: World, e: ExecId) {
    e in w.execs &&
    var x := w.execs[e]; var id := x.request.task;
    && HeldBy(w.db, id, x.worker) && w.db.tasks[id].requestId == Some(x.request)
    && w.db.tasks[id].lease.Some? && w.now <= w.db.tasks[id].lease.value
  }

  /**
   * Time does not pass the lease, so each beat comes before it lapses; the execution and
   * its process go on, the process writes no ending for the task, and nobody cancels or
   * deletes it.  Everything else may happen, of any process.
   */
  predicate Undisturbed(w: World, ev: Event, e: ExecId) {
    HoldsRow(w, e) ==>
      var x := w.execs[e]; var id := x.request.task;
      match ev
      case Tick(t) => t <= w.db.tasks[id].lease.value
      case Beat(f, until) =>
        f in w.execs && w.execs[f].request.task == id && w.execs[f].worker == x.worker ==> w.now <= until
      case Finish(f, _) => f in w.execs ==> w.execs[f].request.task != id || w.execs[f].worker != x.worker
      case End(f) => f != e
      case Crash(p) => p != x.worker
      case CancelTask(j) => j != id
      case Delete(j) => j != id
      case _ => true
  }

  predicate AllUndisturbed(w: World, es: seq<Event>, e: ExecId)
    requires Legal(w, es)
    decreases |es|
  {
    es == [] || (Undisturbed(w, es[0], e) && AllUndisturbed(Apply(w, es[0]), es[1..], e))
  }

  /** No claim, reap or hand-back writes the row: at most a beat or the settlement worker does. */
  lemma UndisturbedMove(w: World, ev: Event, e: ExecId)
    requires Inv(w) && HoldsRow(w, e) && Enabled(w, ev) && Undisturbed(w, ev, e)
    ensures var m := MoveAt(Writes(w, ev), w.execs[e].request.task);
            m.Same? || m.Charged? || (m.Renewed? && w.now <= m.until)
  {
    assert TaskQueue.Running(w, w.execs[e].worker);
  }

  lemma ExecGoesOn(w: World, ev: Event, e: ExecId)
    requires HoldsRow(w, e) && Enabled(w, ev) && Undisturbed(w, ev, e)
    ensures e in Apply(w, ev).execs && Apply(w, ev).execs[e] == w.execs[e]
    ensures Apply(w, ev).now == (if ev.Tick? then ev.time else w.now)
  {}

  lemma StepKeepsRow(w: World, ev: Event, e: ExecId)
    requires Inv(w) && HoldsRow(w, e) && Enabled(w, ev) && Undisturbed(w, ev, e)
    ensures HoldsRow(Apply(w, ev), e)
  {
    var id := w.execs[e].request.task;
    ExecGoesOn(w, ev, e);
    UndisturbedMove(w, ev, e);
    RowEffect(w, ev, id);
    assert Find(Apply(w, ev).db.tasks, id).Some?;
  }

  /**
   * While the beats of an execution land before its lease lapses, its row stays running
   * under its process and its request id: no claim, reap or hand-back takes it, however
   * the rest of the queue moves.
   */
  lemma {:induction false} HeartbeatsKeepTheRow(w: World, es: seq<Event>, e: ExecId)
    requires Inv(w) && HoldsRow(w, e) && Legal(w, es) && AllUndisturbed(w, es, e)
    ensures HoldsRow(Run(w, es), e) && Run(w, es).execs[e] == w.execs[e]
    decreases |es|
  {
    if es != [] {
      StepKeepsInv(w, es[0]);
      StepKeepsRow(w, es[0], e);
      ExecGoesOn(w, es[0], e);
      HeartbeatsKeepTheRow(Apply(w, es[0]), es[1..], e);
    }
  }

  /** The reaper's two statements may choose a running row exactly once its lease is past. */
  lemma ReapedOnceLapsed(w: World, id: TaskId, until: int, t: int)
    requires id in w.db.tasks && w.db.tasks[id].status.Running? && w.db.tasks[id].lease == Some(until) && w.now <= t
    ensures var w' := Apply(w, Tick(t)); var r := w.db.tasks[id];
            && (Enabled(w', ReapFail({id})) <==> until < t)
            && (Enabled(w', ReapRetry({id})) <==>
                  until < t && r.attempt < r.maxAttempts && !(r.requestId.Some? && r.requestId.value in w.db.keys))
            && (forall chosen | id in chosen && Enabled(w', ReapFail(chosen)) :: until < t)
            && (forall chosen | id in chosen && Enabled(w', ReapRetry(chosen)) :: until < t)
  {}

  lemma ClaimedTables(w: World, id: TaskId, p: WorkerId, e: ExecId, until: int)
    requires Enabled(w, ClaimTask(id, p, Some(e), until))
    ensures var w' := Apply(w, ClaimTask(id, p, Some(e), until)); var r := w.db.tasks[id];
            && w'.now == w.now
            && w'.db == w.db.(tasks := w.db.tasks[id := r.(
                 status := Running, worker := Some(p), lease := Some(until), attempt := r.attempt + 1,
                 requestId := Some(RequestId(id, r.attempt + 1)),
                 startedAt := if r.startedAt.Some? then r.startedAt else Some(w.now))])
            && w'.execs == w.execs[e := Exec(p, RequestId(id, r.attempt + 1))]
  {}

  /**
   * A claim gives the row to its execution: running, the next attempt, leased until
   * `until`; nothing else of the tables changes.  The reaper can take it exactly once
   * that time is past.
   */
  lemma ClaimTakesTheRow(w: World, id: TaskId, p: WorkerId, e: ExecId, until: int)
    requires Inv(w) && Enabled(w, ClaimTask(id, p, Some(e), until)) && w.now <= until
    ensures var w' := Apply(w, ClaimTask(id, p, Some(e), until)); var r := w.db.tasks[id];
            && w'.db == w.db.(tasks := w.db.tasks[id := r.(
                 status := Running, worker := Some(p), lease := Some(until), attempt := r.attempt + 1,
                 requestId := Some(RequestId(id, r.attempt + 1)),
                 startedAt := if r.startedAt.Some? then r.startedAt else Some(w.now))])
            && w'.execs == w.execs[e := Exec(p, RequestId(id, r.attempt + 1))]
            && HoldsRow(w', e)
    ensures var w' := Apply(w, ClaimTask(id, p, Some(e), until)); var r := w.db.tasks[id];
            forall t | w'.now <= t :: var w2 := Apply(w', Tick(t));
              && (Enabled(w2, ReapFail({id})) <==> until < t)
              && (Enabled(w2, ReapRetry({id})) <==> until < t && r.attempt + 1 < r.maxAttempts)
              && (forall chosen | id in chosen && Enabled(w2, ReapFail(chosen)) :: until < t)
              && (forall chosen | id in chosen && Enabled(w2, ReapRetry(chosen)) :: until < t)
  {
    ClaimedTables(w, id, p, e, until);
    var w' := Apply(w, ClaimTask(id, p, Some(e), until));
    var next := RequestId(id, w.db.tasks[id].attempt + 1);
    assert next !in w.db.keys;
    forall t | w'.now <= t
      ensures var w2 := Apply(w', Tick(t)); var r := w.db.tasks[id];
              && (Enabled(w2, ReapFail({id})) <==> until < t)
              && (Enabled(w2, ReapRetry({id})) <==> until < t && r.attempt + 1 < r.maxAttempts)
              && (forall chosen | id in chosen && Enabled(w2, ReapFail(chosen)) :: until < t)
              && (forall chosen | id in chosen && Enabled(w2, ReapRetry(chosen)) :: until < t)
    {
      ReapedOnceLapsed(w', id, until, t);
    }
  }

  /** So an execution that beats in time keeps its row from its claim on. */
  lemma ClaimedRowsAreKept(w: World, id: TaskId, p: WorkerId, e: ExecId, until: int, es: seq<Event>)
    requires Inv(w) && Enabled(w, ClaimTask(id, p, Some(e), until)) && w.now <= until
    requires Legal(Apply(w, ClaimTask(id, p, Some(e), until)), es)
    requires AllUndisturbed(Apply(w, ClaimTask(id, p, Some(e), until)), es, e)
    ensures var w' := Run(Apply(w, ClaimTask(id, p, Some(e), until)), es);
            && e in w'.execs && id in w'.db.tasks && w'.db.tasks[id].status.Running?
            && w'.db.tasks[id].worker == Some(p)
            && w'.db.tasks[id].requestId == Some(RequestId(id, w.db.tasks[id].attempt + 1))
            && w'.db.tasks[id].lease.Some? && w'.now <= w'.db.tasks[id].lease.value
  {
    StepKeepsInv(w, ClaimTask(id, p, Some(e), until));
    ClaimTakesTheRow(w, id, p, e, until);
    HeartbeatsKeepTheRow(Apply(w, ClaimTask(id, p, Some(e), until)), es, e);
  }

  // ----- billing at most once -----

  /** Billing happens only while the row is running under the execution's own request id. */
  predicate InWindow(w: World, ev: Event)
    requires Enabled(w, ev)
  {
    ev.Bill? ==>
      var q := w.execs[ev.e].request;
      q.task in w.db.tasks && w.db.tasks[q.task].status.Running? && w.db.tasks[q.task].requestId == Some(q)
  }

  predicate BillsInWindow(w: World, es: seq<Event>)
    requires Legal(w, es)
    decreases |es|
  {
    es == [] || (InWindow(w, es[0]) && BillsInWindow(Apply(w, es[0]), es[1..]))
  }

  ghost predicate BilledOnce(w: World) {
    && (forall k, l | k in w.db.keys && l in w.db.keys && k.task == l.task :: k == l)
    && (forall k | k in w.db.keys && k.task in w.db.tasks ::
          !w.db.tasks[k.task].status.Pending? && w.db.tasks[k.task].requestId == Some(k))
  }

  lemma BilledRowKept(db: Db, id: TaskId, r: Task, m: Move, now: int, k: RequestId)
    requires Starts(db, m, Some(r)) && k in db.keys && r.requestId == Some(k) && !r.status.Pending?
    ensures var r' := RowAfter(id, Some(r), m, now);
            r'.Some? ==> !r'.value.status.Pending? && r'.value.requestId == Some(k)
  {}

  /** A step bills at most one id, that of a row running under it. */
  ghost predicate BillStep(w: World, w': World) {
    && (forall k | k in w'.db.keys && k !in w.db.keys ::
          k.task in w.db.tasks && w.db.tasks[k.task].status.Running? && w.db.tasks[k.task].requestId == Some(k))
    && (forall k, l | k in w'.db.keys && k !in w.db.keys && l in w'.db.keys && l !in w.db.keys :: k == l)
  }

  lemma StepBillsOnce(w: World, mv: map<TaskId, Move>, w': World)
    requires w.db.tasks.Keys <= w.minted && (forall k | k in w.db.keys :: k.task in w.minted)
    requires BilledOnce(w) && RowStep(w, mv, w') && KeyStep(w, mv, w') && BillStep(w, w')
    ensures BilledOnce(w')
  {
    forall k | k in w'.db.keys && k.task in w'.db.tasks
      ensures !w'.db.tasks[k.task].status.Pending? && w'.db.tasks[k.task].requestId == Some(k)
    {
      assert Find(w'.db.tasks, k.task) == RowAfter(k.task, Find(w.db.tasks, k.task), MoveAt(mv, k.task), w.now);
      if k in w.db.keys && k.task in w.db.tasks {
        BilledRowKept(w.db, k.task, w.db.tasks[k.task], MoveAt(mv, k.task), w.now, k);
      }
    }
  }

  lemma IsBillStep(w: World, ev: Event)
    requires Enabled(w, ev) && InWindow(w, ev)
    ensures BillStep(w, Apply(w, ev))
  {}

  lemma EventBillsOnce(w: World, ev: Event)
    requires w.db.tasks.Keys <= w.minted && (forall k | k in w.db.keys :: k.task in w.minted)
    requires BilledOnce(w) && Enabled(w, ev) && InWindow(w, ev)
    ensures BilledOnce(Apply(w, ev))
  {
    IsRowStep(w, ev);
    IsKeyStep(w, ev);
    IsBillStep(w, ev);
    StepBillsOnce(w, Writes(w, ev), Apply(w, ev));
  }

  lemma {:induction false} RunBillsOnce(w: World, es: seq<Event>)
    requires Inv(w) && BilledOnce(w) && Legal(w, es) && BillsInWindow(w, es)
    ensures BilledOnce(Run(w, es))
    decreases |es|
  {
    if es != [] {
      StepKeepsInv(w, es[0]);
      EventBillsOnce(w, es[0]);
      RunBillsOnce(Apply(w, es[0]), es[1..]);
    }
  }

  /**
   * A task gathers at most one billed request id in its life, and a billed task never
   * returns to pending, so it is never claimed and charged again.
   */
  lemma BilledAtMostOnce(es: seq<Event>, k: RequestId, l: RequestId)
    requires Legal(EMPTY, es) && BillsInWindow(EMPTY, es)
    requires k in Run(EMPTY, es).db.keys && l in Run(EMPTY, es).db.keys && k.task == l.task
    ensures k == l
    ensures var w := Run(EMPTY, es);
            k.task in w.db.tasks ==> !w.db.tasks[k.task].status.Pending? && w.db.tasks[k.task].requestId == Some(k)
  {
    EmptyBillsNothing();
    RunBillsOnce(EMPTY, es);
    var w := Run(EMPTY, es);
    assert BilledOnce(w);
  }

  lemma EmptyBillsNothing()
    ensures Inv(EMPTY) && BilledOnce(EMPTY)
  {}

  /**
   * The window matters: two attempts of one task that both still execute can each bill,
   * under different ids, and then the task is billed twice.  Only one of the two can be
   * billing in its window.
   */
  lemma OverlappingAttemptsBillTwice(w: World, e: ExecId, f: ExecId)
    requires Reachable(w) && e in w.execs && f in w.execs && e != f
    requires w.execs[e].request.task == w.execs[f].request.task
    ensures Enabled(w, Bill(e)) && Enabled(Apply(w, Bill(e)), Bill(f))
    ensures !BilledOnce(Apply(Apply(w, Bill(e)), Bill(f)))
    ensures !(InWindow(w, Bill(e)) && InWindow(w, Bill(f)))
  {
    RequestIdsAreDistinct(w);
    var w2 := Apply(Apply(w, Bill(e)), Bill(f));
    assert w.execs[e].request in w2.db.keys && w.execs[f].request in w2.db.keys;
  }
}
