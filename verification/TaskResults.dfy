/** What a caller reads back: the handler's result, over every run after it was written. */
module TaskResults {
  import opened Common
  import opened TaskModel
  import opened TaskQueue
  import opened TaskQueueTheorems
  import Engine

  /** What a finished run leaves in the row. */
  predicate Shows(r: Task, e: Engine.Ending, at: int) {
    var answered := e.Returned? && !e.status.ReturnsOther?;
    && r.status == (if e.Returned? && e.status.ReturnsCompleted? then Completed else Failed)
    && r.output == (if answered then e.output else "")
    && r.errorCode ==
         (if e.SubjectGone? then "subject_unavailable"
          else if answered && e.failure.Some? then e.failure.value
          else if r.status.Completed? then "" else "task_execution_failed")
    && (answered ==> e.charge <= r.charge)
    && r.completedAt == Some(at)
  }

  /** The row's own execution writes its ending: the row shows it and carries the execution's request id. */
  lemma FinishShows(w: World, x: ExecId, registeredMax: nat, e: Engine.Ending)
    requires Inv(w) && HoldsRow(w, x)
    requires Engine.TerminalWrite(w.execs[x].request.attempt, registeredMax, e).Some?
    ensures var write := Engine.TerminalWrite(w.execs[x].request.attempt, registeredMax, e).value;
            var id := w.execs[x].request.task; var w' := Apply(w, Finish(x, write));
            && Enabled(w, Finish(x, write)) && id in w'.db.tasks
            && Shows(w'.db.tasks[id], e, w.now) && w'.db.tasks[id].requestId == Some(w.execs[x].request)
            && w'.db.tasks[id].input == w.db.tasks[id].input
  {
    var id := w.execs[x].request.task;
    Engine.RunEndsOrLeavesToReaper(
      w.db, id, w.execs[x].worker, registeredMax, e, w.now, w.db.tasks[id].lease.value + 1);
  }

  /**
   * The result an execution writes while it holds its row is what every later read of the
   * task shows, whatever else runs: no other process, reap, cancellation or late send
   * overwrites it, and the row names the attempt that produced it.
   */
  lemma ResultIsKept(w: World, x: ExecId, registeredMax: nat, e: Engine.Ending, es: seq<Event>)
    requires Inv(w) && HoldsRow(w, x)
    requires var write := Engine.TerminalWrite(w.execs[x].request.attempt, registeredMax, e);
             write.Some? && Legal(Apply(w, Finish(x, write.value)), es)
    ensures var write := Engine.TerminalWrite(w.execs[x].request.attempt, registeredMax, e).value;
            var id := w.execs[x].request.task; var w' := Run(Apply(w, Finish(x, write)), es);
            id in w'.db.tasks ==>
              && Shows(w'.db.tasks[id], e, w.now) && w'.db.tasks[id].requestId == Some(w.execs[x].request)
              && w'.db.tasks[id].input == w.db.tasks[id].input
              && (id in w'.db.deliveries <==> w'.db.tasks[id].webhook != "")
              && (id in w'.db.deliveries ==> w'.db.deliveries[id].event == w'.db.tasks[id].status)
  {
    var write := Engine.TerminalWrite(w.execs[x].request.attempt, registeredMax, e).value;
    var id := w.execs[x].request.task;
    var w1 := Apply(w, Finish(x, write));
    FinishShows(w, x, registeredMax, e);
    StepKeepsInv(w, Finish(x, write));
    RunKeepsInv(w1, es);
    if id in Run(w1, es).db.tasks {
      TerminalIsForever(w1, es, id);
      assert Matched(Find(Run(w1, es).db.tasks, id), Find(Run(w1, es).db.deliveries, id));
    }
  }
}
