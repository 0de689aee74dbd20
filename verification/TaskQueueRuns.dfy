/** Building runs of the queue step by step. */
module TaskQueueRuns {
  import opened Common
  import opened TaskModel
  import opened TaskQueue

  lemma Cons(w: World, ev: Event, es: seq<Event>)
    requires Enabled(w, ev) && Legal(Apply(w, ev), es)
    ensures Legal(w, [ev] + es) && Run(w, [ev] + es) == Run(Apply(w, ev), es)
  {
    assert ([ev] + es)[1..] == es;
  }

  // ----- the four steps used, seen from the task they are about -----

  /** What the steps below leave alone. */
  predicate Around(w: World, w': World) {
    w'.procs == w.procs && w'.minted == w.minted && w'.db.keys == w.db.keys
  }

  lemma Ticks(w: World, time: int)
    requires w.now <= time
    ensures var w' := Apply(w, Tick(time)); Around(w, w') && w'.db == w.db && w'.execs == w.execs && w'.now == time
  {}

  lemma Claims(w: World, id: TaskId, p: WorkerId, exec: Option<ExecId>, until: int)
    requires Enabled(w, ClaimTask(id, p, exec, until))
    ensures var w' := Apply(w, ClaimTask(id, p, exec, until));
            && Around(w, w') && w'.now == w.now
            && Find(w'.db.tasks, id) == Some(ClaimedRow(id, w.db.tasks[id], p, until, w.now))
            && w'.execs == (if exec.Some? then w.execs[exec.value := Exec(p, RequestId(id, w.db.tasks[id].attempt + 1))]
                            else w.execs)
  {}

  lemma Requeues(w: World, id: TaskId)
    requires Enabled(w, ReapRetry({id})) && id in w.db.tasks
    ensures var w' := Apply(w, ReapRetry({id}));
            && Around(w, w') && w'.now == w.now && w'.execs == w.execs
            && Find(w'.db.tasks, id) == Some(RequeuedRow(w.db.tasks[id], w.now))
  {}

  lemma Fails(w: World, id: TaskId)
    requires Enabled(w, ReapFail({id})) && id in w.db.tasks
    ensures Find(Apply(w, ReapFail({id})).db.tasks, id) == Some(LostRow(w.db.tasks[id], w.now))
  {}

  lemma {:induction false} RunsJoin(w: World, a: seq<Event>, b: seq<Event>)
    requires Legal(w, a) && Legal(Run(w, a), b)
    ensures Legal(w, a + b) && Run(w, a + b) == Run(Run(w, a), b)
    decreases |a|
  {
    if a == [] {
      assert a + b == b;
    } else {
      RunsJoin(Apply(w, a[0]), a[1..], b);
      assert (a + b)[1..] == a[1..] + b;
    }
  }
}
