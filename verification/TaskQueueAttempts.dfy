/** What allowing a task more than one attempt costs: overlaps, double billing, unreachable runs. */
module TaskQueueAttempts {
  import opened Common
  import opened TaskModel
  import opened TaskQueue
  import opened TaskQueueTheorems
  import opened TaskQueueRuns
  import E = Engine

  // ----- one attempt is safe -----

  predicate OneAttempt(w: World, id: TaskId) {
    && (id in w.db.tasks ==> w.db.tasks[id].maxAttempts == 1)
    && (forall e | e in w.execs && w.execs[e].request.task == id :: w.execs[e].request.attempt == 1)
    && (forall k | k in w.db.keys && k.task == id :: k.attempt == 1)
  }

  predicate SubmittedOnce(ev: Event, id: TaskId) { ev.Submit? && ev.id == id ==> ev.rec.maxAttempts == 1 }

  lemma BoundStays(id: TaskId, r: Option<Task>, m: Move, now: int)
    requires RowAfter(id, r, m, now).Some? && !m.Born?
    ensures r.Some? && RowAfter(id, r, m, now).value.maxAttempts == r.value.maxAttempts
  {}

  lemma RowStaysOne(w: World, ev: Event, id: TaskId)
    requires RowsOk(w) && Enabled(w, ev) && OneAttempt(w, id) && SubmittedOnce(ev, id) && id in Apply(w, ev).db.tasks
    ensures Apply(w, ev).db.tasks[id].maxAttempts == 1
  {
    RowEffect(w, ev, id);
    var m := MoveAt(Writes(w, ev), id);
    assert Find(Apply(w, ev).db.tasks, id) == RowAfter(id, Find(w.db.tasks, id), m, w.now);
    if m.Born? {
      BornAsSubmitted(w, ev, id);
    } else {
      BoundStays(id, Find(w.db.tasks, id), m, w.now);
    }
  }

  lemma BornAsSubmitted(w: World, ev: Event, id: TaskId)
    requires MoveAt(Writes(w, ev), id).Born?
    ensures ev.Submit? && ev.id == id && MoveAt(Writes(w, ev), id).rec == ev.rec
  {}

  /** A new execution is on its pending row's next attempt, so the first. */
  lemma ExecsStayOne(w: World, mv: map<TaskId, Move>, w': World, id: TaskId)
    requires RowsOk(w) && OneAttempt(w, id) && RowStep(w, mv, w') && ExecStep(w, mv, w')
    ensures forall e | e in w'.execs && w'.execs[e].request.task == id :: w'.execs[e].request.attempt == 1
  {
    forall e | e in w'.execs && e !in w.execs && w'.execs[e].request.task == id
      ensures w'.execs[e].request.attempt == 1
    {
      assert Starts(w.db, MoveAt(mv, id), Find(w.db.tasks, id));
      assert RowOk(id, w.db.tasks[id]);
    }
  }

  lemma KeysStayOne(w: World, mv: map<TaskId, Move>, w': World, id: TaskId)
    requires OneAttempt(w, id) && KeyStep(w, mv, w')
    ensures forall k | k in w'.db.keys && k.task == id :: k.attempt == 1
  {}

  lemma StepKeepsOne(w: World, ev: Event, id: TaskId)
    requires Inv(w) && Enabled(w, ev) && OneAttempt(w, id) && SubmittedOnce(ev, id)
    ensures OneAttempt(Apply(w, ev), id)
  {
    IsStep(w, ev);
    if id in Apply(w, ev).db.tasks {
      RowStaysOne(w, ev, id);
    }
    ExecsStayOne(w, Writes(w, ev), Apply(w, ev), id);
    KeysStayOne(w, Writes(w, ev), Apply(w, ev), id);
  }

  lemma {:induction false} RunKeepsOne(w: World, es: seq<Event>, id: TaskId)
    requires Inv(w) && Legal(w, es) && OneAttempt(w, id) && forall ev | ev in es :: SubmittedOnce(ev, id)
    ensures Inv(Run(w, es)) && OneAttempt(Run(w, es), id)
    decreases |es|
  {
    if es != [] {
      assert es[0] in es;
      StepKeepsInv(w, es[0]);
      StepKeepsOne(w, es[0], id);
      RunKeepsOne(Apply(w, es[0]), es[1..], id);
    }
  }

  lemma SingleAttempt(w: World, id: TaskId)
    requires Inv(w) && OneAttempt(w, id)
    ensures forall e, f | e in w.execs && f in w.execs
              && w.execs[e].request.task == id == w.execs[f].request.task :: e == f
    ensures forall k, l | k in w.db.keys && l in w.db.keys && k.task == id == l.task :: k == l
  {
    forall e | e in w.execs && w.execs[e].request.task == id ensures w.execs[e].request == RequestId(id, 1) {}
    forall k | k in w.db.keys && k.task == id ensures k == RequestId(id, 1) {}
  }

  /**
   * A task submitted with one attempt, whatever else the queue holds: it never has two
   * executions at once, whoever crashes or stops, and is billed under one id at most.
   */
  lemma OneAttemptIsSafe(es: seq<Event>, id: TaskId)
    requires Legal(EMPTY, es) && forall ev | ev in es :: SubmittedOnce(ev, id)
    ensures var w := Run(EMPTY, es);
            && (forall e, f | e in w.execs && f in w.execs
                  && w.execs[e].request.task == id == w.execs[f].request.task :: e == f)
            && (forall k, l | k in w.db.keys && l in w.db.keys && k.task == id == l.task :: k == l)
  {
    EmptyInv();
    RunKeepsOne(EMPTY, es, id);
    SingleAttempt(Run(EMPTY, es), id);
  }

  // ----- two are not -----

  predicate SubmitsAtMost(es: seq<Event>, m: nat) { forall ev | ev in es && ev.Submit? :: ev.rec.maxAttempts <= m }

  ghost predicate Overlap(w: World, e: ExecId, f: ExecId) {
    && e in w.execs && f in w.execs && e != f && w.execs[e].worker == w.execs[f].worker
    && w.execs[e].request.task == w.execs[f].request.task
  }

  /** A pending row, an attempt of which is still executing, is claimed again by the same process. */
  lemma ClaimedAgain(w: World, id: TaskId, p: WorkerId, e: ExecId, f: ExecId)
    requires Enabled(w, ClaimTask(id, p, Some(f), w.now + 60)) && e in w.execs && f !in w.execs
    requires w.execs[e].worker == p && w.execs[e].request.task == id
    ensures Overlap(Apply(w, ClaimTask(id, p, Some(f), w.now + 60)), e, f)
  {
    Claims(w, id, p, Some(f), w.now + 60);
  }

  /** An orphan whose execution is still going is requeued, and its backoff passes. */
  lemma RequeuedAndDue(w: World, id: TaskId, p: WorkerId) returns (es: seq<Event>)
    requires id in w.db.tasks && Retryable(w.db, w.db.tasks[id], w.now) && TaskQueue.Running(w, p)
    ensures Legal(w, es) && forall ev | ev in es :: !ev.Submit?
    ensures var w' := Run(w, es);
            && w'.execs == w.execs && TaskQueue.Running(w', p)
            && id in w'.db.tasks && w'.db.tasks[id].status.Pending? && w'.db.tasks[id].availableAt <= w'.now
  {
    Requeues(w, id);
    var w1 := Apply(w, ReapRetry({id}));
    assert Find(w1.db.tasks, id).Some?;
    var ready := Max(w1.now, w1.db.tasks[id].availableAt);
    Ticks(w1, ready);
    Cons(w1, Tick(ready), []);
    Cons(w, ReapRetry({id}), [Tick(ready)] + []);
    es := [ReapRetry({id})] + ([Tick(ready)] + []);
  }

  lemma SecondAttempt(w: World, id: TaskId, p: WorkerId, e: ExecId, f: ExecId) returns (es: seq<Event>)
    requires id in w.db.tasks && Retryable(w.db, w.db.tasks[id], w.now) && TaskQueue.Running(w, p)
    requires e in w.execs && w.execs[e].worker == p && w.execs[e].request.task == id && f !in w.execs
    ensures Legal(w, es) && Overlap(Run(w, es), e, f) && forall ev | ev in es :: !ev.Submit?
  {
    var first := RequeuedAndDue(w, id, p);
    var w' := Run(w, first);
    ClaimedAgain(w', id, p, e, f);
    var claim := ClaimTask(id, p, Some(f), w'.now + 60);
    Cons(w', claim, []);
    RunsJoin(w, first, [claim] + []);
    es := first + ([claim] + []);
  }

  lemma Submitted(m: nat, id: TaskId, p: WorkerId) returns (es: seq<Event>)
    requires m >= 1
    ensures Legal(EMPTY, es) && SubmitsAtMost(es, m)
    ensures var w := Run(EMPTY, es);
            && id in w.db.tasks && w.db.tasks[id].status.Pending? && w.db.tasks[id].availableAt <= w.now == 0
            && w.db.tasks[id].attempt == 0 && w.db.tasks[id].maxAttempts == m
            && w.execs == map[] && w.db.keys == {} && TaskQueue.Running(w, p)
  {
    var submit := Submit(id, InsertRecord("t", "tenant", "in", None, "", m, 86400), 0);
    Cons(Apply(EMPTY, Boot(p)), submit, []);
    Cons(EMPTY, Boot(p), [submit] + []);
    es := [Boot(p)] + ([submit] + []);
  }

  /** A task submitted with `m` attempts and claimed, whose lease of a minute has lapsed. */
  lemma FirstAttempt(m: nat, id: TaskId, p: WorkerId, e: ExecId) returns (es: seq<Event>)
    requires m >= 2
    ensures Legal(EMPTY, es) && SubmitsAtMost(es, m)
    ensures var w := Run(EMPTY, es);
            && id in w.db.tasks && Retryable(w.db, w.db.tasks[id], w.now) && TaskQueue.Running(w, p)
            && w.execs == map[e := Exec(p, RequestId(id, 1))]
  {
    var first := Submitted(m, id, p);
    var rest := ClaimedAndLapsed(Run(EMPTY, first), id, p, e);
    RunsJoin(EMPTY, first, rest);
    es := first + rest;
  }

  lemma ClaimedAndLapsed(w: World, id: TaskId, p: WorkerId, e: ExecId) returns (es: seq<Event>)
    requires id in w.db.tasks && w.db.tasks[id].status.Pending? && w.db.tasks[id].availableAt <= w.now
    requires w.db.tasks[id].attempt == 0 && w.db.tasks[id].maxAttempts >= 2 && w.db.keys == {}
    requires w.execs == map[] && TaskQueue.Running(w, p)
    ensures Legal(w, es) && forall ev | ev in es :: !ev.Submit?
    ensures var w' := Run(w, es);
            && id in w'.db.tasks && Retryable(w'.db, w'.db.tasks[id], w'.now) && TaskQueue.Running(w', p)
            && w'.execs == map[e := Exec(p, RequestId(id, 1))]
  {
    var claim := ClaimTask(id, p, Some(e), w.now + 60);
    Claims(w, id, p, Some(e), w.now + 60);
    var w1 := Apply(w, claim);
    assert Find(w1.db.tasks, id).Some?;
    Ticks(w1, w.now + 61);
    Cons(w1, Tick(w.now + 61), []);
    Cons(w, claim, [Tick(w.now + 61)] + []);
    es := [claim] + ([Tick(w.now + 61)] + []);
  }

  /** With two attempts or more they can overlap in one process: claim, lapse, requeue, claim again. */
  lemma AttemptsCanOverlap(m: nat) returns (es: seq<Event>, e: ExecId, f: ExecId)
    requires m >= 2
    ensures Legal(EMPTY, es) && SubmitsAtMost(es, m) && Overlap(Run(EMPTY, es), e, f)
  {
    e, f := ExecId(1), ExecId(2);
    var first := FirstAttempt(m, TaskId(1), WorkerId(1), e);
    var second := SecondAttempt(Run(EMPTY, first), TaskId(1), WorkerId(1), e, f);
    RunsJoin(EMPTY, first, second);
    es := first + second;
  }

  lemma ReachedBy(es: seq<Event>)
    requires Legal(EMPTY, es)
    ensures Reachable(Run(EMPTY, es))
  {}

  /** And both can bill: a run in which a task is billed under two ids. */
  lemma BothCanBill(m: nat) returns (es: seq<Event>)
    requires m >= 2
    ensures Legal(EMPTY, es) && SubmitsAtMost(es, m)
    ensures exists k, l :: k in Run(EMPTY, es).db.keys && l in Run(EMPTY, es).db.keys && k != l && k.task == l.task
  {
    var first, e, f := AttemptsCanOverlap(m);
    var w := Run(EMPTY, first);
    ReachedBy(first);
    RequestIdsAreDistinct(w);
    Cons(Apply(w, Bill(e)), Bill(f), []);
    Cons(w, Bill(e), [Bill(f)] + []);
    RunsJoin(EMPTY, first, [Bill(e)] + ([Bill(f)] + []));
    es := first + ([Bill(e)] + ([Bill(f)] + []));
    var w2 := Apply(Apply(w, Bill(e)), Bill(f));
    assert w.execs[e].request in w2.db.keys && w.execs[f].request in w2.db.keys;
  }

  // ----- exactly when -----

  ghost predicate NoOverlap(w: World) {
    forall e, f | e in w.execs && f in w.execs && w.execs[e].request.task == w.execs[f].request.task :: e == f
  }

  ghost predicate OneBill(w: World) {
    forall k, l | k in w.db.keys && l in w.db.keys && k.task == l.task :: k == l
  }

  lemma AllSafe(es: seq<Event>)
    requires Legal(EMPTY, es) && SubmitsAtMost(es, 1)
    ensures NoOverlap(Run(EMPTY, es)) && OneBill(Run(EMPTY, es))
  {
    BoundsAreOne(EMPTY, es);
    forall e, f | e in Run(EMPTY, es).execs && f in Run(EMPTY, es).execs
        && Run(EMPTY, es).execs[e].request.task == Run(EMPTY, es).execs[f].request.task
      ensures e == f
    {
      OneAttemptIsSafe(es, Run(EMPTY, es).execs[e].request.task);
    }
    forall k, l | k in Run(EMPTY, es).db.keys && l in Run(EMPTY, es).db.keys && k.task == l.task ensures k == l {
      OneAttemptIsSafe(es, k.task);
    }
  }

  /** Submissions carry at least one attempt, as registration makes sure. */
  lemma {:induction false} BoundsAreOne(w: World, es: seq<Event>)
    requires Legal(w, es) && SubmitsAtMost(es, 1)
    ensures forall ev | ev in es && ev.Submit? :: ev.rec.maxAttempts == 1
    decreases |es|
  {
    if es != [] {
      assert es[0] in es;
      BoundsAreOne(Apply(w, es[0]), es[1..]);
      assert es == [es[0]] + es[1..];
    }
  }

  /** Attempts of a task never overlap, in any run, exactly when no type allows more than one. */
  lemma NeverOverlapsIffOneAttempt(m: nat)
    requires m >= 1
    ensures (forall es | Legal(EMPTY, es) && SubmitsAtMost(es, m) :: NoOverlap(Run(EMPTY, es))) <==> m == 1
  {
    if m == 1 {
      forall es | Legal(EMPTY, es) && SubmitsAtMost(es, m) ensures NoOverlap(Run(EMPTY, es)) {
        AllSafe(es);
      }
    } else {
      var es, e, f := AttemptsCanOverlap(m);
      assert !NoOverlap(Run(EMPTY, es));
    }
  }

  /** A task gathers at most one billed id, in any run, exactly when no type allows more than one attempt. */
  lemma BilledOnceIffOneAttempt(m: nat)
    requires m >= 1
    ensures (forall es | Legal(EMPTY, es) && SubmitsAtMost(es, m) :: OneBill(Run(EMPTY, es))) <==> m == 1
  {
    if m == 1 {
      forall es | Legal(EMPTY, es) && SubmitsAtMost(es, m) ensures OneBill(Run(EMPTY, es)) {
        AllSafe(es);
      }
    } else {
      var es := BothCanBill(m);
      assert !OneBill(Run(EMPTY, es));
    }
  }

  // ----- cancelling -----

  const NO_HANDLES: E.Handles := E.Handles(map[], map[])

  /** What a step does to the cancel handles of process `p`: a crash takes the map with it. */
  function HandlesAfter(w: World, ev: Event, p: WorkerId, h: E.Handles): E.Handles {
    match ev
    case ClaimTask(id, q, exec, _) =>
      if q == p && exec.Some? then E.HandleStep(h, E.Register(E.RunId(exec.value.num), id)) else h
    case End(e) =>
      if e in w.execs && w.execs[e].worker == p then E.HandleStep(h, E.Unregister(E.RunId(e.num))) else h
    case Crash(q) => if q == p then NO_HANDLES else h
    case _ => h
  }

  /** Along the whole run, Cancel reaches every execution `p` has. */
  ghost predicate CancelReaches(w: World, es: seq<Event>, p: WorkerId, h: E.Handles)
    requires Legal(w, es)
    decreases |es|
  {
    && E.Reachable(h)
    && (es != [] ==> CancelReaches(Apply(w, es[0]), es[1..], p, HandlesAfter(w, es[0], p, h)))
  }

  /** The live runs the handles know are the executions of the process. */
  ghost predicate Mirrors(w: World, p: WorkerId, h: E.Handles) {
    && (forall e | e in w.execs && w.execs[e].worker == p ::
          E.RunId(e.num) in h.live && h.live[E.RunId(e.num)] == w.execs[e].request.task)
    && (forall run | run in h.live ::
          var e := ExecId(run.num);
          e in w.execs && w.execs[e].worker == p && h.live[run] == w.execs[e].request.task)
  }

  lemma StepKeepsMirror(w: World, ev: Event, p: WorkerId, h: E.Handles)
    requires Enabled(w, ev) && Mirrors(w, p, h)
    ensures Mirrors(Apply(w, ev), p, HandlesAfter(w, ev, p, h))
  {
    forall e: ExecId ensures e == ExecId(e.num) {}
    forall run: E.RunId ensures run == E.RunId(run.num) {}
    if ev.ClaimTask? {
      ClaimKeepsMirror(w, ev, p, h);
    } else {
      assert Apply(w, ev).execs == ExecsAfter(w, ev);
      ExecsKeepMirror(w, ev, p, h);
    }
  }

  lemma ClaimKeepsMirror(w: World, ev: Event, p: WorkerId, h: E.Handles)
    requires Enabled(w, ev) && ev.ClaimTask? && Mirrors(w, p, h)
    ensures Mirrors(Apply(w, ev), p, HandlesAfter(w, ev, p, h))
  {
    forall e: ExecId ensures e == ExecId(e.num) {}
    forall run: E.RunId ensures run == E.RunId(run.num) {}
  }

  /** Executions that end, alone or with their process, unregister. */
  lemma ExecsKeepMirror(w: World, ev: Event, p: WorkerId, h: E.Handles)
    requires Enabled(w, ev) && !ev.ClaimTask? && Mirrors(w, p, h)
    ensures Mirrors(w.(execs := ExecsAfter(w, ev)), p, HandlesAfter(w, ev, p, h))
  {
    forall e: ExecId ensures e == ExecId(e.num) {}
    forall run: E.RunId ensures run == E.RunId(run.num) {}
  }

  /** Without overlaps every step leaves each live run its handle. */
  lemma StepKeepsReach(w: World, ev: Event, p: WorkerId, h: E.Handles)
    requires Enabled(w, ev) && Mirrors(w, p, h) && E.Reachable(h) && NoOverlap(w) && NoOverlap(Apply(w, ev))
    ensures E.Reachable(HandlesAfter(w, ev, p, h))
  {
    StepKeepsMirror(w, ev, p, h);
    var h' := HandlesAfter(w, ev, p, h);
    forall run | run in h'.live ensures h'.live[run] in h'.handles && h'.handles[h'.live[run]] == run {
      LiveRunsDiffer(w, p, h);
      LiveRunsDiffer(Apply(w, ev), p, h');
    }
  }

  lemma LiveRunsDiffer(w: World, p: WorkerId, h: E.Handles)
    requires Mirrors(w, p, h) && NoOverlap(w)
    ensures E.NoOverlap(h)
  {
    forall a, b | a in h.live && b in h.live && h.live[a] == h.live[b] ensures a == b {
      assert ExecId(a.num) == ExecId(b.num);
      assert a == E.RunId(a.num) && b == E.RunId(b.num);
    }
  }

  ghost predicate AllOne(w: World) { forall id :: OneAttempt(w, id) }

  lemma AllOneNoOverlap(w: World)
    requires Inv(w) && AllOne(w)
    ensures NoOverlap(w)
  {
    forall e, f | e in w.execs && f in w.execs && w.execs[e].request.task == w.execs[f].request.task ensures e == f {
      assert OneAttempt(w, w.execs[e].request.task);
      SingleAttempt(w, w.execs[e].request.task);
    }
  }

  lemma {:induction false} RunReaches(w: World, es: seq<Event>, p: WorkerId, h: E.Handles)
    requires Inv(w) && AllOne(w) && Legal(w, es) && Mirrors(w, p, h) && E.Reachable(h)
    requires forall ev | ev in es && ev.Submit? :: ev.rec.maxAttempts == 1
    ensures CancelReaches(w, es, p, h)
    decreases |es|
  {
    if es != [] {
      assert es[0] in es;
      var w1 := Apply(w, es[0]);
      StepKeepsInv(w, es[0]);
      forall id ensures OneAttempt(w1, id) {
        assert OneAttempt(w, id);
        StepKeepsOne(w, es[0], id);
      }
      AllOneNoOverlap(w);
      AllOneNoOverlap(w1);
      StepKeepsMirror(w, es[0], p, h);
      StepKeepsReach(w, es[0], p, h);
      RunReaches(w1, es[1..], p, HandlesAfter(w, es[0], p, h));
    }
  }

  lemma {:induction false} ReachedAtTheEnd(w: World, es: seq<Event>, p: WorkerId, h: E.Handles) returns (h': E.Handles)
    requires Legal(w, es) && Mirrors(w, p, h) && CancelReaches(w, es, p, h)
    ensures Mirrors(Run(w, es), p, h') && E.Reachable(h')
    decreases |es|
  {
    if es == [] {
      h' := h;
    } else {
      StepKeepsMirror(w, es[0], p, h);
      h' := ReachedAtTheEnd(Apply(w, es[0]), es[1..], p, HandlesAfter(w, es[0], p, h));
    }
  }

  lemma OverlapIsNotReached(w: World, e: ExecId, f: ExecId, h: E.Handles)
    requires Overlap(w, e, f) && Mirrors(w, w.execs[e].worker, h)
    ensures !E.Reachable(h)
  {
    assert e == ExecId(e.num) && f == ExecId(f.num);
    assert E.RunId(e.num) in h.live && E.RunId(f.num) in h.live && E.RunId(e.num) != E.RunId(f.num);
  }

  lemma OneAttemptIsReached(es: seq<Event>, p: WorkerId)
    requires Legal(EMPTY, es) && SubmitsAtMost(es, 1)
    ensures CancelReaches(EMPTY, es, p, NO_HANDLES)
  {
    EmptyInv();
    BoundsAreOne(EMPTY, es);
    RunReaches(EMPTY, es, p, NO_HANDLES);
  }

  lemma TwoAttemptsAreNot(m: nat) returns (es: seq<Event>, p: WorkerId)
    requires m >= 2
    ensures Legal(EMPTY, es) && SubmitsAtMost(es, m) && !CancelReaches(EMPTY, es, p, NO_HANDLES)
  {
    var e, f;
    es, e, f := AttemptsCanOverlap(m);
    var w := Run(EMPTY, es);
    p := w.execs[e].worker;
    if CancelReaches(EMPTY, es, p, NO_HANDLES) {
      var h := ReachedAtTheEnd(EMPTY, es, p, NO_HANDLES);
      OverlapIsNotReached(w, e, f, h);
    }
  }

  /** Cancel reaches every execution of every process, all along every run, exactly when no type allows two attempts. */
  lemma CancelReachesIffOneAttempt(m: nat)
    requires m >= 1
    ensures (forall es, p | Legal(EMPTY, es) && SubmitsAtMost(es, m) :: CancelReaches(EMPTY, es, p, NO_HANDLES))
            <==> m == 1
  {
    if m == 1 {
      forall es, p | Legal(EMPTY, es) && SubmitsAtMost(es, m) ensures CancelReaches(EMPTY, es, p, NO_HANDLES) {
        OneAttemptIsReached(es, p);
      }
    } else {
      var es, p := TwoAttemptsAreNot(m);
      assert !CancelReaches(EMPTY, es, p, NO_HANDLES);
    }
  }
}
