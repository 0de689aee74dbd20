/**
 * Submission, statement by statement, against everything else the queue does: the
 * advisory lock, the counting insert, the duplicate check, the commit, and the lookup
 * that resolves a reused idempotency key.
 */
module Admission {
  import opened Common
  import opened TaskModel
  import Q = TaskQueue
  import opened ClaimQuery

  datatype SubId = SubId(num: int)

  datatype Answer =
    | Created(id: TaskId)
    | Existing(id: TaskId)           // a duplicate resolved to the original task
    | TooMany                        // 429 too_many_tasks_in_flight
    | KeyReused                      // 409 idempotency_key_reuse
    | KeyReleased                    // 409 idempotency_key_conflict
    | Aborted

  /**
   * `NoRow` remembers, for the statements about 429s only, whether the tenant had room
   * when it was counted and which committed row the insert conflicted with.
   */
  datatype Phase =
    | Waiting
    | Locked
    | Staged(id: TaskId)
    | NoRow(hadRoom: bool, rival: Option<TaskId>)
    | Lookup
    | Done(answer: Answer)

  /** `began` is the transaction's start, before it waits for its lock: what now() means in it. */
  datatype Sub = Sub(rec: InsertRecord, began: int, phase: Phase)

  datatype World = World(q: Q.World, cap: int, subs: map<SubId, Sub>)

  datatype Event =
    | Queue(ev: Q.Event)
    | Arrive(s: SubId, rec: InsertRecord)
    | Lock(s: SubId)
    | CountAndInsert(s: SubId, newId: TaskId)
    | CheckDuplicate(s: SubId)
    | Commit(s: SubId)
    | FindOriginal(s: SubId)
    | Abort(s: SubId)

  predicate HoldsLock(x: Sub) { x.phase.Locked? || x.phase.Staged? || x.phase.NoRow? }

  /** Committed rows under an idempotency key. */
  function WithKey(db: Db, k: IdemKey): set<TaskId> {
    set id | id in db.tasks && db.tasks[id].idem == Some(k)
  }

  function Conflicts(db: Db, rec: InsertRecord): set<TaskId> {
    if rec.idem.Some? then WithKey(db, rec.idem.value) else {}
  }

  /** The fingerprint compared is SHA-256 over type, a zero byte and the input; taken as injective, its preimage. */
  function Fingerprint(taskType: string, input: string): string { taskType + [0 as char] + input }

  predicate SameRequest(r: Task, rec: InsertRecord) {
    r.taskType == rec.taskType && Fingerprint(r.taskType, r.input) == Fingerprint(rec.taskType, rec.input)
  }

  /** Under one type, equal fingerprints mean equal inputs, so the comparison is exact. */
  lemma SameRequestIsExact(r: Task, rec: InsertRecord)
    ensures SameRequest(r, rec) <==> r.taskType == rec.taskType && r.input == rec.input
  {
    var f, g := Fingerprint(r.taskType, r.input), Fingerprint(rec.taskType, rec.input);
    if SameRequest(r, rec) {
      assert f[|r.taskType| + 1..] == r.input;
      assert g[|rec.taskType| + 1..] == rec.input;
    }
  }

  /**
   * The insert of a second transaction under the same key waits for the first to end
   * (the unique index), so it is not enabled while that row is staged.
   */
  predicate Enabled(w: World, ev: Event) {
    match ev
    case Queue(qev) => !qev.Submit? && Q.Enabled(w.q, qev)
    case Arrive(s, rec) => s !in w.subs && rec.maxAttempts >= 1
    case Lock(s) =>
      s in w.subs && w.subs[s].phase.Waiting?
      && forall t | t in w.subs && w.subs[t].rec.tenant == w.subs[s].rec.tenant :: !HoldsLock(w.subs[t])
    case CountAndInsert(s, newId) =>
      s in w.subs && w.subs[s].phase.Locked?
      && newId !in w.q.minted
      && forall t | t in w.subs && w.subs[t].phase.Staged? ::
           w.subs[t].phase.id != newId && (w.subs[s].rec.idem.Some? ==> w.subs[t].rec.idem != w.subs[s].rec.idem)
    case CheckDuplicate(s) => s in w.subs && w.subs[s].phase.NoRow?
    case Commit(s) =>
      s in w.subs && w.subs[s].phase.Staged?
      && Q.Enabled(w.q, Q.Submit(w.subs[s].phase.id, w.subs[s].rec, w.subs[s].began))
    case FindOriginal(s) => s in w.subs && w.subs[s].phase.Lookup?
    case Abort(s) => s in w.subs && !w.subs[s].phase.Done?
  }

  function HasSpace(w: World, tenant: string): bool { w.cap <= 0 || |InFlight(w.q.db, tenant)| < w.cap }

  ghost function Pick(ids: set<TaskId>): (id: TaskId)
    requires ids != {}
    ensures id in ids
  {
    var i :| i in ids; i
  }

  /** INSERT ... SELECT ... WHERE count < cap ON CONFLICT DO NOTHING, on the statement's own snapshot. */
  ghost function InsertOutcome(w: World, rec: InsertRecord, newId: TaskId): Phase {
    var rivals := Conflicts(w.q.db, rec);
    if HasSpace(w, rec.tenant) && rivals == {} then Staged(newId)
    else NoRow(HasSpace(w, rec.tenant), if rivals == {} then None else Some(Pick(rivals)))
  }

  /** resolveIdempotentDuplicate. */
  ghost function Resolve(db: Db, rec: InsertRecord): Answer {
    var hits := Conflicts(db, rec);
    if hits == {} then KeyReleased
    else if SameRequest(db.tasks[Pick(hits)], rec) then Existing(Pick(hits))
    else KeyReused
  }

  ghost function Moved(w: World, s: SubId, phase: Phase): World
    requires s in w.subs
  {
    w.(subs := w.subs[s := w.subs[s].(phase := phase)])
  }

  ghost function Apply(w: World, ev: Event): World
    requires Enabled(w, ev)
  {
    match ev
    case Queue(qev) => w.(q := Q.Apply(w.q, qev))
    case Arrive(s, rec) => w.(subs := w.subs[s := Sub(rec, w.q.now, Waiting)])
    case Lock(s) => Moved(w, s, Locked)
    case CountAndInsert(s, newId) => Moved(w, s, InsertOutcome(w, w.subs[s].rec, newId))
    case CheckDuplicate(s) =>
      Moved(w, s, if Conflicts(w.q.db, w.subs[s].rec) != {} then Lookup else Done(TooMany))
    case Commit(s) =>
      var x := w.subs[s];
      Moved(w, s, Done(Created(x.phase.id))).(q := Q.Apply(w.q, Q.Submit(x.phase.id, x.rec, x.began)))
    case FindOriginal(s) => Moved(w, s, Done(Resolve(w.q.db, w.subs[s].rec)))
    case Abort(s) => Moved(w, s, Done(Aborted))
  }

  ghost predicate Legal(w: World, es: seq<Event>)
    decreases |es|
  {
    es == [] || (Enabled(w, es[0]) && Legal(Apply(w, es[0]), es[1..]))
  }

  ghost function Run(w: World, es: seq<Event>): World
    requires Legal(w, es)
    decreases |es|
  {
    if es == [] then w else Run(Apply(w, es[0]), es[1..])
  }

  function Empty(cap: int): World { World(Q.EMPTY, cap, map[]) }

  // ----- the invariant -----

  /** One transaction per tenant between its lock and its end. */
  ghost predicate OneHolder(subs: map<SubId, Sub>) {
    forall s, t | s in subs && t in subs && HoldsLock(subs[s]) && HoldsLock(subs[t])
      && subs[s].rec.tenant == subs[t].rec.tenant :: s == t
  }

  ghost predicate StagedApart(subs: map<SubId, Sub>) {
    forall s, t | s in subs && t in subs && s != t && subs[s].phase.Staged? && subs[t].phase.Staged? ::
      subs[s].phase.id != subs[t].phase.id
  }

  /** A staged row can be committed. */
  predicate SubOk(q: Q.World, x: Sub) {
    && x.rec.maxAttempts >= 1 && x.began <= q.now
    && (x.phase.Staged? ==> x.phase.id !in q.minted)
  }

  ghost predicate LocksOk(w: World) {
    OneHolder(w.subs) && StagedApart(w.subs) && forall s | s in w.subs :: SubOk(w.q, w.subs[s])
  }

  /** With a staged row counted, no tenant is over the cap. */
  ghost predicate CapOk(w: World) {
    w.cap > 0 ==>
      && (forall tenant :: |InFlight(w.q.db, tenant)| <= w.cap)
      && (forall s | s in w.subs && w.subs[s].phase.Staged? :: |InFlight(w.q.db, w.subs[s].rec.tenant)| < w.cap)
  }

  /** The unique index, staged rows included. */
  ghost predicate KeysUnique(w: World) {
    && (forall i, j | i in w.q.db.tasks && j in w.q.db.tasks && i != j && w.q.db.tasks[i].idem.Some? ::
          w.q.db.tasks[i].idem != w.q.db.tasks[j].idem)
    && (forall s, i | s in w.subs && w.subs[s].phase.Staged? && w.subs[s].rec.idem.Some? && i in w.q.db.tasks ::
          w.q.db.tasks[i].idem != w.subs[s].rec.idem)
    && (forall s, t | s in w.subs && t in w.subs && s != t && w.subs[s].phase.Staged? && w.subs[t].phase.Staged?
          && w.subs[s].rec.idem.Some? :: w.subs[s].rec.idem != w.subs[t].rec.idem)
  }

  predicate Serves(db: Db, id: TaskId, rec: InsertRecord) {
    id in db.tasks ==>
      db.tasks[id].idem == rec.idem && db.tasks[id].taskType == rec.taskType && db.tasks[id].input == rec.input
  }

  predicate AnswerOk(w: World, x: Sub) {
    match x.phase
    case Done(Created(id)) => id in w.q.minted && Serves(w.q.db, id, x.rec)
    case Done(Existing(id)) => x.rec.idem.Some? && id in w.q.minted && Serves(w.q.db, id, x.rec)
    case NoRow(hadRoom, rival) =>
      && (hadRoom ==> rival.Some?)
      && (rival.Some? ==> rival.value in w.q.minted && x.rec.idem.Some?
                          && (rival.value in w.q.db.tasks ==> w.q.db.tasks[rival.value].idem == x.rec.idem))
    case Lookup => x.rec.idem.Some?
    case _ => true
  }

  ghost predicate AnswersOk(w: World) {
    forall s | s in w.subs :: AnswerOk(w, w.subs[s])
  }

  ghost predicate Inv(w: World) { Q.RowsOk(w.q) && LocksOk(w) && CapOk(w) && KeysUnique(w) && AnswersOk(w) }

  // ----- what a queue step leaves alone -----

  /** No step but a commit brings a row, changes what was submitted, or puts an ended task back in flight. */
  ghost predicate Settled(q: Q.World, q': Q.World) {
    && Q.RowsOk(q') && q.now <= q'.now && q'.minted == q.minted
    && (forall id | id in q'.db.tasks :: id in q.db.tasks && RowSettled(q.db.tasks[id], q'.db.tasks[id]))
  }

  predicate RowSettled(r: Task, r': Task) {
    && r'.tenant == r.tenant && r'.idem == r.idem && r'.taskType == r.taskType && r'.input == r.input
    && (r'.status.InFlight() ==> r.status.InFlight())
  }

  lemma RowStepSettles(q: Q.World, ev: Q.Event, id: TaskId)
    requires Q.RowsOk(q) && Q.Enabled(q, ev) && !ev.Submit? && id in Q.Apply(q, ev).db.tasks
    ensures id in q.db.tasks && RowSettled(q.db.tasks[id], Q.Apply(q, ev).db.tasks[id])
  {
    Q.RowEffect(q, ev, id);
    var r, m := Q.Find(q.db.tasks, id), Q.MoveAt(Q.Writes(q, ev), id);
    assert !m.Born? && r.Some?;
    MoveSettles(q.db, id, r.value, m, q.now);
  }

  lemma MoveSettles(db: Db, id: TaskId, r: Task, m: Q.Move, now: int)
    requires Q.Starts(db, m, Some(r)) && !m.Born?
    ensures RowSettled(r, Q.MovedRow(id, r, m, now))
  {}

  lemma QueueStepSettles(q: Q.World, ev: Q.Event)
    requires Q.RowsOk(q) && Q.Enabled(q, ev) && !ev.Submit?
    ensures Settled(q, Q.Apply(q, ev))
  {
    Q.StepRows(q, ev);
    var q' := Q.Apply(q, ev);
    forall id | id in q'.db.tasks ensures id in q.db.tasks && RowSettled(q.db.tasks[id], q'.db.tasks[id]) {
      RowStepSettles(q, ev, id);
    }
  }

  lemma SettledKeepsCap(w: World, q': Q.World)
    requires CapOk(w) && Settled(w.q, q')
    ensures CapOk(w.(q := q'))
  {
    forall tenant ensures |InFlight(q'.db, tenant)| <= |InFlight(w.q.db, tenant)| {
      SubsetSize(InFlight(q'.db, tenant), InFlight(w.q.db, tenant));
    }
  }

  lemma SettledKeepsInv(w: World, q': Q.World)
    requires Inv(w) && Settled(w.q, q')
    ensures Inv(w.(q := q'))
  {
    SettledKeepsCap(w, q');
    SettledKeepsRest(w, q');
  }

  lemma SettledKeepsRest(w: World, q': Q.World)
    requires LocksOk(w) && KeysUnique(w) && AnswersOk(w) && Settled(w.q, q')
    ensures LocksOk(w.(q := q')) && KeysUnique(w.(q := q')) && AnswersOk(w.(q := q'))
  {}

  // ----- commit -----

  /** What a commit adds to the queue's tables, and nothing else. */
  ghost predicate Added(q: Q.World, q': Q.World, id: TaskId, rec: InsertRecord, began: int) {
    && id !in q.db.tasks
    && Q.RowsOk(q') && q'.now == q.now && q'.minted == q.minted + {id}
    && q'.db.tasks == q.db.tasks[id := InsertedRow(rec, began)]
  }

  lemma SubmitAdds(q: Q.World, id: TaskId, rec: InsertRecord, began: int)
    requires Q.RowsOk(q) && Q.Enabled(q, Q.Submit(id, rec, began))
    ensures Added(q, Q.Apply(q, Q.Submit(id, rec, began)), id, rec, began)
  {
    Q.StepRows(q, Q.Submit(id, rec, began));
  }

  ghost function Committed(w: World, s: SubId, q': Q.World): World
    requires s in w.subs && w.subs[s].phase.Staged?
  {
    Moved(w, s, Done(Created(w.subs[s].phase.id))).(q := q')
  }

  lemma AddedKeepsCap(w: World, s: SubId, q': Q.World)
    requires LocksOk(w) && CapOk(w) && s in w.subs && w.subs[s].phase.Staged?
    requires Added(w.q, q', w.subs[s].phase.id, w.subs[s].rec, w.subs[s].began)
    ensures CapOk(Committed(w, s, q'))
  {
    var x := w.subs[s];
    assert InFlight(q'.db, x.rec.tenant) == InFlight(w.q.db, x.rec.tenant) + {x.phase.id};
    forall tenant | tenant != x.rec.tenant ensures InFlight(q'.db, tenant) == InFlight(w.q.db, tenant) {}
    assert forall t | t in w.subs && t != s && w.subs[t].phase.Staged? :: w.subs[t].rec.tenant != x.rec.tenant;
  }

  lemma AddedKeepsLocks(w: World, s: SubId, q': Q.World)
    requires LocksOk(w) && s in w.subs && w.subs[s].phase.Staged?
    requires Added(w.q, q', w.subs[s].phase.id, w.subs[s].rec, w.subs[s].began)
    ensures LocksOk(Committed(w, s, q'))
  {
    var w' := Committed(w, s, q');
    EndedFreesLock(w.subs, s, w'.subs[s]);
    forall t | t in w'.subs ensures SubOk(q', w'.subs[t]) {
      assert SubOk(w.q, w.subs[t]);
    }
  }

  lemma EndedFreesLock(subs: map<SubId, Sub>, s: SubId, y: Sub)
    requires OneHolder(subs) && StagedApart(subs) && !HoldsLock(y)
    ensures OneHolder(subs[s := y]) && StagedApart(subs[s := y])
  {}

  lemma AddedKeepsKeys(w: World, s: SubId, q': Q.World)
    requires KeysUnique(w) && s in w.subs && w.subs[s].phase.Staged?
    requires Added(w.q, q', w.subs[s].phase.id, w.subs[s].rec, w.subs[s].began)
    ensures KeysUnique(Committed(w, s, q'))
  {}

  lemma AddedKeepsAnswers(w: World, s: SubId, q': Q.World)
    requires LocksOk(w) && AnswersOk(w) && s in w.subs && w.subs[s].phase.Staged?
    requires Added(w.q, q', w.subs[s].phase.id, w.subs[s].rec, w.subs[s].began)
    ensures AnswersOk(Committed(w, s, q'))
  {}

  // ----- the statements that write no table -----

  /** A submission may take its tenant's free lock, or stage a row it has counted and found no rival for. */
  ghost predicate MaySet(w: World, s: SubId, y: Sub) {
    && y.rec.maxAttempts >= 1 && y.began <= w.q.now && AnswerOk(w, y)
    && (s in w.subs ==> y.rec == w.subs[s].rec)
    && (HoldsLock(y) ==> forall t | t in w.subs && t != s && w.subs[t].rec.tenant == y.rec.tenant ::
        !HoldsLock(w.subs[t]))
    && (y.phase.Staged? ==>
          && y.phase.id !in w.q.minted && HasSpace(w, y.rec.tenant) && Conflicts(w.q.db, y.rec) == {}
          && forall t | t in w.subs && t != s && w.subs[t].phase.Staged? ::
               w.subs[t].phase.id != y.phase.id && (y.rec.idem.Some? ==> w.subs[t].rec.idem != y.rec.idem))
  }

  lemma SetKeepsLocks(w: World, s: SubId, y: Sub)
    requires LocksOk(w) && MaySet(w, s, y)
    ensures LocksOk(w.(subs := w.subs[s := y]))
  {}

  lemma SetKeepsRest(w: World, s: SubId, y: Sub)
    requires CapOk(w) && AnswersOk(w) && MaySet(w, s, y)
    ensures CapOk(w.(subs := w.subs[s := y])) && AnswersOk(w.(subs := w.subs[s := y]))
  {}

  lemma SetKeepsKeys(w: World, s: SubId, y: Sub)
    requires KeysUnique(w) && MaySet(w, s, y)
    ensures KeysUnique(w.(subs := w.subs[s := y]))
  {
    forall i | y.phase.Staged? && y.rec.idem.Some? && i in w.q.db.tasks ensures w.q.db.tasks[i].idem != y.rec.idem {
      assert i !in WithKey(w.q.db, y.rec.idem.value);
    }
  }

  lemma LookupMaySet(w: World, ev: Event)
    requires AnswersOk(w) && LocksOk(w) && w.q.db.tasks.Keys <= w.q.minted && Enabled(w, ev) && ev.FindOriginal?
    ensures MaySet(w, ev.s, Apply(w, ev).subs[ev.s])
  {
    var x := w.subs[ev.s];
    assert AnswerOk(w, x);
    var hits := Conflicts(w.q.db, x.rec);
    if hits != {} {
      SameRequestIsExact(w.q.db.tasks[Pick(hits)], x.rec);
    }
  }

  lemma InsertMaySet(w: World, ev: Event)
    requires LocksOk(w) && w.q.db.tasks.Keys <= w.q.minted && Enabled(w, ev) && ev.CountAndInsert?
    ensures MaySet(w, ev.s, Apply(w, ev).subs[ev.s])
  {
    var rivals := Conflicts(w.q.db, w.subs[ev.s].rec);
    assert rivals != {} ==> Pick(rivals) in rivals;
  }

  lemma OtherMaySet(w: World, ev: Event)
    requires LocksOk(w) && AnswersOk(w) && Enabled(w, ev)
    requires ev.Arrive? || ev.Lock? || ev.CheckDuplicate? || ev.Abort?
    ensures MaySet(w, ev.s, Apply(w, ev).subs[ev.s])
  {}

  lemma SubStepMaySet(w: World, ev: Event)
    requires LocksOk(w) && AnswersOk(w) && w.q.db.tasks.Keys <= w.q.minted && Enabled(w, ev) && !ev.Queue?
        && !ev.Commit?
    ensures MaySet(w, ev.s, Apply(w, ev).subs[ev.s])
    ensures Apply(w, ev) == w.(subs := w.subs[ev.s := Apply(w, ev).subs[ev.s]])
  {
    if ev.FindOriginal? { LookupMaySet(w, ev); }
    else if ev.CountAndInsert? { InsertMaySet(w, ev); }
    else { OtherMaySet(w, ev); }
  }

  lemma StepKeepsInv(w: World, ev: Event)
    requires Inv(w) && Enabled(w, ev)
    ensures Inv(Apply(w, ev))
  {
    if ev.Queue? {
      QueueStepSettles(w.q, ev.ev);
      SettledKeepsInv(w, Q.Apply(w.q, ev.ev));
    } else if ev.Commit? {
      var x := w.subs[ev.s];
      var q' := Q.Apply(w.q, Q.Submit(x.phase.id, x.rec, x.began));
      SubmitAdds(w.q, x.phase.id, x.rec, x.began);
      AddedKeepsLocks(w, ev.s, q');
      AddedKeepsCap(w, ev.s, q');
      AddedKeepsKeys(w, ev.s, q');
      AddedKeepsAnswers(w, ev.s, q');
    } else {
      SubStepMaySet(w, ev);
      var y := Apply(w, ev).subs[ev.s];
      SetKeepsLocks(w, ev.s, y);
      SetKeepsKeys(w, ev.s, y);
      SetKeepsRest(w, ev.s, y);
    }
  }
}
