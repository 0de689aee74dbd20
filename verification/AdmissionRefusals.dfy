/** When a submit is told that too many tasks are in flight, and whose keys can meet. */
module AdmissionRefusals {
  import opened Common
  import opened TaskModel
  import Q = TaskQueue
  import opened ClaimQuery
  import opened Admission
  import opened AdmissionTheorems

  // ----- 429 -----

  /** A key used by one tenant only, as the scope of a key ensures. */
  predicate OneTenant(rec: InsertRecord, x: InsertRecord) {
    rec.idem.Some? && x.idem == rec.idem ==> x.tenant == rec.tenant
  }

  /** A submit between its insert, which returned no row, and its duplicate check. */
  ghost predicate Between(w: World, s: SubId) {
    && s in w.subs && w.subs[s].phase.NoRow?
    && forall t | t in w.subs :: OneTenant(w.subs[s].rec, w.subs[t].rec)
  }

  /** Steps that are not this submit's own, and bring no other tenant's use of its key. */
  predicate Elsewhere(ev: Event, s: SubId, rec: InsertRecord) {
    (ev.Queue? || ev.s != s) && (ev.Arrive? ==> OneTenant(rec, ev.rec))
  }

  lemma QueueBringsNoRival(w: World, ev: Event, s: SubId)
    requires Inv(w) && Between(w, s) && Enabled(w, ev) && ev.Queue?
    ensures Conflicts(Apply(w, ev).q.db, w.subs[s].rec) <= Conflicts(w.q.db, w.subs[s].rec)
  {
    QueueStepSettles(w.q, ev.ev);
  }

  /** The tenant's lock keeps any other submit under the key from holding a staged row. */
  lemma CommitBringsNoRival(w: World, ev: Event, s: SubId)
    requires Inv(w) && Between(w, s) && Enabled(w, ev) && ev.Commit?
    ensures Conflicts(Apply(w, ev).q.db, w.subs[s].rec) == Conflicts(w.q.db, w.subs[s].rec)
  {
    var x := w.subs[ev.s];
    assert HoldsLock(x) && HoldsLock(w.subs[s]) && OneTenant(w.subs[s].rec, x.rec);
    SubmitAdds(w.q, x.phase.id, x.rec, x.began);
  }

  /** While it waits for its check, no row can take the key. */
  lemma StepBringsNoRival(w: World, ev: Event, s: SubId)
    requires Inv(w) && Between(w, s) && Enabled(w, ev) && Elsewhere(ev, s, w.subs[s].rec)
    ensures Between(Apply(w, ev), s) && Apply(w, ev).subs[s] == w.subs[s]
    ensures Conflicts(Apply(w, ev).q.db, w.subs[s].rec) <= Conflicts(w.q.db, w.subs[s].rec)
  {
    if ev.Queue? {
      QueueBringsNoRival(w, ev, s);
    } else if ev.Commit? {
      CommitBringsNoRival(w, ev, s);
    } else {
      SubStepMaySet(w, ev);
    }
  }

  lemma StepKeepsRival(w: World, ev: Event, s: SubId, id: TaskId)
    requires Inv(w) && Enabled(w, ev) && s in w.subs
    requires id in w.q.minted && (id in w.q.db.tasks ==> id in Conflicts(w.q.db, w.subs[s].rec))
    ensures var w' := Apply(w, ev);
            id in w'.q.minted && (id in w'.q.db.tasks ==> id in Conflicts(w'.q.db, w.subs[s].rec))
  {
    GoneStaysGone(w, ev, id);
  }

  /** Between the insert and the check the rivals are the one it met, as long as its row lives. */
  ghost predicate OnlyItsRival(w: World, s: SubId, rival: Option<TaskId>)
    requires s in w.subs
  {
    && Conflicts(w.q.db, w.subs[s].rec) <= (if rival.Some? then {rival.value} else {})
    && (rival.Some? ==>
          && rival.value in w.q.minted
          && (rival.value in w.q.db.tasks ==> rival.value in Conflicts(w.q.db, w.subs[s].rec)))
  }

  lemma {:induction false} RunKeepsRival(w: World, es: seq<Event>, s: SubId, rival: Option<TaskId>)
    requires Inv(w) && Between(w, s) && OnlyItsRival(w, s, rival) && Legal(w, es)
    requires forall ev | ev in es :: Elsewhere(ev, s, w.subs[s].rec)
    ensures Inv(Run(w, es)) && Between(Run(w, es), s) && Run(w, es).subs[s] == w.subs[s]
    ensures OnlyItsRival(Run(w, es), s, rival)
    decreases |es|
  {
    if es != [] {
      assert es[0] in es;
      StepKeepsInv(w, es[0]);
      StepBringsNoRival(w, es[0], s);
      if rival.Some? {
        StepKeepsRival(w, es[0], s, rival.value);
      }
      RunKeepsRival(Apply(w, es[0]), es[1..], s, rival);
    }
  }

  lemma InsertMeetsRival(w: World, s: SubId, newId: TaskId)
    requires Inv(w) && Enabled(w, CountAndInsert(s, newId))
    requires forall t | t in w.subs :: OneTenant(w.subs[s].rec, w.subs[t].rec)
    requires Apply(w, CountAndInsert(s, newId)).subs[s].phase.NoRow?
    ensures var w1 := Apply(w, CountAndInsert(s, newId));
            Inv(w1) && Between(w1, s) && OnlyItsRival(w1, s, w1.subs[s].phase.rival)
  {
    StepKeepsInv(w, CountAndInsert(s, newId));
    var rec := w.subs[s].rec;
    var rivals := Conflicts(w.q.db, rec);
    if rivals != {} {
      OnlyRival(w, Pick(rivals), rec);
    }
  }

  lemma CheckAnswers(w: World, s: SubId, rival: Option<TaskId>)
    requires s in w.subs && w.subs[s].phase.NoRow? && OnlyItsRival(w, s, rival)
    ensures Enabled(w, CheckDuplicate(s))
    ensures Apply(w, CheckDuplicate(s)).subs[s].phase == Done(TooMany)
            <==> rival.None? || rival.value !in w.q.db.tasks
  {
    assert Apply(w, CheckDuplicate(s)).subs[s].phase == Done(TooMany) <==> Conflicts(w.q.db, w.subs[s].rec) == {};
  }

  lemma NoRivalMeansFull(w: World, s: SubId, newId: TaskId)
    requires Enabled(w, CountAndInsert(s, newId))
    ensures Apply(w, CountAndInsert(s, newId)).subs[s].phase == InsertOutcome(w, w.subs[s].rec, newId)
    ensures Apply(w, CountAndInsert(s, newId)).subs[s].rec == w.subs[s].rec
    ensures var phase := InsertOutcome(w, w.subs[s].rec, newId);
            phase.NoRow? && phase.rival.None? ==> !HasSpace(w, w.subs[s].rec.tenant)
  {}

  /**
   * A submit whose insert returned no row is told that too many tasks are in flight
   * exactly when it met no rival, so that its tenant was full when counted, or the rival
   * it met is gone when it looks, whatever room there was.
   */
  lemma TooManyExactly(w: World, s: SubId, newId: TaskId, es: seq<Event>)
    requires Inv(w) && Enabled(w, CountAndInsert(s, newId))
    requires forall t | t in w.subs :: OneTenant(w.subs[s].rec, w.subs[t].rec)
    requires var w1 := Apply(w, CountAndInsert(s, newId));
             w1.subs[s].phase.NoRow? && Legal(w1, es) && forall ev | ev in es :: Elsewhere(ev, s, w.subs[s].rec)
    ensures var w1 := Apply(w, CountAndInsert(s, newId));
            var rival := w1.subs[s].phase.rival;
            var w2 := Run(w1, es);
            && Enabled(w2, CheckDuplicate(s))
            && (rival.None? ==>
                  var unended := set j | j in w.q.db.tasks && w.q.db.tasks[j].tenant == w.subs[s].rec.tenant
                                   && (w.q.db.tasks[j].status.Pending? || w.q.db.tasks[j].status.Running?);
                  0 < w.cap <= |unended|)
            && (Apply(w2, CheckDuplicate(s)).subs[s].phase == Done(TooMany)
                <==> rival.None? || rival.value !in w2.q.db.tasks)
  {
    InsertMeetsRival(w, s, newId);
    NoRivalMeansFull(w, s, newId);
    UnendedAreInFlight(w.q.db, w.subs[s].rec.tenant);
    var w1 := Apply(w, CountAndInsert(s, newId));
    RunKeepsRival(w1, es, s, w1.subs[s].phase.rival);
    CheckAnswers(Run(w1, es), s, w1.subs[s].phase.rival);
  }

  // ----- a 429 with room to spare -----

  lemma {:induction false} Snoc(w: World, es: seq<Event>, ev: Event)
    requires Legal(w, es) && Enabled(Run(w, es), ev)
    ensures Legal(w, es + [ev]) && Run(w, es + [ev]) == Apply(Run(w, es), ev)
    decreases |es|
  {
    if es == [] {
      assert es + [ev] == [ev];
      assert Legal(Apply(w, ev), []);
    } else {
      Snoc(Apply(w, es[0]), es[1..], ev);
      assert (es + [ev])[1..] == es[1..] + [ev];
    }
  }

  const KEY: IdemKey := IdemKey("user:T_000001:u", "retry-1")
  const REQUEST: InsertRecord := InsertRecord("image", "T_000001", "{}", Some(KEY), "", 1, 86400)

  /** A submit that has its tenant's lock, everything else as it was. */
  lemma ArrivesAndLocks(w: World, es: seq<Event>, cap: int, s: SubId) returns (es': seq<Event>)
    requires Legal(Empty(cap), es) && Run(Empty(cap), es) == w && s !in w.subs
    requires forall t | t in w.subs :: !HoldsLock(w.subs[t])
    ensures Legal(Empty(cap), es')
    ensures Run(Empty(cap), es') == w.(subs := w.subs[s := Sub(REQUEST, w.q.now, Locked)])
  {
    Snoc(Empty(cap), es, Arrive(s, REQUEST));
    es' := es + [Arrive(s, REQUEST)];
    Snoc(Empty(cap), es', Lock(s));
    es' := es' + [Lock(s)];
    assert w.subs[s := Sub(REQUEST, w.q.now, Waiting)][s := Sub(REQUEST, w.q.now, Locked)]
           == w.subs[s := Sub(REQUEST, w.q.now, Locked)];
  }

  /** The first submit under the key is committed. */
  lemma FirstSubmit(cap: int) returns (es: seq<Event>)
    requires cap > 0
    ensures Legal(Empty(cap), es)
    ensures var w := Run(Empty(cap), es);
            && w.cap == cap && w.q.now == 0 && w.subs == map[SubId(1) := Sub(REQUEST, 0, Done(Created(TaskId(1))))]
            && w.q.db.tasks == map[TaskId(1) := InsertedRow(REQUEST, 0)] && w.q.minted == {TaskId(1)}
  {
    var w0 := Empty(cap);
    es := ArrivesAndLocks(w0, [], cap, SubId(1));
    assert Conflicts(Run(w0, es).q.db, REQUEST) == {} && InFlight(Run(w0, es).q.db, REQUEST.tenant) == {};
    Snoc(w0, es, CountAndInsert(SubId(1), TaskId(1)));
    es := es + [CountAndInsert(SubId(1), TaskId(1))];
    Snoc(w0, es, Commit(SubId(1)));
    es := es + [Commit(SubId(1))];
  }

  lemma InsertMeetsFirst(w: World, s: SubId, newId: TaskId)
    requires Enabled(w, CountAndInsert(s, newId)) && w.cap >= 2 && w.subs[s].rec == REQUEST
    requires w.q.db.tasks == map[TaskId(1) := InsertedRow(REQUEST, 0)]
    ensures Apply(w, CountAndInsert(s, newId)) == Moved(w, s, NoRow(true, Some(TaskId(1))))
    ensures HasSpace(w, REQUEST.tenant)
  {
    assert InFlight(w.q.db, REQUEST.tenant) == {TaskId(1)} && Conflicts(w.q.db, REQUEST) == {TaskId(1)};
    assert Pick({TaskId(1)}) == TaskId(1);
  }

  /** The second meets the first's row, with room to spare. */
  lemma SecondSubmit(cap: int) returns (es: seq<Event>)
    requires cap >= 2
    ensures Legal(Empty(cap), es)
    ensures var w := Run(Empty(cap), es);
            && SubId(2) in w.subs && w.subs[SubId(2)] == Sub(REQUEST, 0, NoRow(true, Some(TaskId(1))))
            && w.q.db.tasks.Keys == {TaskId(1)} && Owns(w, TaskId(1), REQUEST) && HasSpace(w, REQUEST.tenant)
  {
    var w0 := Empty(cap);
    es := FirstSubmit(cap);
    es := ArrivesAndLocks(Run(w0, es), es, cap, SubId(2));
    InsertMeetsFirst(Run(w0, es), SubId(2), TaskId(2));
    Snoc(w0, es, CountAndInsert(SubId(2), TaskId(2)));
    es := es + [CountAndInsert(SubId(2), TaskId(2))];
  }

  /**
   * The wrong 429 happens: two submits under one key, the first's task deleted between the
   * second's insert and its check, so that nothing is in flight when it is refused.
   */
  lemma RefusedWithRoom(cap: int) returns (es: seq<Event>)
    requires cap >= 2
    ensures Legal(Empty(cap), es)
    ensures var w := Run(Empty(cap), es);
            && SubId(2) in w.subs && w.subs[SubId(2)].phase == Done(TooMany)
            && InFlight(w.q.db, REQUEST.tenant) == {}
  {
    var w0 := Empty(cap);
    es := SecondSubmit(cap);
    var w := Run(w0, es);
    EmptyInv(cap);
    AdmissionTheorems.RunKeepsInv(w0, es);
    DeletedRivalMeansTooMany(w, SubId(2), TaskId(1));
    Snoc(w0, es, Queue(Q.Delete(TaskId(1))));
    es := es + [Queue(Q.Delete(TaskId(1)))];
    Snoc(w0, es, CheckDuplicate(SubId(2)));
    es := es + [CheckDuplicate(SubId(2))];
  }

  // ----- which scopes can meet -----

  /** Two tenants' users can share a scope exactly when one tenant id extends the other past a colon. */
  predicate Meets(t1: string, t2: string) { t1 == t2 || t1 + ":" <= t2 || t2 + ":" <= t1 }

  predicate ShareScope(t1: string, u1: string, t2: string, u2: string) {
    Scope(Caller("", t1, u1)) == Scope(Caller("", t2, u2))
  }

  lemma SharedScopeIsPrefix(t1: string, u1: string, t2: string, u2: string)
    requires ShareScope(t1, u1, t2, u2) && |t1| <= |t2|
    ensures t1 == t2 || t1 + ":" <= t2
  {
    var a, b := t1 + ":" + u1, t2 + ":" + u2;
    assert Scope(Caller("", t1, u1))[5..] == a && Scope(Caller("", t2, u2))[5..] == b;
    assert a[..|t1|] == t1 && b[..|t2|] == t2;
    if |t1| == |t2| {
      assert t1 == t2;
    } else {
      assert (t1 + ":")[|t1|] == a[|t1|] == t2[|t1|];
      assert t1 == t2[..|t1|];
      assert t1 + ":" == t2[..|t1| + 1];
    }
  }

  lemma ExtensionShares(t1: string, t2: string) returns (u1: string)
    requires t1 + ":" <= t2
    ensures ShareScope(t1, u1, t2, "")
  {
    var rest := t2[|t1| + 1..];
    assert t2 == t1 + ":" + rest;
    u1 := rest + ":";
    assert "user:" + t1 + ":" + u1 == "user:" + t2 + ":" + "";
  }

  lemma MeetingShares(t1: string, t2: string) returns (u1: string, u2: string)
    requires Meets(t1, t2)
    ensures ShareScope(t1, u1, t2, u2)
  {
    u1, u2 := "", "";
    if t1 != t2 {
      if t1 + ":" <= t2 {
        u1 := ExtensionShares(t1, t2);
      } else {
        u2 := ExtensionShares(t2, t1);
      }
    }
  }

  lemma SharingMeets(t1: string, u1: string, t2: string, u2: string)
    requires ShareScope(t1, u1, t2, u2)
    ensures Meets(t1, t2)
  {
    if |t1| <= |t2| {
      SharedScopeIsPrefix(t1, u1, t2, u2);
    } else {
      SharedScopeIsPrefix(t2, u2, t1, u1);
    }
  }

  lemma ScopesMeetExactly(t1: string, t2: string)
    ensures (exists u1, u2 :: ShareScope(t1, u1, t2, u2)) <==> Meets(t1, t2)
  {
    if u1, u2 :| ShareScope(t1, u1, t2, u2) {
      SharingMeets(t1, u1, t2, u2);
    }
    if Meets(t1, t2) {
      var u1, u2 := MeetingShares(t1, t2);
    }
  }

  /** Tenant ids as they are generated: a prefix and six characters out of digits and capitals. */
  predicate Generated(t: string) {
    && |t| == 8 && t[..2] == "T_"
    && forall i | 2 <= i < 8 :: '0' <= t[i] <= '9' || 'A' <= t[i] <= 'Z'
  }

  /** No generated id holds a colon, so every caller's keys are its own. */
  lemma GeneratedTenantsAreIsolated(a: Caller, b: Caller)
    requires Generated(a.tenant) && Generated(b.tenant)
    ensures Scope(a) == Scope(b) <==> SameCredential(a, b)
  {
    NoColon(a.tenant);
    NoColon(b.tenant);
    ScopeIsolatesCredentials(a, b);
  }

  lemma NoColon(t: string)
    requires Generated(t)
    ensures ':' !in t
  {
    assert t[0] == t[..2][0] && t[1] == t[..2][1];
  }
}
