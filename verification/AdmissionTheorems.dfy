/** What submission promises, over every interleaving from the empty tables. */
module AdmissionTheorems {
  import opened Common
  import opened TaskModel
  import Q = TaskQueue
  import opened ClaimQuery
  import opened Admission

  lemma {:induction false} RunKeepsInv(w: World, es: seq<Event>)
    requires Inv(w) && Legal(w, es)
    ensures Inv(Run(w, es)) && Run(w, es).cap == w.cap
    decreases |es|
  {
    if es != [] {
      StepKeepsInv(w, es[0]);
      RunKeepsInv(Apply(w, es[0]), es[1..]);
    }
  }

  lemma EmptyInv(cap: int)
    ensures Inv(Empty(cap))
  {
    forall tenant ensures InFlight(Q.EMPTY.db, tenant) == {} {}
  }

  /** However submits, claims, reaps, releases, ends and deletes interleave, no tenant exceeds the cap. */
  lemma CapIsNeverExceeded(cap: int, es: seq<Event>, tenant: string)
    requires cap > 0 && Legal(Empty(cap), es)
    ensures var ts := Run(Empty(cap), es).q.db.tasks;
            |set j | j in ts && ts[j].tenant == tenant && (ts[j].status.Pending? || ts[j].status.Running?)| <= cap
  {
    EmptyInv(cap);
    RunKeepsInv(Empty(cap), es);
    var db := Run(Empty(cap), es).q.db;
    UnendedAreInFlight(db, tenant);
    assert |InFlight(db, tenant)| <= cap;
  }

  lemma UnendedAreInFlight(db: Db, tenant: string)
    ensures InFlight(db, tenant) ==
              set j | j in db.tasks && db.tasks[j].tenant == tenant
                && (db.tasks[j].status.Pending? || db.tasks[j].status.Running?)
  {}

  /** The claim query's rank filter therefore never drops an eligible row, in any reachable state. */
  lemma EveryEligibleRowIsRanked(cap: int, es: seq<Event>, types: set<string>, now: int, id: TaskId)
    requires cap > 0 && Legal(Empty(cap), es)
    requires Eligible(Run(Empty(cap), es).q.db, types, now, id)
    ensures id in Ranked(Run(Empty(cap), es).q.db, types, cap, now)
  {
    var db := Run(Empty(cap), es).q.db;
    CapIsNeverExceeded(cap, es, db.tasks[id].tenant);
    UnendedAreInFlight(db, db.tasks[id].tenant);
    AdmittedRowsAreRanked(db, types, cap, now, id);
  }

  // ----- what each statement decides -----

  /** A row is staged exactly if the tenant is below the cap, or there is none, and no committed row has the key. */
  lemma InsertDecides(w: World, rec: InsertRecord, newId: TaskId)
    ensures var ts := w.q.db.tasks; var phase := InsertOutcome(w, rec, newId);
            var unended := set j | j in ts && ts[j].tenant == rec.tenant
                             && (ts[j].status.Pending? || ts[j].status.Running?);
            var room := w.cap <= 0 || |unended| < w.cap;
            var taken := rec.idem.Some? && exists j | j in ts :: ts[j].idem == rec.idem;
            && (phase == Staged(newId) <==> room && !taken)
            && (phase.Staged? || phase.NoRow?)
            && (phase.NoRow? ==> phase.hadRoom == room && (phase.rival.Some? <==> taken))
            && (phase.NoRow? && taken ==> phase.rival.value in ts && ts[phase.rival.value].idem == rec.idem)
  {
    UnendedAreInFlight(w.q.db, rec.tenant);
    assert forall j | j in w.q.db.tasks && rec.idem.Some? && w.q.db.tasks[j].idem == rec.idem ::
        j in Conflicts(w.q.db, rec);
  }

  /** So a submit that counts with room and no rival gets its task once it commits, with the row as submitted. */
  lemma RoomySubmitIsCreated(w: World, s: SubId, newId: TaskId)
    requires Inv(w) && Enabled(w, CountAndInsert(s, newId))
    requires var rec := w.subs[s].rec; var ts := w.q.db.tasks;
             && (w.cap <= 0 || |set j | j in ts && ts[j].tenant == rec.tenant
                                  && (ts[j].status.Pending? || ts[j].status.Running?)| < w.cap)
             && (rec.idem.Some? ==> forall j | j in ts :: ts[j].idem != rec.idem)
    ensures var w1 := Apply(w, CountAndInsert(s, newId)); var x := w.subs[s];
            && Enabled(w1, Commit(s))
            && var w2 := Apply(w1, Commit(s));
               && s in w2.subs && w2.subs[s].phase == Done(Created(newId)) && newId !in w.q.db.tasks
               && w2.q.db == w.q.db.(tasks := w.q.db.tasks[newId :=
                    Task(x.rec.taskType, x.rec.tenant, x.rec.input, x.rec.idem, x.rec.webhook, Pending, None, None,
                         0, x.rec.maxAttempts, None, x.began, x.began, None, None, x.rec.expiresAt, 0, "", "")])
  {
    InsertDecides(w, w.subs[s].rec, newId);
    StepKeepsInv(w, CountAndInsert(s, newId));
    CommitCreates(Apply(w, CountAndInsert(s, newId)), s);
  }

  /** Its commit answers with the new task, and inserts the row as it was submitted. */
  lemma CommitCreates(w: World, s: SubId)
    requires Inv(w) && s in w.subs && w.subs[s].phase.Staged?
    ensures Enabled(w, Commit(s))
    ensures var x := w.subs[s]; var id := x.phase.id; var w' := Apply(w, Commit(s));
            && s in w'.subs && w'.subs[s].phase == Done(Created(id)) && id !in w.q.db.tasks
            && w'.q.db == w.q.db.(tasks := w.q.db.tasks[id :=
                 Task(x.rec.taskType, x.rec.tenant, x.rec.input, x.rec.idem, x.rec.webhook, Pending, None, None,
                      0, x.rec.maxAttempts, None, x.began, x.began, None, None, x.rec.expiresAt, 0, "", "")])
  {}

  /**
   * The lookup answers with the key's task if type and input agree and refuses them if not;
   * a row gone since leaves the key released.
   */
  lemma LookupAnswers(w: World, s: SubId)
    requires Inv(w) && Enabled(w, FindOriginal(s))
    ensures var rec := w.subs[s].rec; var ts := w.q.db.tasks; var w' := Apply(w, FindOriginal(s));
            && s in w'.subs && w'.subs[s].phase.Done? && w'.q == w.q
            && (w'.subs[s].phase.answer == KeyReleased <==> forall j | j in ts :: ts[j].idem != rec.idem)
            && forall j | j in ts && ts[j].idem == rec.idem ::
                 w'.subs[s].phase.answer ==
                 if ts[j].taskType == rec.taskType && ts[j].input == rec.input then Existing(j) else KeyReused
  {
    var rec := w.subs[s].rec; var ts := w.q.db.tasks;
    assert AnswerOk(w, w.subs[s]);
    forall j | j in ts && ts[j].idem == rec.idem
      ensures Resolve(w.q.db, rec) ==
              if ts[j].taskType == rec.taskType && ts[j].input == rec.input then Existing(j) else KeyReused
    {
      OnlyRival(w, j, rec);
      SameRequestIsExact(ts[j], rec);
    }
  }

  /** A staged row can always be committed: nothing took its id, its room or its key. */
  lemma StagedCanCommit(w: World, s: SubId)
    requires Inv(w) && s in w.subs && w.subs[s].phase.Staged?
    ensures Enabled(w, Commit(s))
  {}

  predicate Succeeded(x: Sub) { x.phase.Done? && (x.phase.answer.Created? || x.phase.answer.Existing?) }

  /**
   * All submits that succeed under one key name the same task while their rows live, and
   * they all carried its type and input.
   */
  lemma SameKeySameTask(cap: int, es: seq<Event>, s: SubId, t: SubId)
    requires Legal(Empty(cap), es)
    requires var w := Run(Empty(cap), es);
             && s in w.subs && t in w.subs && Succeeded(w.subs[s]) && Succeeded(w.subs[t])
             && w.subs[s].rec.idem.Some? && w.subs[s].rec.idem == w.subs[t].rec.idem
             && w.subs[s].phase.answer.id in w.q.db.tasks && w.subs[t].phase.answer.id in w.q.db.tasks
    ensures var w := Run(Empty(cap), es);
            && w.subs[s].phase.answer.id == w.subs[t].phase.answer.id
            && w.subs[s].rec.taskType == w.subs[t].rec.taskType
            && w.subs[s].rec.input == w.subs[t].rec.input
  {
    EmptyInv(cap);
    RunKeepsInv(Empty(cap), es);
    var w := Run(Empty(cap), es);
    assert AnswerOk(w, w.subs[s]) && AnswerOk(w, w.subs[t]);
  }

  // ----- a replay against a living row -----

  predicate Owns(w: World, id: TaskId, rec: InsertRecord) {
    id in w.q.db.tasks && rec.idem.Some? && w.q.db.tasks[id].idem == rec.idem
  }

  predicate SameWork(r: Task, rec: InsertRecord) { r.taskType == rec.taskType && r.input == rec.input }

  /** Not yet answered, and answered only by the original task or by a refusal to reuse the key. */
  predicate OnTrack(w: World, id: TaskId, x: Sub) {
    && Owns(w, id, x.rec)
    && !x.phase.Staged?
    && (x.phase.Done? ==>
          || x.phase.answer.Aborted?
          || x.phase.answer == (if SameWork(w.q.db.tasks[id], x.rec) then Existing(id) else KeyReused))
  }

  lemma OnlyRival(w: World, id: TaskId, rec: InsertRecord)
    requires KeysUnique(w) && Owns(w, id, rec)
    ensures Conflicts(w.q.db, rec) == {id}
  {}

  lemma GoneStaysGone(w: World, ev: Event, id: TaskId)
    requires Inv(w) && Enabled(w, ev) && id in w.q.minted
    ensures id in Apply(w, ev).q.minted
    ensures id in Apply(w, ev).q.db.tasks ==> id in w.q.db.tasks
    ensures id in Apply(w, ev).q.db.tasks ==>
              var r, r' := w.q.db.tasks[id], Apply(w, ev).q.db.tasks[id];
              r'.idem == r.idem && r'.taskType == r.taskType && r'.input == r.input
  {
    if ev.Queue? {
      QueueStepSettles(w.q, ev.ev);
    } else if ev.Commit? {
      var x := w.subs[ev.s];
      SubmitAdds(w.q, x.phase.id, x.rec, x.began);
    } else {
      SubStepMaySet(w, ev);
    }
  }

  /** What a submit's own step makes of its phase, its only rival alive. */
  lemma OwnStepStaysOnTrack(w: World, ev: Event, id: TaskId)
    requires Enabled(w, ev) && !ev.Queue? && !ev.Arrive? && OnTrack(w, id, w.subs[ev.s])
    requires Conflicts(w.q.db, w.subs[ev.s].rec) == {id}
    requires Apply(w, ev).q == w.q
    ensures OnTrack(Apply(w, ev), id, Apply(w, ev).subs[ev.s])
  {
    SameRequestIsExact(w.q.db.tasks[id], w.subs[ev.s].rec);
  }

  lemma SubsKept(w: World, ev: Event, s: SubId)
    requires Enabled(w, ev) && s in w.subs && (ev.Queue? || ev.s != s)
    ensures s in Apply(w, ev).subs && Apply(w, ev).subs[s] == w.subs[s]
  {}

  lemma StepStaysOnTrack(w: World, ev: Event, id: TaskId, s: SubId)
    requires Inv(w) && Enabled(w, ev) && s in w.subs && OnTrack(w, id, w.subs[s])
    requires id in Apply(w, ev).q.db.tasks
    ensures s in Apply(w, ev).subs && Apply(w, ev).subs[s].rec == w.subs[s].rec
    ensures OnTrack(Apply(w, ev), id, Apply(w, ev).subs[s])
  {
    if ev.Queue? || ev.s != s {
      GoneStaysGone(w, ev, id);
      SubsKept(w, ev, s);
    } else {
      OnlyRival(w, id, w.subs[s].rec);
      SubStepMaySet(w, ev);
      OwnStepStaysOnTrack(w, ev, id);
    }
  }

  lemma {:induction false} DeletedForGood(w: World, es: seq<Event>, id: TaskId)
    requires Inv(w) && Legal(w, es) && id in w.q.minted && id !in w.q.db.tasks
    ensures id !in Run(w, es).q.db.tasks
    decreases |es|
  {
    if es != [] {
      StepKeepsInv(w, es[0]);
      GoneStaysGone(w, es[0], id);
      DeletedForGood(Apply(w, es[0]), es[1..], id);
    }
  }

  /**
   * A submit that starts while a row with its key lives, and is answered while it still
   * lives, gets that row's task if type and input agree and a conflict if they differ,
   * whatever room the tenant has; it is never told the queue is full.
   */
  lemma {:induction false} ReplayFindsOriginal(w: World, es: seq<Event>, id: TaskId, s: SubId)
    requires Inv(w) && Legal(w, es) && s in w.subs && OnTrack(w, id, w.subs[s])
    requires id in Run(w, es).q.db.tasks
    ensures s in Run(w, es).subs && Run(w, es).subs[s].rec == w.subs[s].rec
    ensures OnTrack(Run(w, es), id, Run(w, es).subs[s])
    decreases |es|
  {
    if es != [] {
      StepKeepsInv(w, es[0]);
      var w1 := Apply(w, es[0]);
      if id !in w1.q.db.tasks {
        GoneStaysGone(w, es[0], id);
        DeletedForGood(w1, es[1..], id);
      }
      StepStaysOnTrack(w, es[0], id, s);
      ReplayFindsOriginal(w1, es[1..], id, s);
    }
  }

  // ----- when 429 is wrong -----

  /**
   * A submit told that too many tasks are in flight found its tenant at the cap when it
   * counted, or conflicted with a row that was deleted before the duplicate check.
   */
  lemma TooManyHasReason(w: World, s: SubId)
    requires Inv(w) && s in w.subs && w.subs[s].phase.NoRow?
    requires Apply(w, CheckDuplicate(s)).subs[s].phase == Done(TooMany)
    ensures !w.subs[s].phase.hadRoom || (w.subs[s].phase.rival.Some? && w.subs[s].phase.rival.value !in w.q.db.tasks)
  {
    var x := w.subs[s];
    assert AnswerOk(w, x);
    assert Conflicts(w.q.db, x.rec) == {};
    if x.phase.rival.Some? {
      assert x.phase.rival.value !in WithKey(w.q.db, x.rec.idem.value);
    }
  }

  /** The converse: deleting the one row a roomy submit conflicted with always produces that answer. */
  lemma DeletedRivalMeansTooMany(w: World, s: SubId, id: TaskId)
    requires Inv(w) && s in w.subs && w.subs[s].phase == NoRow(true, Some(id)) && Owns(w, id, w.subs[s].rec)
    ensures var gone := Queue(Q.Delete(id));
            && Enabled(w, gone) && Enabled(Apply(w, gone), CheckDuplicate(s))
            && Apply(Apply(w, gone), CheckDuplicate(s)).subs[s].phase == Done(TooMany)
  {
    OnlyRival(w, id, w.subs[s].rec);
    var w1 := Apply(w, Queue(Q.Delete(id)));
    assert w1.q.db.tasks == w.q.db.tasks - {id};
    assert w1.subs == w.subs;
    assert Conflicts(w1.q.db, w.subs[s].rec) == {};
    assert Moved(w1, s, Done(TooMany)).subs[s].phase == Done(TooMany);
  }

  // ----- the scope of a key -----

  /** Who submitted, as far as idempotencyScope looks. */
  datatype Caller = Caller(apiKey: string, tenant: string, user: string)

  function Scope(c: Caller): string {
    if c.apiKey != "" then "key:" + c.apiKey else "user:" + c.tenant + ":" + c.user
  }

  predicate SameCredential(a: Caller, b: Caller) {
    if a.apiKey != "" || b.apiKey != "" then a.apiKey == b.apiKey else a.tenant == b.tenant && a.user == b.user
  }

  function FirstColon(s: string): nat { if s == "" || s[0] == ':' then 0 else 1 + FirstColon(s[1..]) }

  lemma {:induction false} ColonAfterTenant(a: string, x: string)
    requires ':' !in a
    ensures FirstColon(a + ":" + x) == |a|
  {
    if a != "" {
      assert (a + ":" + x)[1..] == a[1..] + ":" + x && (a + ":" + x)[0] == a[0];
      ColonAfterTenant(a[1..], x);
    }
  }

  lemma ColonFreePrefix(a: string, b: string, x: string, y: string)
    requires ':' !in a && ':' !in b && a + ":" + x == b + ":" + y
    ensures a == b && x == y
  {
    ColonAfterTenant(a, x);
    ColonAfterTenant(b, y);
    assert (a + ":" + x)[..|a|] == a && (b + ":" + y)[..|b|] == b;
    assert (a + ":" + x)[|a| + 1..] == x && (b + ":" + y)[|b| + 1..] == y;
  }

  /** Keys are isolated per credential as long as tenant ids hold no colon. */
  lemma ScopeIsolatesCredentials(a: Caller, b: Caller)
    requires ':' !in a.tenant && ':' !in b.tenant
    ensures Scope(a) == Scope(b) <==> SameCredential(a, b)
  {
    if Scope(a) == Scope(b) {
      assert Scope(a)[0] == (if a.apiKey != "" then 'k' else 'u');
      assert Scope(b)[0] == (if b.apiKey != "" then 'k' else 'u');
      if a.apiKey != "" {
        assert Scope(a)[4..] == a.apiKey && Scope(b)[4..] == b.apiKey;
      } else {
        assert Scope(a)[5..] == a.tenant + ":" + a.user && Scope(b)[5..] == b.tenant + ":" + b.user;
        ColonFreePrefix(a.tenant, b.tenant, a.user, b.user);
      }
    }
  }
}
