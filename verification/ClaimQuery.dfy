/**
 * The windowed claim query.  `ranked` numbers every tenant's eligible rows by age and
 * adds the tenant's live-leased runs; `candidate` takes the oldest row whose rank is
 * within the cap, passing over rows other claimers hold locked.
 */
module ClaimQuery {
  import opened Common
  import opened TaskModel

  predicate Eligible(db: Db, types: set<string>, now: int, id: TaskId) {
    id in db.tasks && db.tasks[id].status.Pending? && db.tasks[id].availableAt <= now
    && db.tasks[id].taskType in types
  }

  /** ORDER BY created_at, id. */
  predicate Before(db: Db, a: TaskId, b: TaskId)
    requires a in db.tasks && b in db.tasks
  {
    db.tasks[a].createdAt < db.tasks[b].createdAt
    || (db.tasks[a].createdAt == db.tasks[b].createdAt && a.num < b.num)
  }

  /** Distinct rows are ordered one way or the other. */
  lemma Ordered(db: Db, a: TaskId, b: TaskId)
    requires a in db.tasks && b in db.tasks && a != b
    ensures Before(db, a, b) || Before(db, b, a)
  {
    assert a == TaskId(a.num) && b == TaskId(b.num);
  }

  /** The `running` subquery: a tenant's runs whose lease has not lapsed. */
  function LiveRuns(db: Db, tenant: string, now: int): set<TaskId> {
    set id | id in db.tasks && db.tasks[id].tenant == tenant && db.tasks[id].status.Running?
             && db.tasks[id].lease.Some? && db.tasks[id].lease.value > now
  }

  function Older(db: Db, types: set<string>, now: int, id: TaskId): set<TaskId>
    requires id in db.tasks
  {
    set j | j in db.tasks && Eligible(db, types, now, j) && db.tasks[j].tenant == db.tasks[id].tenant
        && Before(db, j, id)
  }

  /** row_number() OVER (PARTITION BY tenant_id ORDER BY created_at, id) + COALESCE(r.n, 0). */
  function TenantRank(db: Db, types: set<string>, now: int, id: TaskId): nat
    requires id in db.tasks
  {
    1 + |Older(db, types, now, id)| + |LiveRuns(db, db.tasks[id].tenant, now)|
  }

  function Ranked(db: Db, types: set<string>, cap: int, now: int): set<TaskId> {
    set id | id in db.tasks && Eligible(db, types, now, id) && TenantRank(db, types, now, id) <= cap
  }

  predicate HasRoom(db: Db, cap: int, now: int, id: TaskId)
    requires id in db.tasks
  {
    |LiveRuns(db, db.tasks[id].tenant, now)| < cap
  }

  /** The query's answer: the oldest ranked row that is not locked. */
  ghost predicate WindowPick(db: Db, types: set<string>, cap: int, now: int, locked: set<TaskId>, id: TaskId) {
    && id in Ranked(db, types, cap, now) - locked
    && forall j | j in Ranked(db, types, cap, now) - locked && j != id :: Before(db, id, j)
  }

  /** The simple rule: the oldest eligible row whose tenant has fewer than cap live runs. */
  ghost predicate OldestWithRoom(db: Db, types: set<string>, cap: int, now: int, id: TaskId) {
    && Eligible(db, types, now, id) && HasRoom(db, cap, now, id)
    && forall j | Eligible(db, types, now, j) && HasRoom(db, cap, now, j) && j != id :: Before(db, id, j)
  }

  function Age(db: Db): TaskId -> SortKey {
    id => (if id in db.tasks then db.tasks[id].createdAt else 0, id.num)
  }

  function Youth(db: Db): TaskId -> SortKey {
    id => (if id in db.tasks then -db.tasks[id].createdAt else 0, -id.num)
  }

  /** The oldest row of a non-empty set of rows. */
  lemma OldestExists(db: Db, ids: set<TaskId>) returns (id: TaskId)
    requires ids != {} && ids <= db.tasks.Keys
    ensures id in ids && forall j | j in ids && j != id :: Before(db, id, j)
  {
    LeastExists(ids, Age(db));
    id :| IsLeast(ids, Age(db), id);
    LeastIsOldest(db, ids, id);
  }

  lemma LeastIsOldest(db: Db, ids: set<TaskId>, id: TaskId)
    requires ids <= db.tasks.Keys && IsLeast(ids, Age(db), id)
    ensures forall j | j in ids && j != id :: Before(db, id, j)
  {
    forall j | j in ids && j != id ensures Before(db, id, j) {
      Ordered(db, id, j);
    }
  }

  /** A tenant with room always has its oldest eligible row ranked. */
  lemma RoomReachesOldest(db: Db, types: set<string>, cap: int, now: int, id: TaskId) returns (first: TaskId)
    requires Eligible(db, types, now, id) && HasRoom(db, cap, now, id)
    ensures first in Ranked(db, types, cap, now) && (first == id || Before(db, first, id))
  {
    var mine := set j | j in db.tasks && Eligible(db, types, now, j) && db.tasks[j].tenant == db.tasks[id].tenant;
    assert id in mine;
    first := OldestExists(db, mine);
    forall j | j in mine ensures !Before(db, j, first) {
      assert j == first || Before(db, first, j);
    }
    assert Older(db, types, now, first) == {};
  }

  /** With nothing locked, the windowed query with LIMIT 1 answers exactly the simple rule. */
  lemma WindowIsOldestWithRoom(db: Db, types: set<string>, cap: int, now: int, id: TaskId)
    ensures WindowPick(db, types, cap, now, {}, id) <==> OldestWithRoom(db, types, cap, now, id)
  {
    var ranked := Ranked(db, types, cap, now);
    assert forall j | j in ranked :: Eligible(db, types, now, j) && HasRoom(db, cap, now, j);
    if WindowPick(db, types, cap, now, {}, id) {
      forall j | Eligible(db, types, now, j) && HasRoom(db, cap, now, j) && j != id
        ensures Before(db, id, j)
      {
        var first := RoomReachesOldest(db, types, cap, now, j);
        assert first in ranked - {} && (first == id || Before(db, id, first));
      }
    }
    if OldestWithRoom(db, types, cap, now, id) {
      var first := RoomReachesOldest(db, types, cap, now, id);
      assert first == id;
    }
  }

  /** The query finds nothing exactly when no eligible row's tenant has room. */
  lemma NothingToClaim(db: Db, types: set<string>, cap: int, now: int)
    ensures Ranked(db, types, cap, now) == {} <==>
              forall j | Eligible(db, types, now, j) :: !HasRoom(db, cap, now, j)
  {
    if Ranked(db, types, cap, now) == {} {
      forall j | Eligible(db, types, now, j) ensures !HasRoom(db, cap, now, j) {
        if HasRoom(db, cap, now, j) {
          var first := RoomReachesOldest(db, types, cap, now, j);
        }
      }
    }
    assert forall j | j in Ranked(db, types, cap, now) :: Eligible(db, types, now, j) && HasRoom(db, cap, now, j);
  }

  /**
   * What the windowed query takes, read off the rows: a due pending row of an asked type
   * whose tenant has fewer than `cap` runs within their lease, created before every other
   * such row, the id breaking ties.
   */
  lemma PickReadsOffTheRows(db: Db, types: set<string>, cap: int, now: int, id: TaskId)
    ensures WindowPick(db, types, cap, now, {}, id) <==>
            && Takeable(db.tasks, types, cap, now, id)
            && forall j | Takeable(db.tasks, types, cap, now, j) && j != id ::
                 db.tasks[id].createdAt < db.tasks[j].createdAt
                 || (db.tasks[id].createdAt == db.tasks[j].createdAt && id.num < j.num)
  {
    WindowIsOldestWithRoom(db, types, cap, now, id);
    forall j
      ensures Takeable(db.tasks, types, cap, now, j) <==> Eligible(db, types, now, j) && HasRoom(db, cap, now, j)
    {
      if j in db.tasks { assert LiveRuns(db, db.tasks[j].tenant, now) == Unlapsed(db.tasks, db.tasks[j].tenant, now); }
    }
  }

  predicate Takeable(ts: map<TaskId, Task>, types: set<string>, cap: int, now: int, id: TaskId) {
    id in ts && ts[id].status == Pending && ts[id].availableAt <= now && ts[id].taskType in types
    && |Unlapsed(ts, ts[id].tenant, now)| < cap
  }

  function Unlapsed(ts: map<TaskId, Task>, tenant: string, now: int): set<TaskId> {
    set j | j in ts && ts[j].tenant == tenant && ts[j].status == Running && ts[j].lease.Some? && now < ts[j].lease.value
  }

  // ----- many claimers, one snapshot -----

  datatype Taking = Taking(id: TaskId, worker: WorkerId, until: int)

  /** The claims of one snapshot's picks, in the order they commit. */
  function ClaimEach(db: Db, picks: seq<Taking>, now: int): Db
    decreases |picks|
  {
    if picks == [] then db
    else
      var p := picks[0];
      ClaimEach(if p.id in db.tasks then Claim(db, p.id, p.worker, p.until, now) else db, picks[1..], now)
  }

  lemma {:induction false} ClaimedRows(db: Db, picks: seq<Taking>, now: int)
    requires forall p | p in picks :: p.id in db.tasks && now < p.until
    ensures var after := ClaimEach(db, picks, now).tasks;
            && after.Keys == db.tasks.Keys
            && (forall id | id in after :: after[id].tenant == db.tasks[id].tenant)
            && (forall id | id in after && (forall p | p in picks :: p.id != id) :: after[id] == db.tasks[id])
    decreases |picks|
  {
    if picks != [] {
      var p := picks[0];
      assert forall q | q in picks[1..] :: q in picks;
      ClaimedRows(Claim(db, p.id, p.worker, p.until, now), picks[1..], now);
    }
  }

  /**
   * Any number of claimers reading one snapshot, whose picks are ranked rows,
   * leave every tenant within the cap: counted on the tables after the last claim.
   */
  lemma SnapshotPicksRespectCap(db: Db, types: set<string>, cap: int, now: int, picks: seq<Taking>, tenant: string)
    requires forall p | p in picks :: p.id in Ranked(db, types, cap, now) && now < p.until
    requires |set j | j in db.tasks && db.tasks[j].tenant == tenant && db.tasks[j].status.Running?
                && db.tasks[j].lease.Some? && db.tasks[j].lease.value > now| <= cap
    ensures var after := ClaimEach(db, picks, now).tasks;
            |set j | j in after && after[j].tenant == tenant && after[j].status.Running?
                && after[j].lease.Some? && after[j].lease.value > now| <= cap
  {
    assert Unlapsed(db.tasks, tenant, now) == set j | j in db.tasks && db.tasks[j].tenant == tenant
        && db.tasks[j].status.Running? && db.tasks[j].lease.Some? && db.tasks[j].lease.value > now;
    SnapshotFits(db, types, cap, now, picks, tenant);
    var after := ClaimEach(db, picks, now).tasks;
    assert Unlapsed(after, tenant, now) == set j | j in after && after[j].tenant == tenant
        && after[j].status.Running? && after[j].lease.Some? && after[j].lease.value > now;
  }

  lemma SnapshotFits(db: Db, types: set<string>, cap: int, now: int, picks: seq<Taking>, tenant: string)
    requires forall p | p in picks :: p.id in Ranked(db, types, cap, now) && now < p.until
    requires |Unlapsed(db.tasks, tenant, now)| <= cap
    ensures |Unlapsed(ClaimEach(db, picks, now).tasks, tenant, now)| <= cap
  {
    var ids := set p | p in picks :: p.id;
    var mine := set id | id in ids && db.tasks[id].tenant == tenant;
    var before := Unlapsed(db.tasks, tenant, now);
    assert before == LiveRuns(db, tenant, now);
    PicksFit(db, types, cap, now, ids, tenant);
    forall j | j in Unlapsed(ClaimEach(db, picks, now).tasks, tenant, now) ensures j in before + mine {
      RunningAfter(db, picks, now, tenant, j);
    }
    SubsetSize(Unlapsed(ClaimEach(db, picks, now).tasks, tenant, now), before + mine);
  }

  lemma RunningAfter(db: Db, picks: seq<Taking>, now: int, tenant: string, j: TaskId)
    requires forall p | p in picks :: p.id in db.tasks && now < p.until
    requires j in Unlapsed(ClaimEach(db, picks, now).tasks, tenant, now)
    ensures j in db.tasks && db.tasks[j].tenant == tenant
    ensures j in Unlapsed(db.tasks, tenant, now) || exists p :: p in picks && p.id == j
  {
    ClaimedRows(db, picks, now);
  }

  lemma PicksFit(db: Db, types: set<string>, cap: int, now: int, picks: set<TaskId>, tenant: string)
    requires picks <= Ranked(db, types, cap, now)
    requires |LiveRuns(db, tenant, now)| <= cap
    ensures |LiveRuns(db, tenant, now)| + |set id | id in picks && db.tasks[id].tenant == tenant| <= cap
  {
    var mine := set id | id in picks && db.tasks[id].tenant == tenant;
    if mine != {} {
      var last := NewestOf(db, mine);
      SubsetSize(mine - {last}, Older(db, types, now, last));
      assert |mine - {last}| == |mine| - 1;
    }
  }

  lemma NewestOf(db: Db, ids: set<TaskId>) returns (id: TaskId)
    requires ids != {} && ids <= db.tasks.Keys
    ensures id in ids && forall j | j in ids && j != id :: Before(db, j, id)
  {
    LeastExists(ids, Youth(db));
    id :| IsLeast(ids, Youth(db), id);
    forall j | j in ids && j != id ensures Before(db, j, id) {
      assert Upto(Youth(db)(id), Youth(db)(j));
      Ordered(db, id, j);
    }
  }

  function InFlight(db: Db, tenant: string): set<TaskId> {
    set id | id in db.tasks && db.tasks[id].tenant == tenant && db.tasks[id].status.InFlight()
  }

  /** Where admission kept the tenant's pending and running rows within the cap, the rank filter drops nothing. */
  lemma AdmittedRowsAreRanked(db: Db, types: set<string>, cap: int, now: int, id: TaskId)
    requires Eligible(db, types, now, id) && |InFlight(db, db.tasks[id].tenant)| <= cap
    ensures id in Ranked(db, types, cap, now)
  {
    var older, live := Older(db, types, now, id), LiveRuns(db, db.tasks[id].tenant, now);
    assert older !! live && id !in older + live;
    SubsetSize(older + live + {id}, InFlight(db, db.tasks[id].tenant));
  }

  /** ORDER BY created_at, id LIMIT 1 over the ranked rows that are not locked. */
  method FindCandidate(db: Db, types: set<string>, cap: int, now: int, locked: set<TaskId>)
      returns (pick: Option<TaskId>)
    ensures pick.Some? ==> WindowPick(db, types, cap, now, locked, pick.value)
    ensures pick.None? ==> Ranked(db, types, cap, now) <= locked
  {
    var ranked := Ranked(db, types, cap, now) - locked;
    if ranked == {} {
      assert Ranked(db, types, cap, now) <= locked + ranked;
      return None;
    }
    var id := FindLeast(ranked, Age(db));
    LeastIsOldest(db, ranked, id);
    pick := Some(id);
  }
}
