/** One reaper pass: requeue what may be retried, then fail whatever is still orphaned. */
module Reaper {
  import opened Common
  import opened TaskModel
  import opened TaskStore

  /** The tables after the two statements, each at its own clock reading. */
  function Pass(db: Db, t1: int, c1: set<TaskId>, t2: int, c2: set<TaskId>): Db {
    ReapDead(ReapRetryable(db, c1, t1), c2, t2)
  }

  ghost predicate PassChoices(db: Db, batch: nat, t1: int, c1: set<TaskId>, t2: int, c2: set<TaskId>) {
    && t1 <= t2
    && OldestLeases(db.tasks, RetryableOrphans(db, t1), batch, c1)
    && var mid := ReapRetryable(db, c1, t1);
       OldestLeases(mid.tasks, Orphans(mid, t2), batch, c2)
  }

  /** Rows with attempts left and nothing billed that the pass nevertheless fails. */
  function Wronged(db: Db, t2: int, c2: set<TaskId>): set<TaskId> {
    set id | id in c2 && id in db.tasks && Retryable(db, db.tasks[id], t2)
  }

  lemma WholeBatch(tasks: map<TaskId, Task>, eligible: set<TaskId>, limit: nat, chosen: set<TaskId>)
    requires OldestLeases(tasks, eligible, limit, chosen) && |eligible| <= limit
    ensures chosen == eligible
  {
    SubsetSize(chosen, eligible);
  }

  lemma OrphansAfterRequeue(db: Db, t1: int, c1: set<TaskId>, t2: int)
    requires c1 <= RetryableOrphans(db, t1) && t1 <= t2
    ensures Orphans(ReapRetryable(db, c1, t1), t2) == Orphans(db, t2) - c1
  {}

  /**
   * When both batches suffice, a pass sorts every orphan: what was retryable at the
   * first reading is pending again, every other lapsed run has failed, and the rest
   * of the table is untouched.
   */
  lemma PassSortsOrphans(db: Db, batch: nat, t1: int, c1: set<TaskId>, t2: int, c2: set<TaskId>)
    requires PassChoices(db, batch, t1, c1, t2, c2)
    requires |RetryableOrphans(db, t1)| <= batch && |Orphans(db, t2) - RetryableOrphans(db, t1)| <= batch
    ensures Pass(db, t1, c1, t2, c2).tasks.Keys == db.tasks.Keys
    ensures forall id | id in db.tasks ::
              var r := db.tasks[id]; var r' := Pass(db, t1, c1, t2, c2).tasks[id];
              if Retryable(db, r, t1) then r' == RequeuedRow(r, t1)
              else if Orphan(r, t2) then r' == LostRow(r, t2)
              else r' == r
  {
    WholeBatch(db.tasks, RetryableOrphans(db, t1), batch, c1);
    OrphansAfterRequeue(db, t1, c1, t2);
    var mid := ReapRetryable(db, c1, t1);
    WholeBatch(mid.tasks, Orphans(mid, t2), batch, c2);
  }

  /**
   * Whatever the table and the readings, a pass wrongs just the retryable rows its second batch
   * takes and its first did not.
   */
  lemma PassWrongsExactly(db: Db, batch: nat, t1: int, c1: set<TaskId>, t2: int, c2: set<TaskId>)
    requires PassChoices(db, batch, t1, c1, t2, c2)
    ensures Wronged(db, t2, c2) == (RetryableOrphans(db, t2) - c1) * c2
  {
    OrphansAfterRequeue(db, t1, c1, t2);
  }

  /**
   * When the retryable orphans fit in one batch, and however many others there are, the
   * rows wronged are those of the second batch whose lease lapsed between the two
   * statements; at one clock reading there are none.
   */
  lemma PassWrongsLateLapses(db: Db, batch: nat, t1: int, c1: set<TaskId>, t2: int, c2: set<TaskId>)
    requires PassChoices(db, batch, t1, c1, t2, c2) && |RetryableOrphans(db, t1)| <= batch
    ensures Wronged(db, t2, c2) == set id | id in c2 && id in RetryableOrphans(db, t2) && db.tasks[id].lease.value >= t1
    ensures t1 == t2 ==> Wronged(db, t2, c2) == {}
  {
    WholeBatch(db.tasks, RetryableOrphans(db, t1), batch, c1);
    PassWrongsExactly(db, batch, t1, c1, t2, c2);
  }

  /**
   * At one clock reading a pass wrongs no more rows than there are retryable orphans
   * beyond its first batch; exactly that many when its second batch reaches every orphan
   * left, and then it is harmless exactly when the retryable orphans fit in one batch.
   */
  lemma PassWrongsOverflow(db: Db, batch: nat, t: int, c1: set<TaskId>, c2: set<TaskId>)
    requires PassChoices(db, batch, t, c1, t, c2)
    ensures |Wronged(db, t, c2)| <= Max(0, |RetryableOrphans(db, t)| - batch)
    ensures |Orphans(db, t)| <= 2 * batch ==>
              && |Wronged(db, t, c2)| == Max(0, |RetryableOrphans(db, t)| - batch)
              && (Wronged(db, t, c2) == {} <==> |RetryableOrphans(db, t)| <= batch)
  {
    var retry, orphans := RetryableOrphans(db, t), Orphans(db, t);
    PassWrongsExactly(db, batch, t, c1, t, c2);
    SubsetSize(Wronged(db, t, c2), retry - c1);
    assert |retry - c1| == |retry| - |c1|;
    if batch < |retry| && |orphans| <= 2 * batch {
      OrphansAfterRequeue(db, t, c1, t);
      assert |orphans - c1| == |orphans| - |c1|;
      var mid := ReapRetryable(db, c1, t);
      WholeBatch(mid.tasks, Orphans(mid, t), batch, c2);
      assert Wronged(db, t, c2) == retry - c1;
    }
  }

  /** A row with attempts left that a pass fails, because its lease lapsed between the two statements. */
  lemma LateLapseExample() returns (db: Db, c2: set<TaskId>)
    ensures PassChoices(db, 64, 0, {}, 2, c2) && Wronged(db, 2, c2) != {}
  {
    var id := TaskId(1);
    var r := Task("t", "tenant", "in", None, "", Running, Some(WorkerId(1)), Some(1), 1, 2,
                  Some(RequestId(id, 1)), 0, 0, Some(0), None, 100, 0, "", "");
    db := Db(map[id := r], map[], {});
    c2 := {id};
    assert RetryableOrphans(db, 0) == {};
    OrphansAfterRequeue(db, 0, {}, 2);
    assert Orphans(db, 2) == {id};
    assert id in Wronged(db, 2, c2);
  }
}
