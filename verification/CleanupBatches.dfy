/** The batched deletes of a cleanup run, and the progress it reports. */
module CleanupBatches {
  import opened Common

  datatype RowId = RowId(num: int)

  /** `closed` is the extra condition a table puts on eligibility besides age. */
  datatype Row = Row(created: int, closed: bool)

  /** A table, and the number of further statements that succeed before one fails. */
  class RowTable {
    var rows: map<RowId, Row>
    var budget: nat

    ghost function Eligible(cutoff: int): set<RowId>
      reads this
    {
      EligibleIn(rows, cutoff)
    }

    /** DELETE ... IN (SELECT ... ORDER BY created_at LIMIT n): the oldest eligible rows, at most `batch`. */
    method DeleteBatch(cutoff: int, batch: nat) returns (changed: nat, ok: bool)
      modifies this
      ensures ok <==> old(budget) > 0
      ensures !ok ==> rows == old(rows) && changed == 0 && budget == 0
      ensures ok ==> budget == old(budget) - 1
      ensures OldestRemoved(old(rows), rows, cutoff)
      ensures |Eligible(cutoff)| + changed == old(|Eligible(cutoff)|)
      ensures ok ==> changed <= batch && (changed < batch ==> Eligible(cutoff) == {})
    {
      if budget == 0 {
        return 0, false;
      }
      budget := budget - 1;
      ghost var was := rows;
      var chosen := ChooseFirst(EligibleIn(rows, cutoff), ByCreation(rows), batch);
      forall i, j | i in chosen && j in EligibleIn(was, cutoff) - chosen ensures was[i].created <= was[j].created {
        assert Upto(ByCreation(was)(i), ByCreation(was)(j));
      }
      changed := |chosen|;
      rows := rows - chosen;
      ok := true;
      RemovedFromEligible(was, cutoff, chosen);
    }
  }

  function ByCreation(rows: map<RowId, Row>): RowId -> SortKey { id => (if id in rows then rows[id].created else 0, 0) }

  function EligibleIn(rows: map<RowId, Row>, cutoff: int): set<RowId> {
    set id | id in rows && rows[id].created < cutoff && rows[id].closed
  }

  /** Only eligible rows went, no others changed, and none that stayed is older than one that went. */
  ghost predicate OldestRemoved(was: map<RowId, Row>, rows: map<RowId, Row>, cutoff: int) {
    && (forall id | id in rows :: id in was && rows[id] == was[id])
    && was.Keys - rows.Keys <= EligibleIn(was, cutoff)
    && (forall id | id in was && id !in rows :: was[id].created < cutoff && was[id].closed)
    && (forall i, j | i in was.Keys - rows.Keys && j in EligibleIn(rows, cutoff) :: was[i].created <= rows[j].created)
  }

  lemma RemovedFromEligible(was: map<RowId, Row>, cutoff: int, chosen: set<RowId>)
    requires chosen <= EligibleIn(was, cutoff)
    requires forall i, j | i in chosen && j in EligibleIn(was, cutoff) - chosen :: was[i].created <= was[j].created
    ensures EligibleIn(was - chosen, cutoff) == EligibleIn(was, cutoff) - chosen
    ensures |EligibleIn(was - chosen, cutoff)| + |chosen| == |EligibleIn(was, cutoff)|
    ensures OldestRemoved(was, was - chosen, cutoff)
  {
    assert EligibleIn(was, cutoff) == (EligibleIn(was, cutoff) - chosen) + chosen;
  }

  lemma NoneLeft(rows: map<RowId, Row>, cutoff: int)
    requires EligibleIn(rows, cutoff) == {}
    ensures forall id | id in rows :: !(rows[id].created < cutoff && rows[id].closed)
  {
    assert forall id | id in rows && rows[id].created < cutoff && rows[id].closed :: id in EligibleIn(rows, cutoff);
  }

  lemma RemovedInTwoSteps(a: map<RowId, Row>, b: map<RowId, Row>, c: map<RowId, Row>, cutoff: int)
    requires OldestRemoved(a, b, cutoff) && OldestRemoved(b, c, cutoff)
    ensures OldestRemoved(a, c, cutoff)
  {
    forall id | id in a.Keys - c.Keys ensures id in EligibleIn(a, cutoff) {
      if id in b {
        assert id in b.Keys - c.Keys;
      } else {
        assert id in a.Keys - b.Keys;
      }
    }
    forall i, j | i in a.Keys - c.Keys && j in EligibleIn(c, cutoff) ensures a[i].created <= c[j].created {
      if i in b {
        assert i in b.Keys - c.Keys;
      } else {
        assert i in a.Keys - b.Keys && j in EligibleIn(b, cutoff);
      }
    }
  }

  /** Totals reported one after another: each at least the one before, the last being all counted so far. */
  predicate Reported(reports: seq<nat>, total: nat) {
    && (forall i, j | 0 <= i < j < |reports| :: reports[i] <= reports[j])
    && (forall i | 0 <= i < |reports| :: reports[i] <= total)
    && (if reports == [] then total == 0 else reports[|reports| - 1] == total)
  }

  /**
   * Deletes until a batch finds nothing.  `reportBudget` is how many progress writes
   * succeed.  Without inserts beside it, it ends with no eligible row left and returns
   * exactly the number there were; cut short, it has still counted what it removed.
   */
  method DeleteInBatches(t: RowTable, cutoff: int, batch: nat, reportBudget: nat)
    returns (total: nat, reports: seq<nat>, ok: bool)
    requires batch > 0
    modifies t
    ensures total + |t.Eligible(cutoff)| == old(|t.Eligible(cutoff)|)
    ensures ok ==> t.Eligible(cutoff) == {} && total == old(|t.Eligible(cutoff)|)
    ensures ok ==> forall id | id in t.rows :: !(t.rows[id].created < cutoff && t.rows[id].closed)
    ensures forall id | id in old(t.rows) && id !in t.rows :: old(t.rows)[id].created < cutoff && old(t.rows)[id].closed
    ensures !ok ==> t.budget == 0 || |reports| == reportBudget + 1
    ensures OldestRemoved(old(t.rows), t.rows, cutoff)
    ensures Reported(reports, total) && |reports| <= reportBudget + 1 && t.budget + |reports| == old(t.budget)
  {
    total, reports, ok := 0, [], false;
    while true
      invariant total + |t.Eligible(cutoff)| == old(|t.Eligible(cutoff)|)
      invariant OldestRemoved(old(t.rows), t.rows, cutoff)
      invariant Reported(reports, total) && |reports| <= reportBudget
      invariant t.budget + |reports| == old(t.budget)
      decreases |t.Eligible(cutoff)|
    {
      ghost var before := t.rows;
      var changed, done := t.DeleteBatch(cutoff, batch);
      RemovedInTwoSteps(old(t.rows), before, t.rows, cutoff);
      if !done {
        return;
      }
      total := total + changed;
      reports := reports + [total];
      if |reports| > reportBudget {
        return;
      }
      if changed == 0 {
        NoneLeft(t.rows, cutoff);
        return total, reports, true;
      }
    }
  }

  /** The purge that stops at the first batch not full; it would not stop for a batch of none. */
  method ClearAll(t: RowTable, cutoff: int, batch: nat, reportBudget: nat)
    returns (total: nat, reports: seq<nat>, ok: bool)
    requires batch > 0
    modifies t
    ensures total + |t.Eligible(cutoff)| == old(|t.Eligible(cutoff)|)
    ensures ok ==> t.Eligible(cutoff) == {} && total == old(|t.Eligible(cutoff)|)
    ensures ok ==> forall id | id in t.rows :: !(t.rows[id].created < cutoff && t.rows[id].closed)
    ensures forall id | id in old(t.rows) && id !in t.rows :: old(t.rows)[id].created < cutoff && old(t.rows)[id].closed
    ensures !ok ==> t.budget == 0 || |reports| == reportBudget + 1
    ensures OldestRemoved(old(t.rows), t.rows, cutoff)
    ensures Reported(reports, total) && |reports| <= reportBudget + 1 && t.budget + |reports| == old(t.budget)
    ensures ok ==> |reports| <= reportBudget
  {
    total, reports, ok := 0, [], false;
    while true
      invariant total + |t.Eligible(cutoff)| == old(|t.Eligible(cutoff)|)
      invariant OldestRemoved(old(t.rows), t.rows, cutoff)
      invariant Reported(reports, total) && |reports| <= reportBudget
      invariant t.budget + |reports| == old(t.budget)
      decreases |t.Eligible(cutoff)|
    {
      ghost var before := t.rows;
      var changed, done := t.DeleteBatch(cutoff, batch);
      RemovedInTwoSteps(old(t.rows), before, t.rows, cutoff);
      if !done {
        return;
      }
      total := total + changed;
      reports := reports + [total];
      if |reports| > reportBudget {
        return;
      }
      if changed < batch {
        NoneLeft(t.rows, cutoff);
        return total, reports, true;
      }
    }
  }

  /**
   * Two tables under one target.  The second's batches are not reported one by one, so a
   * failure there leaves its removed rows out of the total.
   */
  method DeleteModerationLogs(audits: RowTable, logs: RowTable, cutoff: int, batch: nat, reportBudget: nat)
    returns (total: nat, reports: seq<nat>, ok: bool)
    requires batch > 0 && audits != logs
    modifies audits, logs
    ensures ok ==> audits.Eligible(cutoff) == {} && logs.Eligible(cutoff) == {}
                   && total == old(|audits.Eligible(cutoff)|) + old(|logs.Eligible(cutoff)|)
    ensures !ok ==> audits.budget == 0 || logs.budget == 0 || |reports| > reportBudget
    ensures total + |audits.Eligible(cutoff)| + |logs.Eligible(cutoff)|
            <= old(|audits.Eligible(cutoff)|) + old(|logs.Eligible(cutoff)|)
    ensures Reported(reports, total)
  {
    total, reports, ok := ClearAll(audits, cutoff, batch, reportBudget);
    if !ok {
      return;
    }
    var more, _, done := DeleteInBatches(logs, cutoff, batch, logs.budget);
    if !done {
      return total, reports, false;
    }
    total := total + more;
    reports := reports + [total];
    ok := |reports| <= reportBudget;
  }

  // ----- a run over its targets -----

  datatype Target = Target(num: int)

  /** A target's reports and count as the deletes above return them, and whether its closing progress write landed. */
  datatype Outcome = Outcome(reports: seq<nat>, count: nat, ok: bool, updated: bool)

  function SumOver(targets: seq<Target>, summary: map<Target, nat>): nat {
    if targets == [] then 0
    else
      var last := targets[|targets| - 1];
      SumOver(targets[..|targets| - 1], summary) + (if last in summary then summary[last] else 0)
  }

  predicate Distinct(targets: seq<Target>) { forall i, j | 0 <= i < j < |targets| :: targets[i] != targets[j] }

  lemma {:induction false} SumIgnores(targets: seq<Target>, summary: map<Target, nat>, t: Target, n: nat)
    requires t !in targets
    ensures SumOver(targets, summary[t := n]) == SumOver(targets, summary)
    decreases |targets|
  {
    if targets != [] {
      assert targets[|targets| - 1] in targets;
      SumIgnores(targets[..|targets| - 1], summary, t, n);
    }
  }

  lemma {:induction false} SumOfAbsent(targets: seq<Target>, summary: map<Target, nat>, n: nat)
    requires n <= |targets| && forall i | n <= i < |targets| :: targets[i] !in summary
    ensures SumOver(targets, summary) == SumOver(targets[..n], summary)
    decreases |targets|
  {
    if n < |targets| {
      SumOfAbsent(targets[..|targets| - 1], summary, n);
      assert targets[..|targets| - 1][..n] == targets[..n];
    } else {
      assert targets[..n] == targets;
    }
  }

  /** A manual run's targets, trimmed: none asks for all; unknown ones refuse; repeats are dropped. */
  method NormalizeTargets(asked: seq<Target>, all: seq<Target>, trim: Target -> Target) returns (r: Option<seq<Target>>)
    requires all != [] && forall t | t in all :: trim(t) == t
    ensures r.None? <==> exists t :: t in asked && trim(t) !in all
    ensures r.Some? ==> r.value != [] && Distinct(r.value)
    ensures r.Some? ==>
              forall t :: t in r.value <==> (if asked == [] then t in all else exists u :: u in asked && trim(u) == t)
  {
    var source := if asked == [] then all else asked;
    var result: seq<Target> := [];
    var i := 0;
    while i < |source|
      invariant 0 <= i <= |source| && Distinct(result)
      invariant forall t :: t in result <==> exists u :: u in source[..i] && trim(u) == t
      invariant forall t | t in result :: t in all
    {
      assert source[..i + 1] == source[..i] + [source[i]];
      var t := trim(source[i]);
      if t !in all {
        assert source[i] in asked;
        return None;
      }
      if t !in result {
        result := result + [t];
      }
      i := i + 1;
    }
    assert source[..i] == source;
    assert source[0] in source && trim(source[0]) in result;
    forall u | u in asked ensures trim(u) in all {
      assert u in source && trim(u) in result;
    }
    return Some(result);
  }

  predicate Counted(targets: seq<Target>, summary: map<Target, nat>, processed: nat) {
    processed == SumOver(targets, summary) && forall t | t in summary :: t in targets
  }

  predicate Good(o: Outcome) { o.ok && o.updated }

  /** What one target does to the summary and the processed rows. */
  predicate TargetStep(
    t: Target, o: Outcome, before: map<Target, nat>, after: map<Target, nat>, base: nat, processed: nat)
  {
    && processed == base + o.count
    && (after == before[t := o.count] || (!Good(o) && o.count == 0 && after == before))
  }

  /** The first `k` targets all went well, and the summary holds their counts. */
  predicate AllCounted(targets: seq<Target>, outcomes: seq<Outcome>, summary: map<Target, nat>, k: nat)
    requires k <= |targets| == |outcomes|
  {
    forall i | 0 <= i < k :: Good(outcomes[i]) && targets[i] in summary && summary[targets[i]] == outcomes[i].count
  }

  lemma CountedStep(
    targets: seq<Target>, outcomes: seq<Outcome>, k: nat,
    before: map<Target, nat>, after: map<Target, nat>, base: nat, processed: nat)
    requires k < |targets| == |outcomes| && Distinct(targets) && Counted(targets[..k], before, base)
    requires TargetStep(targets[k], outcomes[k], before, after, base, processed)
    ensures Counted(targets[..k + 1], after, processed)
    ensures AllCounted(targets, outcomes, before, k) && Good(outcomes[k]) ==>
        AllCounted(targets, outcomes, after, k + 1)
  {
    assert targets[..k + 1][..k] == targets[..k] && targets[..k + 1][k] == targets[k];
    assert targets[k] !in targets[..k];
    SumIgnores(targets[..k], before, targets[k], outcomes[k].count);
  }

  /** How a run gets ready: its policy and totals may fail to load, or its first progress write to land. */
  datatype Preparation = NotLoaded | NotWritten | Ready

  class CleanupRun {
    var summary: map<Target, nat>
    var processed: nat
    var reports: seq<nat>               // the processed rows of every progress write

    constructor ()
      ensures summary == map[] && processed == 0 && reports == []
    {
      summary, processed, reports := map[], 0, [];
    }

    /** One target's own reports, on top of the rows of the targets before it. */
    method ReportTarget(target: Target, base: nat, outcome: Outcome)
      requires processed == base && Reported(reports, processed) && Reported(outcome.reports, outcome.count)
      modifies this
      ensures Reported(reports, processed)
      ensures if outcome.reports == [] then processed == base && summary == old(summary)
              else processed == base + outcome.count && summary == old(summary)[target := outcome.count]
    {
      var i := 0;
      while i < |outcome.reports|
        invariant 0 <= i <= |outcome.reports|
        invariant Reported(reports, processed)
        invariant i == 0 ==> processed == base && summary == old(summary)
        invariant i > 0 ==> processed == base + outcome.reports[i - 1]
                            && summary == old(summary)[target := outcome.reports[i - 1]]
      {
        processed := base + outcome.reports[i];
        summary := summary[target := outcome.reports[i]];
        reports := reports + [processed];
        i := i + 1;
      }
    }

    method ExecuteTarget(target: Target, outcome: Outcome) returns (ok: bool)
      requires Reported(reports, processed) && Reported(outcome.reports, outcome.count)
      modifies this
      ensures Reported(reports, processed)
      ensures TargetStep(target, outcome, old(summary), summary, old(processed), processed)
      ensures ok <==> Good(outcome)
    {
      ReportTarget(target, processed, outcome);
      if !outcome.ok {
        return false;
      }
      summary := summary[target := outcome.count];
      reports := reports + [processed];
      ok := outcome.updated;
    }

    method ExecuteTargets(targets: seq<Target>, outcomes: seq<Outcome>) returns (ok: bool)
      requires Counted([], summary, processed) && Reported(reports, processed)
      requires Distinct(targets) && |outcomes| == |targets|
      requires forall i | 0 <= i < |outcomes| :: Reported(outcomes[i].reports, outcomes[i].count)
      modifies this
      ensures Reported(reports, processed)
      ensures Counted(targets, summary, processed)
      ensures ok <==> AllCounted(targets, outcomes, summary, |targets|)
    {
      ok := true;
      var k := 0;
      while k < |targets| && ok
        invariant 0 <= k <= |targets|
        invariant Reported(reports, processed) && Counted(targets[..k], summary, processed)
        invariant ok ==> AllCounted(targets, outcomes, summary, k)
        invariant !ok ==> k > 0 && !Good(outcomes[k - 1])
      {
        ghost var before, base := summary, processed;
        ok := ExecuteTarget(targets[k], outcomes[k]);
        CountedStep(targets, outcomes, k, before, summary, base, processed);
        k := k + 1;
      }
      RestUntouched(targets, k, summary, processed);
    }

    /**
     * However the run goes, the processed rows it reports never fall, and at its end
     * they are the sum of its summary.  It completes exactly when it was made ready, every
     * target went well, and its lease was never lost.
     */
    method Execute(targets: seq<Target>, outcomes: seq<Outcome>, preparation: Preparation, leaseHeld: bool)
        returns (completed: bool)
      requires summary == map[] && processed == 0 && reports == []
      requires Distinct(targets) && |outcomes| == |targets|
      requires forall i | 0 <= i < |outcomes| :: Reported(outcomes[i].reports, outcomes[i].count)
      modifies this
      ensures Reported(reports, processed)
      ensures Counted(targets, summary, processed)
      ensures completed <==> preparation.Ready? && AllCounted(targets, outcomes, summary, |targets|) && leaseHeld
      ensures !preparation.Ready? ==> summary == map[]
    {
      if preparation.NotLoaded? {
        RestUntouched(targets, 0, summary, processed);
        return false;
      }
      reports := reports + [processed];
      if preparation.NotWritten? {
        RestUntouched(targets, 0, summary, processed);
        return false;
      }
      var ok := ExecuteTargets(targets, outcomes);
      completed := ok && leaseHeld;
    }
  }

  lemma RestUntouched(targets: seq<Target>, k: nat, summary: map<Target, nat>, processed: nat)
    requires k <= |targets| && Distinct(targets) && Counted(targets[..k], summary, processed)
    ensures Counted(targets, summary, processed)
  {
    SumOfAbsent(targets, summary, k);
  }
}
