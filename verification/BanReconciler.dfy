/**
 * The reconciler that repairs Redis ban keys from Postgres, against concurrent bans.
 * User ids and tenant ids are reconciled alike under separate prefixes; the model
 * follows one of the two.
 */
module BanReconciliation {
  import opened Common

  datatype Id = Id(num: int)

  /**
   * A pass scans the ban keys and reads the banned ids, then writes.  `through` is the
   * keys present ever since the scan began; `done` is the ids written so far.
   */
  datatype Pass =
    | Idle
    | Begun(scan: Scan, truth: Option<set<Id>>, seen: set<Id>, through: set<Id>, done: set<Id>)

  datatype Scan = NotYet | Scanning | Scanned

  /** `setting` is the bans that have committed and not yet written their key. */
  datatype World = World(banned: set<Id>, keys: set<Id>, setting: set<Id>, pass: Pass)

  datatype Event =
    | BanCommit(id: Id) | BanSet(id: Id)
    | UnbanCommit(id: Id) | UnbanDelete(id: Id)
    | Drift(kept: set<Id>)                       // Redis flushed or restored from an old copy
    | BeginPass | BeginScan | See(id: Id) | EndScan | ReadTruth
    | RestoreKey(id: Id) | ClearKey(id: Id) | EndPass | FailPass

  predicate Writing(p: Pass) { p.Begun? && p.scan.Scanned? && p.truth.Some? }

  function ToRestore(p: Pass): set<Id> { if Writing(p) then p.truth.value - p.seen else {} }
  function ToClear(p: Pass): set<Id> { if Writing(p) then p.seen - p.truth.value else {} }

  /** `scanFirst` is the order the reconciler uses; the other is the one its comment warns of. */
  predicate Enabled(w: World, ev: Event, scanFirst: bool) {
    var p := w.pass;
    match ev
    case BanSet(id) => id in w.setting
    case BeginPass => p.Idle?
    case BeginScan => p.Begun? && p.scan.NotYet? && (scanFirst || p.truth.Some?)
    case See(id) => p.Begun? && p.scan.Scanning? && id in w.keys
    case EndScan => p.Begun? && p.scan.Scanning? && p.through <= p.seen
    case ReadTruth => p.Begun? && p.truth.None? && (if scanFirst then p.scan.Scanned? else p.scan.NotYet?)
    case RestoreKey(id) => p.Begun? && id in ToRestore(p) - p.done
    case ClearKey(id) => p.Begun? && id in ToClear(p) - p.done && ToRestore(p) <= p.done
    case EndPass => Writing(p) && ToRestore(p) + ToClear(p) <= p.done
    case _ => true
  }

  function WithKeys(w: World, keys: set<Id>): World {
    w.(keys := keys, pass := if w.pass.Begun? then w.pass.(through := w.pass.through * keys) else w.pass)
  }

  function Apply(w: World, ev: Event, scanFirst: bool): World
    requires Enabled(w, ev, scanFirst)
  {
    match ev
    case BanCommit(id) => w.(banned := w.banned + {id}, setting := w.setting + {id})
    case BanSet(id) => WithKeys(w.(setting := w.setting - {id}), w.keys + {id})
    case UnbanCommit(id) => w.(banned := w.banned - {id})
    case UnbanDelete(id) => WithKeys(w, w.keys - {id})
    case Drift(kept) => WithKeys(w, kept)
    case BeginPass => w.(pass := Begun(NotYet, None, {}, {}, {}))
    case BeginScan => w.(pass := w.pass.(scan := Scanning, through := w.keys))
    case See(id) => w.(pass := w.pass.(seen := w.pass.seen + {id}))
    case EndScan => w.(pass := w.pass.(scan := Scanned))
    case ReadTruth => w.(pass := w.pass.(truth := Some(w.banned)))
    case RestoreKey(id) =>
      var w1 := WithKeys(w, w.keys + {id}); w1.(pass := w1.pass.(done := w1.pass.done + {id}))
    case ClearKey(id) =>
      var w1 := WithKeys(w, w.keys - {id}); w1.(pass := w1.pass.(done := w1.pass.done + {id}))
    case EndPass => w.(pass := Idle)
    case FailPass => w.(pass := Idle)
  }

  predicate Legal(w: World, es: seq<Event>, scanFirst: bool)
    decreases |es|
  {
    es == [] || (Enabled(w, es[0], scanFirst) && Legal(Apply(w, es[0], scanFirst), es[1..], scanFirst))
  }

  function Run(w: World, es: seq<Event>, scanFirst: bool): World
    requires Legal(w, es, scanFirst)
    decreases |es|
  {
    if es == [] then w else Run(Apply(w, es[0], scanFirst), es[1..], scanFirst)
  }

  /** Bans and unbans alone keep the keys right: each ends with its id's key as its ban is. */
  lemma HandlersKeepKeys(w: World, id: Id, scanFirst: bool)
    ensures var w1 := Apply(w, BanCommit(id), scanFirst); var w2 := Apply(w1, BanSet(id), scanFirst);
            && Enabled(w1, BanSet(id), scanFirst) && id in w2.banned && id in w2.keys
            && (w.keys == w.banned ==> w2.keys == w2.banned)
    ensures var w2 := Apply(Apply(w, UnbanCommit(id), scanFirst), UnbanDelete(id), scanFirst);
            && id !in w2.banned && id !in w2.keys
            && (w.keys == w.banned ==> w2.keys == w2.banned)
  {}

  // ----- only ids active at a read after the scan are cleared -----

  predicate StaysInPass(ev: Event) { !ev.EndPass? && !ev.FailPass? }

  lemma StepKeepsSnapshot(w: World, ev: Event)
    requires Writing(w.pass) && StaysInPass(ev) && Enabled(w, ev, true)
    ensures var p := Apply(w, ev, true).pass; Writing(p) && p.truth == w.pass.truth && p.seen == w.pass.seen
  {}

  lemma {:induction false} SnapshotIsKept(w: World, es: seq<Event>)
    requires Writing(w.pass) && Legal(w, es, true) && forall ev | ev in es :: StaysInPass(ev)
    ensures var p := Run(w, es, true).pass; Writing(p) && p.truth == w.pass.truth && p.seen == w.pass.seen
    decreases |es|
  {
    if es != [] {
      StepKeepsSnapshot(w, es[0]);
      SnapshotIsKept(Apply(w, es[0], true), es[1..]);
    }
  }

  /**
   * Whatever runs beside it, a pass clears only keys it had scanned before it read the
   * banned ids, and only those of ids active at that read.
   */
  lemma ClearedIdsWereActive(w: World, es: seq<Event>, id: Id)
    requires Enabled(w, ReadTruth, true) && Legal(Apply(w, ReadTruth, true), es, true)
    requires forall ev | ev in es :: StaysInPass(ev)
    requires Enabled(Run(Apply(w, ReadTruth, true), es, true), ClearKey(id), true)
    ensures w.pass.scan.Scanned? && id in w.pass.seen && id !in w.banned
  {
    SnapshotIsKept(Apply(w, ReadTruth, true), es);
  }

  // ----- with bans only, a pass from a clean state clears nothing -----

  const EMPTY: World := World({}, {}, {}, Idle)

  predicate BansOnly(es: seq<Event>) {
    forall ev | ev in es :: !ev.UnbanCommit? && !ev.UnbanDelete? && !ev.Drift?
  }

  /** No key is stale, and the pass holds nothing newer than its read of the banned ids. */
  predicate Clean(w: World) {
    && w.keys <= w.banned && w.setting <= w.banned
    && (w.pass.Begun? ==>
          && w.pass.through <= w.keys && w.pass.seen <= w.keys && (w.pass.scan.NotYet? ==> w.pass.seen == {})
          && (w.pass.truth.None? ==> w.pass.done == {})
          && (w.pass.truth.Some? ==>
                && w.pass.scan.Scanned? && w.pass.seen <= w.pass.truth.value <= w.banned
                && ToRestore(w.pass) * w.pass.done <= w.keys))
  }

  lemma StepKeepsClean(w: World, ev: Event)
    requires Clean(w) && Enabled(w, ev, true) && BansOnly([ev])
    ensures Clean(Apply(w, ev, true)) && !ev.ClearKey?
  {
    assert ev in [ev];
  }

  lemma {:induction false} RunKeepsClean(w: World, es: seq<Event>)
    requires Clean(w) && Legal(w, es, true) && BansOnly(es)
    ensures Clean(Run(w, es, true))
    ensures forall i | 0 <= i < |es| :: !es[i].ClearKey?
    decreases |es|
  {
    if es != [] {
      assert es[0] in es;
      StepKeepsClean(w, es[0]);
      RunKeepsClean(Apply(w, es[0], true), es[1..]);
      assert es == [es[0]] + es[1..];
    }
  }

  /** A whole pass among bans only: it clears nothing, and every id banned at its read has a key at its end. */
  lemma PassAmongBans(w: World, es: seq<Event>, later: seq<Event>)
    requires Clean(w) && Legal(w, es, true) && BansOnly(es)
    requires var w1 := Run(w, es, true);
             Enabled(w1, ReadTruth, true) && Legal(Apply(w1, ReadTruth, true), later, true)
    requires BansOnly(later) && forall ev | ev in later :: StaysInPass(ev)
    requires Enabled(Run(Apply(Run(w, es, true), ReadTruth, true), later, true), EndPass, true)
    ensures var w1 := Run(w, es, true);
            w1.banned <= Run(Apply(w1, ReadTruth, true), later, true).keys
    ensures forall ev | ev in es + later :: !ev.ClearKey?
  {
    var w1 := Run(w, es, true);
    var w2 := Apply(w1, ReadTruth, true);
    RunKeepsClean(w, es);
    StepKeepsClean(w1, ReadTruth);
    RunKeepsClean(w2, later);
    SnapshotIsKept(w2, later);
    var p := Run(w2, later, true).pass;
    assert p.truth.value == w1.banned && p.truth.value <= ToRestore(p) + p.seen;
  }

  ghost predicate NeverClearsALiveBan(scanFirst: bool) {
    forall es, id | Legal(EMPTY, es, scanFirst) && BansOnly(es) ::
      !Enabled(Run(EMPTY, es, scanFirst), ClearKey(id), scanFirst)
  }

  /** The order of scan and read is what keeps live bans: the other order clears one. */
  lemma SafeIffScannedFirst(scanFirst: bool)
    ensures NeverClearsALiveBan(scanFirst) <==> scanFirst
  {
    if scanFirst {
      forall es, id | Legal(EMPTY, es, true) && BansOnly(es)
        ensures !Enabled(Run(EMPTY, es, true), ClearKey(id), true)
      {
        RunKeepsClean(EMPTY, es);
        var w := Run(EMPTY, es, true);
        if Enabled(w, ClearKey(id), true) {
          StepKeepsClean(w, ClearKey(id));
        }
      }
    } else {
      var es := BanBetweenReadAndScan();
      assert Enabled(Run(EMPTY, es, false), ClearKey(Id(1)), false);
    }
  }

  lemma {:induction false} Snoc(w: World, es: seq<Event>, ev: Event, scanFirst: bool)
    requires Legal(w, es, scanFirst) && Enabled(Run(w, es, scanFirst), ev, scanFirst)
    ensures Legal(w, es + [ev], scanFirst)
        && Run(w, es + [ev], scanFirst) == Apply(Run(w, es, scanFirst), ev, scanFirst)
    decreases |es|
  {
    if es == [] {
      assert es + [ev] == [ev];
      assert Legal(Apply(w, ev, scanFirst), [], scanFirst);
    } else {
      Snoc(Apply(w, es[0], scanFirst), es[1..], ev, scanFirst);
      assert (es + [ev])[1..] == es[1..] + [ev];
    }
  }

  lemma BanAfterRead() returns (es: seq<Event>)
    ensures Legal(EMPTY, es, false) && BansOnly(es)
    ensures Run(EMPTY, es, false) == World({Id(1)}, {Id(1)}, {}, Begun(NotYet, Some({}), {}, {}, {}))
  {
    Snoc(EMPTY, [], BeginPass, false);
    es := [] + [BeginPass];
    Snoc(EMPTY, es, ReadTruth, false);
    es := es + [ReadTruth];
    Snoc(EMPTY, es, BanCommit(Id(1)), false);
    es := es + [BanCommit(Id(1))];
    assert Run(EMPTY, es, false).banned == {Id(1)};
    Snoc(EMPTY, es, BanSet(Id(1)), false);
    es := es + [BanSet(Id(1))];
    assert Run(EMPTY, es, false).keys == {Id(1)};
  }

  lemma BanBetweenReadAndScan() returns (es: seq<Event>)
    ensures Legal(EMPTY, es, false) && BansOnly(es)
    ensures Enabled(Run(EMPTY, es, false), ClearKey(Id(1)), false) && Id(1) in Run(EMPTY, es, false).banned
  {
    es := BanAfterRead();
    Snoc(EMPTY, es, BeginScan, false);
    es := es + [BeginScan];
    Snoc(EMPTY, es, See(Id(1)), false);
    es := es + [See(Id(1))];
    assert Run(EMPTY, es, false).pass.seen == {Id(1)};
    Snoc(EMPTY, es, EndScan, false);
    es := es + [EndScan];
    assert ToRestore(Run(EMPTY, es, false).pass) == {};
  }

  // ----- a pass alone repairs any drift -----

  predicate OwnSteps(es: seq<Event>) {
    forall ev | ev in es ::
      ev.BeginScan? || ev.See? || ev.EndScan? || ev.ReadTruth? || ev.RestoreKey? || ev.ClearKey?
  }

  /** Until the writes begin the keys are those scanned; then they differ by the ids written. */
  predicate Quiet(w: World, keys: set<Id>) {
    && w.pass.Begun? && w.pass.seen <= keys
    && (!w.pass.scan.NotYet? && !Writing(w.pass) ==> w.pass.through == keys)
    && (w.pass.scan.Scanned? ==> w.pass.seen == keys)
    && (w.pass.truth.Some? ==> w.pass.truth.value == w.banned)
    && (!Writing(w.pass) ==> w.keys == keys && w.pass.done == {} && w.pass.truth.None?)
    && (Writing(w.pass) ==> w.keys == keys + ToRestore(w.pass) * w.pass.done - ToClear(w.pass) * w.pass.done)
  }

  lemma StepKeepsQuiet(w: World, ev: Event, keys: set<Id>)
    requires Quiet(w, keys) && Enabled(w, ev, true) && OwnSteps([ev])
    ensures Quiet(Apply(w, ev, true), keys) && Apply(w, ev, true).banned == w.banned
  {
    assert ev in [ev];
  }

  lemma {:induction false} RunKeepsQuiet(w: World, es: seq<Event>, keys: set<Id>)
    requires Quiet(w, keys) && Legal(w, es, true) && OwnSteps(es)
    ensures Quiet(Run(w, es, true), keys) && Run(w, es, true).banned == w.banned
    decreases |es|
  {
    if es != [] {
      assert es[0] in es;
      StepKeepsQuiet(w, es[0], keys);
      RunKeepsQuiet(Apply(w, es[0], true), es[1..], keys);
    }
  }

  /** From any state, however far Redis has drifted, a pass nothing runs beside makes the keys the banned ids. */
  lemma QuietPassRepairs(w: World, es: seq<Event>)
    requires w.pass.Idle? && Legal(Apply(w, BeginPass, true), es, true) && OwnSteps(es)
    requires Enabled(Run(Apply(w, BeginPass, true), es, true), EndPass, true)
    ensures var w' := Run(Apply(w, BeginPass, true), es, true); w'.keys == w'.banned == w.banned
  {
    var w1 := Apply(w, BeginPass, true);
    RunKeepsQuiet(w1, es, w.keys);
  }

  // ----- when a pass leaves a stale key -----

  predicate NoBan(es: seq<Event>, id: Id) { forall ev | ev in es :: ev != BanCommit(id) }

  /** The last change of the id's status is an unban. */
  predicate EndsUnbanned(es: seq<Event>, id: Id) {
    es != [] && (EndsUnbanned(es[1..], id) || (es[0] == UnbanCommit(id) && NoBan(es[1..], id)))
  }

  lemma NoBanFirst(es: seq<Event>, id: Id)
    requires es != []
    ensures NoBan(es, id) <==> es[0] != BanCommit(id) && NoBan(es[1..], id)
  {
    assert es[0] in es;
    forall ev ensures ev in es <==> ev == es[0] || ev in es[1..] {
      if ev in es && ev != es[0] {
        var i :| 0 <= i < |es| && es[i] == ev;
        assert es[1..][i - 1] == ev;
      }
    }
  }

  lemma StatusStep(w: World, ev: Event, id: Id)
    requires Enabled(w, ev, true)
    ensures id !in Apply(w, ev, true).banned <==>
              ev == UnbanCommit(id) || (id !in w.banned && ev != BanCommit(id))
  {}

  lemma {:induction false} StatusFollowsLastChange(w: World, es: seq<Event>, id: Id)
    requires Legal(w, es, true)
    ensures id !in Run(w, es, true).banned <==> EndsUnbanned(es, id) || (id !in w.banned && NoBan(es, id))
    decreases |es|
  {
    if es != [] {
      NoBanFirst(es, id);
      StatusStep(w, es[0], id);
      StatusFollowsLastChange(Apply(w, es[0], true), es[1..], id);
    }
  }

  /** Of the two ways to say it: some unban of the id with no ban of it after. */
  lemma {:induction false} EndsUnbannedMeans(es: seq<Event>, id: Id)
    ensures EndsUnbanned(es, id) <==> exists i :: 0 <= i < |es| && es[i] == UnbanCommit(id) && NoBan(es[i + 1..], id)
    decreases |es|
  {
    if es != [] {
      EndsUnbannedMeans(es[1..], id);
      if i :| 0 <= i < |es[1..]| && es[1..][i] == UnbanCommit(id) && NoBan(es[1..][i + 1..], id) {
        assert es[i + 1] == UnbanCommit(id) && es[i + 1 + 1..] == es[1..][i + 1..];
      }
      if i :| 0 <= i < |es| && es[i] == UnbanCommit(id) && NoBan(es[i + 1..], id) {
        if i > 0 {
          assert es[1..][i - 1] == UnbanCommit(id) && es[1..][i - 1 + 1..] == es[i + 1..];
        }
      }
    }
  }

  /** The key a write of this pass sets is stale: its id is not banned. */
  predicate SetsStaleKey(w: World, id: Id)
    requires Enabled(w, RestoreKey(id), true)
  {
    var w' := Apply(w, RestoreKey(id), true); id in w'.keys && id !in w'.banned
  }

  /**
   * Whatever runs between a pass's read and one of its writes, the key that write sets is
   * stale exactly when the id's last change since the read is an unban.
   */
  lemma StaleExactlyWhenUnbanned(w: World, es: seq<Event>, id: Id)
    requires Enabled(w, ReadTruth, true) && Legal(Apply(w, ReadTruth, true), es, true)
    requires forall ev | ev in es :: StaysInPass(ev)
    requires Enabled(Run(Apply(w, ReadTruth, true), es, true), RestoreKey(id), true)
    ensures SetsStaleKey(Run(Apply(w, ReadTruth, true), es, true), id) <==> EndsUnbanned(es, id)
  {
    var w1 := Apply(w, ReadTruth, true);
    SnapshotIsKept(w1, es);
    StatusFollowsLastChange(w1, es, id);
  }

  lemma BanWithoutKey() returns (es: seq<Event>)
    ensures Legal(EMPTY, es, true)
    ensures Run(EMPTY, es, true) == World({Id(1)}, {}, {}, Begun(Scanned, None, {}, {}, {}))
  {
    Snoc(EMPTY, [], BanCommit(Id(1)), true);
    es := [] + [BanCommit(Id(1))];
    Snoc(EMPTY, es, BanSet(Id(1)), true);
    es := es + [BanSet(Id(1))];
    Snoc(EMPTY, es, Drift({}), true);
    es := es + [Drift({})];
    assert Run(EMPTY, es, true) == World({Id(1)}, {}, {}, Idle);
    Snoc(EMPTY, es, BeginPass, true);
    es := es + [BeginPass];
    Snoc(EMPTY, es, BeginScan, true);
    es := es + [BeginScan];
    Snoc(EMPTY, es, EndScan, true);
    es := es + [EndScan];
  }

  /** It happens: a ban whose key was lost, and its unban while a pass is restoring it. */
  lemma UnbanDuringPass() returns (es: seq<Event>)
    ensures Legal(EMPTY, es, true)
    ensures Enabled(Run(EMPTY, es, true), RestoreKey(Id(1)), true) && SetsStaleKey(Run(EMPTY, es, true), Id(1))
  {
    es := BanWithoutKey();
    Snoc(EMPTY, es, ReadTruth, true);
    es := es + [ReadTruth];
    assert Run(EMPTY, es, true).pass == Begun(Scanned, Some({Id(1)}), {}, {}, {});
    Snoc(EMPTY, es, UnbanCommit(Id(1)), true);
    es := es + [UnbanCommit(Id(1))];
    Snoc(EMPTY, es, UnbanDelete(Id(1)), true);
    es := es + [UnbanDelete(Id(1))];
    assert Id(1) in ToRestore(Run(EMPTY, es, true).pass);
  }

  // ----- the writing loops -----

  class BanReconciler {
    var keys: set<Id>                    // the ban keys in Redis

    /** `budget` is how many Redis writes succeed before one fails. */
    method ReconcileSet(truth: set<Id>, current: set<Id>, budget: nat) returns (added: nat, removed: nat, ok: bool)
      modifies this
      ensures ok <==> |truth - current| + |current - truth| <= budget
      ensures ok ==> added == |truth - current| && removed == |current - truth|
                     && keys == old(keys) + (truth - current) - (current - truth)
      ensures !ok ==> added + removed == budget < |truth - current| + |current - truth|
      ensures old(keys) - (current - truth) <= keys <= old(keys) + (truth - current)
      ensures removed > 0 ==> truth - current <= keys
    {
      added, removed := 0, 0;
      var missing := truth - current;
      while missing != {}
        invariant missing <= truth - current
        invariant added + |missing| == |truth - current| && added <= budget
        invariant keys == old(keys) + (truth - current - missing)
        decreases |missing|
      {
        if added == budget {
          return added, removed, false;
        }
        var id :| id in missing;
        keys := keys + {id};
        missing := missing - {id};
        added := added + 1;
      }
      var stale := current - truth;
      while stale != {}
        invariant stale <= current - truth
        invariant removed + |stale| == |current - truth| && added + removed <= budget
        invariant keys == old(keys) + (truth - current) - (current - truth - stale)
        decreases |stale|
      {
        if added + removed == budget {
          return added, removed, false;
        }
        var id :| id in stale;
        keys := keys - {id};
        stale := stale - {id};
        removed := removed + 1;
      }
      ok := true;
    }

    /** A pass with nothing running beside it: the scan finds the keys, the query the banned ids. */
    method ReconcileOnce(banned: set<Id>, budget: nat) returns (ok: bool)
      modifies this
      ensures ok <==> |banned - old(keys)| + |old(keys) - banned| <= budget
      ensures ok ==> keys == banned
      ensures old(keys) * banned <= keys <= old(keys) + banned
    {
      var current := keys;
      var added, removed, done := ReconcileSet(banned, current, budget);
      ok := done;
    }
  }
}
