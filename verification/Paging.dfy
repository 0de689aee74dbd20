/** Listing tasks a page at a time, newest first, while the table changes between pages. */
module Paging {
  import opened Common

  /** A task's place in the listing: creation time, then id.  Neither ever changes. */
  datatype Key = Key(created: int, id: int)

  datatype Row = Row(tenant: string, user: string, kind: string, status: string, expires: Option<int>)

  datatype Snapshot = Snapshot(table: map<Key, Row>, now: int)

  datatype ViewerScope = NoScope | TenantScope | UserScope
  datatype Viewer = Viewer(tenant: string, user: string, scope: ViewerScope)

  datatype OwnerScope = AnyOwner | TenantTasks | UserTasks | Unsupported

  /** `status == ""` asks for every status. */
  datatype Filter = Filter(kinds: set<string>, status: string, scope: OwnerScope, user: string, limit: int)

  datatype Owner = Owner(scope: OwnerScope, user: string)

  datatype Answer = Unauthenticated | BadRequest | Page(data: seq<Key>, more: bool)

  // ----- who sees what -----

  predicate Visible(v: Viewer, r: Row) {
    && v.tenant != "" && v.tenant == r.tenant
    && match v.scope
       case UserScope => v.user != "" && v.user == r.user
       case _ => true
  }

  /** `None` is a refusal. */
  function NormalizeOwner(v: Viewer, f: Filter): Option<Owner> {
    match v.scope
    case UserScope => Some(Owner(UserTasks, v.user))
    case TenantScope =>
      var scope := if f.scope.AnyOwner? && f.user != "" then UserTasks else f.scope;
      if scope.Unsupported? || (scope.TenantTasks? && f.user != "") then None else Some(Owner(scope, f.user))
    case NoScope => None
  }

  predicate MatchesOwner(r: Row, o: Owner) {
    match o.scope
    case TenantTasks => r.user == ""
    case UserTasks => if o.user == "" then r.user != "" else r.user == o.user
    case _ => true
  }

  /** The same condition as the query writes it. */
  predicate SqlOwner(r: Row, o: Owner) {
    o.scope.AnyOwner? || (o.scope.TenantTasks? && r.user == "")
    || (o.scope.UserTasks? && (o.user == "" || r.user == o.user) && r.user != "")
  }

  predicate Alive(r: Row, now: int) { r.expires.Some? ==> now < r.expires.value }

  predicate Listed(r: Row, v: Viewer, f: Filter, o: Owner, now: int) {
    r.tenant == v.tenant && SqlOwner(r, o) && r.kind in f.kinds && (f.status == "" || r.status == f.status)
        && Alive(r, now)
  }

  // ----- which rows a listing is about -----

  /**
   * The row is of the viewer's tenant and of a type asked for, in the status asked for if
   * any, and unexpired.  A user sees its own rows.  A tenant sees one user's if it names
   * the user, else those without a user, those with one, or all, as it asks.
   */
  predicate Shown(v: Viewer, f: Filter, r: Row, now: int) {
    && r.tenant == v.tenant && r.kind in f.kinds && (f.status != "" ==> r.status == f.status)
    && (r.expires.Some? ==> now < r.expires.value)
    && (if v.scope.UserScope? then r.user == v.user
        else if f.user != "" then r.user == f.user
        else if f.scope.TenantTasks? then r.user == ""
        else f.scope.UserTasks? ==> r.user != "")
  }

  /** What a tenant's listing is refused for: an owner scope nobody knows, or tenant tasks of a user. */
  predicate BadOwner(v: Viewer, f: Filter) {
    v.scope.TenantScope? && (f.scope.Unsupported? || (f.scope.TenantTasks? && f.user != ""))
  }

  predicate Answerable(v: Viewer, f: Filter) {
    v.tenant != "" && !v.scope.NoScope? && !BadOwner(v, f) && (v.scope.UserScope? ==> v.user != "")
  }

  lemma RefusesExactly(v: Viewer, f: Filter)
    ensures NormalizeOwner(v, f).None? <==> v.scope.NoScope? || BadOwner(v, f)
  {}

  /**
   * The query's condition, the cursor's check and the rows a listing is about are one
   * rule, and it shows nothing the viewer may not see.
   */
  lemma OwnerRulesAgree(v: Viewer, f: Filter, r: Row, now: int)
    requires Answerable(v, f)
    ensures NormalizeOwner(v, f).Some?
    ensures var o := NormalizeOwner(v, f).value;
            && (Listed(r, v, f, o, now) <==> Shown(v, f, r, now))
            && (Accepts(r, v, f, o, now) <==> Shown(v, f, r, now))
            && (Shown(v, f, r, now) ==> Visible(v, r))
            && (f.status == "" && f.user == "" && f.scope.AnyOwner? ==>
                  (Shown(v, f, r, now) <==> Visible(v, r) && r.kind in f.kinds && Alive(r, now)))
  {}

  // ----- one page -----

  predicate Older(a: Key, b: Key) { a.created < b.created || (a.created == b.created && a.id < b.id) }

  predicate Past(k: Key, cursor: Option<Key>) { cursor.Some? ==> Older(k, cursor.value) }

  /** The keys of the rows the listing is about, past the cursor. */
  function Wanted(s: Snapshot, v: Viewer, f: Filter, cursor: Option<Key>): set<Key> {
    set k | k in s.table && Shown(v, f, s.table[k], s.now) && Past(k, cursor)
  }

  predicate Descending(ks: seq<Key>) { forall i, j | 0 <= i < j < |ks| :: Older(ks[j], ks[i]) }

  /** The newest of a set: all of it, or `n` of it with the rest older. */
  ghost predicate NewestOf(ks: seq<Key>, wanted: set<Key>, n: nat) {
    && Descending(ks) && |ks| <= n
    && (forall k | k in ks :: k in wanted)
    && (forall k | k in wanted && k !in ks :: |ks| == n && forall j | j in ks :: Older(k, j))
  }

  function Recency(): Key -> SortKey { (k: Key) => (-k.created, -k.id) }

  lemma LeastIsNewest(s: set<Key>, k: Key)
    requires IsLeast(s, Recency(), k)
    ensures forall j | j in s && j != k :: Older(j, k)
  {
    forall j | j in s && j != k ensures Older(j, k) {
      assert Upto(Recency()(k), Recency()(j));
      assert j == Key(j.created, j.id) && k == Key(k.created, k.id);
    }
  }

  /** The query: the first `n` rows in order. */
  method StoreList(s: Snapshot, v: Viewer, f: Filter, o: Owner, cursor: Option<Key>, n: nat) returns (ks: seq<Key>)
    requires Answerable(v, f) && NormalizeOwner(v, f) == Some(o)
    ensures NewestOf(ks, Wanted(s, v, f, cursor), n)
  {
    ks := [];
    var left := set k | k in s.table && Listed(s.table[k], v, f, o, s.now) && Past(k, cursor);
    forall k | k in s.table ensures k in left <==> k in Wanted(s, v, f, cursor) {
      OwnerRulesAgree(v, f, s.table[k], s.now);
    }
    while |ks| < n && left != {}
      invariant left <= Wanted(s, v, f, cursor) && |ks| <= n
      invariant forall k :: k in Wanted(s, v, f, cursor) <==> k in left || k in ks
      invariant Descending(ks) && forall k, j | k in left && j in ks :: Older(k, j)
      decreases |left|
    {
      var k := FindLeast(left, Recency());
      LeastIsNewest(left, k);
      ks := ks + [k];
      left := left - {k};
    }
  }

  function PageSize(limit: int): nat { if limit <= 0 then 20 else if limit > 100 then 100 else limit }

  /** The cursor's check: it must still be a task this listing would show. */
  predicate Accepts(r: Row, v: Viewer, f: Filter, o: Owner, now: int) {
    && Visible(v, r) && r.kind in f.kinds && MatchesOwner(r, o)
    && (f.status == "" || r.status == f.status) && Alive(r, now)
  }

  predicate CursorOk(s: Snapshot, v: Viewer, f: Filter, o: Owner, k: Key) {
    k in s.table && Accepts(s.table[k], v, f, o, s.now)
  }

  /** A caller whose user is unknown, or who asks for no type, gets an empty page. */
  predicate NothingAsked(v: Viewer, f: Filter) { (v.scope.UserScope? && v.user == "") || f.kinds == {} }

  /** One page: the newest rows wanted, and whether any are left. */
  ghost predicate IsPage(s: Snapshot, v: Viewer, f: Filter, cursor: Option<Key>, data: seq<Key>, more: bool)
  {
    var wanted := Wanted(s, v, f, cursor);
    NewestOf(data, wanted, PageSize(f.limit)) && (more <==> exists k :: k in wanted && k !in data)
  }

  method List(s: Snapshot, v: Viewer, f: Filter, cursor: Option<Key>) returns (a: Answer)
    ensures v.tenant == "" ==> a == Unauthenticated
    ensures v.tenant != "" && NothingAsked(v, f) ==> a == Page([], false)
    ensures v.tenant != "" && !NothingAsked(v, f) ==>
              if v.scope.NoScope? then a == Unauthenticated
              else if BadOwner(v, f) then a == BadRequest
              else if cursor.Some? && !(cursor.value in s.table && Shown(v, f, s.table[cursor.value], s.now))
              then a == BadRequest
              else a.Page? && IsPage(s, v, f, cursor, a.data, a.more)
    ensures a.Page? ==>
              && |a.data| <= (if f.limit <= 0 then 20 else if f.limit <= 100 then f.limit else 100)
              && (a.more ==> |a.data| == if f.limit <= 0 then 20 else if f.limit <= 100 then f.limit else 100)
              && forall i, j | 0 <= i < j < |a.data| ::
                   a.data[j].created < a.data[i].created
                   || (a.data[j].created == a.data[i].created && a.data[j].id < a.data[i].id)
  {
    if v.tenant == "" {
      return Unauthenticated;
    }
    if v.scope.UserScope? && v.user == "" {
      return Page([], false);
    }
    var limit := if f.limit <= 0 then 20 else f.limit;
    if limit > 100 {
      limit := 100;
    }
    if f.kinds == {} {
      return Page([], false);
    }
    var owner := NormalizeOwner(v, f);
    RefusesExactly(v, f);
    if owner.None? {
      return if v.scope.NoScope? then Unauthenticated else BadRequest;
    }
    if cursor.Some? && cursor.value in s.table {
      OwnerRulesAgree(v, f, s.table[cursor.value], s.now);
    }
    if cursor.Some? && !CursorOk(s, v, f, owner.value, cursor.value) {
      return BadRequest;
    }
    var ks := StoreList(s, v, f, owner.value, cursor, limit + 1);
    var more := |ks| > limit;
    var data := if more then ks[..limit] else ks;
    FirstOf(ks, Wanted(s, v, f, cursor), limit);
    return Page(data, more);
  }

  lemma FirstOf(ks: seq<Key>, wanted: set<Key>, limit: nat)
    requires NewestOf(ks, wanted, limit + 1)
    ensures var data := if |ks| > limit then ks[..limit] else ks;
            && NewestOf(data, wanted, limit)
            && (|ks| > limit <==> exists k :: k in wanted && k !in data)
  {
    if |ks| > limit {
      assert ks == ks[..limit] + [ks[limit]];
      assert ks[limit] in ks && ks[limit] !in ks[..limit];
    }
  }

  // ----- all the pages -----

  /** A caller following the pages: each starts after the last row of the one before, on the table of its own moment. */
  ghost predicate Follows(snaps: seq<Snapshot>, v: Viewer, f: Filter, cursor: Option<Key>, pages: seq<seq<Key>>)
    requires |snaps| == |pages| > 0
    decreases |pages|
  {
    && IsPage(snaps[0], v, f, cursor, pages[0], |pages| > 1)
    && (|pages| > 1 ==> pages[0] != [] && Follows(snaps[1..], v, f, Some(pages[0][|pages[0]| - 1]), pages[1..]))
  }

  function Concat(pages: seq<seq<Key>>): seq<Key> {
    if pages == [] then [] else pages[0] + Concat(pages[1..])
  }

  ghost predicate WantedThroughout(snaps: seq<Snapshot>, v: Viewer, f: Filter, cursor: Option<Key>, k: Key)
  {
    forall i | 0 <= i < |snaps| :: k in Wanted(snaps[i], v, f, cursor)
  }

  ghost predicate WantedOnce(snaps: seq<Snapshot>, v: Viewer, f: Filter, cursor: Option<Key>, k: Key) {
    exists i :: 0 <= i < |snaps| && k in Wanted(snaps[i], v, f, cursor)
  }

  lemma DescendingAppend(a: seq<Key>, b: seq<Key>)
    requires Descending(a) && Descending(b) && a != []
    requires forall k | k in b :: Older(k, a[|a| - 1])
    ensures Descending(a + b)
  {
    forall i, j | 0 <= i < j < |a + b| ensures Older((a + b)[j], (a + b)[i]) {
      if i < |a| <= j {
        assert (a + b)[j] in b;
        assert i < |a| - 1 ==> Older(a[|a| - 1], a[i]);
      }
    }
  }

  /**
   * Following the pages to the end, while tasks come, go and change between requests:
   * rows come newest first with none repeated, each one the listing shows at some point,
   * and a task it would show throughout is there.
   */
  lemma {:induction false} PagesAreExact(snaps: seq<Snapshot>, v: Viewer, f: Filter, cursor: Option<Key>,
      pages: seq<seq<Key>>)
    requires |snaps| == |pages| > 0 && Follows(snaps, v, f, cursor, pages)
    ensures Descending(Concat(pages))
    ensures forall k | k in Concat(pages) :: Past(k, cursor) && WantedOnce(snaps, v, f, cursor, k)
    ensures forall k | WantedThroughout(snaps, v, f, cursor, k) :: k in Concat(pages)
    decreases |pages|
  {
    if |pages| == 1 {
      assert Concat(pages[1..]) == [] && Concat(pages) == pages[0];
      forall k | WantedThroughout(snaps, v, f, cursor, k) ensures k in pages[0] {
        assert k in Wanted(snaps[0], v, f, cursor);
      }
    } else {
      var last := pages[0][|pages[0]| - 1];
      PagesAreExact(snaps[1..], v, f, Some(last), pages[1..]);
      assert last in pages[0] && Past(last, cursor);
      DescendingAppend(pages[0], Concat(pages[1..]));
      forall k | k in Concat(pages) ensures WantedOnce(snaps, v, f, cursor, k) {
        if k in pages[0] {
          assert k in Wanted(snaps[0], v, f, cursor);
        } else {
          var i :| 0 <= i < |snaps[1..]| && k in Wanted(snaps[1..][i], v, f, Some(last));
          assert snaps[1..][i] == snaps[i + 1];
        }
      }
      forall k | WantedThroughout(snaps, v, f, cursor, k) && k !in pages[0] ensures k in Concat(pages[1..]) {
        assert k in Wanted(snaps[0], v, f, cursor);
        assert Older(k, last);
        forall i | 0 <= i < |snaps[1..]| ensures k in Wanted(snaps[1..][i], v, f, Some(last)) {
          assert snaps[1..][i] == snaps[i + 1];
        }
        assert WantedThroughout(snaps[1..], v, f, Some(last), k);
      }
    }
  }
}
