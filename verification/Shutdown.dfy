/** The server's stack of components to close, newest first, with retries after a failure. */
module Shutdown {
  import opened Common

  datatype Entry = Entry(num: int)

  datatype Stack = Stack(entries: seq<Entry>, closed: bool)

  /** How many entries from `n` down close before one fails. */
  function Kept(entries: seq<Entry>, n: nat, failing: set<Entry>): (kept: nat)
    requires n <= |entries|
    ensures kept <= n
    ensures kept > 0 ==> entries[kept - 1] in failing
    ensures forall i | kept <= i < n :: entries[i] !in failing
  {
    if n == 0 || entries[n - 1] in failing then n else Kept(entries, n - 1, failing)
  }

  function Reversed(s: seq<Entry>): (r: seq<Entry>)
    ensures |r| == |s| && forall i | 0 <= i < |s| :: r[i] == s[|s| - 1 - i]
  {
    if s == [] then [] else [s[|s| - 1]] + Reversed(s[..|s| - 1])
  }

  function Added(s: Stack, e: Option<Entry>): Stack {
    if e.None? || s.closed then s else s.(entries := s.entries + [e.value])
  }

  function Remaining(s: Stack, failing: set<Entry>): nat { Kept(s.entries, |s.entries|, failing) }

  function Closed(s: Stack, failing: set<Entry>): Stack {
    if s.closed then s else Stack(s.entries[..Remaining(s, failing)], Remaining(s, failing) == 0)
  }

  /** The entries one Close call closes, in the order it closes them. */
  function ClosedNow(s: Stack, failing: set<Entry>): seq<Entry> {
    if s.closed then [] else Reversed(s.entries[Remaining(s, failing)..])
  }

  predicate ReturnsNil(s: Stack, failing: set<Entry>) { Closed(s, failing).closed }

  class ShutdownStack {
    var entries: seq<Entry>
    var closed: bool

    constructor ()
      ensures Contents() == Stack([], false)
    {
      entries, closed := [], false;
    }

    ghost function Contents(): Stack
      reads this
    {
      Stack(entries, closed)
    }

    /** What is added is what the next Close reaches first; once closed, nothing is reached any more. */
    method Add(e: Option<Entry>)
      modifies this
      ensures Contents() == Added(old(Contents()), e)
      ensures !old(closed) && e.Some? ==>
                forall failing | e.value !in failing ::
                  ClosedNow(Contents(), failing) == [e.value] + ClosedNow(old(Contents()), failing)
      ensures !old(closed) && e.Some? ==> forall failing | e.value in failing :: ClosedNow(Contents(), failing) == []
      ensures old(closed) ==> forall failing :: ClosedNow(Contents(), failing) == [] && ReturnsNil(Contents(), failing)
    {
      if e.None? || closed {
        return;
      }
      entries := entries + [e.value];
      forall failing: set<Entry> | e.value !in failing
        ensures ClosedNow(Contents(), failing) == [e.value] + ClosedNow(old(Contents()), failing)
      {
        AddedClosesFirst(old(entries), e.value, failing);
      }
    }

    /** The loop: from the top down to the first entry whose close function fails. */
    method CloseFromTop(failing: set<Entry>) returns (ok: bool, remaining: seq<Entry>, calls: seq<Entry>)
      ensures var kept := Kept(entries, |entries|, failing);
              remaining == entries[..kept] && calls == Reversed(entries[kept..]) && (ok <==> kept == 0)
    {
      ok, calls := true, [];
      remaining := entries;
      var i := |entries|;
      while i > 0 && ok
        invariant 0 <= i <= |entries| && remaining == entries[..i]
        invariant calls == Reversed(entries[i..])
        invariant Kept(entries, |entries|, failing) == Kept(entries, i, failing)
        invariant !ok ==> i > 0 && entries[i - 1] in failing
        decreases i, ok
      {
        if entries[i - 1] in failing {
          ok := false;
        } else {
          PrependReversed(entries, i);
          calls := calls + [entries[i - 1]];
          remaining := entries[..i - 1];
          i := i - 1;
        }
      }
    }

    /** `failing` is the entries whose close function returns an error if this call reaches them. */
    method Close(failing: set<Entry>) returns (ok: bool, calls: seq<Entry>)
      modifies this
      ensures Contents() == Closed(old(Contents()), failing)
      ensures calls == ClosedNow(old(Contents()), failing)
      ensures ok <==> ReturnsNil(old(Contents()), failing)
      ensures old(closed) ==> ok && calls == [] && entries == old(entries) && closed
      ensures !old(closed) ==>
                && TakenOffTop(old(entries), entries, calls, failing)
                && (ok <==> entries == []) && (closed <==> ok)
    {
      if closed {
        return true, [];
      }
      var remaining;
      ok, remaining, calls := CloseFromTop(failing);
      entries := remaining;
      if ok {
        closed := true;
      }
      CloseTakesTheTop(old(Contents()), failing);
    }
  }

  /** The calls close entries off the top, newest first, down to the first that fails; the rest are left. */
  ghost predicate TakenOffTop(before: seq<Entry>, after: seq<Entry>, calls: seq<Entry>, failing: set<Entry>) {
    && |after| + |calls| == |before| && after == before[..|after|]
    && (forall i | 0 <= i < |calls| :: calls[i] == before[|before| - 1 - i] && calls[i] !in failing)
    && (after != [] ==> after[|after| - 1] in failing)
  }

  lemma CloseTakesTheTop(s: Stack, failing: set<Entry>)
    requires !s.closed
    ensures TakenOffTop(s.entries, Closed(s, failing).entries, ClosedNow(s, failing), failing)
    ensures Closed(s, failing).closed <==> Closed(s, failing).entries == []
  {}

  lemma {:induction false} KeptBelow(s: seq<Entry>, e: Entry, n: nat, failing: set<Entry>)
    requires n <= |s|
    ensures Kept(s + [e], n, failing) == Kept(s, n, failing)
    decreases n
  {
    if n > 0 && s[n - 1] !in failing {
      KeptBelow(s, e, n - 1, failing);
    }
  }

  lemma AddedClosesFirst(s: seq<Entry>, e: Entry, failing: set<Entry>)
    requires e !in failing
    ensures ClosedNow(Stack(s + [e], false), failing) == [e] + ClosedNow(Stack(s, false), failing)
  {
    KeptBelow(s, e, |s|, failing);
    var n := Kept(s, |s|, failing);
    assert Kept(s + [e], |s + [e]|, failing) == n;
    assert (s + [e])[n..] == s[n..] + [e];
    assert (s[n..] + [e])[..|s[n..]|] == s[n..];
  }

  lemma PrependReversed(s: seq<Entry>, i: nat)
    requires 0 < i <= |s|
    ensures Reversed(s[i - 1..]) == Reversed(s[i..]) + [s[i - 1]]
  {}

  // ----- every sequence of calls -----

  /**
   * Entries are numbered in the order they are offered.  `accepted` is those taken on,
   * `log` those closed, in the order they closed.
   */
  datatype World = World(stack: Stack, accepted: set<Entry>, log: seq<Entry>)

  datatype Call = AddCall(e: Option<Entry>) | CloseCall(failing: set<Entry>)

  predicate Enabled(w: World, c: Call) {
    c.AddCall? && c.e.Some? ==> forall a | a in w.accepted :: a.num < c.e.value.num
  }

  function Apply(w: World, c: Call): World {
    match c
    case AddCall(e) =>
      World(Added(w.stack, e), if e.Some? && !w.stack.closed then w.accepted + {e.value} else w.accepted, w.log)
    case CloseCall(failing) =>
      World(Closed(w.stack, failing), w.accepted, w.log + ClosedNow(w.stack, failing))
  }

  predicate Legal(w: World, cs: seq<Call>)
    decreases |cs|
  {
    cs == [] || (Enabled(w, cs[0]) && Legal(Apply(w, cs[0]), cs[1..]))
  }

  function Run(w: World, cs: seq<Call>): World
    requires Legal(w, cs)
    decreases |cs|
  {
    if cs == [] then w else Run(Apply(w, cs[0]), cs[1..])
  }

  const EMPTY: World := World(Stack([], false), {}, [])

  predicate Distinct(s: seq<Entry>) { forall i, j | 0 <= i < j < |s| :: s[i] != s[j] }

  predicate Rising(s: seq<Entry>) { forall i, j | 0 <= i < j < |s| :: s[i].num < s[j].num }

  /** What has closed and what is left on the stack are the accepted entries, each once, the stack in order. */
  ghost predicate Inv(w: World) {
    && Distinct(w.log) && Rising(w.stack.entries)
    && (forall e :: e in w.accepted <==> e in w.log || e in w.stack.entries)
    && (forall e | e in w.log :: e !in w.stack.entries)
    && (w.stack.closed ==> w.stack.entries == [])
  }

  lemma AddKeepsInv(w: World, c: Call)
    requires Inv(w) && Enabled(w, c) && c.AddCall?
    ensures Inv(Apply(w, c))
  {
    if c.e.Some? && !w.stack.closed {
      assert c.e.value !in w.accepted;
      assert forall e | e in w.stack.entries :: e in w.accepted;
    }
  }

  lemma InReversed(s: seq<Entry>)
    ensures forall e :: e in Reversed(s) <==> e in s
    ensures Rising(s) ==> Distinct(Reversed(s))
  {
    forall e | e in s ensures e in Reversed(s) {
      var i :| 0 <= i < |s| && s[i] == e;
      assert Reversed(s)[|s| - 1 - i] == e;
    }
  }

  lemma SplitRising(s: seq<Entry>, n: nat)
    requires Rising(s) && n <= |s|
    ensures Rising(s[..n]) && Rising(s[n..])
    ensures forall e | e in s[..n] :: e !in s[n..]
    ensures forall e :: e in s <==> e in s[..n] || e in s[n..]
  {}

  lemma DistinctAppend(a: seq<Entry>, b: seq<Entry>)
    requires Distinct(a) && Distinct(b) && forall e | e in a :: e !in b
    ensures Distinct(a + b)
  {
    forall i, j | 0 <= i < j < |a + b| ensures (a + b)[i] != (a + b)[j] {
      if i < |a| <= j {
        assert (a + b)[i] in a && (a + b)[j] in b;
      }
    }
  }

  lemma CloseKeepsInv(w: World, c: Call)
    requires Inv(w) && c.CloseCall?
    ensures Inv(Apply(w, c))
  {
    if !w.stack.closed {
      var n := Remaining(w.stack, c.failing);
      var s := w.stack.entries;
      SplitRising(s, n);
      InReversed(s[n..]);
      DistinctAppend(w.log, Reversed(s[n..]));
    } else {
      assert w.log + [] == w.log;
    }
  }

  lemma {:induction false} RunKeepsInv(w: World, cs: seq<Call>)
    requires Inv(w) && Legal(w, cs)
    ensures Inv(Run(w, cs))
    decreases |cs|
  {
    if cs != [] {
      if cs[0].AddCall? {
        AddKeepsInv(w, cs[0]);
      } else {
        CloseKeepsInv(w, cs[0]);
      }
      RunKeepsInv(Apply(w, cs[0]), cs[1..]);
    }
  }

  /** Whatever fails and whenever it is retried, each entry closes at most once. */
  lemma ClosesAtMostOnce(cs: seq<Call>)
    requires Legal(EMPTY, cs)
    ensures Distinct(Run(EMPTY, cs).log)
    ensures forall e | e in Run(EMPTY, cs).log :: e in Run(EMPTY, cs).accepted
  {
    RunKeepsInv(EMPTY, cs);
  }

  /** When a call closes an entry, every newer one accepted has closed before, in this call or an earlier one. */
  lemma NewerClosesFirst(cs: seq<Call>, failing: set<Entry>, k: nat, newer: Entry)
    requires Legal(EMPTY, cs)
    requires k < |ClosedNow(Run(EMPTY, cs).stack, failing)|
    requires newer in Run(EMPTY, cs).accepted && ClosedNow(Run(EMPTY, cs).stack, failing)[k].num < newer.num
    ensures var w := Run(EMPTY, cs); newer in w.log + ClosedNow(w.stack, failing)[..k]
  {
    RunKeepsInv(EMPTY, cs);
    var stack := Run(EMPTY, cs).stack;
    if newer !in Run(EMPTY, cs).log {
      NewestFirst(stack.entries, Remaining(stack, failing), k, newer);
    }
  }

  lemma NewestFirst(s: seq<Entry>, n: nat, k: nat, newer: Entry)
    requires Rising(s) && n <= |s| && k < |s| - n && newer in s && Reversed(s[n..])[k].num < newer.num
    ensures newer in Reversed(s[n..])[..k]
  {
    var j :| 0 <= j < |s| && s[j] == newer;
    var r := Reversed(s[n..]);
    assert r[k] == s[|s| - 1 - k];
    assert |s| - 1 - k < j;
    assert r[..k][|s| - 1 - j] == r[|s| - 1 - j] == newer;
  }

  lemma {:induction false} ClosedForGood(w: World, cs: seq<Call>)
    requires w.stack.closed && Legal(w, cs)
    ensures Run(w, cs) == w
    decreases |cs|
  {
    if cs != [] {
      assert Apply(w, cs[0]) == w;
      ClosedForGood(Apply(w, cs[0]), cs[1..]);
    }
  }

  /** A Close that returns nil has everything closed, and no later call of any kind does anything. */
  lemma NilMeansAllClosed(cs: seq<Call>, failing: set<Entry>, later: seq<Call>)
    requires Legal(EMPTY, cs) && ReturnsNil(Run(EMPTY, cs).stack, failing)
    requires Legal(Apply(Run(EMPTY, cs), CloseCall(failing)), later)
    ensures var w := Apply(Run(EMPTY, cs), CloseCall(failing));
            && (forall e :: e in w.accepted <==> e in w.log) && Run(w, later) == w
  {
    RunKeepsInv(EMPTY, cs);
    CloseKeepsInv(Run(EMPTY, cs), CloseCall(failing));
    ClosedForGood(Apply(Run(EMPTY, cs), CloseCall(failing)), later);
  }

  /** A failed Close keeps the entry that failed on top, and the next call starts with it. */
  lemma FailureIsRetriedFirst(w: World, failing: set<Entry>, next: set<Entry>)
    requires !ReturnsNil(w.stack, failing)
    ensures var s := Closed(w.stack, failing);
            && s.entries != [] && s.entries[|s.entries| - 1] in failing && !s.closed
            && (ClosedNow(s, next) == [] <==> s.entries[|s.entries| - 1] in next)
            && (ClosedNow(s, next) != [] ==> ClosedNow(s, next)[0] == s.entries[|s.entries| - 1])
  {}
}
