/** Small datatypes shared by every component, and facts about finite sets: sizes, and least elements. */
module Common {
  datatype Option<+T> = None | Some(value: T)

  /** A subset of a finite set is no larger than the set. */
  lemma {:induction false} SubsetSize<T>(a: set<T>, b: set<T>)
    requires a <= b
    ensures |a| <= |b|
    ensures |a| == |b| ==> a == b
    decreases |a|
  {
    if a != {} {
      var x :| x in a;
      SubsetSize(a - {x}, b - {x});
      if |a| == |b| {
        assert a == (a - {x}) + {x} && b == (b - {x}) + {x};
      }
    }
  }

  // ----- ORDER BY, and LIMIT -----

  /** A sort key of two columns. */
  type SortKey = (int, int)

  predicate Upto(a: SortKey, b: SortKey) { a.0 < b.0 || (a.0 == b.0 && a.1 <= b.1) }

  ghost predicate IsLeast<T(!new)>(s: set<T>, key: T -> SortKey, x: T) {
    x in s && forall y | y in s :: Upto(key(x), key(y))
  }

  lemma {:induction false} LeastExists<T(!new)>(s: set<T>, key: T -> SortKey)
    requires s != {}
    ensures exists x :: IsLeast(s, key, x)
    decreases |s|
  {
    var x :| x in s;
    if s == {x} {
      assert IsLeast(s, key, x);
    } else {
      LeastExists(s - {x}, key);
      var y :| IsLeast(s - {x}, key, y);
      var least := if Upto(key(x), key(y)) then x else y;
      forall z | z in s ensures Upto(key(least), key(z)) {
        assert z == x || z in s - {x};
      }
      assert IsLeast(s, key, least);
    }
  }

  method FindLeast<T(!new, ==)>(s: set<T>, key: T -> SortKey) returns (x: T)
    requires s != {}
    ensures IsLeast(s, key, x)
  {
    x :| x in s;
    var todo := s - {x};
    while todo != {}
      invariant todo <= s && x in s
      invariant forall y | y in s && y !in todo :: Upto(key(x), key(y))
      decreases |todo|
    {
      var y :| y in todo;
      if !Upto(key(x), key(y)) {
        x := y;
      }
      todo := todo - {y};
    }
  }

  /** The first `n` of a set in the order of their keys: ties may fall either way. */
  ghost predicate AreFirst<T(!new)>(s: set<T>, key: T -> SortKey, n: nat, chosen: set<T>) {
    && chosen <= s && |chosen| == (if n <= |s| then n else |s|)
    && forall c, e | c in chosen && e in s && e !in chosen :: Upto(key(c), key(e))
  }

  method ChooseFirst<T(!new, ==)>(s: set<T>, key: T -> SortKey, n: nat) returns (chosen: set<T>)
    ensures AreFirst(s, key, n, chosen)
  {
    chosen := {};
    var rest := s;
    while |chosen| < n && rest != {}
      invariant chosen !! rest && chosen + rest == s
      invariant |chosen| <= n && |chosen| + |rest| == |s|
      invariant forall c, e | c in chosen && e in rest :: Upto(key(c), key(e))
      decreases |rest|
    {
      var x := FindLeast(rest, key);
      chosen := chosen + {x};
      rest := rest - {x};
    }
  }

  lemma {:induction false} FirstExist<T(!new)>(s: set<T>, key: T -> SortKey, n: nat) returns (chosen: set<T>)
    ensures AreFirst(s, key, n, chosen)
    decreases |s|
  {
    if n == 0 || s == {} {
      return {};
    }
    LeastExists(s, key);
    var x :| IsLeast(s, key, x);
    var rest := FirstExist(s - {x}, key, n - 1);
    chosen := rest + {x};
    assert |s - {x}| == |s| - 1;
    forall c, e | c in chosen && e in s && e !in chosen ensures Upto(key(c), key(e)) {
      assert e in s - {x};
    }
  }
}
