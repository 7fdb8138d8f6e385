/** Code-point lexicographic order on strings: Python's `str` comparison,
    and the order in which the object store lists keys.  Also the ascending
    enumeration of a finite set of strings, as a specification function and
    as a method. */
module StringOrder {

  /** `a < b` for Python strings. */
  predicate LexLess(a: string, b: string)
    decreases |a|
  {
    if a == [] then b != []
    else b != [] && (a[0] < b[0] || (a[0] == b[0] && LexLess(a[1..], b[1..])))
  }

  lemma LexLessIrreflexive(a: string)
    ensures !LexLess(a, a)
  {
  }

  lemma {:induction false} LexLessTransitive(a: string, b: string, c: string)
    requires LexLess(a, b) && LexLess(b, c)
    ensures LexLess(a, c)
    decreases |a|
  {
    if a != [] && a[0] == b[0] && b[0] == c[0] {
      LexLessTransitive(a[1..], b[1..], c[1..]);
    }
  }

  lemma {:induction false} LexLessTotal(a: string, b: string)
    ensures a == b || LexLess(a, b) || LexLess(b, a)
    decreases |a|
  {
    if a != [] && b != [] && a[0] == b[0] {
      LexLessTotal(a[1..], b[1..]);
      if a[1..] == b[1..] {
        assert a == [a[0]] + a[1..] && b == [b[0]] + b[1..];
      }
    }
  }

  lemma {:induction false} LexLessAsymmetric(a: string, b: string)
    requires LexLess(a, b)
    ensures !LexLess(b, a)
    decreases |a|
  {
    if a != [] && a[0] == b[0] {
      LexLessAsymmetric(a[1..], b[1..]);
    }
  }

  /** `m` is the smallest element of `s`. */
  ghost predicate IsLeast(m: string, s: set<string>) {
    m in s && forall x :: x in s && x != m ==> LexLess(m, x)
  }

  lemma LeastUnique(m1: string, m2: string, s: set<string>)
    requires IsLeast(m1, s) && IsLeast(m2, s)
    ensures m1 == m2
  {
    if m1 != m2 {
      LexLessAsymmetric(m1, m2);
    }
  }

  lemma {:induction false} LeastExists(s: set<string>)
    requires s != {}
    ensures exists m :: IsLeast(m, s)
    decreases |s|
  {
    var x :| x in s;
    if s != {x} {
      var rest := s - {x};
      LeastExists(rest);
      var y :| IsLeast(y, rest);
      LexLessTotal(x, y);
      if LexLess(x, y) {
        forall z | z in s && z != x
          ensures LexLess(x, z)
        {
          if z != y { LexLessTransitive(x, y, z); }
        }
        assert IsLeast(x, s);
      } else {
        assert IsLeast(y, s);
      }
    } else {
      assert IsLeast(x, s);
    }
  }

  /** The elements of `s` in ascending order. */
  ghost function SortedSet(s: set<string>): seq<string>
    decreases |s|
  {
    if s == {} then []
    else
      LeastExists(s);
      var m :| IsLeast(m, s);
      [m] + SortedSet(s - {m})
  }

  ghost predicate StrictlyAscending(r: seq<string>) {
    forall i, j :: 0 <= i < j < |r| ==> LexLess(r[i], r[j])
  }

  /** `SortedSet(s)` lists each element of `s` once, in strictly ascending
      order. */
  lemma {:induction false} SortedSetSpec(s: set<string>)
    ensures |SortedSet(s)| == |s|
    ensures forall x :: x in SortedSet(s) <==> x in s
    ensures StrictlyAscending(SortedSet(s))
    decreases |s|
  {
    if s != {} {
      LeastExists(s);
      var m :| IsLeast(m, s);
      SortedSetUnfold(s, m);
      SortedSetSpec(s - {m});
      var r := SortedSet(s);
      forall i, j | 0 <= i < j < |r|
        ensures LexLess(r[i], r[j])
      {
        if i == 0 {
          assert r[j] in s - {m};
        } else {
          assert r[i] == SortedSet(s - {m})[i - 1] && r[j] == SortedSet(s - {m})[j - 1];
        }
      }
    }
  }

  /** Whichever least element is chosen, the enumeration starts with it. */
  lemma SortedSetUnfold(s: set<string>, m: string)
    requires IsLeast(m, s)
    ensures SortedSet(s) == [m] + SortedSet(s - {m})
  {
    var r := SortedSet(s);
    assert IsLeast(r[0], s) && r == [r[0]] + SortedSet(s - {r[0]});
    LeastUnique(m, r[0], s);
  }

  /** Finds the smallest element of a non-empty set. */
  method MinOf(s: set<string>) returns (m: string)
    requires s != {}
    ensures IsLeast(m, s)
  {
    m :| m in s;
    var rest := s - {m};
    while rest != {}
      invariant rest <= s && m in s && m !in rest
      invariant forall x :: x in s - rest && x != m ==> LexLess(m, x)
      decreases |rest|
    {
      var x :| x in rest;
      LexLessTotal(x, m);
      if LexLess(x, m) {
        forall z | z in s - rest && z != x
          ensures LexLess(x, z)
        {
          if z != m { LexLessTransitive(x, m, z); }
        }
        m := x;
      }
      rest := rest - {x};
    }
  }

  /** Enumerates a finite set of strings in ascending order. */
  method SortedList(s: set<string>) returns (r: seq<string>)
    ensures r == SortedSet(s)
  {
    r := [];
    var pending := s;
    while pending != {}
      invariant r + SortedSet(pending) == SortedSet(s)
      decreases |pending|
    {
      var m := MinOf(pending);
      SortedSetUnfold(pending, m);
      r := r + [m];
      pending := pending - {m};
    }
  }
}
