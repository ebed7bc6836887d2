// Python's ordering of str values and the built-in sorted() over a list of
// names.
module StringOrder {

  /** Python's `a <= b` on str: code point by code point; a proper prefix
      comes first. */
  predicate LessEq(a: string, b: string)
    ensures a <= b ==> LessEq(a, b)
  {
    |a| == 0 || (|b| > 0 && (a[0] < b[0] || (a[0] == b[0] && LessEq(a[1..], b[1..]))))
  }

  lemma {:induction false} LessEqReflexive(a: string)
    ensures LessEq(a, a)
  {
    if |a| > 0 {
      LessEqReflexive(a[1..]);
    }
  }

  lemma {:induction false} LessEqTotal(a: string, b: string)
    ensures LessEq(a, b) || LessEq(b, a)
  {
    if |a| > 0 && |b| > 0 && a[0] == b[0] {
      LessEqTotal(a[1..], b[1..]);
    }
  }

  lemma {:induction false} LessEqAntisymmetric(a: string, b: string)
    requires LessEq(a, b) && LessEq(b, a)
    ensures a == b
  {
    if |a| > 0 && |b| > 0 {
      LessEqAntisymmetric(a[1..], b[1..]);
      assert a == [a[0]] + a[1..] && b == [b[0]] + b[1..];
    }
  }

  lemma {:induction false} LessEqTransitive(a: string, b: string, c: string)
    requires LessEq(a, b) && LessEq(b, c)
    ensures LessEq(a, c)
  {
    if |a| > 0 && |b| > 0 && |c| > 0 && a[0] == b[0] && b[0] == c[0] {
      LessEqTransitive(a[1..], b[1..], c[1..]);
    }
  }

  /** Every name is <= every later name. */
  ghost predicate IsSorted(s: seq<string>)
  {
    forall i, j :: 0 <= i < j < |s| ==> LessEq(s[i], s[j])
  }

  /** Puts `x` in front of the first element it is <= to. */
  function Insert(x: string, s: seq<string>): (r: seq<string>)
    ensures multiset(r) == multiset(s) + multiset{x}
  {
    if s == [] then [x]
    else if LessEq(x, s[0]) then [x] + s
    else
      assert s == [s[0]] + s[1..];
      [s[0]] + Insert(x, s[1..])
  }

  /** sorted(names): an insertion sort, which by SortedIsUnique returns the
      same list as Python's stable sort. */
  function Sort(s: seq<string>): (r: seq<string>)
    ensures multiset(r) == multiset(s)
  {
    if s == [] then []
    else
      assert s == [s[0]] + s[1..];
      Insert(s[0], Sort(s[1..]))
  }

  lemma {:induction false} InsertKeepsSorted(x: string, s: seq<string>)
    requires IsSorted(s)
    ensures IsSorted(Insert(x, s))
  {
    if s == [] {
    } else if LessEq(x, s[0]) {
      forall j | 0 <= j < |s|
        ensures LessEq(x, s[j])
      {
        if j > 0 {
          LessEqTransitive(x, s[0], s[j]);
        }
      }
    } else {
      LessEqTotal(x, s[0]);
      var rest := Insert(x, s[1..]);
      InsertKeepsSorted(x, s[1..]);
      forall k | 0 <= k < |rest|
        ensures LessEq(s[0], rest[k])
      {
        assert rest[k] in multiset(rest);
        if rest[k] != x {
          assert rest[k] in multiset(s[1..]);
          var m :| 0 <= m < |s[1..]| && s[1..][m] == rest[k];
          assert s[m + 1] == rest[k];
        }
      }
    }
  }

  lemma {:induction false} SortIsSorted(s: seq<string>)
    ensures IsSorted(Sort(s))
  {
    if s != [] {
      SortIsSorted(s[1..]);
      InsertKeepsSorted(s[0], Sort(s[1..]));
    }
  }

  /** Two sorted lists holding the same names are the same list: sorting
      has exactly one possible result. */
  lemma {:induction false} SortedIsUnique(s: seq<string>, t: seq<string>)
    requires IsSorted(s) && IsSorted(t)
    requires multiset(s) == multiset(t)
    ensures s == t
  {
    if s == [] {
      assert |t| == |multiset(t)| == 0;
    } else {
      assert t != [] by {
        assert s[0] in multiset(t);
      }
      SortedHeadsAgree(s, t);
      assert s == [s[0]] + s[1..] && t == [t[0]] + t[1..];
      assert multiset(s[1..]) == multiset(s) - multiset{s[0]};
      assert multiset(t[1..]) == multiset(t) - multiset{t[0]};
      assert IsSorted(s[1..]) && IsSorted(t[1..]);
      SortedIsUnique(s[1..], t[1..]);
    }
  }

  lemma SortedHeadsAgree(s: seq<string>, t: seq<string>)
    requires s != [] && t != []
    requires IsSorted(s) && IsSorted(t)
    requires multiset(s) == multiset(t)
    ensures s[0] == t[0]
  {
    assert LessEq(s[0], t[0]) by {
      assert t[0] in multiset(s);
      var i :| 0 <= i < |s| && s[i] == t[0];
      if i == 0 { LessEqReflexive(s[0]); }
    }
    assert LessEq(t[0], s[0]) by {
      assert s[0] in multiset(t);
      var j :| 0 <= j < |t| && t[j] == s[0];
      if j == 0 { LessEqReflexive(t[0]); }
    }
    LessEqAntisymmetric(s[0], t[0]);
  }

  /** Sort returns the one sorted arrangement of its input. */
  lemma SortIsTheSortedPermutation(s: seq<string>, t: seq<string>)
    requires IsSorted(t) && multiset(t) == multiset(s)
    ensures Sort(s) == t
  {
    SortIsSorted(s);
    SortedIsUnique(Sort(s), t);
  }
}
