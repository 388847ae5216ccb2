/** Orders and sorting used to give the holding register's ordered containers their iteration
    order: a lexicographic order on integer sequences, strict total orders on a finite set, and
    the ascending enumeration of a finite set under such an order. */
module Sorting {

  /** Lexicographic strict order on integer sequences; a proper prefix comes first. */
  predicate LexLess(a: seq<int>, b: seq<int>)
    decreases |a|
  {
    |b| > 0 && (|a| == 0 || a[0] < b[0] || (a[0] == b[0] && LexLess(a[1..], b[1..])))
  }

  lemma {:induction false} LexIrreflexive(a: seq<int>)
    ensures !LexLess(a, a)
    decreases |a|
  {
    if |a| > 0 {
      LexIrreflexive(a[1..]);
    }
  }

  lemma {:induction false} LexTransitive(a: seq<int>, b: seq<int>, c: seq<int>)
    requires LexLess(a, b) && LexLess(b, c)
    ensures LexLess(a, c)
    decreases |a|
  {
    if |a| > 0 && a[0] == b[0] && b[0] == c[0] {
      LexTransitive(a[1..], b[1..], c[1..]);
    }
  }

  lemma {:induction false} LexTotal(a: seq<int>, b: seq<int>)
    requires a != b
    ensures LexLess(a, b) || LexLess(b, a)
    decreases |a|
  {
    if |a| > 0 && |b| > 0 && a[0] == b[0] {
      assert a == [a[0]] + a[1..] && b == [b[0]] + b[1..];
      LexTotal(a[1..], b[1..]);
    }
  }

  /** `less` is a strict total order on the elements of `s`. */
  ghost predicate StrictTotalOn<T>(less: (T, T) -> bool, s: set<T>)
  {
    && (forall a | a in s :: !less(a, a))
    && (forall a, b, c | a in s && b in s && c in s :: less(a, b) && less(b, c) ==> less(a, c))
    && (forall a, b | a in s && b in s :: a != b ==> less(a, b) || less(b, a))
  }

  predicate IsMinimum<T>(less: (T, T) -> bool, m: T, s: set<T>)
  {
    m in s && forall x | x in s && x != m :: less(m, x)
  }

  /** An element of a non-empty set. */
  ghost function Pick<T(!new)>(s: set<T>): (x: T)
    requires s != {}
    ensures x in s
  {
    var x :| x in s; x
  }

  /** The least element of a non-empty set, found by comparing one element with the least of
      the others. */
  ghost function Minimum<T(!new)>(less: (T, T) -> bool, s: set<T>): (m: T)
    requires s != {}
    ensures m in s
    decreases |s|
  {
    var x := Pick(s);
    if s == {x} then x
    else
      var m := Minimum(less, s - {x});
      if less(x, m) then x else m
  }

  lemma StrictTotalSubset<T>(less: (T, T) -> bool, s: set<T>, t: set<T>)
    requires StrictTotalOn(less, s) && t <= s
    ensures StrictTotalOn(less, t)
  {
  }

  /** Under a strict total order, `Minimum` is below every other element. */
  lemma {:induction false} MinimumIsMinimum<T(!new)>(less: (T, T) -> bool, s: set<T>)
    requires StrictTotalOn(less, s) && s != {}
    ensures IsMinimum(less, Minimum(less, s), s)
    decreases |s|
  {
    var x := Pick(s);
    if s != {x} {
      var rest := s - {x};
      StrictTotalSubset(less, s, rest);
      MinimumIsMinimum(less, rest);
      var m := Minimum(less, rest);
      if !less(x, m) {
        assert less(m, x);
      }
    }
  }

  predicate Distinct<T(==)>(s: seq<T>)
  {
    forall i, j | 0 <= i < j < |s| :: s[i] != s[j]
  }

  /** The elements of a finite set in ascending order. */
  ghost function Sorted<T(!new)>(less: (T, T) -> bool, s: set<T>): (r: seq<T>)
    ensures |r| == |s|
    decreases |s|
  {
    if s == {} then [] else var m := Minimum(less, s); [m] + Sorted(less, s - {m})
  }

  lemma SortedSingleton<T(!new)>(less: (T, T) -> bool, x: T)
    ensures Sorted(less, {x}) == [x]
  {
    assert {x} - {Minimum(less, {x})} == {};
  }

  /** Under a strict total order the minimum is unique. */
  lemma MinimumUnique<T(!new)>(less: (T, T) -> bool, s: set<T>, m: T)
    requires StrictTotalOn(less, s) && IsMinimum(less, m, s)
    ensures m == Minimum(less, s)
  {
    MinimumIsMinimum(less, s);
  }

  /** `r` lists every element of `s`, nothing else, and each once. */
  predicate Enumerates<T(==)>(r: seq<T>, s: set<T>)
  {
    Distinct(r) && (forall x | x in r :: x in s) && (forall x | x in s :: x in r)
  }

  /** Every element of the set is listed, and only once. */
  lemma {:induction false} SortedEnumerates<T(!new)>(less: (T, T) -> bool, s: set<T>)
    ensures Enumerates(Sorted(less, s), s)
    decreases |s|
  {
    if s != {} {
      var r := Sorted(less, s);
      var m := r[0];
      SortedEnumerates(less, s - {m});
      assert r[1..] == Sorted(less, s - {m});
      forall x | x in s ensures x in r {
        if x != m {
          assert x in r[1..];
        }
      }
      forall i, j | 0 <= i < j < |r| ensures r[i] != r[j] {
        assert r[j] == r[1..][j - 1];
        if i > 0 {
          assert r[i] == r[1..][i - 1];
        }
      }
    }
  }

  /** Under a strict total order the elements come in ascending order. */
  lemma {:induction false} SortedAscending<T(!new)>(less: (T, T) -> bool, s: set<T>)
    requires StrictTotalOn(less, s)
    ensures forall i, j | 0 <= i < j < |Sorted(less, s)| :: less(Sorted(less, s)[i], Sorted(less, s)[j])
    decreases |s|
  {
    if s != {} {
      var r := Sorted(less, s);
      var m := r[0];
      MinimumIsMinimum(less, s);
      StrictTotalSubset(less, s, s - {m});
      SortedAscending(less, s - {m});
      SortedEnumerates(less, s - {m});
      assert r[1..] == Sorted(less, s - {m});
      forall i, j | 0 <= i < j < |r| ensures less(r[i], r[j]) {
        if i == 0 {
          assert r[j] in s - {m};
        } else {
          assert r[i] == r[1..][i - 1] && r[j] == r[1..][j - 1];
        }
      }
    }
  }

  /** A strictly ascending sequence has no repeated element. */
  lemma AscendingDistinct<T>(less: (T, T) -> bool, r: seq<T>, s: set<T>)
    requires StrictTotalOn(less, s)
    requires forall x | x in r :: x in s
    requires forall i, j | 0 <= i < j < |r| :: less(r[i], r[j])
    ensures Distinct(r)
  {
    forall i, j | 0 <= i < j < |r| ensures r[i] != r[j] {
      assert less(r[i], r[j]);
    }
  }

  /** The least element of a non-empty set, by one pass over its elements. */
  method MinOf<T(==)>(less: (T, T) -> bool, s: set<T>) returns (m: T)
    requires StrictTotalOn(less, s) && s != {}
    ensures IsMinimum(less, m, s)
  {
    m :| m in s;
    var todo := s - {m};
    while todo != {}
      invariant todo <= s && m in s && m !in todo
      invariant forall x | x in s && x !in todo && x != m :: less(m, x)
      decreases |todo|
    {
      var x :| x in todo;
      if less(x, m) {
        m := x;
      }
      todo := todo - {x};
    }
  }

  /** Lists a finite set in ascending order, as an ordered container iterates over it. */
  method SortSet<T(==,!new)>(less: (T, T) -> bool, s: set<T>) returns (r: seq<T>)
    requires StrictTotalOn(less, s)
    ensures r == Sorted(less, s)
  {
    r := [];
    var rest := s;
    while rest != {}
      invariant rest <= s
      invariant r + Sorted(less, rest) == Sorted(less, s)
      decreases |rest|
    {
      StrictTotalSubset(less, s, rest);
      var m := MinOf(less, rest);
      MinimumUnique(less, rest, m);
      assert Sorted(less, rest) == [m] + Sorted(less, rest - {m});
      r := r + [m];
      rest := rest - {m};
    }
  }
}
