/** Python's sorted(values, key=...): a stable sort by a text key, and when the order in which the
    values arrive shows in its result. */
module Ordering {
  import opened Vocabulary

  /** Texts compare code point by code point. */
  predicate AtMost(a: string, b: string) {
    a == "" || (b != "" && (a[0] < b[0] || (a[0] == b[0] && AtMost(a[1..], b[1..]))))
  }

  /** The order of a dictionary: a text comes before its continuations, and otherwise the first
      character in which two texts differ decides. */
  lemma {:induction false} AtMostExactly(a: string, b: string)
    ensures AtMost(a, b) <==>
      a <= b || exists i :: 0 <= i < |a| && i < |b| && a[..i] == b[..i] && a[i] < b[i]
    decreases |a|
  {
    if a != "" && b != "" {
      var c, d := a[1..], b[1..];
      assert a[..0] == b[..0];
      AtMostExactly(c, d);
      assert a == [a[0]] + c && b == [b[0]] + d;
      if i :| 0 <= i < |c| && i < |d| && c[..i] == d[..i] && c[i] < d[i] && a[0] == b[0] {
        assert a[..i + 1] == [a[0]] + c[..i] && b[..i + 1] == [b[0]] + d[..i];
        assert a[i + 1] < b[i + 1];
      }
      if i :| 0 <= i < |a| && i < |b| && a[..i] == b[..i] && a[i] < b[i] {
        if i > 0 {
          assert a[..i][0] == b[..i][0];
          assert c[..i - 1] == a[..i][1..] && d[..i - 1] == b[..i][1..];
          assert c[i - 1] < d[i - 1];
        } else {
          assert a[0] < b[0];
        }
      }
    }
  }

  lemma {:induction false} AtMostTotal(a: string, b: string)
    ensures AtMost(a, b) || AtMost(b, a)
    decreases |a|
  {
    if a != "" && b != "" && a[0] == b[0] {
      AtMostTotal(a[1..], b[1..]);
    }
  }

  lemma {:induction false} AtMostAntisymmetric(a: string, b: string)
    requires AtMost(a, b) && AtMost(b, a)
    ensures a == b
    decreases |a|
  {
    if a != "" && b != "" {
      AtMostAntisymmetric(a[1..], b[1..]);
      assert a == [a[0]] + a[1..] && b == [b[0]] + b[1..];
    }
  }

  lemma {:induction false} AtMostTransitive(a: string, b: string, c: string)
    requires AtMost(a, b) && AtMost(b, c)
    ensures AtMost(a, c)
    decreases |a|
  {
    if a != "" && a[0] == b[0] && b[0] == c[0] {
      AtMostTransitive(a[1..], b[1..], c[1..]);
    }
  }

  predicate Sorted<T(!new)>(key: T -> string, s: seq<T>) {
    forall i, j :: 0 <= i < j < |s| ==> AtMost(key(s[i]), key(s[j]))
  }

  function Insert<T>(key: T -> string, x: T, s: seq<T>): seq<T> {
    if s == [] || AtMost(key(x), key(s[0])) then [x] + s else [s[0]] + Insert(key, x, s[1..])
  }

  function Sort<T>(key: T -> string, s: seq<T>): seq<T> {
    if s == [] then [] else Insert(key, s[0], Sort(key, s[1..]))
  }

  /** The values with one key, in their order. */
  function Tied<T>(key: T -> string, k: string, s: seq<T>): seq<T> {
    if s == [] then [] else (if key(s[0]) == k then [s[0]] else []) + Tied(key, k, s[1..])
  }

  predicate NoTies<T(!new)>(key: T -> string, values: set<T>) {
    forall x, y :: x in values && y in values && key(x) == key(y) ==> x == y
  }

  /** An order in which a set may be iterated. */
  ghost predicate Arranges<T(!new)>(s: seq<T>, values: set<T>) {
    Distinct(s) && Elements(s) == values
  }

  // ----- The sort ------------------------------------------------------------------------

  lemma {:induction false} InsertKeepsValues<T>(key: T -> string, x: T, s: seq<T>)
    ensures multiset(Insert(key, x, s)) == multiset(s) + multiset{x}
  {
    if !(s == [] || AtMost(key(x), key(s[0]))) {
      InsertKeepsValues(key, x, s[1..]);
      assert s == [s[0]] + s[1..];
    }
  }

  lemma {:induction false} InsertIsSorted<T(!new)>(key: T -> string, x: T, s: seq<T>)
    requires Sorted(key, s)
    ensures Sorted(key, Insert(key, x, s))
  {
    if s == [] {
    } else if AtMost(key(x), key(s[0])) {
      forall i | 0 <= i < |s| ensures AtMost(key(x), key(s[i])) {
        if i > 0 {
          AtMostTransitive(key(x), key(s[0]), key(s[i]));
        }
      }
    } else {
      InsertIsSorted(key, x, s[1..]);
      InsertKeepsValues(key, x, s[1..]);
      var rest := Insert(key, x, s[1..]);
      AtMostTotal(key(x), key(s[0]));
      forall i | 0 <= i < |rest| ensures AtMost(key(s[0]), key(rest[i])) {
        assert rest[i] in multiset(rest);
      }
    }
  }

  lemma {:induction false} SortedPermutation<T(!new)>(key: T -> string, s: seq<T>)
    ensures Sorted(key, Sort(key, s)) && multiset(Sort(key, s)) == multiset(s)
  {
    if s != [] {
      SortedPermutation(key, s[1..]);
      InsertIsSorted(key, s[0], Sort(key, s[1..]));
      InsertKeepsValues(key, s[0], Sort(key, s[1..]));
      assert s == [s[0]] + s[1..];
    }
  }

  lemma TiedFirst<T>(key: T -> string, k: string, x: T, s: seq<T>)
    ensures Tied(key, k, [x] + s) == (if key(x) == k then [x] else []) + Tied(key, k, s)
  {
    assert ([x] + s)[1..] == s;
  }

  lemma {:induction false} InsertKeepsTied<T>(key: T -> string, k: string, x: T, s: seq<T>)
    ensures Tied(key, k, Insert(key, x, s)) == (if key(x) == k then [x] else []) + Tied(key, k, s)
  {
    if s == [] || AtMost(key(x), key(s[0])) {
      TiedFirst(key, k, x, s);
    } else {
      InsertKeepsTied(key, k, x, s[1..]);
      TiedFirst(key, k, s[0], Insert(key, x, s[1..]));
      TiedFirst(key, k, s[0], s[1..]);
      assert s == [s[0]] + s[1..];
      AtMostTotal(key(x), key(s[0]));
      assert key(x) != key(s[0]);
    }
  }

  /** Stability: values with the same key leave in the order in which they came. */
  lemma {:induction false} SortIsStable<T>(key: T -> string, k: string, s: seq<T>)
    ensures Tied(key, k, Sort(key, s)) == Tied(key, k, s)
  {
    if s != [] {
      SortIsStable(key, k, s[1..]);
      InsertKeepsTied(key, k, s[0], Sort(key, s[1..]));
    }
  }

  // ----- Arrangements ---------------------------------------------------------------------

  lemma ArrangementOf<T(!new)>(s: seq<T>, t: seq<T>)
    requires multiset(s) == multiset(t) && Distinct(t)
    ensures Arranges(s, Elements(t)) && |s| == |t|
  {
    forall x ensures x in s <==> x in t {
      assert x in s <==> x in multiset(s);
      assert x in t <==> x in multiset(t);
    }
    assert Elements(s) == Elements(t);
    assert |s| == |multiset(s)| == |multiset(t)| == |t|;
    DistinctCounts(t);
    CountsDistinct(s);
  }

  lemma {:induction false} DistinctCounts<T(!new)>(s: seq<T>)
    requires Distinct(s)
    ensures forall x :: multiset(s)[x] <= 1
  {
    if s != [] {
      DistinctCounts(s[1..]);
      assert s == [s[0]] + s[1..];
      assert s[0] !in s[1..];
    }
  }

  lemma CountsDistinct<T(!new)>(s: seq<T>)
    requires forall x :: multiset(s)[x] <= 1
    ensures Distinct(s)
  {
    forall i, j | 0 <= i < j < |s| ensures s[i] != s[j] {
      assert s == s[..j] + s[j..];
      assert s[i] in s[..j] && s[j] in s[j..];
      assert multiset(s)[s[i]] == multiset(s[..j])[s[i]] + multiset(s[j..])[s[i]];
      assert s[i] in multiset(s[..j]) && s[j] in multiset(s[j..]);
    }
  }

  lemma SortArranges<T(!new)>(key: T -> string, s: seq<T>, values: set<T>)
    requires Arranges(s, values)
    ensures Arranges(Sort(key, s), values) && Sorted(key, Sort(key, s)) && |Sort(key, s)| == |values|
  {
    SortedPermutation(key, s);
    ArrangementOf(Sort(key, s), s);
    DistinctCardinality(Sort(key, s));
  }

  /** Without ties there is one sorted arrangement. */
  lemma {:induction false} SortedIsUnique<T(!new)>(key: T -> string, a: seq<T>, b: seq<T>)
    requires Sorted(key, a) && Sorted(key, b) && Arranges(a, Elements(b)) && Distinct(b)
    requires NoTies(key, Elements(a))
    ensures a == b
    decreases |a|
  {
    if a == [] {
      DistinctCardinality(b);
      assert |Elements(b)| == |Elements(a)| == 0;
    } else {
      assert a[0] in Elements(a) && a[0] in Elements(b);
      assert b[0] in Elements(b) && b[0] in Elements(a);
      FirstIsLeast(key, a, b[0]);
      FirstIsLeast(key, b, a[0]);
      AtMostAntisymmetric(key(a[0]), key(b[0]));
      assert a[0] == b[0];
      RestElements(a);
      RestElements(b);
      SortedIsUnique(key, a[1..], b[1..]);
      assert a == [a[0]] + a[1..] && b == [b[0]] + b[1..];
    }
  }

  lemma RestElements<T>(s: seq<T>)
    requires s != [] && Distinct(s)
    ensures Elements(s[1..]) == Elements(s) - {s[0]} && Distinct(s[1..])
  {
    forall x | x in Elements(s) - {s[0]} ensures x in Elements(s[1..]) {
      var i :| 0 <= i < |s| && s[i] == x;
      assert s[1..][i - 1] == x;
    }
  }

  lemma FirstIsLeast<T(!new)>(key: T -> string, s: seq<T>, x: T)
    requires Sorted(key, s) && x in s
    ensures AtMost(key(s[0]), key(x))
  {
    var i :| 0 <= i < |s| && s[i] == x;
    if i == 0 {
      AtMostTotal(key(x), key(x));
    }
  }

  /** Sorting any two arrangements of a set gives the same sequence if no two values tie. */
  lemma SortIgnoresArrangement<T(!new)>(key: T -> string, s: seq<T>, t: seq<T>, values: set<T>)
    requires Arranges(s, values) && Arranges(t, values) && NoTies(key, values)
    ensures Sort(key, s) == Sort(key, t)
  {
    SortArranges(key, s, values);
    SortArranges(key, t, values);
    SortedIsUnique(key, Sort(key, s), Sort(key, t));
  }

  // ----- Ties -----------------------------------------------------------------------------

  function Reversed<T>(s: seq<T>): seq<T> {
    if s == [] then [] else Reversed(s[1..]) + [s[0]]
  }

  lemma {:induction false} ReversedIsPermutation<T>(s: seq<T>)
    ensures multiset(Reversed(s)) == multiset(s) && |Reversed(s)| == |s|
  {
    if s != [] {
      ReversedIsPermutation(s[1..]);
      assert s == [s[0]] + s[1..];
    }
  }

  lemma {:induction false} TiedOfConcatenation<T>(key: T -> string, k: string, a: seq<T>, b: seq<T>)
    ensures Tied(key, k, a + b) == Tied(key, k, a) + Tied(key, k, b)
  {
    if a == [] {
      assert a + b == b;
    } else {
      TiedOfConcatenation(key, k, a[1..], b);
      assert (a + b)[1..] == a[1..] + b;
    }
  }

  lemma {:induction false} TiedOfReversed<T>(key: T -> string, k: string, s: seq<T>)
    ensures Tied(key, k, Reversed(s)) == Reversed(Tied(key, k, s))
  {
    if s != [] {
      TiedOfReversed(key, k, s[1..]);
      TiedOfConcatenation(key, k, Reversed(s[1..]), [s[0]]);
      if key(s[0]) == k {
        assert Tied(key, k, s)[1..] == Tied(key, k, s[1..]);
        assert Tied(key, k, [s[0]]) == [s[0]];
      } else {
        assert Tied(key, k, s) == Tied(key, k, s[1..]);
        assert Tied(key, k, [s[0]]) == [];
      }
    }
  }

  lemma {:induction false} TiedHolds<T>(key: T -> string, k: string, s: seq<T>)
    ensures forall x :: x in Tied(key, k, s) <==> x in s && key(x) == k
    ensures Distinct(s) ==> Distinct(Tied(key, k, s))
  {
    if s != [] {
      TiedHolds(key, k, s[1..]);
      assert s == [s[0]] + s[1..];
      if Distinct(s) {
        assert s[0] !in s[1..];
      }
    }
  }

  /** With a tie, the arrangement shows: sorting the reverse of a sorted sequence changes it. */
  lemma TieShows<T(!new)>(key: T -> string, s: seq<T>)
    requires Distinct(s) && !NoTies(key, Elements(s))
    ensures Arranges(Reversed(s), Elements(s)) && Sort(key, Reversed(s)) != s
  {
    ReversedIsPermutation(s);
    ArrangementOf(Reversed(s), s);
    var x, y :| x in Elements(s) && y in Elements(s) && key(x) == key(y) && x != y;
    var k := key(x);
    var t := Tied(key, k, s);
    TiedHolds(key, k, s);
    assert x in t && y in t;
    assert |t| >= 2;
    SortIsStable(key, k, Reversed(s));
    TiedOfReversed(key, k, s);
    ReversedEnds(t);
    assert Reversed(t) != t;
  }

  lemma ReversedEnds<T>(s: seq<T>)
    requires s != []
    ensures |Reversed(s)| == |s| && Reversed(s)[|s| - 1] == s[0]
  {
    ReversedIsPermutation(s);
    ReversedIsPermutation(s[1..]);
  }
}
