/** A stable sort under a total preorder, as `slice::sort_by` performs it. */
module Sorting {
  import opened Collections

  ghost predicate Total<T(!new)>(le: (T, T) -> bool) {
    forall x, y :: le(x, y) || le(y, x)
  }

  ghost predicate Transitive<T(!new)>(le: (T, T) -> bool) {
    forall x, y, z :: le(x, y) && le(y, z) ==> le(x, z)
  }

  predicate Sorted<T>(s: seq<T>, le: (T, T) -> bool) {
    forall i, j | 0 <= i < j < |s| :: le(s[i], s[j])
  }

  /** `e` goes before its equals: it preceded all of `s` in the original order. */
  function Insert<T>(e: T, s: seq<T>, le: (T, T) -> bool): seq<T> {
    if s == [] || le(e, s[0]) then [e] + s else [s[0]] + Insert(e, s[1..], le)
  }

  function Sort<T>(s: seq<T>, le: (T, T) -> bool): seq<T> {
    if s == [] then [] else Insert(s[0], Sort(s[1..], le), le)
  }

  lemma {:induction false} InsertPermutes<T>(e: T, s: seq<T>, le: (T, T) -> bool)
    ensures multiset(Insert(e, s, le)) == multiset{e} + multiset(s)
  {
    if s != [] && !le(e, s[0]) {
      InsertPermutes(e, s[1..], le);
      assert s == [s[0]] + s[1..];
    }
  }

  lemma {:induction false} InsertSorts<T(!new)>(e: T, s: seq<T>, le: (T, T) -> bool)
    requires Total(le) && Transitive(le) && Sorted(s, le)
    ensures Sorted(Insert(e, s, le), le)
  {
    if s != [] && !le(e, s[0]) {
      InsertSorts(e, s[1..], le);
      var r := Insert(e, s[1..], le);
      InsertPermutes(e, s[1..], le);
      forall j | 0 <= j < |r|
        ensures le(s[0], r[j])
      {
        assert r[j] in multiset(r);
      }
    }
  }

  lemma {:induction false} SortSorts<T(!new)>(s: seq<T>, le: (T, T) -> bool)
    requires Total(le) && Transitive(le)
    ensures Sorted(Sort(s, le), le) && multiset(Sort(s, le)) == multiset(s)
  {
    if s != [] {
      SortSorts(s[1..], le);
      InsertSorts(s[0], Sort(s[1..], le), le);
      InsertPermutes(s[0], Sort(s[1..], le), le);
      assert s == [s[0]] + s[1..];
    }
  }

  function Tie<T>(e: T, x: T, le: (T, T) -> bool): seq<T> {
    if le(x, e) && le(e, x) then [e] else []
  }

  /** The elements of `s` that tie with `x`, in order. */
  function Ties<T>(s: seq<T>, x: T, le: (T, T) -> bool): seq<T> {
    if s == [] then [] else Tie(s[0], x, le) + Ties(s[1..], x, le)
  }

  lemma {:induction false} TiesHead<T>(a: seq<T>, b: seq<T>, x: T, le: (T, T) -> bool)
    requires a != []
    ensures Ties(a + b, x, le) == Tie(a[0], x, le) + Ties(a[1..] + b, x, le)
  {
    assert (a + b)[1..] == a[1..] + b;
  }

  lemma {:induction false} TiesSplit<T>(a: seq<T>, b: seq<T>, x: T, le: (T, T) -> bool)
    ensures Ties(a + b, x, le) == Ties(a, x, le) + Ties(b, x, le)
    decreases |a|
  {
    if a == [] {
      assert a + b == b;
    } else {
      TiesSplit(a[1..], b, x, le);
      TiesHead(a, b, x, le);
      Regroup(Tie(a[0], x, le), Ties(a[1..], x, le), Ties(b, x, le));
    }
  }

  lemma {:induction false} TiesFound<T>(s: seq<T>, e: T, x: T, le: (T, T) -> bool)
    requires e in s && le(x, e) && le(e, x)
    ensures Ties(s, x, le) != []
  {
    if s[0] != e {
      TiesFound(s[1..], e, x, le);
    }
  }

  /** If anything that ties with `x` is in `a`, the first of those in `a + b` is the first in `a`. */
  lemma FirstTie<T>(a: seq<T>, b: seq<T>, c: seq<T>, e: T, x: T, le: (T, T) -> bool)
    requires Ties(a + b, x, le) == Ties(c, x, le) && c != [] && le(c[0], x) && le(x, c[0])
    requires e in a && le(e, x) && le(x, e)
    ensures Ties(a, x, le) != [] && Ties(a, x, le)[0] == c[0]
  {
    TiesFound(a, e, x, le);
    TiesSplit(a, b, x, le);
  }

  lemma {:induction false} InsertStable<T(!new)>(e: T, s: seq<T>, x: T, le: (T, T) -> bool)
    requires Total(le) && Transitive(le)
    ensures Ties(Insert(e, s, le), x, le) == Ties([e] + s, x, le)
  {
    assert ([e] + s)[1..] == s;
    if s != [] && !le(e, s[0]) {
      InsertStable(e, s[1..], x, le);
      assert ([e] + s[1..])[1..] == s[1..];
      assert Insert(e, s, le)[1..] == Insert(e, s[1..], le);
    }
  }

  /** Equal elements keep their order. */
  lemma {:induction false} SortStable<T(!new)>(s: seq<T>, x: T, le: (T, T) -> bool)
    requires Total(le) && Transitive(le)
    ensures Ties(Sort(s, le), x, le) == Ties(s, x, le)
  {
    if s != [] {
      SortStable(s[1..], x, le);
      InsertStable(s[0], Sort(s[1..], le), x, le);
      assert ([s[0]] + Sort(s[1..], le))[1..] == Sort(s[1..], le);
    }
  }

  /** The order tells different elements apart. */
  ghost predicate ToldApart<T(!new)>(s: multiset<T>, le: (T, T) -> bool) {
    forall x, y | x in s && y in s && le(x, y) && le(y, x) :: x == y
  }

  lemma FirstIsLeast<T(!new)>(s: seq<T>, x: T, le: (T, T) -> bool)
    requires Total(le) && Sorted(s, le) && s != [] && x in multiset(s)
    ensures le(s[0], x)
  {
    assert x in s;
  }

  lemma WithoutFirst<T>(s: seq<T>)
    requires s != []
    ensures multiset(s[1..]) == multiset(s) - multiset{s[0]} && s == [s[0]] + s[1..]
  {
    assert s == [s[0]] + s[1..];
  }

  /** Elements that the order tells apart can be sorted in one way only. */
  lemma {:induction false} SortedUnique<T(!new)>(a: seq<T>, b: seq<T>, le: (T, T) -> bool)
    requires Total(le) && Sorted(a, le) && Sorted(b, le)
    requires multiset(a) == multiset(b) && ToldApart(multiset(a), le)
    ensures a == b
    decreases |a|
  {
    assert |multiset(a)| == |a| && |multiset(b)| == |b|;
    if a != [] {
      assert a[0] in multiset(b) && b[0] in multiset(a);
      FirstIsLeast(a, b[0], le);
      FirstIsLeast(b, a[0], le);
      assert a[0] == b[0];
      WithoutFirst(a);
      WithoutFirst(b);
      SortedUnique(a[1..], b[1..], le);
    }
  }
}
