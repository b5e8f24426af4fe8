/** Facts about sets and sequences that more than one model needs. */
module Collections {

  lemma SubsetSize<T>(a: set<T>, b: set<T>)
    requires a <= b
    ensures |a| <= |b|
  {
    assert b == a + (b - a);
  }

  lemma Regroup<T>(a: seq<T>, b: seq<T>, c: seq<T>)
    ensures a + (b + c) == (a + b) + c
  {
  }

  /** One step of a queue: what was accepted is what has been taken out and what is still in it. */
  lemma LedgerStep<T>(accepted: seq<T>, taken: seq<T>, queue: seq<T>, given: seq<T>, took: seq<T>, queue': seq<T>)
    requires accepted == taken + queue && queue + given == took + queue'
    ensures accepted + given == taken + took + queue'
  {
    assert accepted + given == taken + (queue + given);
  }

  // ----- Sums

  ghost function Sum<T>(f: T -> nat, s: seq<T>): nat {
    if s == [] then 0 else Sum(f, s[..|s| - 1]) + f(s[|s| - 1])
  }

  lemma SumSnoc<T>(f: T -> nat, s: seq<T>, e: T)
    ensures Sum(f, s + [e]) == Sum(f, s) + f(e)
  {
    assert (s + [e])[..|s|] == s;
  }

  lemma {:induction false} SumHead<T>(f: T -> nat, s: seq<T>)
    requires s != []
    ensures Sum(f, s) == f(s[0]) + Sum(f, s[1..])
    decreases |s|
  {
    var n := |s| - 1;
    if n > 0 {
      SumHead(f, s[..n]);
      assert s[1..][..n - 1] == s[..n][1..];
    }
  }

  lemma {:induction false} SumUpdate<T>(f: T -> nat, s: seq<T>, i: nat, e: T)
    requires i < |s|
    ensures Sum(f, s[i := e]) + f(s[i]) == Sum(f, s) + f(e)
    decreases |s|
  {
    var n := |s| - 1;
    if i == n {
      assert s[i := e][..n] == s[..n];
    } else {
      assert s[i := e][..n] == s[..n][i := e];
      SumUpdate(f, s[..n], i, e);
    }
  }

  /** A sum whose terms also depend on the position. */
  ghost function SumAt<T>(f: (nat, T) -> nat, s: seq<T>): nat {
    if s == [] then 0 else SumAt(f, s[..|s| - 1]) + f(|s| - 1, s[|s| - 1])
  }

  lemma {:induction false} SumAtUpdate<T>(f: (nat, T) -> nat, s: seq<T>, i: nat, e: T)
    requires i < |s|
    ensures SumAt(f, s[i := e]) + f(i, s[i]) == SumAt(f, s) + f(i, e)
    decreases |s|
  {
    var n := |s| - 1;
    if i == n {
      assert s[i := e][..n] == s[..n];
    } else {
      assert s[i := e][..n] == s[..n][i := e];
      SumAtUpdate(f, s[..n], i, e);
    }
  }

  lemma {:induction false} SumAtTerm<T>(f: (nat, T) -> nat, s: seq<T>, i: nat)
    requires i < |s|
    ensures f(i, s[i]) <= SumAt(f, s)
    decreases |s|
  {
    if i < |s| - 1 {
      SumAtTerm(f, s[..|s| - 1], i);
    }
  }

  lemma {:induction false} SumAtMost<T>(f: T -> nat, g: T -> nat, s: seq<T>)
    requires forall e | e in s :: f(e) <= g(e)
    ensures Sum(f, s) <= Sum(g, s)
    decreases |s|
  {
    if s != [] {
      assert s[|s| - 1] in s && forall e | e in s[..|s| - 1] :: e in s;
      SumAtMost(f, g, s[..|s| - 1]);
    }
  }

  lemma {:induction false} SumAtPrefix<T>(f: (nat, T) -> nat, s: seq<T>, k: nat)
    requires k <= |s|
    ensures SumAt(f, s[..k]) <= SumAt(f, s)
    decreases |s|
  {
    if k < |s| {
      SumAtPrefix(f, s[..|s| - 1], k);
      assert s[..|s| - 1][..k] == s[..k];
    } else {
      assert s[..k] == s;
    }
  }
}
