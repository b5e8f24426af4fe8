/** `Vec::retain`: a walk through a list that removes elements as it goes. */
module Retaining {

  function RemoveAt<T>(s: seq<T>, k: nat): seq<T>
    requires k < |s|
  {
    s[..k] + s[k + 1..]
  }

  /** `kept[j]` says whether element `j` stays. */
  function Surviving<T>(s: seq<T>, kept: seq<bool>): (r: seq<T>)
    requires |s| == |kept|
    ensures |r| <= |s|
  {
    if s == [] then []
    else
      var n := |s| - 1;
      Surviving(s[..n], kept[..n]) + if kept[n] then [s[n]] else []
  }

  lemma SurvivingSnoc<T>(s: seq<T>, kept: seq<bool>, e: T, b: bool)
    requires |s| == |kept|
    ensures Surviving(s + [e], kept + [b]) == Surviving(s, kept) + if b then [e] else []
  {
    assert (s + [e])[..|s|] == s && (kept + [b])[..|kept|] == kept;
  }

  /** How many of the first n stay. */
  ghost function Rank(kept: seq<bool>, n: nat): nat
    requires n <= |kept|
  {
    if n == 0 then 0 else Rank(kept, n - 1) + if kept[n - 1] then 1 else 0
  }

  lemma {:induction false} RankOfPrefix(kept: seq<bool>, m: nat, n: nat)
    requires m <= n <= |kept|
    ensures Rank(kept[..n], m) == Rank(kept, m) <= Rank(kept, n)
    decreases n, m
  {
    if m > 0 {
      RankOfPrefix(kept, m - 1, n);
    }
    if m < n {
      RankOfPrefix(kept, m, n - 1);
    }
  }

  /** What stays comes through in order: element k is preceded by those before it that stay, and by nothing else. */
  lemma {:induction false} SurvivingAt<T>(s: seq<T>, kept: seq<bool>, k: nat)
    requires |s| == |kept| && k < |s| && kept[k]
    ensures |Surviving(s, kept)| == Rank(kept, |s|) && Rank(kept, k) < |Surviving(s, kept)|
    ensures Surviving(s, kept)[Rank(kept, k)] == s[k]
    decreases |s|
  {
    var n := |s| - 1;
    SurvivingSize(s, kept);
    RankOfPrefix(kept, k, n);
    if k < n {
      SurvivingAt(s[..n], kept[..n], k);
    } else {
      SurvivingSize(s[..n], kept[..n]);
    }
  }

  lemma {:induction false} SurvivingSize<T>(s: seq<T>, kept: seq<bool>)
    requires |s| == |kept|
    ensures |Surviving(s, kept)| == Rank(kept, |s|)
    decreases |s|
  {
    if s != [] {
      var n := |s| - 1;
      SurvivingSize(s[..n], kept[..n]);
      RankOfPrefix(kept, n, n);
    }
  }

  /** The list, and the position in it, of a walk that has decided about the first `|kept|` elements of `s`. */
  ghost predicate MidWalk<T>(s: seq<T>, kept: seq<bool>, now: seq<T>, at: nat) {
    && |kept| <= |s|
    && var done := Surviving(s[..|kept|], kept);
       now == done + s[|kept|..] && at == |done|
  }

  lemma WalkKeeps<T>(s: seq<T>, kept: seq<bool>, now: seq<T>, at: nat)
    requires MidWalk(s, kept, now, at) && at < |now|
    ensures |kept| < |s| && now[at] == s[|kept|]
    ensures MidWalk(s, kept + [true], now, at + 1)
  {
    var n := |kept|;
    assert s[..n + 1] == s[..n] + [s[n]];
    SurvivingSnoc(s[..n], kept, s[n], true);
  }

  lemma WalkRemoves<T>(s: seq<T>, kept: seq<bool>, now: seq<T>, at: nat)
    requires MidWalk(s, kept, now, at) && at < |now|
    ensures |kept| < |s| && now[at] == s[|kept|]
    ensures MidWalk(s, kept + [false], RemoveAt(now, at), at)
  {
    var n := |kept|;
    assert s[..n + 1] == s[..n] + [s[n]];
    SurvivingSnoc(s[..n], kept, s[n], false);
  }

  lemma WalkEnds<T>(s: seq<T>, kept: seq<bool>, now: seq<T>, at: nat)
    requires MidWalk(s, kept, now, at) && at >= |now|
    ensures |kept| == |s| && now == Surviving(s, kept)
  {
    assert s[..|kept|] == s;
  }

  /** The walk itself, in place: step past what stays, close the gap over what goes. */
  method Retain<T>(s: seq<T>, kept: seq<bool>) returns (now: seq<T>)
    requires |s| == |kept|
    ensures now == Surviving(s, kept)
  {
    now := s;
    var at, i := 0, 0;
    assert kept[..0] == [];
    while at < |now|
      invariant i <= |kept| && MidWalk(s, kept[..i], now, at)
      decreases |now| - at
    {
      assert i < |kept| && kept[..i + 1] == kept[..i] + [kept[i]];
      if kept[i] {
        WalkKeeps(s, kept[..i], now, at);
        at := at + 1;
      } else {
        WalkRemoves(s, kept[..i], now, at);
        now := RemoveAt(now, at);
      }
      i := i + 1;
    }
    WalkEnds(s, kept[..i], now, at);
    assert kept[..i] == kept;
  }
}
