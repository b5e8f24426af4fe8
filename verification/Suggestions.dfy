/**
 Mention autocomplete (`Suggestions::filter`, crates/client/src/mentions.rs).  `lower` stands for
 `str::to_lowercase`; a hash map yields its values in an arbitrary order.
 */
module Suggestions {
  import opened Collections
  import opened Options
  import opened Characters
  import opened Sorting

  type PeerId = nat

  datatype Candidate = Candidate(peer: PeerId, handle: string, displayName: string)

  /** A candidate with its tier: 0 handle, 1 first segment, 2 display name. */
  datatype Entry = Entry(tier: nat, candidate: Candidate)

  const MAX_RESULTS := 8

  // ----- Order

  predicate LexLeq(a: string, b: string) {
    a == "" || (b != "" && (a[0] < b[0] || (a[0] == b[0] && LexLeq(a[1..], b[1..]))))
  }

  lemma {:induction false} LexTotal(a: string, b: string)
    ensures LexLeq(a, b) || LexLeq(b, a)
    ensures LexLeq(a, b) && LexLeq(b, a) ==> a == b
    decreases |a|
  {
    if a != "" && b != "" {
      LexTotal(a[1..], b[1..]);
      assert a == [a[0]] + a[1..] && b == [b[0]] + b[1..];
    }
  }

  lemma {:induction false} LexTransitive(a: string, b: string, c: string)
    requires LexLeq(a, b) && LexLeq(b, c)
    ensures LexLeq(a, c)
    decreases |a|
  {
    if a != "" && a[0] == b[0] == c[0] {
      LexTransitive(a[1..], b[1..], c[1..]);
    }
  }

  /** The first character in which they differ decides, upwards. */
  ghost predicate DiffersUpAt(a: string, b: string, k: nat) {
    k < |a| && k < |b| && a[..k] == b[..k] && a[k] < b[k]
  }

  /** The order of handles: a prefix comes first, otherwise the first difference decides. */
  lemma {:induction false} LexLeqIff(a: string, b: string)
    ensures LexLeq(a, b) <==> a <= b || exists k :: DiffersUpAt(a, b, k)
    decreases |a|
  {
    if a != "" && b != "" {
      var x, y := a[1..], b[1..];
      LexLeqIff(x, y);
      assert a == [a[0]] + x && b == [b[0]] + y;
      if a[0] < b[0] {
        assert DiffersUpAt(a, b, 0);
      } else if a[0] == b[0] && exists k :: DiffersUpAt(x, y, k) {
        var k: nat :| DiffersUpAt(x, y, k);
        assert a[..k + 1] == [a[0]] + x[..k] && b[..k + 1] == [b[0]] + y[..k];
        assert DiffersUpAt(a, b, k + 1);
      }
      if k: nat :| DiffersUpAt(a, b, k) {
        if k > 0 {
          assert a[..k][0] == b[..k][0];
          assert x[..k - 1] == a[..k][1..] && y[..k - 1] == b[..k][1..];
          assert DiffersUpAt(x, y, k - 1);
        }
      }
      if a <= b {
        assert x <= y;
      }
    }
  }

  predicate ByHandle(x: Candidate, y: Candidate) {
    LexLeq(x.handle, y.handle)
  }

  predicate ByTier(x: Entry, y: Entry) {
    x.tier < y.tier || (x.tier == y.tier && LexLeq(x.candidate.handle, y.candidate.handle))
  }

  lemma OrdersAreTotal()
    ensures Total(ByHandle) && Transitive(ByHandle) && Total(ByTier) && Transitive(ByTier)
  {
    forall a: string, b: string
      ensures LexLeq(a, b) || LexLeq(b, a)
    {
      LexTotal(a, b);
    }
    forall a: string, b: string, c: string | LexLeq(a, b) && LexLeq(b, c)
      ensures LexLeq(a, c)
    {
      LexTransitive(a, b, c);
    }
  }

  // ----- Matching

  function FirstWord(s: string): string {
    if s == "" || IsWhitespace(s[0]) then "" else [s[0]] + FirstWord(s[1..])
  }

  /** The first whitespace-separated segment, if there is one. */
  function Leading(s: string): Option<string> {
    if s == "" then None else if IsWhitespace(s[0]) then Leading(s[1..]) else Some(FirstWord(s))
  }

  function Tier(c: Candidate, q: string, lower: string -> string): Option<nat> {
    var display := lower(c.displayName);
    var leading := Leading(display);
    if q <= lower(c.handle) then Some(0)
    else if leading.Some? && q <= leading.value then Some(1)
    else if q <= display then Some(2)
    else None
  }

  ghost predicate Blank(s: string) {
    forall k | 0 <= k < |s| :: IsWhitespace(s[k])
  }

  ghost predicate IsWord(s: string) {
    s != "" && forall k | 0 <= k < |s| :: !IsWhitespace(s[k])
  }

  lemma {:induction false} FirstWordIs(word: string, rest: string)
    requires (word == "" || IsWord(word)) && (rest == "" || IsWhitespace(rest[0]))
    ensures FirstWord(word + rest) == word
    decreases |word|
  {
    var s := word + rest;
    if word == "" {
      assert s == rest;
    } else {
      assert s[1..] == word[1..] + rest && s[0] == word[0];
      FirstWordIs(word[1..], rest);
    }
  }

  /** The first segment is the first word between whitespace; without a word there is none. */
  lemma {:induction false} LeadingIs(pad: string, word: string, rest: string)
    requires Blank(pad) && IsWord(word) && (rest == "" || IsWhitespace(rest[0]))
    ensures Leading(pad) == None && Leading(pad + word + rest) == Some(word)
    decreases |pad|
  {
    var s := pad + word + rest;
    if pad == "" {
      assert s == word + rest;
      assert s[0] == word[0];
      FirstWordIs(word, rest);
    } else {
      assert s[1..] == pad[1..] + word + rest && s[0] == pad[0];
      LeadingIs(pad[1..], word, rest);
    }
  }

  ghost predicate StartsWith(s: string, q: string) {
    exists rest :: s == q + rest
  }

  lemma PrefixIff(s: string, q: string)
    ensures q <= s <==> StartsWith(s, q)
  {
    if q <= s {
      assert s == q + s[|q|..];
    }
  }

  /** A candidate is listed first for its handle, then for the first segment of its name, then for its name. */
  lemma TierIff(c: Candidate, q: string, lower: string -> string)
    ensures var display := lower(c.displayName);
            var byHandle, byName := StartsWith(lower(c.handle), q), StartsWith(display, q);
            var byFirst := Leading(display).Some? && StartsWith(Leading(display).value, q);
            && (Tier(c, q, lower) == Some(0) <==> byHandle)
            && (Tier(c, q, lower) == Some(1) <==> !byHandle && byFirst)
            && (Tier(c, q, lower) == Some(2) <==> !byHandle && !byFirst && byName)
            && (Tier(c, q, lower).None? <==> !byHandle && !byFirst && !byName)
  {
    var display := lower(c.displayName);
    PrefixIff(lower(c.handle), q);
    PrefixIff(display, q);
    if Leading(display).Some? {
      PrefixIff(Leading(display).value, q);
    }
  }

  /** The `best` map after these candidates: a tighter tier replaces, an equal one does not. */
  function Best(cs: seq<Candidate>, tier: Candidate -> Option<nat>): (r: map<PeerId, Entry>)
    ensures forall p | p in r :: r[p].candidate.peer == p
  {
    if cs == [] then map[]
    else
      var m, c := Best(cs[..|cs| - 1], tier), cs[|cs| - 1];
      var t := tier(c);
      if t.None? || (c.peer in m && m[c.peer].tier <= t.value) then m else m[c.peer := Entry(t.value, c)]
  }

  /** `cs[k]` is the first of the candidates of its peer with the lowest tier. */
  ghost predicate Tightest(cs: seq<Candidate>, tier: Candidate -> Option<nat>, k: nat) {
    && k < |cs| && tier(cs[k]).Some?
    && forall j | 0 <= j < |cs| && cs[j].peer == cs[k].peer && tier(cs[j]).Some? ::
         tier(cs[k]).value <= tier(cs[j]).value && (j < k ==> tier(cs[k]).value < tier(cs[j]).value)
  }

  /** The map holds exactly the peers with a match, each with the first of its tightest matches. */
  lemma {:induction false} BestIsTightest(cs: seq<Candidate>, tier: Candidate -> Option<nat>, p: PeerId)
    ensures p in Best(cs, tier) <==> exists c | c in cs :: c.peer == p && tier(c).Some?
    ensures p in Best(cs, tier) ==>
              exists k: nat :: Tightest(cs, tier, k) && Best(cs, tier)[p] == Entry(tier(cs[k]).value, cs[k])
    decreases |cs|
  {
    if cs != [] {
      var n := |cs| - 1;
      var before, c := cs[..n], cs[n];
      BestIsTightest(before, tier, p);
      assert cs == before + [c];
      var m, m' := Best(before, tier), Best(cs, tier);
      if p in m' {
        if c.peer == p && tier(c).Some? && !(p in m && m[p].tier <= tier(c).value) {
          assert Tightest(cs, tier, n);
        } else {
          var k: nat :| Tightest(before, tier, k) && m[p] == Entry(tier(before[k]).value, before[k]);
          assert Tightest(cs, tier, k);
        }
      }
    }
  }

  // ----- A query

  ghost predicate NoRepeats<T>(s: seq<T>) {
    forall i, j | 0 <= i < j < |s| :: s[i] != s[j]
  }

  /** `order` yields every key once. */
  ghost predicate Enumerates(order: seq<PeerId>, m: map<PeerId, Entry>) {
    (forall p :: p in order <==> p in m) && NoRepeats(order)
  }

  function Collected(order: seq<PeerId>, m: map<PeerId, Entry>): (r: seq<Entry>)
    requires forall p | p in order :: p in m
    ensures |r| == |order| && forall k | 0 <= k < |r| :: r[k] == m[order[k]]
  {
    if order == [] then [] else Collected(order[..|order| - 1], m) + [m[order[|order| - 1]]]
  }

  function Truncated<T>(s: seq<T>): seq<T> {
    if |s| <= MAX_RESULTS then s else s[..MAX_RESULTS]
  }

  function Ranked(order: seq<PeerId>, m: map<PeerId, Entry>): seq<Entry>
    requires forall p | p in order :: p in m
  {
    Truncated(Sort(Collected(order, m), ByTier))
  }

  function Candidates(s: seq<Entry>): (r: seq<Candidate>)
    ensures |r| == |s| && forall k | 0 <= k < |r| :: r[k] == s[k].candidate
  {
    if s == [] then [] else Candidates(s[..|s| - 1]) + [s[|s| - 1].candidate]
  }

  lemma {:induction false} CountIsOne<T>(s: seq<T>, e: T)
    requires NoRepeats(s)
    ensures multiset(s)[e] <= 1
    decreases |s|
  {
    if s != [] {
      var n := |s| - 1;
      assert s == s[..n] + [s[n]];
      CountIsOne(s[..n], e);
      assert s[n] !in s[..n];
    }
  }

  lemma {:induction false} RepeatsCount<T>(s: seq<T>, i: nat, j: nat)
    requires i < j < |s| && s[i] == s[j]
    ensures multiset(s)[s[i]] >= 2
  {
    assert s == s[..j] + s[j..];
    assert s[i] in s[..j] && s[j] in s[j..];
  }

  lemma PermutedDistinct<T>(a: seq<T>, b: seq<T>)
    requires NoRepeats(a) && multiset(a) == multiset(b)
    ensures NoRepeats(b)
  {
    forall i: nat, j: nat | i < j < |b|
      ensures b[i] != b[j]
    {
      CountIsOne(a, b[i]);
      if b[i] == b[j] {
        RepeatsCount(b, i, j);
        assert false;
      }
    }
  }

  lemma {:induction false} EnumerationSize<T>(s: seq<T>, elements: set<T>)
    requires NoRepeats(s) && (forall e | e in s :: e in elements) && (forall e | e in elements :: e in s)
    ensures |s| == |elements|
    decreases |s|
  {
    if s == [] {
      assert elements == {};
    } else {
      var n := |s| - 1;
      assert s == s[..n] + [s[n]];
      assert s[n] !in s[..n];
      EnumerationSize(s[..n], elements - {s[n]});
    }
  }

  ghost predicate Keyed(m: map<PeerId, Entry>) {
    forall p | p in m :: m[p].candidate.peer == p
  }

  ghost predicate HoldsAll(s: seq<Entry>, m: map<PeerId, Entry>) {
    forall e :: e in s <==> e.candidate.peer in m && m[e.candidate.peer] == e
  }

  lemma CollectedHoldsAll(order: seq<PeerId>, m: map<PeerId, Entry>)
    requires Keyed(m) && Enumerates(order, m)
    ensures var c := Collected(order, m); NoRepeats(c) && |c| == |m| && HoldsAll(c, m)
  {
    EnumerationSize(order, m.Keys);
    CollectedDistinct(order, m);
    var c := Collected(order, m);
    forall e: Entry
      ensures e in c <==> e.candidate.peer in m && m[e.candidate.peer] == e
    {
      CollectedHolds(order, m, e);
    }
  }

  lemma CollectedDistinct(order: seq<PeerId>, m: map<PeerId, Entry>)
    requires Keyed(m) && NoRepeats(order) && forall p | p in order :: p in m
    ensures NoRepeats(Collected(order, m))
  {
    var c := Collected(order, m);
    forall i, j | 0 <= i < j < |c|
      ensures c[i] != c[j]
    {
      assert order[i] in order && order[j] in order && order[i] != order[j];
    }
  }

  lemma CollectedHolds(order: seq<PeerId>, m: map<PeerId, Entry>, e: Entry)
    requires Keyed(m) && Enumerates(order, m)
    ensures e in Collected(order, m) <==> e.candidate.peer in m && m[e.candidate.peer] == e
  {
    var c := Collected(order, m);
    if e in c {
      var k :| 0 <= k < |c| && c[k] == e;
      assert order[k] in order;
    }
    if e.candidate.peer in m && m[e.candidate.peer] == e {
      var k :| 0 <= k < |order| && order[k] == e.candidate.peer;
      assert c[k] == e;
    }
  }

  lemma WholeRanking(order: seq<PeerId>, m: map<PeerId, Entry>, le: (Entry, Entry) -> bool)
    requires Keyed(m) && Enumerates(order, m) && Total(le) && Transitive(le)
    ensures var whole := Sort(Collected(order, m), le);
            Sorted(whole, le) && NoRepeats(whole) && |whole| == |m| && HoldsAll(whole, m)
  {
    CollectedHoldsAll(order, m);
    var c, whole := Collected(order, m), Sort(Collected(order, m), le);
    SortSorts(c, le);
    PermutedDistinct(c, whole);
    assert |multiset(whole)| == |whole| && |multiset(c)| == |c|;
    forall e
      ensures e in whole <==> e in c
    {
      assert e in whole <==> e in multiset(c);
    }
  }

  /** `r` is the first eight, in the order `le`, of what `m` holds. */
  ghost predicate TopOf(r: seq<Entry>, m: map<PeerId, Entry>, le: (Entry, Entry) -> bool) {
    && Sorted(r, le) && NoRepeats(r)
    && (forall e | e in r :: e.candidate.peer in m && m[e.candidate.peer] == e)
    && |r| == (if |m| < MAX_RESULTS then |m| else MAX_RESULTS)
    && (forall e, p | e in r && p in m && m[p] !in r :: le(e, m[p]))
  }

  lemma TruncatedIsTop(whole: seq<Entry>, m: map<PeerId, Entry>, le: (Entry, Entry) -> bool)
    requires Sorted(whole, le) && NoRepeats(whole) && |whole| == |m| && HoldsAll(whole, m) && Keyed(m)
    ensures TopOf(Truncated(whole), m, le)
  {
    var r := Truncated(whole);
    forall e, p | e in r && p in m && m[p] !in r
      ensures le(e, m[p])
    {
      assert m[p] in whole;
      var i :| 0 <= i < |r| && r[i] == e;
      var j :| 0 <= j < |whole| && whole[j] == m[p];
      assert r == whole[..|r|];
      assert j >= |r|;
      assert whole[i] == e;
    }
  }

  /**
   The ranking is the first eight of the (tier, handle) order: no peer is repeated, and no match
   that was left out ranks strictly above one that was returned.
   */
  lemma RankedIsTop(order: seq<PeerId>, m: map<PeerId, Entry>)
    requires Keyed(m) && Enumerates(order, m)
    ensures TopOf(Ranked(order, m), m, ByTier)
  {
    OrdersAreTotal();
    WholeRanking(order, m, ByTier);
    TruncatedIsTop(Sort(Collected(order, m), ByTier), m, ByTier);
  }

  // ----- Ties and hash order

  predicate Tied(x: Entry, y: Entry) {
    x.tier == y.tier && x.candidate.handle == y.candidate.handle
  }

  lemma TiedBothWays(x: Entry, y: Entry)
    ensures Tied(x, y) <==> ByTier(x, y) && ByTier(y, x)
  {
    LexTotal(x.candidate.handle, y.candidate.handle);
  }

  /** The peers that rank strictly above `x`. */
  ghost function Above(m: map<PeerId, Entry>, x: Entry): set<PeerId> {
    set p | p in m && ByTier(m[p], x) && !ByTier(x, m[p])
  }

  /** Eight entries rank strictly above every two that tie. */
  ghost predicate TiesHidden(m: map<PeerId, Entry>) {
    forall p, q | p in m && q in m && p != q && Tied(m[p], m[q]) :: |Above(m, m[p])| >= MAX_RESULTS
  }

  ghost function Peers(r: seq<Entry>): set<PeerId> {
    if r == [] then {} else Peers(r[..|r| - 1]) + {r[|r| - 1].candidate.peer}
  }

  lemma {:induction false} PeersOf(r: seq<Entry>)
    ensures |Peers(r)| <= |r| && forall e | e in r :: e.candidate.peer in Peers(r)
    decreases |r|
  {
    if r != [] {
      PeersOf(r[..|r| - 1]);
      assert r == r[..|r| - 1] + [r[|r| - 1]];
    }
  }

  /** Anything strictly above a returned entry is returned. */
  lemma AboveReturned(r: seq<Entry>, m: map<PeerId, Entry>, x: Entry)
    requires Keyed(m) && TopOf(r, m, ByTier) && x in r
    ensures |Above(m, x)| < |r|
  {
    PeersOf(r);
    forall z | z in Above(m, x)
      ensures z in Peers(r)
    {
      if m[z] !in r {
        assert false;
      }
    }
    assert x.candidate.peer !in Above(m, x);
    SubsetSize(Above(m, x) + {x.candidate.peer}, Peers(r));
  }

  lemma TopUntied(r: seq<Entry>, m: map<PeerId, Entry>, x: Entry, q: PeerId)
    requires Keyed(m) && TopOf(r, m, ByTier) && TiesHidden(m)
    requires x in r && q in m && q != x.candidate.peer
    ensures !Tied(x, m[q])
  {
    AboveReturned(r, m, x);
  }

  lemma SameElements(r: seq<Entry>, r': seq<Entry>, m: map<PeerId, Entry>, e: Entry)
    requires Keyed(m) && TopOf(r, m, ByTier) && TopOf(r', m, ByTier) && TiesHidden(m) && e in r
    ensures e in r'
  {
    if e !in r' {
      var s, s' := set x | x in r, set x | x in r';
      EnumerationSize(r, s);
      EnumerationSize(r', s');
      if s' <= s {
        SubsetSize(s', s - {e});
        assert false;
      }
      var e' :| e' in s' && e' !in s;
      assert ByTier(e', e) && ByTier(e, e');
      TiedBothWays(e, e');
      TopUntied(r, m, e, e'.candidate.peer);
      assert false;
    }
  }

  lemma SameCounts(a: seq<Entry>, b: seq<Entry>)
    requires NoRepeats(a) && NoRepeats(b) && (forall e | e in a :: e in b) && (forall e | e in b :: e in a)
    ensures multiset(a) == multiset(b)
  {
    forall e
      ensures multiset(a)[e] == multiset(b)[e]
    {
      CountIsOne(a, e);
      CountIsOne(b, e);
      assert (e in multiset(a) <==> e in a) && (e in multiset(b) <==> e in b);
    }
  }

  lemma OneTop(r: seq<Entry>, r': seq<Entry>, m: map<PeerId, Entry>)
    requires Keyed(m) && TopOf(r, m, ByTier) && TopOf(r', m, ByTier) && TiesHidden(m)
    ensures r == r'
  {
    forall e | e in r
      ensures e in r'
    {
      SameElements(r, r', m, e);
    }
    forall e | e in r'
      ensures e in r
    {
      SameElements(r', r, m, e);
    }
    SameCounts(r, r');
    forall x, y | x in multiset(r) && y in multiset(r) && ByTier(x, y) && ByTier(y, x)
      ensures x == y
    {
      assert x in r && y in r;
      TiedBothWays(x, y);
      if x != y {
        TopUntied(r, m, x, y.candidate.peer);
        assert false;
      }
    }
    OrdersAreTotal();
    SortedUnique(r, r', ByTier);
  }

  lemma {:induction false} Enumerate(keys: set<PeerId>) returns (s: seq<PeerId>)
    ensures NoRepeats(s) && forall p :: p in s <==> p in keys
    decreases |keys|
  {
    if keys == {} {
      s := [];
    } else {
      var p :| p in keys;
      var rest := Enumerate(keys - {p});
      s := [p] + rest;
    }
  }

  /** A hash order that yields `p` first. */
  lemma EnumerateFrom(m: map<PeerId, Entry>, p: PeerId) returns (order: seq<PeerId>)
    requires p in m
    ensures Enumerates(order, m) && order != [] && order[0] == p
  {
    var rest := Enumerate(m.Keys - {p});
    order := [p] + rest;
  }

  /** Unless eight rank strictly above `x`, something that ties with it is returned. */
  lemma TieReturned(r: seq<Entry>, m: map<PeerId, Entry>, p: PeerId) returns (e: Entry)
    requires Keyed(m) && TopOf(r, m, ByTier) && p in m && |Above(m, m[p])| < MAX_RESULTS
    ensures e in r && Tied(e, m[p])
  {
    var x := m[p];
    if x in r {
      e := x;
    } else if t :| t in r && Tied(t, x) {
      e := t;
    } else {
      var returned := set t | t in r :: t.candidate.peer;
      forall t | t in r
        ensures t.candidate.peer in Above(m, x)
      {
        assert ByTier(t, m[p]);
        TiedBothWays(t, x);
      }
      CountPeers(r, m);
      if |m| < MAX_RESULTS {
        AllReturned(r, m, p);
        assert false;
      }
      SubsetSize(returned, Above(m, x));
      assert false;
    }
  }

  lemma {:induction false} CountPeers(r: seq<Entry>, m: map<PeerId, Entry>)
    requires NoRepeats(r) && forall e | e in r :: e.candidate.peer in m && m[e.candidate.peer] == e
    ensures |set t | t in r :: t.candidate.peer| == |r|
    decreases |r|
  {
    var peers := set t | t in r :: t.candidate.peer;
    if r == [] {
      assert peers == {};
    } else {
      var n := |r| - 1;
      CountPeers(r[..n], m);
      var before := set t | t in r[..n] :: t.candidate.peer;
      assert r == r[..n] + [r[n]];
      assert peers == before + {r[n].candidate.peer};
      if r[n].candidate.peer in before {
        assert false;
      }
    }
  }

  lemma AllReturned(r: seq<Entry>, m: map<PeerId, Entry>, p: PeerId)
    requires Keyed(m) && TopOf(r, m, ByTier) && |m| < MAX_RESULTS && p in m
    ensures m[p] in r
  {
    CountPeers(r, m);
    var peers := set t | t in r :: t.candidate.peer;
    if m[p] !in r {
      assert p !in peers;
      SubsetSize(peers, m.Keys - {p});
      assert false;
    }
  }

  /** If anything that ties with `x` survives the cut, the first to come in is the first to come out. */
  lemma FirstInFirstOut(c: seq<Entry>, e: Entry, x: Entry, le: (Entry, Entry) -> bool)
    requires Total(le) && Transitive(le) && c != [] && le(c[0], x) && le(x, c[0])
    requires e in Truncated(Sort(c, le)) && le(e, x) && le(x, e)
    ensures var t := Ties(Truncated(Sort(c, le)), x, le); t != [] && t[0] == c[0]
  {
    var whole, r := Sort(c, le), Truncated(Sort(c, le));
    SortStable(c, x, le);
    assert whole == r + whole[|r|..];
    FirstTie(r, whole[|r|..], c, e, x, le);
  }

  /** Of those that tie, the one the hash map yields first is returned first. */
  lemma FirstTieFollowsOrder(order: seq<PeerId>, m: map<PeerId, Entry>, x: Entry, p: PeerId)
    requires Keyed(m) && Enumerates(order, m) && order != [] && p in m && Tied(m[order[0]], x)
    requires m[p] == x && |Above(m, x)| < MAX_RESULTS
    ensures Ties(Ranked(order, m), x, ByTier) != [] && Ties(Ranked(order, m), x, ByTier)[0] == m[order[0]]
  {
    OrdersAreTotal();
    RankedIsTop(order, m);
    var e := TieReturned(Ranked(order, m), m, p);
    TiedBothWays(e, x);
    TiedBothWays(m[order[0]], x);
    FirstInFirstOut(Collected(order, m), e, x, ByTier);
  }

  /** A tie in sight: the order of the hash map shows. */
  lemma TiesShow(m: map<PeerId, Entry>, p: PeerId, q: PeerId)
    requires Keyed(m) && p in m && q in m && p != q && Tied(m[p], m[q]) && |Above(m, m[p])| < MAX_RESULTS
    ensures exists order, order' ::
              Enumerates(order, m) && Enumerates(order', m) && Ranked(order, m) != Ranked(order', m)
  {
    var order := EnumerateFrom(m, p);
    var order' := EnumerateFrom(m, q);
    FirstTieFollowsOrder(order, m, m[p], p);
    FirstTieFollowsOrder(order', m, m[p], p);
    assert m[p] != m[q];
  }

  /**
   The result is the same for every hash order if and only if no two entries tie within sight: eight others
   rank strictly above any two that share tier and handle.
   */
  lemma HashOrderIrrelevantIff(m: map<PeerId, Entry>)
    requires Keyed(m)
    ensures (forall order, order' | Enumerates(order, m) && Enumerates(order', m) ::
               Ranked(order, m) == Ranked(order', m))
       <==> TiesHidden(m)
  {
    if TiesHidden(m) {
      forall order, order' | Enumerates(order, m) && Enumerates(order', m)
        ensures Ranked(order, m) == Ranked(order', m)
      {
        RankedIsTop(order, m);
        RankedIsTop(order', m);
        OneTop(Ranked(order, m), Ranked(order', m), m);
      }
    } else {
      var p, q :| p in m && q in m && p != q && Tied(m[p], m[q]) && |Above(m, m[p])| < MAX_RESULTS;
      TiesShow(m, p, q);
    }
  }

  /** In particular, pairwise distinct handles make the result independent of the hash order. */
  lemma DistinctHandlesSuffice(order: seq<PeerId>, order': seq<PeerId>, m: map<PeerId, Entry>)
    requires Keyed(m) && Enumerates(order, m) && Enumerates(order', m)
    requires forall p, q | p in m && q in m && p != q :: m[p].candidate.handle != m[q].candidate.handle
    ensures Ranked(order, m) == Ranked(order', m)
  {
    HashOrderIrrelevantIff(m);
  }

  // ----- No query

  predicate HasPeer(s: seq<Candidate>, p: PeerId) {
    exists c | c in s :: c.peer == p
  }

  /** `retain` with a `seen` set: the first candidate of each peer stays. */
  function FirstPerPeer(s: seq<Candidate>): seq<Candidate> {
    if s == [] then []
    else
      var before, c := s[..|s| - 1], s[|s| - 1];
      FirstPerPeer(before) + (if HasPeer(before, c.peer) then [] else [c])
  }

  lemma FirstPerPeerSnoc(s: seq<Candidate>, c: Candidate)
    ensures FirstPerPeer(s + [c]) == FirstPerPeer(s) + if HasPeer(s, c.peer) then [] else [c]
    ensures forall p :: HasPeer(s + [c], p) <==> HasPeer(s, p) || p == c.peer
  {
    assert (s + [c])[..|s|] == s;
    assert c in s + [c];
  }

  function Alphabetical(cs: seq<Candidate>): seq<Candidate> {
    Truncated(FirstPerPeer(Sort(cs, ByHandle)))
  }

  /** Some candidate in `f` stands for `c`: the same peer, and not after it. */
  ghost predicate StoodFor(f: seq<Candidate>, c: Candidate, le: (Candidate, Candidate) -> bool) {
    exists d | d in f :: d.peer == c.peer && le(d, c)
  }

  ghost predicate PeersDiffer(f: seq<Candidate>) {
    forall i, j | 0 <= i < j < |f| :: f[i].peer != f[j].peer
  }

  lemma {:induction false} FirstPerPeerWithin(s: seq<Candidate>)
    ensures forall c | c in FirstPerPeer(s) :: c in s
    decreases |s|
  {
    if s != [] {
      FirstPerPeerWithin(s[..|s| - 1]);
    }
  }

  lemma {:induction false} FirstPerPeerDiffer(s: seq<Candidate>)
    ensures PeersDiffer(FirstPerPeer(s))
    decreases |s|
  {
    if s != [] {
      var before := s[..|s| - 1];
      FirstPerPeerDiffer(before);
      FirstPerPeerWithin(before);
      assert forall d | d in FirstPerPeer(before) :: HasPeer(before, d.peer);
    }
  }

  lemma {:induction false} FirstPerPeerSorted(s: seq<Candidate>, le: (Candidate, Candidate) -> bool)
    requires Sorted(s, le)
    ensures Sorted(FirstPerPeer(s), le)
    decreases |s|
  {
    if s != [] {
      var n := |s| - 1;
      FirstPerPeerSorted(s[..n], le);
      FirstPerPeerWithin(s[..n]);
      assert forall d | d in s[..n] :: le(d, s[n]);
    }
  }

  lemma {:induction false} AllStoodFor(s: seq<Candidate>, le: (Candidate, Candidate) -> bool, c: Candidate)
    requires Sorted(s, le) && Total(le) && Transitive(le) && c in s
    ensures StoodFor(FirstPerPeer(s), c, le)
    decreases |s|
  {
    var n := |s| - 1;
    var before := s[..n];
    assert s == before + [s[n]];
    var f, f' := FirstPerPeer(before), FirstPerPeer(s);
    assert f <= f';
    if c in before {
      AllStoodFor(before, le, c);
      var d :| d in f && d.peer == c.peer && le(d, c);
      assert d in f';
    } else if HasPeer(before, c.peer) {
      var b :| b in before && b.peer == c.peer;
      AllStoodFor(before, le, b);
      var d :| d in f && d.peer == b.peer && le(d, b);
      assert le(b, c);
      assert d in f';
    } else {
      assert c in f';
      assert le(c, c);
    }
  }

  lemma CutOff(f: seq<Candidate>, c: Candidate, d: Candidate, le: (Candidate, Candidate) -> bool)
    requires Sorted(f, le) && Transitive(le) && d in f && d !in Truncated(f) && le(d, c)
    ensures |Truncated(f)| == MAX_RESULTS && forall x | x in Truncated(f) :: le(x, c)
  {
    var r := Truncated(f);
    var j :| 0 <= j < |f| && f[j] == d;
    assert r == f[..|r|];
    assert j >= |r|;
    forall x | x in r
      ensures le(x, c)
    {
      var i :| 0 <= i < |r| && r[i] == x;
      assert f[i] == x && le(f[i], f[j]);
    }
  }

  lemma CrowdedOut(s: seq<Candidate>, c: Candidate, le: (Candidate, Candidate) -> bool)
    requires Sorted(s, le) && Total(le) && Transitive(le)
    requires c in s && !HasPeer(Truncated(FirstPerPeer(s)), c.peer)
    ensures var r := Truncated(FirstPerPeer(s)); |r| == MAX_RESULTS && forall x | x in r :: le(x, c)
  {
    FirstPerPeerSorted(s, le);
    AllStoodFor(s, le, c);
    var f := FirstPerPeer(s);
    var d :| d in f && d.peer == c.peer && le(d, c);
    CutOff(f, c, d, le);
  }

  lemma TopPerPeer(cs: seq<Candidate>, s: seq<Candidate>, le: (Candidate, Candidate) -> bool)
    requires Total(le) && Transitive(le) && Sorted(s, le) && multiset(s) == multiset(cs)
    ensures var r := Truncated(FirstPerPeer(s));
            && Sorted(r, le) && PeersDiffer(r)
            && (forall c | c in r :: c in cs)
            && forall c | c in cs && !HasPeer(r, c.peer) :: |r| == MAX_RESULTS && forall x | x in r :: le(x, c)
  {
    FirstPerPeerWithin(s);
    FirstPerPeerDiffer(s);
    FirstPerPeerSorted(s, le);
    var r := Truncated(FirstPerPeer(s));
    forall c | c in r
      ensures c in cs
    {
      assert c in FirstPerPeer(s) && c in multiset(s);
    }
    forall c | c in cs && !HasPeer(r, c.peer)
      ensures |r| == MAX_RESULTS && forall x | x in r :: le(x, c)
    {
      assert c in multiset(s);
      CrowdedOut(s, c, le);
    }
  }

  /**
   With no query: no peer twice, in handle order, and a candidate whose peer is missing from
   the result was crowded out by eight candidates that do not come after it.
   */
  lemma AlphabeticalIsTop(cs: seq<Candidate>)
    ensures Sorted(Alphabetical(cs), ByHandle) && PeersDiffer(Alphabetical(cs)) && |Alphabetical(cs)| <= MAX_RESULTS
    ensures forall c | c in Alphabetical(cs) :: c in cs
    ensures forall c | c in cs && !HasPeer(Alphabetical(cs), c.peer) ::
              |Alphabetical(cs)| == MAX_RESULTS && forall r | r in Alphabetical(cs) :: ByHandle(r, c)
  {
    OrdersAreTotal();
    SortSorts(cs, ByHandle);
    TopPerPeer(cs, Sort(cs, ByHandle), ByHandle);
  }

  // ----- The filter itself

  method CollectBest(cs: seq<Candidate>, q: string, lower: string -> string) returns (best: map<PeerId, Entry>)
    ensures best == Best(cs, (c: Candidate) => Tier(c, q, lower))
  {
    ghost var tier := (c: Candidate) => Tier(c, q, lower);
    best := map[];
    for i := 0 to |cs|
      invariant best == Best(cs[..i], tier)
    {
      assert cs[..i + 1][..i] == cs[..i];
      var c := cs[i];
      var t := Tier(c, q, lower);
      if t.Some? {
        if c.peer in best && best[c.peer].tier <= t.value {
        } else {
          best := best[c.peer := Entry(t.value, c)];
        }
      }
    }
    assert cs[..|cs|] == cs;
  }

  /** `into_values().collect()`: some enumeration of the keys, nobody says which. */
  method Drain(m: map<PeerId, Entry>) returns (order: seq<PeerId>)
    ensures Enumerates(order, m)
  {
    var keys := m.Keys;
    order := [];
    while keys != {}
      invariant keys <= m.Keys && NoRepeats(order)
      invariant forall p :: p in order <==> p in m && p !in keys
    {
      var p :| p in keys;
      keys := keys - {p};
      order := order + [p];
    }
  }

  method KeepFirst(s: seq<Candidate>) returns (r: seq<Candidate>)
    ensures r == FirstPerPeer(s)
  {
    r := [];
    var seen: set<PeerId> := {};
    for i := 0 to |s|
      invariant r == FirstPerPeer(s[..i])
      invariant forall p :: p in seen <==> HasPeer(s[..i], p)
    {
      assert s[..i + 1] == s[..i] + [s[i]];
      FirstPerPeerSnoc(s[..i], s[i]);
      if s[i].peer !in seen {
        r := r + [s[i]];
        seen := seen + {s[i].peer};
      }
    }
    assert s[..|s|] == s;
  }

  /** What a non-empty query returns: the ranking of the tightest matches, under some hash order. */
  ghost predicate Answers(r: seq<Candidate>, best: map<PeerId, Entry>) {
    exists order | Enumerates(order, best) :: r == Candidates(Ranked(order, best))
  }

  lemma SameCandidates(r: seq<Entry>, r': seq<Entry>, m: map<PeerId, Entry>)
    requires TopOf(r, m, ByTier) && TopOf(r', m, ByTier) && Candidates(r) == Candidates(r')
    ensures r == r'
  {
    assert |r| == |r'|;
    forall k | 0 <= k < |r|
      ensures r[k] == r'[k]
    {
      assert r[k].candidate == Candidates(r)[k] == r'[k].candidate;
      assert r[k] in r && r'[k] in r';
    }
  }

  /**
   A query has only one possible answer if and only if, among the tightest matches, eight rank strictly above any two
   that share tier and handle.
   */
  lemma AnswerDeterminedIff(cs: seq<Candidate>, q: string, lower: string -> string)
    ensures var best := Best(cs, (c: Candidate) => Tier(c, q, lower));
            (forall r, r' | Answers(r, best) && Answers(r', best) :: r == r') <==> TiesHidden(best)
  {
    var best := Best(cs, (c: Candidate) => Tier(c, q, lower));
    HashOrderIrrelevantIff(best);
    if TiesHidden(best) {
      forall r, r' | Answers(r, best) && Answers(r', best)
        ensures r == r'
      {
        var order :| Enumerates(order, best) && r == Candidates(Ranked(order, best));
        var order' :| Enumerates(order', best) && r' == Candidates(Ranked(order', best));
      }
    } else {
      var order, order' :| Enumerates(order, best) && Enumerates(order', best)
                           && Ranked(order, best) != Ranked(order', best);
      var r, r' := Candidates(Ranked(order, best)), Candidates(Ranked(order', best));
      assert Answers(r, best) && Answers(r', best);
      RankedIsTop(order, best);
      RankedIsTop(order', best);
      if r == r' {
        SameCandidates(Ranked(order, best), Ranked(order', best), best);
        assert false;
      }
    }
  }

  method Filter(query: string, cs: seq<Candidate>, lower: string -> string) returns (r: seq<Candidate>)
    ensures query == "" ==> r == Alphabetical(cs)
    ensures query != "" ==> Answers(r, Best(cs, (c: Candidate) => Tier(c, lower(query), lower)))
  {
    if query == "" {
      r := KeepFirst(Sort(cs, ByHandle));
      r := Truncated(r);
    } else {
      var best := CollectBest(cs, lower(query), lower);
      var order := Drain(best);
      r := Candidates(Ranked(order, best));
    }
  }
}
