/**
 Shortcode expansion (crates/client/src/emoji.rs).  Positions count characters where the source counts bytes.
 */
module Emoji {
  import opened Collections
  import opened Options
  import opened Characters

  /** How far into `s` the first colon is, if no whitespace comes before it. */
  function CodeEnd(s: string): (r: Option<nat>)
    ensures r.Some? ==> r.value < |s| && s[r.value] == ':'
  {
    if s == "" then None
    else if s[0] == ':' then Some(0)
    else if IsWhitespace(s[0]) then None
    else
      var rest := CodeEnd(s[1..]);
      if rest.None? then None else Some(rest.value + 1)
  }

  /** The length of the shortcode at the head of `s`, colons included, if `lookup` knows it. */
  function CodeAt(s: string, lookup: string -> Option<string>): (r: Option<nat>)
    ensures r.Some? ==> 3 <= r.value <= |s| && s[0] == ':' && lookup(s[1..r.value - 1]).Some?
  {
    if s == "" || s[0] != ':' then None
    else
      var e := CodeEnd(s[1..]);
      if e.Some? && e.value > 0 && lookup(s[1..1 + e.value]).Some? then Some(e.value + 2) else None
  }

  /** What the head of `s` becomes: the replacement of a known code, otherwise its first character. */
  function Piece(s: string, lookup: string -> Option<string>): string
    requires s != ""
  {
    var n := CodeAt(s, lookup);
    if n.Some? then lookup(s[1..n.value - 1]).value else [s[0]]
  }

  /** How long that head is. */
  function Width(s: string, lookup: string -> Option<string>): (n: nat)
    requires s != ""
    ensures 1 <= n <= |s|
  {
    var n := CodeAt(s, lookup);
    if n.Some? then n.value else 1
  }

  /** Leftmost expansion, head by head. */
  function Expand(s: string, lookup: string -> Option<string>): string
    decreases |s|
  {
    if s == "" then "" else Piece(s, lookup) + Expand(s[Width(s, lookup)..], lookup)
  }

  // ----- Laws

  predicate IsCode(code: string) {
    code != "" && forall k | 0 <= k < |code| :: code[k] != ':' && !IsWhitespace(code[k])
  }

  lemma {:induction false} CodeEndEncloses(s: string)
    requires CodeEnd(s).Some? && CodeEnd(s).value > 0
    ensures IsCode(s[..CodeEnd(s).value])
  {
    var n := CodeEnd(s).value;
    if n > 1 {
      CodeEndEncloses(s[1..]);
      assert s[..n] == [s[0]] + s[1..][..n - 1];
    }
  }

  lemma {:induction false} CodeEndFinds(code: string, rest: string)
    requires forall k | 0 <= k < |code| :: code[k] != ':' && !IsWhitespace(code[k])
    ensures CodeEnd(code + ":" + rest) == Some(|code|)
  {
    var s := code + ":" + rest;
    if code != "" {
      CodeEndFinds(code[1..], rest);
      assert s[1..] == code[1..] + ":" + rest;
    }
  }

  lemma CodeIsHead(code: string, rest: string, lookup: string -> Option<string>)
    requires IsCode(code) && lookup(code).Some?
    ensures var s := ":" + code + ":" + rest;
            Piece(s, lookup) == lookup(code).value && s[Width(s, lookup)..] == rest
  {
    var s := ":" + code + ":" + rest;
    assert s[1..] == code + ":" + rest;
    CodeEndFinds(code, rest);
    assert s[1..1 + |code|] == code;
    assert s[|code| + 2..] == rest;
  }

  /** A known code at the head is replaced, whatever follows. */
  lemma ExpandsCode(code: string, rest: string, lookup: string -> Option<string>)
    requires IsCode(code) && lookup(code).Some?
    ensures Expand(":" + code + ":" + rest, lookup) == lookup(code).value + Expand(rest, lookup)
  {
    CodeIsHead(code, rest, lookup);
  }

  /** No code that `lookup` knows starts anywhere in `s`. */
  ghost predicate CodeFree(s: string, lookup: string -> Option<string>) {
    forall i | 0 <= i < |s| :: CodeAt(s[i..], lookup).None?
  }

  lemma {:induction false} CodeFreeUnchanged(s: string, lookup: string -> Option<string>)
    requires CodeFree(s, lookup)
    ensures Expand(s, lookup) == s
    decreases |s|
  {
    if s != "" {
      assert s[0..] == s;
      forall i | 0 <= i < |s[1..]|
        ensures CodeAt(s[1..][i..], lookup).None?
      {
        assert s[1..][i..] == s[i + 1..];
      }
      CodeFreeUnchanged(s[1..], lookup);
    }
  }

  /** Expansion is the identity when no lookup succeeds. */
  lemma UnknownUnchanged(s: string, lookup: string -> Option<string>)
    requires forall code | IsCode(code) :: lookup(code).None?
    ensures Expand(s, lookup) == s
  {
    forall i | 0 <= i < |s|
      ensures CodeAt(s[i..], lookup).None?
    {
      var t := s[i..];
      if t[0] == ':' {
        var e := CodeEnd(t[1..]);
        if e.Some? && e.value > 0 {
          CodeEndEncloses(t[1..]);
          assert t[1..][..e.value] == t[1..1 + e.value];
        }
      }
    }
    CodeFreeUnchanged(s, lookup);
  }

  lemma {:induction false} CodeEndStops(a: string, w: char, b: string)
    requires IsWhitespace(w)
    ensures CodeEnd(a + [w] + b) == CodeEnd(a)
  {
    if a != "" {
      CodeEndStops(a[1..], w, b);
      assert (a + [w] + b)[1..] == a[1..] + [w] + b;
    }
  }

  lemma CodeAtStops(a: string, w: char, b: string, lookup: string -> Option<string>)
    requires IsWhitespace(w) && a != ""
    ensures CodeAt(a + [w] + b, lookup) == CodeAt(a, lookup)
  {
    var s := a + [w] + b;
    assert s[1..] == a[1..] + [w] + b;
    CodeEndStops(a[1..], w, b);
    var e := CodeEnd(a[1..]);
    if e.Some? {
      assert s[1..1 + e.value] == a[1..1 + e.value];
    }
  }

  lemma HeadStops(a: string, w: char, b: string, lookup: string -> Option<string>)
    requires IsWhitespace(w) && a != ""
    ensures var s, n := a + [w] + b, Width(a, lookup);
            Piece(s, lookup) == Piece(a, lookup) && Width(s, lookup) == n && s[n..] == a[n..] + [w] + b
  {
    var s, n := a + [w] + b, Width(a, lookup);
    CodeAtStops(a, w, b, lookup);
    assert s[..n] == a[..n] && s[n..] == a[n..] + [w] + b;
    if CodeAt(a, lookup).Some? {
      assert s[1..n - 1] == a[1..n - 1];
    }
  }

  /** No code spans whitespace: the two sides of a whitespace character expand on their own. */
  lemma {:induction false} ExpandSplits(a: string, w: char, b: string, lookup: string -> Option<string>)
    requires IsWhitespace(w)
    ensures Expand(a + [w] + b, lookup) == Expand(a, lookup) + [w] + Expand(b, lookup)
    decreases |a|
  {
    var s := a + [w] + b;
    if a == "" {
      assert s[1..] == b;
    } else {
      HeadStops(a, w, b, lookup);
      var n := Width(a, lookup);
      ExpandSplits(a[n..], w, b, lookup);
      Regroup(Piece(a, lookup), Expand(a[n..], lookup) + [w], Expand(b, lookup));
      Regroup(Piece(a, lookup), Expand(a[n..], lookup), [w]);
    }
  }

  // ----- The scanner

  lemma {:induction false} CodeEndSkips(s: string, k: nat)
    requires k <= |s| && forall j | 0 <= j < k :: s[j] != ':' && !IsWhitespace(s[j])
    ensures CodeEnd(s) == (var rest := CodeEnd(s[k..]); if rest.None? then None else Some(rest.value + k))
    decreases k
  {
    if k == 0 {
      assert s[0..] == s;
    } else {
      CodeEndSkips(s[1..], k - 1);
      assert s[1..][k - 1..] == s[k..];
    }
  }

  /** The inner scan: from just after a colon to the next one, or to whitespace. */
  method FindEnd(text: string, start: nat) returns (found: bool, end: nat)
    requires start <= |text|
    ensures found == CodeEnd(text[start..]).Some?
    ensures found ==> end == start + CodeEnd(text[start..]).value
  {
    found, end := false, start;
    var j := start;
    while j < |text|
      invariant start <= j <= |text|
      invariant forall k | start <= k < j :: text[k] != ':' && !IsWhitespace(text[k])
    {
      if text[j] == ':' || IsWhitespace(text[j]) {
        break;
      }
      j := j + 1;
    }
    CodeEndSkips(text[start..], j - start);
    assert text[start..][j - start..] == text[j..];
    if j < |text| && text[j] == ':' {
      found, end := true, j;
    }
  }

  lemma CodeAtColon(text: string, i: nat, lookup: string -> Option<string>)
    requires i < |text| && text[i] == ':'
    ensures var e := CodeEnd(text[i + 1..]);
            CodeAt(text[i..], lookup) ==
              if e.Some? && e.value > 0 && lookup(text[i + 1..i + 1 + e.value]).Some? then Some(e.value + 2) else None
  {
    var s, e := text[i..], CodeEnd(text[i + 1..]);
    assert s[1..] == text[i + 1..];
    assert e.Some? ==> s[1..1 + e.value] == text[i + 1..i + 1 + e.value];
  }

  /** The code at position `i`, if `lookup` knows it: the replacement and the position of the closing colon. */
  method MatchAt(text: string, i: nat, lookup: string -> Option<string>)
      returns (replacement: Option<string>, end: nat)
    requires i < |text|
    ensures replacement.None? ==> CodeAt(text[i..], lookup).None?
    ensures replacement.Some? ==>
              && i + 1 < end < |text| && CodeAt(text[i..], lookup) == Some(end - i + 1)
              && lookup(text[i + 1..end]) == replacement
  {
    replacement, end := None, i;
    if text[i] == ':' {
      CodeAtColon(text, i, lookup);
      var found;
      found, end := FindEnd(text, i + 1);
      if found && end > i + 1 {
        replacement := lookup(text[i + 1..end]);
      }
    }
  }

  /** One turn of the outer loop: what it appends, and where the next one starts. */
  method ExpandOne(text: string, i: nat, lookup: string -> Option<string>) returns (piece: string, i': nat)
    requires i < |text|
    ensures piece == Piece(text[i..], lookup) && i' == i + Width(text[i..], lookup)
  {
    var replacement, end := MatchAt(text, i, lookup);
    i' := i;
    if replacement.Some? {
      assert text[i..][1..end - i] == text[i + 1..end];
      piece := replacement.value;
      while i' <= end
        invariant i <= i' <= end + 1
      {
        i' := i' + 1;
      }
    } else {
      piece, i' := [text[i]], i + 1;
    }
  }

  /** Appending the next head to `result` and stepping over it keeps `ok`. */
  ghost predicate Kept(text: string, lookup: string -> Option<string>, ok: (nat, string) -> bool, i: nat,
                       result: string)
    requires i < |text|
  {
    ok(i, result) ==> ok(i + Width(text[i..], lookup), result + Piece(text[i..], lookup))
  }

  /** The outer loop, which ends where everything that each of its turns keeps holds. */
  method ExpandAll(text: string, lookup: string -> Option<string>, ghost ok: (nat, string) -> bool)
    returns (result: string)
    requires ok(0, "") && forall i, r | 0 <= i < |text| :: Kept(text, lookup, ok, i, r)
    ensures ok(|text|, result)
  {
    result := "";
    var i: nat := 0;
    while i < |text|
      invariant i <= |text| && ok(i, result)
    {
      assert Kept(text, lookup, ok, i, result);
      var piece, next := ExpandOne(text, i, lookup);
      result, i := result + piece, next;
    }
  }

  /** `result` and the expansion of what is left from `i` on make up the whole. */
  ghost predicate Completes(text: string, lookup: string -> Option<string>, whole: string, i: nat, result: string) {
    i <= |text| && result + Expand(text[i..], lookup) == whole
  }

  lemma {:induction false} CompletesOn(text: string, lookup: string -> Option<string>, whole: string, i: nat,
                                       result: string)
    requires i < |text| && Completes(text, lookup, whole, i, result)
    ensures Completes(text, lookup, whole, i + Width(text[i..], lookup), result + Piece(text[i..], lookup))
  {
    var n := Width(text[i..], lookup);
    assert text[i..][n..] == text[i + n..];
    Regroup(result, Piece(text[i..], lookup), Expand(text[i + n..], lookup));
  }

  ghost function Completing(text: string, lookup: string -> Option<string>, whole: string): (nat, string) -> bool {
    (i: nat, result: string) => Completes(text, lookup, whole, i, result)
  }

  lemma {:induction false} CompletesKept(text: string, lookup: string -> Option<string>, whole: string)
    ensures forall i, r | 0 <= i < |text| :: Kept(text, lookup, Completing(text, lookup, whole), i, r)
  {
    forall i, r | 0 <= i < |text|
      ensures Kept(text, lookup, Completing(text, lookup, whole), i, r)
    {
      if Completes(text, lookup, whole, i, r) {
        CompletesOn(text, lookup, whole, i, r);
      }
    }
  }

  method ExpandShortcodes(text: string, lookup: string -> Option<string>) returns (result: string)
    ensures result == Expand(text, lookup)
  {
    ghost var whole := Expand(text, lookup);
    assert text[0..] == text;
    CompletesKept(text, lookup, whole);
    result := ExpandAll(text, lookup, Completing(text, lookup, whole));
    assert Completes(text, lookup, whole, |text|, result);
  }

  // ----- The registry

  /** Custom entries first, then the built-in table. */
  function Lookup(custom: map<string, string>, builtin: string -> Option<string>): string -> Option<string> {
    (code: string) => if code in custom then Some(custom[code]) else builtin(code)
  }

  class Registry {
    var custom: map<string, string>
    const builtin: string -> Option<string>

    constructor (builtin: string -> Option<string>)
      ensures custom == map[] && this.builtin == builtin
    {
      custom := map[];
      this.builtin := builtin;
    }

    method Add(code: string, value: string)
      modifies this
      ensures custom == old(custom)[code := value]
    {
      custom := custom[code := value];
    }

    method Remove(code: string)
      modifies this
      ensures custom == old(custom) - {code}
    {
      custom := custom - {code};
    }

    method ExpandText(text: string) returns (r: string)
      ensures r == Expand(text, Lookup(custom, builtin))
    {
      r := ExpandShortcodes(text, Lookup(custom, builtin));
    }
  }

  lemma HeadAgrees(s: string, f: string -> Option<string>, g: string -> Option<string>)
    requires s != "" && forall code | IsCode(code) :: f(code) == g(code)
    ensures Piece(s, f) == Piece(s, g) && Width(s, f) == Width(s, g)
  {
    if s[0] == ':' {
      var e := CodeEnd(s[1..]);
      if e.Some? && e.value > 0 {
        CodeEndEncloses(s[1..]);
        assert s[1..][..e.value] == s[1..1 + e.value];
      }
    }
  }

  lemma {:induction false} ExpandAgrees(s: string, f: string -> Option<string>, g: string -> Option<string>)
    requires forall code | IsCode(code) :: f(code) == g(code)
    ensures Expand(s, f) == Expand(s, g)
    decreases |s|
  {
    if s != "" {
      HeadAgrees(s, f, g);
      ExpandAgrees(s[Width(s, f)..], f, g);
    }
  }

  /** An entry whose name holds a colon or whitespace, or is empty, can never be reached. */
  lemma MalformedNeverExpands(s: string, custom: map<string, string>, code: string, value: string,
                              builtin: string -> Option<string>)
    requires !IsCode(code)
    ensures Expand(s, Lookup(custom[code := value], builtin)) == Expand(s, Lookup(custom, builtin))
  {
    ExpandAgrees(s, Lookup(custom[code := value], builtin), Lookup(custom, builtin));
  }

  /** A custom entry hides a built-in one of the same name. */
  lemma CustomExpands(custom: map<string, string>, builtin: string -> Option<string>, code: string, rest: string)
    requires IsCode(code) && code in custom
    ensures var lookup := Lookup(custom, builtin);
            Expand(":" + code + ":" + rest, lookup) == custom[code] + Expand(rest, lookup)
  {
    ExpandsCode(code, rest, Lookup(custom, builtin));
  }

  /** Without a custom entry the built-in one is used, also after the custom entry has been removed. */
  lemma BuiltinExpands(custom: map<string, string>, builtin: string -> Option<string>, code: string, rest: string)
    requires IsCode(code) && code !in custom && builtin(code).Some?
    ensures var lookup := Lookup(custom, builtin);
            Expand(":" + code + ":" + rest, lookup) == builtin(code).value + Expand(rest, lookup)
  {
    ExpandsCode(code, rest, Lookup(custom, builtin));
  }

  /** `s` begins with a code known to `lookup`. */
  ghost predicate BeginsWithCode(s: string, lookup: string -> Option<string>, code: string, rest: string) {
    IsCode(code) && lookup(code).Some? && s == ":" + code + ":" + rest
  }

  lemma CodeAtHead(s: string, lookup: string -> Option<string>)
    requires CodeAt(s, lookup).Some?
    ensures exists code, rest :: BeginsWithCode(s, lookup, code, rest)
  {
    var n := CodeAt(s, lookup).value;
    var code, rest := s[1..n - 1], s[n..];
    CodeEndEncloses(s[1..]);
    assert s[1..][..n - 2] == code;
    assert s == ":" + code + ":" + rest;
    assert BeginsWithCode(s, lookup, code, rest);
  }

  /** Any other character stands for itself, and the scan goes on behind it. */
  lemma OthersStay(s: string, lookup: string -> Option<string>)
    requires s != "" && forall code, rest :: !BeginsWithCode(s, lookup, code, rest)
    ensures Expand(s, lookup) == [s[0]] + Expand(s[1..], lookup)
  {
    if CodeAt(s, lookup).Some? {
      CodeAtHead(s, lookup);
    }
  }
}
