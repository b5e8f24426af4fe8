/**
 Base64 (crates/client/src/base64.rs; section 4 of RFC 4648).  Text is its UTF-8 bytes, as in the source.  The
 operands of every `|` in the source occupy disjoint bits, so it is written as `+`; `<<`, `>>` and the masks are
 the corresponding multiplications, divisions and remainders.
 */
module Base64 {
  import opened Collections
  import opened Options

  type byte = x: nat | x < 256
  type sextet = x: nat | x < 64

  const PAD: byte := 61

  /** The 64-character table. */
  function Letter(v: sextet): byte {
    if v < 26 then 65 + v else if v < 52 then 97 + (v - 26) else if v < 62 then 48 + (v - 52)
    else if v == 62 then 43 else 47
  }

  function CharVal(c: byte): Option<sextet> {
    if 65 <= c <= 90 then Some(c - 65)
    else if 97 <= c <= 122 then Some(c - 97 + 26)
    else if 48 <= c <= 57 then Some(c - 48 + 52)
    else if c == 43 then Some(62)
    else if c == 47 then Some(63)
    else None
  }

  lemma LetterInverse(v: sextet, c: byte)
    ensures CharVal(Letter(v)) == Some(v) && Letter(v) != PAD
    ensures CharVal(c).Some? ==> Letter(CharVal(c).value) == c
  {
  }

  // ----- Bits

  /** The 24 bits of three octets, and the four sextets in them. */
  function Packed(b0: nat, b1: nat, b2: nat): nat {
    b0 * 65536 + b1 * 256 + b2
  }

  function Sextet(n: nat, k: nat): sextet {
    (if k == 0 then n / 262144 else if k == 1 then n / 4096 else if k == 2 then n / 64 else n) % 64
  }

  lemma SextetsOf(b0: byte, b1: byte, b2: byte)
    ensures Sextet(Packed(b0, b1, b2), 0) == b0 / 4
    ensures Sextet(Packed(b0, b1, b2), 1) == b0 % 4 * 16 + b1 / 16
    ensures Sextet(Packed(b0, b1, b2), 2) == b1 % 16 * 4 + b2 / 64
    ensures Sextet(Packed(b0, b1, b2), 3) == b2 % 64
  {
    FirstSextet(b0, b1, b2);
    SecondSextet(b0, b1, b2);
    ThirdSextet(b0, b1, b2);
    Mod64(Packed(b0, b1, b2), b0 * 1024 + b1 * 4 + b2 / 64, b2 % 64);
  }

  lemma FirstSextet(b0: byte, b1: byte, b2: byte)
    ensures Sextet(Packed(b0, b1, b2), 0) == b0 / 4
  {
    var q, r := b0 / 4, b0 % 4;
    assert b0 == 4 * q + r;
    DivBy262144(Packed(b0, b1, b2), q, r * 65536 + b1 * 256 + b2);
  }

  lemma SecondSextet(b0: byte, b1: byte, b2: byte)
    ensures Sextet(Packed(b0, b1, b2), 1) == b0 % 4 * 16 + b1 / 16
  {
    var q0, r0, q1, r1 := b0 / 4, b0 % 4, b1 / 16, b1 % 16;
    assert b0 == 4 * q0 + r0 && b1 == 16 * q1 + r1;
    DivBy4096(Packed(b0, b1, b2), b0 * 16 + q1, r1 * 256 + b2);
    Mod64(b0 * 16 + q1, q0, r0 * 16 + q1);
  }

  lemma ThirdSextet(b0: byte, b1: byte, b2: byte)
    ensures Sextet(Packed(b0, b1, b2), 2) == b1 % 16 * 4 + b2 / 64
  {
    var q1, r1, q2, r2 := b1 / 16, b1 % 16, b2 / 64, b2 % 64;
    assert b1 == 16 * q1 + r1 && b2 == 64 * q2 + r2;
    DivBy64(Packed(b0, b1, b2), b0 * 1024 + b1 * 4 + q2, r2);
    Mod64(b0 * 1024 + b1 * 4 + q2, b0 * 16 + q1, r1 * 4 + q2);
  }

  lemma DivBy262144(n: nat, q: nat, r: nat)
    requires n == q * 262144 + r && r < 262144 && q < 64
    ensures n / 262144 % 64 == q
  {
  }

  lemma DivBy4096(n: nat, q: nat, r: nat)
    requires n == q * 4096 + r && r < 4096
    ensures n / 4096 == q
  {
  }

  lemma DivBy64(n: nat, q: nat, r: nat)
    requires n == q * 64 + r && r < 64
    ensures n / 64 == q
  {
  }

  lemma Mod64(n: nat, q: nat, r: nat)
    requires n == q * 64 + r && r < 64
    ensures n % 64 == r
  {
  }

  /** The 24 bits of four sextets, and the three octets in them. */
  function Joined(a: nat, b: nat, c: nat, d: nat): nat {
    a * 262144 + b * 4096 + c * 64 + d
  }

  function Octet(n: nat, k: nat): byte {
    (if k == 0 then n / 65536 else if k == 1 then n / 256 else n) % 256
  }

  lemma OctetsOf(a: sextet, b: sextet, c: sextet, d: sextet)
    ensures Octet(Joined(a, b, c, d), 0) == a * 4 + b / 16
    ensures Octet(Joined(a, b, c, d), 1) == b % 16 * 16 + c / 4
    ensures Octet(Joined(a, b, c, d), 2) == c % 4 * 64 + d
  {
    var b1, b0, c1, c0 := b / 16, b % 16, c / 4, c % 4;
    assert b == 16 * b1 + b0 && c == 4 * c1 + c0;
    DivBy65536(Joined(a, b, c, d), a * 4 + b1, b0 * 4096 + c * 64 + d);
    DivBy256(Joined(a, b, c, d), (a * 4 + b1) * 256 + (b0 * 16 + c1), c0 * 64 + d);
  }

  lemma DivBy65536(n: nat, q: nat, r: nat)
    requires n == q * 65536 + r && r < 65536 && q < 256
    ensures n / 65536 % 256 == q
  {
  }

  lemma DivBy256(n: nat, q: nat, r: nat)
    requires n == q * 256 + r && r < 256
    ensures n / 256 == q && n % 256 == r
  {
  }

  // ----- Encoding

  function EncodeChunk(chunk: seq<byte>): (r: seq<byte>)
    requires 1 <= |chunk| <= 3
    ensures |r| == 4
  {
    var n := Packed(chunk[0], if |chunk| > 1 then chunk[1] else 0, if |chunk| > 2 then chunk[2] else 0);
    [Letter(Sextet(n, 0)), Letter(Sextet(n, 1)),
     if |chunk| > 1 then Letter(Sextet(n, 2)) else PAD, if |chunk| > 2 then Letter(Sextet(n, 3)) else PAD]
  }

  function Take3(data: seq<byte>): seq<byte> {
    if |data| <= 3 then data else data[..3]
  }

  function Drop3(data: seq<byte>): seq<byte> {
    if |data| <= 3 then [] else data[3..]
  }

  function Encoded(data: seq<byte>): seq<byte>
    decreases |data|
  {
    if data == [] then [] else EncodeChunk(Take3(data)) + Encoded(Drop3(data))
  }

  method Encode(data: seq<byte>) returns (result: seq<byte>)
    ensures result == Encoded(data)
  {
    result := [];
    var i := 0;
    while i < |data|
      invariant 0 <= i <= |data| && result + Encoded(data[i..]) == Encoded(data)
    {
      var size := if |data| - i < 3 then |data| - i else 3;
      var chunk := data[i..i + size];
      EncodedFrom(result, data, i, size);
      result := PushChunk(result, chunk);
      i := i + size;
    }
  }

  lemma EncodedFrom(before: seq<byte>, data: seq<byte>, i: nat, size: nat)
    requires i < |data| && size == if |data| - i < 3 then |data| - i else 3
    ensures before + Encoded(data[i..]) == (before + EncodeChunk(data[i..i + size])) + Encoded(data[i + size..])
  {
    assert data[i..i + size] == Take3(data[i..]) && data[i + size..] == Drop3(data[i..]);
    Regroup(before, EncodeChunk(data[i..i + size]), Encoded(data[i + size..]));
  }

  /** The body of the encoding loop. */
  method PushChunk(buffer: seq<byte>, chunk: seq<byte>) returns (result: seq<byte>)
    requires 1 <= |chunk| <= 3
    ensures result == buffer + EncodeChunk(chunk)
  {
    var b0: nat := chunk[0];
    var b1: nat := if |chunk| > 1 then chunk[1] else 0;
    var b2: nat := if |chunk| > 2 then chunk[2] else 0;
    var n := b0 * 65536 + b1 * 256 + b2;
    assert n == Packed(b0, b1, b2);
    result := buffer + [Letter(Sextet(n, 0))];
    result := result + [Letter(Sextet(n, 1))];
    if |chunk| > 1 {
      result := result + [Letter(Sextet(n, 2))];
    } else {
      result := result + [PAD];
    }
    if |chunk| > 2 {
      result := result + [Letter(Sextet(n, 3))];
    } else {
      result := result + [PAD];
    }
  }

  // ----- Decoding

  /** The octets of one chunk of four characters; whatever follows a `=` in third place is not looked at. */
  function DecodeChunk(q: seq<byte>): (r: Option<seq<byte>>)
    ensures r.Some? ==> |q| == 4 && 1 <= |r.value| <= 3
  {
    if |q| != 4 || CharVal(q[0]).None? || CharVal(q[1]).None? then None
    else
      var a, b := CharVal(q[0]).value, CharVal(q[1]).value;
      var head := [Octet(Joined(a, b, 0, 0), 0)];
      if q[2] == PAD then Some(head)
      else if CharVal(q[2]).None? then None
      else
        var c := CharVal(q[2]).value;
        if q[3] == PAD then Some(head + [Octet(Joined(a, b, c, 0), 1)])
        else if CharVal(q[3]).None? then None
        else Some(head + [Octet(Joined(a, b, c, 0), 1)] + [Octet(Joined(a, b, c, CharVal(q[3]).value), 2)])
  }

  function Joint(head: Option<seq<byte>>, rest: Option<seq<byte>>): Option<seq<byte>> {
    if head.None? || rest.None? then None else Some(head.value + rest.value)
  }

  /** `chunk` applied to every four characters; all of them must succeed. */
  function ByFours(chunk: seq<byte> -> Option<seq<byte>>, s: seq<byte>): Option<seq<byte>>
    decreases |s|
  {
    if s == [] then Some([])
    else if |s| < 4 then None
    else Joint(chunk(s[..4]), ByFours(chunk, s[4..]))
  }

  function Decoded(s: seq<byte>): Option<seq<byte>> {
    if |s| % 4 != 0 || s == [] then None else ByFours(DecodeChunk, s)
  }

  function Flat(parts: seq<seq<byte>>): seq<byte> {
    if parts == [] then [] else Flat(parts[..|parts| - 1]) + parts[|parts| - 1]
  }

  /** The k-th four characters. */
  function Quad(s: seq<byte>, k: nat): seq<byte>
    requires 4 * k + 4 <= |s|
  {
    s[4 * k..4 * k + 4]
  }

  lemma JointStep(out: seq<byte>, head: Option<seq<byte>>, rest: Option<seq<byte>>)
    ensures Joint(Some(out), Joint(head, rest))
         == if head.None? then None else Joint(Some(out + head.value), rest)
  {
    if head.Some? && rest.Some? {
      Regroup(out, head.value, rest.value);
    }
  }

  /** What the chunks decoded so far leave to be done. */
  lemma {:induction false} PartsSoFar(chunk: seq<byte> -> Option<seq<byte>>, s: seq<byte>, parts: seq<seq<byte>>)
    requires 4 * |parts| <= |s| && forall k | 0 <= k < |parts| :: chunk(Quad(s, k)) == Some(parts[k])
    ensures ByFours(chunk, s) == Joint(Some(Flat(parts)), ByFours(chunk, s[4 * |parts|..]))
    decreases |parts|
  {
    if parts == [] {
      assert s[0..] == s;
      assert ByFours(chunk, s).Some? ==> [] + ByFours(chunk, s).value == ByFours(chunk, s).value;
    } else {
      var n := |parts| - 1;
      PartsSoFar(chunk, s, parts[..n]);
      var rest := s[4 * n..];
      assert rest[..4] == Quad(s, n) && rest[4..] == s[4 * |parts|..];
      JointStep(Flat(parts[..n]), chunk(Quad(s, n)), ByFours(chunk, rest[4..]));
    }
  }

  lemma PartsDecode(chunk: seq<byte> -> Option<seq<byte>>, s: seq<byte>, parts: seq<seq<byte>>)
    requires 4 * |parts| <= |s| && forall k | 0 <= k < |parts| :: chunk(Quad(s, k)) == Some(parts[k])
    ensures 4 * |parts| == |s| ==> ByFours(chunk, s) == Some(Flat(parts))
    ensures 4 * |parts| + 4 <= |s| && chunk(Quad(s, |parts|)).None? ==> ByFours(chunk, s).None?
  {
    PartsSoFar(chunk, s, parts);
    var rest := s[4 * |parts|..];
    if 4 * |parts| == |s| {
      assert Flat(parts) + [] == Flat(parts);
    } else if 4 * |parts| + 4 <= |s| {
      assert rest[..4] == Quad(s, |parts|);
    }
  }

  /** The decoding loop, stopping at the first chunk that fails. */
  method Decode(input: seq<byte>) returns (result: Option<seq<byte>>)
    ensures result == Decoded(input)
  {
    if |input| % 4 != 0 || input == [] {
      return None;
    }
    var out: seq<byte> := [];
    ghost var parts: seq<seq<byte>> := [];
    var i := 0;
    while i < |input|
      invariant i == 4 * |parts| <= |input| && out == Flat(parts)
      invariant forall k | 0 <= k < |parts| :: DecodeChunk(Quad(input, k)) == Some(parts[k])
    {
      var ok;
      ok, out := PullChunk(out, input[i..i + 4]);
      if !ok {
        PartsDecode(DecodeChunk, input, parts);
        return None;
      }
      ghost var part := DecodeChunk(Quad(input, |parts|)).value;
      assert (parts + [part])[..|parts|] == parts;
      parts := parts + [part];
      i := i + 4;
    }
    PartsDecode(DecodeChunk, input, parts);
    result := Some(out);
  }

  /** The body of the decoding loop; `ok` is false where the source returns `None`. */
  method PullChunk(buffer: seq<byte>, q: seq<byte>) returns (ok: bool, result: seq<byte>)
    requires |q| == 4
    ensures ok <==> DecodeChunk(q).Some?
    ensures ok ==> result == buffer + DecodeChunk(q).value
  {
    var a, b := CharVal(q[0]), CharVal(q[1]);
    if a.None? || b.None? {
      return false, buffer;
    }
    var n: nat := a.value as nat * 262144 + b.value as nat * 4096;
    assert n == Joined(a.value, b.value, 0, 0);
    result := buffer + [Octet(n, 0)];
    if q[2] != PAD {
      var c := CharVal(q[2]);
      if c.None? {
        return false, buffer;
      }
      n := n + c.value as nat * 64;
      assert n == Joined(a.value, b.value, c.value, 0);
      result := result + [Octet(n, 1)];
      if q[3] != PAD {
        var d := CharVal(q[3]);
        if d.None? {
          return false, buffer;
        }
        n := n + d.value;
        assert n == Joined(a.value, b.value, c.value, d.value);
        result := result + [Octet(n, 2)];
      }
    }
    ok := true;
  }

  // ----- One chunk

  lemma BitsBack(b0: byte, b1: byte, b2: byte)
    ensures var n := Packed(b0, b1, b2);
            && Octet(Joined(Sextet(n, 0), Sextet(n, 1), 0, 0), 0) == b0
            && Octet(Joined(Sextet(n, 0), Sextet(n, 1), Sextet(n, 2), 0), 1) == b1
            && Octet(Joined(Sextet(n, 0), Sextet(n, 1), Sextet(n, 2), Sextet(n, 3)), 2) == b2
  {
    var n := Packed(b0, b1, b2);
    var s0, s1, s2, s3 := Sextet(n, 0), Sextet(n, 1), Sextet(n, 2), Sextet(n, 3);
    SextetsOf(b0, b1, b2);
    OctetsOf(s0, s1, 0, 0);
    OctetsOf(s0, s1, s2, 0);
    OctetsOf(s0, s1, s2, s3);
    assert s1 / 16 == b0 % 4 && s1 % 16 == b1 / 16;
    assert s2 / 4 == b1 % 16 && s2 % 4 == b2 / 64;
  }

  lemma ChunkRoundTrip(chunk: seq<byte>)
    requires 1 <= |chunk| <= 3
    ensures DecodeChunk(EncodeChunk(chunk)) == Some(chunk)
  {
    var b0, b1, b2 := chunk[0], if |chunk| > 1 then chunk[1] else 0, if |chunk| > 2 then chunk[2] else 0;
    var n := Packed(b0, b1, b2);
    BitsBack(b0, b1, b2);
    LetterInverse(Sextet(n, 0), 0);
    LetterInverse(Sextet(n, 1), 0);
    LetterInverse(Sextet(n, 2), 0);
    LetterInverse(Sextet(n, 3), 0);
    var r := DecodeChunk(EncodeChunk(chunk));
    assert r.Some? && |r.value| == |chunk|;
    assert r.value == chunk;
  }

  /** Four letters. */
  predicate FullQuad(q: seq<byte>)
    requires |q| == 4
  {
    CharVal(q[0]).Some? && CharVal(q[1]).Some? && CharVal(q[2]).Some? && CharVal(q[3]).Some?
  }

  /** Four letters, or padding at the end with the unused bits zero (sections 3.2 and 3.5 of RFC 4648). */
  predicate LastQuad(q: seq<byte>)
    requires |q| == 4
  {
    && CharVal(q[0]).Some? && CharVal(q[1]).Some?
    && if q[2] == PAD then q[3] == PAD && CharVal(q[1]).value % 16 == 0
       else CharVal(q[2]).Some? &&
            if q[3] == PAD then CharVal(q[2]).value % 4 == 0 else CharVal(q[3]).Some?
  }

  /** Repacking the octets of a chunk loses exactly the bits that belong to no octet. */
  lemma BitsForth(a: sextet, b: sextet, c: sextet, d: sextet)
    ensures var n := Packed(Octet(Joined(a, b, 0, 0), 0), 0, 0);
            Sextet(n, 0) == a && Sextet(n, 1) == b / 16 * 16
    ensures var n := Packed(Octet(Joined(a, b, 0, 0), 0), Octet(Joined(a, b, c, 0), 1), 0);
            Sextet(n, 0) == a && Sextet(n, 1) == b && Sextet(n, 2) == c / 4 * 4
    ensures var n := Packed(Octet(Joined(a, b, 0, 0), 0), Octet(Joined(a, b, c, 0), 1), Octet(Joined(a, b, c, d), 2));
            Sextet(n, 0) == a && Sextet(n, 1) == b && Sextet(n, 2) == c && Sextet(n, 3) == d
  {
    OctetsOf(a, b, 0, 0);
    OctetsOf(a, b, c, 0);
    OctetsOf(a, b, c, d);
    var x, y, z := a * 4 + b / 16, b % 16 * 16 + c / 4, c % 4 * 64 + d;
    assert x / 4 == a && x % 4 == b / 16 && y / 16 == b % 16 && y % 16 == c / 4 && z / 64 == c % 4 && z % 64 == d;
    SextetsOf(x, 0, 0);
    SextetsOf(x, y, 0);
    SextetsOf(x, y, z);
  }

  /** A chunk is what encoding its own decoding gives exactly when it is a proper last chunk. */
  lemma QuadCanonical(q: seq<byte>)
    requires DecodeChunk(q).Some?
    ensures EncodeChunk(DecodeChunk(q).value) == q <==> LastQuad(q)
    ensures FullQuad(q) <==> |DecodeChunk(q).value| == 3
  {
    var x := DecodeChunk(q).value;
    var a, b := CharVal(q[0]).value, CharVal(q[1]).value;
    var c := if q[2] == PAD then 0 else CharVal(q[2]).value;
    var d := if q[2] == PAD || q[3] == PAD then 0 else CharVal(q[3]).value;
    BitsForth(a, b, c, d);
    LetterInverse(a, q[0]);
    LetterInverse(b / 16 * 16, q[1]);
    LetterInverse(b, q[1]);
    LetterInverse(c / 4 * 4, q[2]);
    LetterInverse(c, q[2]);
    LetterInverse(d, q[3]);
    var r := EncodeChunk(x);
    assert r == q <==> r[0] == q[0] && r[1] == q[1] && r[2] == q[2] && r[3] == q[3];
    assert b / 16 * 16 == b <==> b % 16 == 0;
    assert c / 4 * 4 == c <==> c % 4 == 0;
    if |x| == 1 {
      assert x[0] == Octet(Joined(a, b, 0, 0), 0);
    } else if |x| == 2 {
      assert x[0] == Octet(Joined(a, b, 0, 0), 0) && x[1] == Octet(Joined(a, b, c, 0), 1);
    } else {
      assert x[0] == Octet(Joined(a, b, 0, 0), 0) && x[1] == Octet(Joined(a, b, c, 0), 1);
      assert x[2] == Octet(Joined(a, b, c, d), 2);
    }
  }

  // ----- Whole texts

  lemma {:induction false} EncodedLength(data: seq<byte>)
    ensures |Encoded(data)| == (|data| + 2) / 3 * 4
    decreases |data|
  {
    if data != [] {
      EncodedLength(Drop3(data));
      assert |Encoded(data)| == 4 + |Encoded(Drop3(data))|;
      Thirds(|data|);
    }
  }

  lemma Thirds(n: nat)
    ensures n <= 3 ==> (n + 2) / 3 == if n == 0 then 0 else 1
    ensures n > 3 ==> (n + 2) / 3 == (n - 3 + 2) / 3 + 1
  {
  }

  lemma TimesFour(n: nat)
    ensures n * 4 % 4 == 0
  {
  }

  lemma {:induction false} BodyRoundTrip(data: seq<byte>)
    ensures ByFours(DecodeChunk, Encoded(data)) == Some(data)
    decreases |data|
  {
    if data != [] {
      var head, tail := EncodeChunk(Take3(data)), Encoded(Drop3(data));
      BodyRoundTrip(Drop3(data));
      ChunkRoundTrip(Take3(data));
      assert data == Take3(data) + Drop3(data);
      FirstFour(DecodeChunk, head, tail);
    }
  }

  lemma FirstFour(chunk: seq<byte> -> Option<seq<byte>>, q: seq<byte>, rest: seq<byte>)
    requires |q| == 4
    ensures ByFours(chunk, q + rest) == Joint(chunk(q), ByFours(chunk, rest))
  {
    assert (q + rest)[..4] == q && (q + rest)[4..] == rest;
  }

  /** Decoding undoes encoding for every input but the empty one, which the decoder refuses. */
  lemma RoundTrip(data: seq<byte>)
    ensures Decoded(Encoded(data)) == Some(data) <==> data != []
    ensures data == [] ==> Decoded(Encoded(data)) == None
  {
    EncodedLength(data);
    TimesFour((|data| + 2) / 3);
    Thirds(|data|);
    BodyRoundTrip(data);
  }

  lemma EncodeInjective(x: seq<byte>, y: seq<byte>)
    requires Encoded(x) == Encoded(y)
    ensures x == y
  {
    BodyRoundTrip(x);
    BodyRoundTrip(y);
  }

  /** Letters only, except that the last chunk may be padded with zero bits. */
  predicate Canonical(s: seq<byte>)
    decreases |s|
  {
    |s| >= 4 && if |s| == 4 then LastQuad(s) else FullQuad(s[..4]) && Canonical(s[4..])
  }

  lemma {:induction false} EncodedIsCanonical(data: seq<byte>)
    requires data != []
    ensures Canonical(Encoded(data))
    decreases |data|
  {
    var head, tail := EncodeChunk(Take3(data)), Encoded(Drop3(data));
    ChunkRoundTrip(Take3(data));
    QuadCanonical(head);
    EncodedLength(Drop3(data));
    assert (head + tail)[..4] == head && (head + tail)[4..] == tail;
    if Drop3(data) != [] {
      EncodedIsCanonical(Drop3(data));
    } else {
      assert head + tail == head;
    }
  }

  /**
   Of the texts the decoder accepts, encoding gives back exactly the canonical ones: padding only at the end, and
   no stray bits under it.
   */
  lemma {:induction false} ReencodesIffCanonical(s: seq<byte>)
    requires ByFours(DecodeChunk, s).Some? && s != []
    ensures Encoded(ByFours(DecodeChunk, s).value) == s <==> Canonical(s)
    decreases |s|
  {
    var x := ByFours(DecodeChunk, s).value;
    var head := DecodeChunk(s[..4]).value;
    var rest := ByFours(DecodeChunk, s[4..]).value;
    assert x == head + rest && s == s[..4] + s[4..];
    QuadCanonical(s[..4]);
    if |s| == 4 {
      assert rest == [] && s[..4] == s && x == head;
      assert Encoded(x) == EncodeChunk(head) + [];
    } else {
      if Canonical(s) {
        ReencodesIffCanonical(s[4..]);
        assert Take3(x) == head && Drop3(x) == rest;
        assert rest != [];
      }
      if Encoded(x) == s {
        EncodedIsCanonical(x);
      }
    }
  }

  lemma DecodeReencodes(s: seq<byte>)
    requires Decoded(s).Some?
    ensures Encoded(Decoded(s).value) == s <==> Canonical(s)
  {
    ReencodesIffCanonical(s);
  }

  lemma ProperQuadDecodes(q: seq<byte>)
    requires |q| == 4 && (LastQuad(q) || FullQuad(q))
    ensures DecodeChunk(q).Some?
  {
  }

  lemma {:induction false} CanonicalDecodes(s: seq<byte>)
    requires Canonical(s)
    ensures |s| % 4 == 0 && ByFours(DecodeChunk, s).Some?
    decreases |s|
  {
    assert s == s[..4] + s[4..];
    FirstFour(DecodeChunk, s[..4], s[4..]);
    if |s| == 4 {
      assert s[..4] == s && s[4..] == [];
    } else {
      CanonicalDecodes(s[4..]);
    }
    ProperQuadDecodes(s[..4]);
  }

  /** The canonical texts are exactly the encodings of non-empty inputs, and the decoder accepts them all. */
  lemma CanonicalIff(s: seq<byte>)
    ensures Canonical(s) <==> exists data | data != [] :: Encoded(data) == s
    ensures Canonical(s) ==> Decoded(s).Some?
  {
    if Canonical(s) {
      CanonicalDecodes(s);
      ReencodesIffCanonical(s);
      var data := ByFours(DecodeChunk, s).value;
      assert Encoded(data) == s && data != [];
    }
    if data :| data != [] && Encoded(data) == s {
      EncodedIsCanonical(data);
    }
  }

  /** The decoder accepts more: padding in the middle, stray bits, and any character after a `=` in third place. */
  lemma AcceptsMore()
    ensures Decoded([84, 81, 61, 61, 84, 81, 61, 61]).Some? && !Canonical([84, 81, 61, 61, 84, 81, 61, 61])
    ensures Decoded([84, 82, 61, 61]).Some? && !Canonical([84, 82, 61, 61])
    ensures Decoded([84, 81, 61, 0]).Some? && !Canonical([84, 81, 61, 0])
  {
    var s: seq<byte> := [84, 81, 61, 61, 84, 81, 61, 61];
    assert s[..4] == [84, 81, 61, 61] && s[4..] == [84, 81, 61, 61];
    FirstFour(DecodeChunk, [84, 81, 61, 61], [84, 81, 61, 61]);
    assert s == [84, 81, 61, 61] + [84, 81, 61, 61];
    Alone([84, 81, 61, 61]);
    Alone([84, 82, 61, 61]);
    Alone([84, 81, 61, 0]);
  }

  lemma Alone(q: seq<byte>)
    requires |q| == 4
    ensures ByFours(DecodeChunk, q).Some? <==> DecodeChunk(q).Some?
  {
    FirstFour(DecodeChunk, q, []);
    assert q + [] == q;
  }

  // ----- Position by position

  /** Octet i of the data; the bits missing from the last group are zero. */
  ghost function OctetAt(data: seq<byte>, i: nat): byte {
    if i < |data| then data[i] else 0
  }

  /** Four characters are the letters of one to three octets, six bits at a time, most significant first. */
  ghost predicate SpellsOut(r: seq<byte>, group: seq<byte>) {
    && |r| == 4 && 1 <= |group| <= 3
    && var b0, b1, b2 := group[0], OctetAt(group, 1), OctetAt(group, 2);
       && CharVal(r[0]) == Some(b0 / 4) && CharVal(r[1]) == Some(b0 % 4 * 16 + b1 / 16)
       && (if |group| > 1 then CharVal(r[2]) == Some(b1 % 16 * 4 + b2 / 64) else r[2] == PAD)
       && (if |group| > 2 then CharVal(r[3]) == Some(b2 % 64) else r[3] == PAD)
  }

  lemma ChunkSpellsOut(chunk: seq<byte>)
    requires 1 <= |chunk| <= 3
    ensures SpellsOut(EncodeChunk(chunk), chunk)
  {
    var b0, b1, b2 := chunk[0], OctetAt(chunk, 1), OctetAt(chunk, 2);
    SextetsOf(b0, b1, b2);
    var n := Packed(b0, b1, b2);
    LetterInverse(Sextet(n, 0), 0);
    LetterInverse(Sextet(n, 1), 0);
    LetterInverse(Sextet(n, 2), 0);
    LetterInverse(Sextet(n, 3), 0);
  }

  /** The k-th three octets, or what is left of them. */
  ghost function Group(data: seq<byte>, k: nat): seq<byte>
    requires 3 * k < |data|
  {
    if 3 * k + 3 <= |data| then data[3 * k..3 * k + 3] else data[3 * k..]
  }

  lemma QuadOfTail(head: seq<byte>, rest: seq<byte>, k: nat)
    requires |head| == 4 && 0 < k && 4 * (k - 1) + 4 <= |rest|
    ensures Quad(head + rest, k) == Quad(rest, k - 1)
  {
  }

  lemma GroupOfTail(data: seq<byte>, k: nat)
    requires 0 < k && 3 * k < |data|
    ensures 3 * (k - 1) < |Drop3(data)| && Group(data, k) == Group(Drop3(data), k - 1)
  {
  }

  lemma {:induction false} EncodedQuad(data: seq<byte>, k: nat)
    requires 3 * k < |data|
    ensures 4 * k + 4 <= |Encoded(data)| && Quad(Encoded(data), k) == EncodeChunk(Group(data, k))
    decreases k
  {
    if k == 0 {
      assert Group(data, 0) == Take3(data);
    } else {
      GroupOfTail(data, k);
      EncodedQuad(Drop3(data), k - 1);
      QuadOfTail(EncodeChunk(Take3(data)), Encoded(Drop3(data)), k);
    }
  }

  /** The k-th four characters spell out the k-th three octets. */
  lemma EncodedAt(data: seq<byte>, k: nat)
    requires 3 * k < |data|
    ensures 4 * k + 4 <= |Encoded(data)| && SpellsOut(Quad(Encoded(data), k), Group(data, k))
  {
    EncodedQuad(data, k);
    ChunkSpellsOut(Group(data, k));
  }

  lemma ShortExamples()
    ensures EncodeChunk([102]) == [90, 103, 61, 61] && EncodeChunk([251, 255, 191]) == [43, 47, 43, 47]
  {
  }

  lemma Foo()
    ensures EncodeChunk([102, 111, 111]) == [90, 109, 57, 118]
  {
    SextetsOf(102, 111, 111);
  }

  lemma Bar()
    ensures EncodeChunk([98, 97, 114]) == [89, 109, 70, 121]
  {
    SextetsOf(98, 97, 114);
  }

  /** Examples of section 10 of RFC 4648, in ASCII, and one for the last two letters. */
  lemma Examples()
    ensures Encoded([102]) == [90, 103, 61, 61] && Encoded([251, 255, 191]) == [43, 47, 43, 47]
    ensures Encoded([102, 111, 111, 98, 97, 114]) == [90, 109, 57, 118, 89, 109, 70, 121]
  {
    ShortExamples();
    Foo();
    Bar();
    var data: seq<byte> := [102, 111, 111, 98, 97, 114];
    assert Take3(data) == [102, 111, 111] && Drop3(data) == [98, 97, 114];
  }
}
