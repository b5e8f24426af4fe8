/**
 Mention parsing (crates/client/src/mentions.rs).  A body is a sequence of characters; the byte offsets of the
 source always fall on character boundaries.  `lower` stands for `str::to_lowercase`.
 */
module Mentions {
  import opened Collections
  import opened Options

  type PeerId = nat

  datatype Segment =
    | Text(text: string)
    | Mention(shown: string, fullLabel: string, peer: PeerId, isSelf: bool)

  datatype PeerRef = PeerRef(peer: PeerId, handle: string, displayName: string)

  const MAX_LABEL_LEN := 32
  const TRUNCATE_KEEP := 28

  // ----- The mention pattern

  /** `[a-z]` under `(?i)`: with Unicode case folding this also takes the long s and the Kelvin sign. */
  predicate IsLetter(c: char) {
    'a' <= c <= 'z' || 'A' <= c <= 'Z' || c == '\U{017F}' || c == '\U{212A}'
  }

  predicate IsZeroWidth(c: char) {
    c == '\U{200B}' || c == '\U{200C}' || c == '\U{200D}'
  }

  predicate IsHandleChar(c: char) {
    IsLetter(c) || '0' <= c <= '9' || c == '.' || c == '_' || c == '-' || IsZeroWidth(c)
  }

  /** The pattern matches at position i. */
  predicate MatchAt(body: string, i: nat) {
    i + 1 < |body| && body[i] == '@' && IsLetter(body[i + 1])
  }

  /** Where the longest run of handle characters from i ends. */
  function RunEnd(body: string, i: nat): (r: nat)
    requires i <= |body|
    ensures i <= r <= |body|
    ensures forall k | i <= k < r :: IsHandleChar(body[k])
    ensures r < |body| ==> !IsHandleChar(body[r])
    decreases |body| - i
  {
    if i < |body| && IsHandleChar(body[i]) then RunEnd(body, i + 1) else i
  }

  /** The first match at or after i, or the length. */
  function NextMatch(body: string, i: nat): (r: nat)
    requires i <= |body|
    ensures i <= r <= |body|
    ensures r < |body| ==> MatchAt(body, r)
    ensures forall k | i <= k < r :: !MatchAt(body, k)
    decreases |body| - i
  {
    if i == |body| || MatchAt(body, i) then i else NextMatch(body, i + 1)
  }

  /** The handle of the match at i. */
  function HandleAt(body: string, i: nat): (r: string)
    requires MatchAt(body, i)
    ensures r != ""
  {
    body[i + 1..RunEnd(body, i + 1)]
  }

  // ----- Resolution

  function StripZeroWidth(s: string): string {
    if s == "" then ""
    else if IsZeroWidth(s[0]) then StripZeroWidth(s[1..])
    else [s[0]] + StripZeroWidth(s[1..])
  }

  function FirstSegment(handle: string): string {
    if handle == "" || handle[0] == '.' then "" else [handle[0]] + FirstSegment(handle[1..])
  }

  function FindPeer(peers: seq<PeerRef>, matches: PeerRef -> bool): Option<PeerId> {
    if peers == [] then None else if matches(peers[0]) then Some(peers[0].peer) else FindPeer(peers[1..], matches)
  }

  /** What a handle means here: exact handle, first segment, display name; `you` comes before all. */
  function Resolve(raw: string, peers: seq<PeerRef>, me: PeerId, lower: string -> string): Option<PeerId> {
    var name := StripZeroWidth(lower(raw));
    var exact := FindPeer(peers, (p: PeerRef) => p.handle == name);
    var first := FindPeer(peers, (p: PeerRef) => FirstSegment(p.handle) == name);
    if name == "you" then Some(me)
    else if exact.Some? then exact
    else if first.Some? then first
    else FindPeer(peers, (p: PeerRef) => lower(p.displayName) == name)
  }

  lemma {:induction false} FindPeerFirst(peers: seq<PeerRef>, matches: PeerRef -> bool)
    ensures FindPeer(peers, matches).None? <==> forall p | p in peers :: !matches(p)
    ensures FindPeer(peers, matches).Some? ==>
              exists k | 0 <= k < |peers| ::
                && matches(peers[k]) && FindPeer(peers, matches).value == peers[k].peer
                && forall j | 0 <= j < k :: !matches(peers[j])
  {
    if peers != [] {
      FindPeerFirst(peers[1..], matches);
      if !matches(peers[0]) && FindPeer(peers, matches).Some? {
        var k :| 0 <= k < |peers[1..]| && matches(peers[1..][k])
                 && FindPeer(peers[1..], matches).value == peers[1..][k].peer
                 && forall j | 0 <= j < k :: !matches(peers[1..][j]);
        assert forall j | 0 < j < k + 1 :: peers[j] == peers[1..][j - 1];
        assert matches(peers[k + 1]);
      }
    }
  }

  /** A handle resolves exactly when it reads `you` or fits some peer in one of the three ways. */
  lemma ResolvesIff(raw: string, peers: seq<PeerRef>, me: PeerId, lower: string -> string)
    ensures var name := StripZeroWidth(lower(raw));
            Resolve(raw, peers, me, lower).Some? <==>
              || name == "you"
              || exists p | p in peers :: p.handle == name || FirstSegment(p.handle) == name
                                          || lower(p.displayName) == name
  {
    var name := StripZeroWidth(lower(raw));
    FindPeerFirst(peers, (p: PeerRef) => p.handle == name);
    FindPeerFirst(peers, (p: PeerRef) => FirstSegment(p.handle) == name);
    FindPeerFirst(peers, (p: PeerRef) => lower(p.displayName) == name);
  }

  /** Without a zero-width character, everything else in order. */
  lemma {:induction false} StripKeepsOrder(a: string, c: char, b: string)
    ensures StripZeroWidth(a + [c] + b) == StripZeroWidth(a) + (if IsZeroWidth(c) then "" else [c]) + StripZeroWidth(b)
    decreases |a|
  {
    var s := a + [c] + b;
    if a == "" {
      assert s[1..] == b;
    } else {
      assert s[1..] == a[1..] + [c] + b && s[0] == a[0];
      StripKeepsOrder(a[1..], c, b);
    }
  }

  /** The first segment is what comes before the first dot. */
  lemma {:induction false} FirstSegmentIs(segment: string, rest: string)
    requires '.' !in segment && (rest == "" || rest[0] == '.')
    ensures FirstSegment(segment + rest) == segment
    decreases |segment|
  {
    var s := segment + rest;
    if segment == "" {
      assert s == rest;
    } else {
      assert s[1..] == segment[1..] + rest && s[0] == segment[0];
      FirstSegmentIs(segment[1..], rest);
    }
  }

  ghost predicate FirstWith(peers: seq<PeerRef>, fits: PeerRef -> bool, k: nat) {
    k < |peers| && fits(peers[k]) && forall j | 0 <= j < k :: !fits(peers[j])
  }

  lemma FindsFirst(peers: seq<PeerRef>, fits: PeerRef -> bool, k: nat)
    requires FirstWith(peers, fits, k)
    ensures FindPeer(peers, fits) == Some(peers[k].peer)
  {
    FindPeerFirst(peers, fits);
    assert peers[k] in peers;
  }

  /**
   Who a handle means: the local peer if it reads `you`; otherwise the first peer with that handle; if there is none,
   the first whose handle has it for its first segment; if there is none, the first with that display name.
   */
  lemma ResolvesTo(raw: string, peers: seq<PeerRef>, me: PeerId, lower: string -> string, k: nat)
    ensures var name, r := StripZeroWidth(lower(raw)), Resolve(raw, peers, me, lower);
            var exact := (p: PeerRef) => p.handle == name;
            var first := (p: PeerRef) => FirstSegment(p.handle) == name;
            var shown := (p: PeerRef) => lower(p.displayName) == name;
            && (name == "you" ==> r == Some(me))
            && (name != "you" && FirstWith(peers, exact, k) ==> r == Some(peers[k].peer))
            && (name != "you" && (forall p | p in peers :: !exact(p)) && FirstWith(peers, first, k)
                ==> r == Some(peers[k].peer))
            && (name != "you" && (forall p | p in peers :: !exact(p) && !first(p)) && FirstWith(peers, shown, k)
                ==> r == Some(peers[k].peer))
  {
    var name := StripZeroWidth(lower(raw));
    var exact := (p: PeerRef) => p.handle == name;
    var first := (p: PeerRef) => FirstSegment(p.handle) == name;
    var shown := (p: PeerRef) => lower(p.displayName) == name;
    FindPeerFirst(peers, exact);
    FindPeerFirst(peers, first);
    if FirstWith(peers, exact, k) {
      FindsFirst(peers, exact, k);
    }
    if FirstWith(peers, first, k) {
      FindsFirst(peers, first, k);
    }
    if FirstWith(peers, shown, k) {
      FindsFirst(peers, shown, k);
    }
  }

  function TruncateLabel(text: string): string {
    if |text| <= MAX_LABEL_LEN then text else text[..TRUNCATE_KEEP] + ['\U{2026}']
  }

  function Pill(raw: string, peer: PeerId, me: PeerId): Segment {
    Mention(TruncateLabel(if peer == me then "you" else raw), raw, peer, peer == me)
  }

  // ----- Parsing

  function Gap(body: string, from: nat, to: nat): seq<Segment>
    requires from <= to <= |body|
  {
    if from < to then [Text(body[from..to])] else []
  }

  /** The part of the body a segment stands for. */
  function Source(s: Segment): string {
    if s.Text? then s.text else "@" + s.fullLabel
  }

  /** One turn of the loop: no match is left, one that does not resolve, or one that does. */
  datatype Turn = Last | Miss(end: nat) | Hit(start: nat, end: nat, pill: Segment)

  predicate TurnOk(body: string, pos: nat, t: Turn) {
    match t
    case Last => true
    case Miss(end) => pos < end <= |body|
    case Hit(start, end, pill) => pos <= start < end <= |body| && pill.Mention? && Source(pill) == body[start..end]
  }

  /** The turn that finds a match at `i`. */
  function MatchTurn(body: string, resolve: string -> Option<PeerId>, me: PeerId, i: nat): (t: Turn)
    requires MatchAt(body, i)
    ensures !t.Last? && TurnOk(body, i, t)
  {
    var end := RunEnd(body, i + 1);
    assert end > i + 1;
    var raw := HandleAt(body, i);
    if resolve(raw).None? then Miss(end) else Hit(i, end, Pill(raw, resolve(raw).value, me))
  }

  /** The turn that looks for matches from `pos` on. */
  function TurnAt(body: string, resolve: string -> Option<PeerId>, me: PeerId, pos: nat): (t: Turn)
    ensures TurnOk(body, pos, t)
  {
    var i := if pos <= |body| then NextMatch(body, pos) else |body|;
    if i == |body| then Last else MatchTurn(body, resolve, me, i)
  }

  ghost predicate Sound(body: string, turn: nat -> Turn) {
    forall pos: nat :: TurnOk(body, pos, turn(pos))
  }

  function Turns(body: string, resolve: string -> Option<PeerId>, me: PeerId): (turn: nat -> Turn)
    ensures Sound(body, turn)
  {
    (pos: nat) => TurnAt(body, resolve, me, pos)
  }

  /** The segments from `cursor` on, when the matches before `pos` have been looked at. */
  ghost function ParseFrom(body: string, turn: nat -> Turn, cursor: nat, pos: nat): seq<Segment>
    requires cursor <= pos <= |body| && Sound(body, turn)
    decreases |body| - pos
  {
    assert TurnOk(body, pos, turn(pos));
    match turn(pos)
    case Last => Gap(body, cursor, |body|)
    case Miss(end) => ParseFrom(body, turn, cursor, end)
    case Hit(start, end, pill) => Gap(body, cursor, start) + [pill] + ParseFrom(body, turn, end, end)
  }

  ghost function Parsed(body: string, resolve: string -> Option<PeerId>, me: PeerId): seq<Segment> {
    var segments := ParseFrom(body, Turns(body, resolve, me), 0, 0);
    if segments == [] then [Text("")] else segments
  }

  lemma HitStep(body: string, turn: nat -> Turn, cursor: nat, pos: nat, before: seq<Segment>)
    requires cursor <= pos <= |body| && Sound(body, turn) && turn(pos).Hit?
    ensures var t := turn(pos);
            && pos <= t.start < t.end <= |body|
            && before + ParseFrom(body, turn, cursor, pos) ==
               before + Gap(body, cursor, t.start) + [t.pill] + ParseFrom(body, turn, t.end, t.end)
  {
    var t := turn(pos);
    assert TurnOk(body, pos, t);
    var gap := Gap(body, cursor, t.start);
    Regroup(before, gap + [t.pill], ParseFrom(body, turn, t.end, t.end));
    Regroup(before, gap, [t.pill]);
  }

  /** Flushes the text before a resolved match, then appends its pill. */
  method Emit(segments: seq<Segment>, body: string, cursor: nat, i: nat, raw: string, peer: PeerId, me: PeerId)
    returns (r: seq<Segment>)
    requires cursor <= i <= |body|
    ensures r == segments + Gap(body, cursor, i) + [Pill(raw, peer, me)]
  {
    r := segments;
    if i > cursor {
      r := r + [Text(body[cursor..i])];
    }
    var isSelf := peer == me;
    var display := if isSelf then "you" else raw;
    r := r + [Mention(TruncateLabel(display), raw, peer, isSelf)];
  }

  method ParseMentions(body: string, resolve: string -> Option<PeerId>, me: PeerId) returns (segments: seq<Segment>)
    ensures segments == Parsed(body, resolve, me)
  {
    segments := ParseMatches(body, resolve, me);
    if segments == [] {
      segments := [Text("")];
    }
  }

  /** The body of the loop: a match that resolves is emitted, any other stays in the text. */
  method TakeMatch(body: string, resolve: string -> Option<PeerId>, me: PeerId, cursor: nat, i: nat,
                   segments: seq<Segment>, ghost turn: nat -> Turn, ghost pos: nat)
    returns (r: seq<Segment>, cursor': nat, end: nat)
    requires cursor <= pos <= i && MatchAt(body, i)
    requires Sound(body, turn) && turn(pos) == MatchTurn(body, resolve, me, i)
    ensures cursor' <= end <= |body| && pos < end
    ensures r + ParseFrom(body, turn, cursor', end) == segments + ParseFrom(body, turn, cursor, pos)
  {
    end := RunEnd(body, i + 1);
    var raw := body[i + 1..end];
    var resolved := resolve(raw);
    r, cursor' := segments, cursor;
    assert TurnOk(body, pos, turn(pos));
    if resolved.Some? {
      HitStep(body, turn, cursor, pos, segments);
      r := Emit(segments, body, cursor, i, raw, resolved.value, me);
      cursor' := end;
    }
  }

  /** The loop over the matches of the pattern; a match goes on where the one before ended. */
  method ParseMatches(body: string, resolve: string -> Option<PeerId>, me: PeerId) returns (segments: seq<Segment>)
    ensures segments == ParseFrom(body, Turns(body, resolve, me), 0, 0)
  {
    segments := [];
    var cursor: nat, pos: nat := 0, 0;
    var i := NextMatch(body, pos);
    ghost var turn := Turns(body, resolve, me);
    ghost var all := ParseFrom(body, turn, 0, 0);
    assert segments + all == all;
    while i < |body|
      invariant cursor <= pos <= |body| && i == NextMatch(body, pos)
      invariant segments + ParseFrom(body, turn, cursor, pos) == all
      decreases |body| - pos
    {
      segments, cursor, pos := TakeMatch(body, resolve, me, cursor, i, segments, turn, pos);
      i := NextMatch(body, pos);
    }
    assert ParseFrom(body, turn, cursor, pos) == Gap(body, cursor, |body|);
    if cursor < |body| {
      segments := segments + [Text(body[cursor..|body|])];
    } else {
      assert segments + [] == segments;
    }
  }

  // ----- Nothing is lost

  function Rebuilt(segments: seq<Segment>): string {
    if segments == [] then "" else Source(segments[0]) + Rebuilt(segments[1..])
  }

  lemma RebuiltHead(a: seq<Segment>, b: seq<Segment>)
    requires a != []
    ensures Rebuilt(a + b) == Source(a[0]) + Rebuilt(a[1..] + b)
  {
    assert (a + b)[1..] == a[1..] + b;
  }

  lemma {:induction false} RebuiltSplit(a: seq<Segment>, b: seq<Segment>)
    ensures Rebuilt(a + b) == Rebuilt(a) + Rebuilt(b)
    decreases |a|
  {
    if a == [] {
      assert a + b == b;
    } else {
      RebuiltSplit(a[1..], b);
      RebuiltHead(a, b);
      Regroup(Source(a[0]), Rebuilt(a[1..]), Rebuilt(b));
    }
  }

  lemma RebuiltOne(s: Segment)
    ensures Rebuilt([s]) == Source(s)
  {
    assert Rebuilt([s][1..]) == "";
  }

  lemma RebuiltGap(body: string, from: nat, to: nat)
    requires from <= to <= |body|
    ensures Rebuilt(Gap(body, from, to)) == body[from..to]
  {
    if from < to {
      RebuiltOne(Text(body[from..to]));
    }
  }

  lemma RebuiltThree(gap: seq<Segment>, pill: Segment, rest: seq<Segment>)
    ensures Rebuilt(gap + [pill] + rest) == Rebuilt(gap) + Source(pill) + Rebuilt(rest)
  {
    RebuiltOne(pill);
    RebuiltSplit(gap, [pill]);
    RebuiltSplit(gap + [pill], rest);
  }

  lemma Slices(body: string, a: nat, b: nat, c: nat)
    requires a <= b <= c <= |body|
    ensures body[a..] == body[a..b] + body[b..c] + body[c..]
  {
  }

  lemma {:induction false} FromLossless(body: string, turn: nat -> Turn, cursor: nat, pos: nat)
    requires cursor <= pos <= |body| && Sound(body, turn)
    ensures Rebuilt(ParseFrom(body, turn, cursor, pos)) == body[cursor..]
    decreases |body| - pos
  {
    assert TurnOk(body, pos, turn(pos));
    match turn(pos)
    case Last => RebuiltGap(body, cursor, |body|);
    case Miss(end) => FromLossless(body, turn, cursor, end);
    case Hit(start, end, pill) =>
      FromLossless(body, turn, end, end);
      RebuiltThree(Gap(body, cursor, start), pill, ParseFrom(body, turn, end, end));
      RebuiltGap(body, cursor, start);
      Slices(body, cursor, start, end);
  }

  /** Putting the segments back together gives the body, character for character. */
  lemma Lossless(body: string, resolve: string -> Option<PeerId>, me: PeerId)
    ensures Rebuilt(Parsed(body, resolve, me)) == body
  {
    FromLossless(body, Turns(body, resolve, me), 0, 0);
    RebuiltOne(Text(""));
  }

  // ----- Text is not split

  predicate TidyFrom(segments: seq<Segment>, afterText: bool) {
    segments != [] ==>
      && (segments[0].Text? ==> !afterText && segments[0].text != "")
      && TidyFrom(segments[1..], segments[0].Text?)
  }

  lemma GapTidy(body: string, from: nat, to: nat, pill: Segment, rest: seq<Segment>)
    requires from <= to <= |body| && pill.Mention? && TidyFrom(rest, false)
    ensures TidyFrom(Gap(body, from, to) + [pill] + rest, false)
  {
    var tail := [pill] + rest;
    var all := Gap(body, from, to) + [pill] + rest;
    assert tail[1..] == rest;
    if from < to {
      assert all[1..] == tail;
    } else {
      assert all == tail;
    }
  }

  lemma {:induction false} FromTidy(body: string, turn: nat -> Turn, cursor: nat, pos: nat)
    requires cursor <= pos <= |body| && Sound(body, turn)
    ensures TidyFrom(ParseFrom(body, turn, cursor, pos), false)
    decreases |body| - pos
  {
    assert TurnOk(body, pos, turn(pos));
    match turn(pos)
    case Last =>
    case Miss(end) => FromTidy(body, turn, cursor, end);
    case Hit(start, end, pill) =>
      FromTidy(body, turn, end, end);
      GapTidy(body, cursor, start, pill, ParseFrom(body, turn, end, end));
  }

  /** No two texts are adjacent and none is empty, but for the single empty text of an empty body. */
  lemma TextsMaximal(body: string, resolve: string -> Option<PeerId>, me: PeerId)
    ensures body != "" ==> TidyFrom(Parsed(body, resolve, me), false)
    ensures body == "" <==> Parsed(body, resolve, me) == [Text("")]
  {
    FromTidy(body, Turns(body, resolve, me), 0, 0);
    Lossless(body, resolve, me);
    FromLossless(body, Turns(body, resolve, me), 0, 0);
  }

  // ----- Every handle that resolves, and no other, becomes a mention

  /** The mention that starts at position i, if the segments begin at position `at`. */
  function MentionFound(segments: seq<Segment>, at: nat, i: nat): Option<Segment> {
    if segments == [] then None
    else if segments[0].Mention? && at == i then Some(segments[0])
    else MentionFound(segments[1..], at + |Source(segments[0])|, i)
  }

  /** What should be at position i, read off the body alone. */
  function Expected(body: string, resolve: string -> Option<PeerId>, me: PeerId, i: nat): Option<Segment> {
    if !MatchAt(body, i) || resolve(HandleAt(body, i)).None? then None
    else Some(Pill(HandleAt(body, i), resolve(HandleAt(body, i)).value, me))
  }

  lemma {:induction false} FoundLater(segments: seq<Segment>, at: nat, i: nat)
    requires i < at
    ensures MentionFound(segments, at, i).None?
    decreases |segments|
  {
    if segments != [] {
      FoundLater(segments[1..], at + |Source(segments[0])|, i);
    }
  }

  lemma GapSkipped(body: string, from: nat, to: nat, rest: seq<Segment>, i: nat)
    requires from <= to <= |body|
    ensures MentionFound(Gap(body, from, to) + rest, from, i) == MentionFound(rest, to, i)
  {
    var all := Gap(body, from, to) + rest;
    if from < to {
      assert all[1..] == rest && all[0].Text?;
    } else {
      assert all == rest;
    }
  }

  /** No match starts inside a handle: `@` is not a handle character. */
  lemma NoMatchInside(body: string, i: nat, k: nat)
    requires MatchAt(body, i) && i < k < RunEnd(body, i + 1)
    ensures !MatchAt(body, k)
  {
    assert IsHandleChar(body[k]);
  }

  /** What the segments up to and including one pill say about position j. */
  lemma PillFound(body: string, cursor: nat, i: nat, pill: Segment, rest: seq<Segment>, j: nat)
    requires cursor <= i <= |body| && pill.Mention?
    ensures var end := i + |Source(pill)|;
            MentionFound(Gap(body, cursor, i) + [pill] + rest, cursor, j) ==
            if j == i then Some(pill) else if j < end then None else MentionFound(rest, end, j)
  {
    var tail := [pill] + rest;
    Regroup(Gap(body, cursor, i), [pill], rest);
    GapSkipped(body, cursor, i, tail, j);
    assert tail[1..] == rest;
    if j < i {
      FoundLater(tail, i, j);
    } else if i < j < i + |Source(pill)| {
      FoundLater(rest, i + |Source(pill)|, j);
    }
  }

  /** `expected` says position by position what the turns find. */
  ghost predicate Foretells(turn: nat -> Turn, expected: nat -> Option<Segment>, pos: nat) {
    match turn(pos)
    case Last => forall k: nat | pos <= k :: expected(k).None?
    case Miss(end) => forall k: nat | pos <= k < end :: expected(k).None?
    case Hit(start, end, pill) =>
      forall k: nat | pos <= k < end :: expected(k) == if k == start then Some(pill) else None
  }

  /** A turn that finds nothing more: the rest is text. */
  lemma LastComplete(body: string, expected: nat -> Option<Segment>, cursor: nat, j: nat)
    requires cursor <= |body| && cursor <= j && forall k: nat | cursor <= k :: expected(k).None?
    ensures MentionFound(Gap(body, cursor, |body|), cursor, j) == expected(j)
  {
    GapSkipped(body, cursor, |body|, [], j);
    assert Gap(body, cursor, |body|) + [] == Gap(body, cursor, |body|);
  }

  /** A turn that finds a pill: it is where it is expected, and the rest begins behind it. */
  lemma HitComplete(body: string, expected: nat -> Option<Segment>, cursor: nat, start: nat, pill: Segment,
                    rest: seq<Segment>, j: nat)
    requires cursor <= start <= |body| && pill.Mention? && cursor <= j
    requires forall k: nat | cursor <= k < start + |Source(pill)| ::
               expected(k) == if k == start then Some(pill) else None
    requires j >= start + |Source(pill)| ==> MentionFound(rest, start + |Source(pill)|, j) == expected(j)
    ensures MentionFound(Gap(body, cursor, start) + [pill] + rest, cursor, j) == expected(j)
  {
    PillFound(body, cursor, start, pill, rest, j);
  }

  lemma {:induction false} FromComplete(body: string, turn: nat -> Turn, expected: nat -> Option<Segment>,
                                        cursor: nat, pos: nat, j: nat)
    requires cursor <= pos <= |body| && cursor <= j && Sound(body, turn)
    requires forall p: nat | p <= |body| :: Foretells(turn, expected, p)
    requires forall k: nat | cursor <= k < pos :: expected(k).None?
    ensures MentionFound(ParseFrom(body, turn, cursor, pos), cursor, j) == expected(j)
    decreases |body| - pos
  {
    assert TurnOk(body, pos, turn(pos)) && Foretells(turn, expected, pos);
    match turn(pos)
    case Last => LastComplete(body, expected, cursor, j);
    case Miss(end) => FromComplete(body, turn, expected, cursor, end, j);
    case Hit(start, end, pill) =>
      if j >= end {
        FromComplete(body, turn, expected, end, end, j);
      }
      HitComplete(body, expected, cursor, start, pill, ParseFrom(body, turn, end, end), j);
  }

  /** What is expected at k, up to the end of the first match from `pos` on. */
  lemma ExpectedNearby(body: string, resolve: string -> Option<PeerId>, me: PeerId, pos: nat, k: nat)
    requires pos <= |body| && pos <= k
    requires NextMatch(body, pos) < |body| ==> k < RunEnd(body, NextMatch(body, pos) + 1)
    ensures k != NextMatch(body, pos) ==> Expected(body, resolve, me, k).None?
  {
    var i := NextMatch(body, pos);
    if i < k && i < |body| {
      NoMatchInside(body, i, k);
    }
  }

  lemma TurnsForetold(body: string, resolve: string -> Option<PeerId>, me: PeerId, pos: nat)
    requires pos <= |body|
    ensures Foretells(Turns(body, resolve, me), (i: nat) => Expected(body, resolve, me, i), pos)
  {
    var i := NextMatch(body, pos);
    forall k: nat | pos <= k && (i < |body| ==> k < RunEnd(body, i + 1))
      ensures k != i ==> Expected(body, resolve, me, k).None?
    {
      ExpectedNearby(body, resolve, me, pos, k);
    }
  }

  /**
   Position by position: a mention starts at i exactly when the pattern matches there and its longest handle
   resolves, and it is then the pill for that handle.
   */
  lemma MentionsComplete(body: string, resolve: string -> Option<PeerId>, me: PeerId, i: nat)
    ensures MentionFound(Parsed(body, resolve, me), 0, i) == Expected(body, resolve, me, i)
  {
    var turn, expected := Turns(body, resolve, me), (k: nat) => Expected(body, resolve, me, k);
    forall p: nat | p <= |body|
      ensures Foretells(turn, expected, p)
    {
      TurnsForetold(body, resolve, me, p);
    }
    FromComplete(body, turn, expected, 0, 0, i);
    var segments := Parsed(body, resolve, me);
    if ParseFrom(body, turn, 0, 0) == [] {
      assert segments[1..] == [];
    }
  }

  // ----- Self mentions

  lemma {:induction false} FromPills(body: string, turn: nat -> Turn, cursor: nat, pos: nat, s: Segment)
    returns (at: nat)
    requires cursor <= pos <= |body| && Sound(body, turn)
    requires s in ParseFrom(body, turn, cursor, pos) && s.Mention?
    ensures turn(at).Hit? && turn(at).pill == s
    decreases |body| - pos
  {
    assert TurnOk(body, pos, turn(pos));
    match turn(pos)
    case Last =>
    case Miss(end) => at := FromPills(body, turn, cursor, end, s);
    case Hit(start, end, pill) =>
      if s == pill {
        at := pos;
      } else {
        at := FromPills(body, turn, end, end, s);
      }
  }

  /**
   With the resolution of the client, in every parsed body: a mention is a self mention exactly when its peer is
   the local one, exactly when its label reads `you`.
   */
  lemma SelfMentions(body: string, peers: seq<PeerRef>, me: PeerId, lower: string -> string, s: Segment)
    requires StripZeroWidth(lower("you")) == "you"
    requires s in Parsed(body, (raw: string) => Resolve(raw, peers, me, lower), me) && s.Mention?
    ensures s.isSelf <==> s.peer == me
    ensures s.isSelf <==> s.shown == "you"
  {
    var resolve := (raw: string) => Resolve(raw, peers, me, lower);
    var at := FromPills(body, Turns(body, resolve, me), 0, 0, s);
    if s.fullLabel == "you" {
      assert Resolve("you", peers, me, lower) == Some(me);
    }
  }

  /**
   Every mention of a parsed body: its handle resolves to its peer, and it shows `you` or the handle, in full up to
   32 characters and otherwise the first 28 and an ellipsis.
   */
  lemma MentionsShow(body: string, resolve: string -> Option<PeerId>, me: PeerId, s: Segment)
    requires s in Parsed(body, resolve, me) && s.Mention?
    ensures resolve(s.fullLabel) == Some(s.peer) && (s.isSelf <==> s.peer == me)
    ensures var text := if s.peer == me then "you" else s.fullLabel;
            && (|text| <= 32 ==> s.shown == text)
            && (|text| > 32 ==> |s.shown| == 29 && s.shown[..28] == text[..28] && s.shown[28] == '\U{2026}')
  {
    var at := FromPills(body, Turns(body, resolve, me), 0, 0, s);
  }
}
