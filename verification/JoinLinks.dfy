/**
 Join links (crates/client/src/ops.rs, joining.rs, listeners.rs): an inviter keeps use-counted links, a joiner
 keeps a table of pending attempts, and signed messages pass between them.

 This file holds what one client does.  `JoinNetwork` puts clients on a hostile network.
 */
module JoinLinks {
  import opened Collections
  import opened Options

  type PeerId = nat
  type u32 = x: nat | x < 0x1_0000_0000

  datatype JoinLink = JoinLink(
    linkId: string, serverId: string, maxUses: u32, used: u32, active: bool, expiresAt: Option<nat>)

  /** `JoinLink::is_valid` with the clock as a parameter. */
  predicate IsValid(link: JoinLink, now: nat) {
    link.active && link.used < link.maxUses && (link.expiresAt.Some? ==> now <= link.expiresAt.value)
  }

  datatype Wire =
    | JoinRequest(linkId: string, peerId: PeerId)
    | JoinResponse(linkId: string, target: PeerId, invite: string)
    | JoinDenied(linkId: string, target: PeerId, reason: string)

  /** What the UI is shown. */
  datatype Outcome =
    | Admitted(linkId: string, from: PeerId, invite: string)
    | Refused(linkId: string, from: PeerId, reason: string)

  /**
   `rejected` is a pending entry the listener has taken out because a reply carried the wrong signature and has
   not put back yet: removal and reinsertion are two separate critical sections.  All listeners of a client are
   tasks of one thread and do not yield in between, so there is at most one such entry and no other message is
   handled while there is one; `send_join_request` may run on any thread.
   */
  datatype Peer = Peer(links: seq<JoinLink>, pending: map<string, PeerId>, rejected: Option<(string, PeerId)>)

  // ----- The reason shown to a refused joiner

  const MAX_JOIN_DENIED_REASON_LEN := 256

  /** `char::is_control`: the C0 and C1 control characters and DEL. */
  predicate IsControl(c: char) {
    c < ' ' || (c as int == 0x7F) || (0x80 <= c as int <= 0x9F)
  }

  function Displayable(s: string): string {
    if s == "" then ""
    else if IsControl(s[0]) then Displayable(s[1..])
    else [s[0]] + Displayable(s[1..])
  }

  function TruncateToChars(s: string, max: nat): string {
    if |s| <= max then s else s[..max]
  }

  function SanitizeReason(s: string): string {
    TruncateToChars(Displayable(s), MAX_JOIN_DENIED_REASON_LEN)
  }

  predicate Clean(s: string) {
    |s| <= MAX_JOIN_DENIED_REASON_LEN && forall i | 0 <= i < |s| :: !IsControl(s[i])
  }

  lemma {:induction false} DisplayableIsPrintable(s: string)
    ensures forall i | 0 <= i < |Displayable(s)| :: !IsControl(Displayable(s)[i])
    ensures (forall i | 0 <= i < |s| :: !IsControl(s[i])) ==> Displayable(s) == s
  {
    if s != "" {
      DisplayableIsPrintable(s[1..]);
      if forall i | 0 <= i < |s| :: !IsControl(s[i]) {
        assert s == [s[0]] + s[1..];
      }
    }
  }

  /** Cleaning drops the control characters and nothing else, wherever they are. */
  lemma {:induction false} DisplayableSplits(a: string, b: string)
    ensures Displayable(a + b) == Displayable(a) + Displayable(b)
  {
    if a == "" {
      assert a + b == b;
    } else {
      DisplayableSplits(a[1..], b);
      assert (a + b)[1..] == a[1..] + b;
    }
  }

  /** What is shown is a prefix of the reason without its control characters: all of it, or 256 characters. */
  lemma SanitizedIsPrefix(s: string)
    ensures SanitizeReason(s) <= Displayable(s)
    ensures |SanitizeReason(s)| == if |Displayable(s)| <= 256 then |Displayable(s)| else 256
    ensures forall c: char :: Displayable([c]) == if IsControl(c) then "" else [c]
  {
  }

  /** A sanitized reason is clean, and exactly the clean reasons are shown as they came. */
  lemma SanitizedIsClean(s: string)
    ensures Clean(SanitizeReason(s))
    ensures Clean(s) <==> SanitizeReason(s) == s
  {
    DisplayableIsPrintable(s);
  }

  // ----- Links

  /** The position of the first link with that id, or the length. */
  function FindLink(links: seq<JoinLink>, id: string): (r: nat)
    ensures r <= |links|
    ensures r < |links| ==> links[r].linkId == id
    ensures forall j | 0 <= j < r :: links[j].linkId != id
  {
    if links == [] then 0 else if links[0].linkId == id then 0 else 1 + FindLink(links[1..], id)
  }

  function RemoveLinks(links: seq<JoinLink>, id: string): seq<JoinLink> {
    if links == [] then []
    else (if links[0].linkId == id then [] else [links[0]]) + RemoveLinks(links[1..], id)
  }

  /** `kept` and what is to be kept of the rest make up the whole, and go on doing so past link k. */
  lemma RemoveLinksStep(links: seq<JoinLink>, k: nat, id: string, kept: seq<JoinLink>, whole: seq<JoinLink>)
    requires k < |links| && kept + RemoveLinks(links[k..], id) == whole
    ensures kept + (if links[k].linkId == id then [] else [links[k]]) + RemoveLinks(links[k + 1..], id) == whole
  {
    assert links[k..][1..] == links[k + 1..];
    Regroup(kept, if links[k].linkId == id then [] else [links[k]], RemoveLinks(links[k + 1..], id));
  }

  /** `retain`: the loop that keeps every link with another identifier. */
  method RetainOthers(links: seq<JoinLink>, id: string) returns (kept: seq<JoinLink>)
    ensures kept == RemoveLinks(links, id)
  {
    kept := [];
    var k := 0;
    ghost var whole := RemoveLinks(links, id);
    assert links[0..] == links;
    while k < |links|
      invariant 0 <= k <= |links| && kept + RemoveLinks(links[k..], id) == whole
    {
      RemoveLinksStep(links, k, id, kept, whole);
      if links[k].linkId != id {
        kept := kept + [links[k]];
      } else {
        assert kept + [] == kept;
      }
      k := k + 1;
    }
  }

  function Charged(link: JoinLink): JoinLink
    requires link.used < link.maxUses
  {
    link.(used := link.used + 1)
  }

  /** A new link: active, unused, under a fresh identifier. */
  function OnCreate(p: Peer, id: string, serverId: string, maxUses: u32, expiresAt: Option<nat>): Peer {
    p.(links := p.links + [JoinLink(id, serverId, maxUses, 0, true, expiresAt)])
  }

  function OnDelete(p: Peer, id: string): Peer {
    p.(links := RemoveLinks(p.links, id))
  }

  /** What the inviter does with a request; `invite` is the result of `generate_invite`. */
  function OnRequest(p: Peer, signer: PeerId, linkId: string, peerId: PeerId, now: nat, invite: Option<string>)
    : (Peer, seq<Wire>)
  {
    var k := FindLink(p.links, linkId);
    if peerId != signer || k == |p.links| then (p, [])
    else if IsValid(p.links[k], now) then
      (p.(links := p.links[k := Charged(p.links[k])]),
       if invite.Some? then [JoinResponse(linkId, signer, invite.value)] else [])
    else (p, [JoinDenied(linkId, signer, if p.links[k].active then "link_expired" else "link_disabled")])
  }

  // ----- Pending attempts

  function OnSend(p: Peer, linkId: string, inviter: PeerId): Peer {
    p.(pending := p.pending[linkId := inviter])
  }

  function Shown(msg: Wire, from: PeerId): Outcome
    requires !msg.JoinRequest?
  {
    if msg.JoinResponse? then Admitted(msg.linkId, from, msg.invite)
    else Refused(msg.linkId, from, SanitizeReason(msg.reason))
  }

  /** The first critical section of the `JoinResponse` and `JoinDenied` arms. */
  function OnReply(p: Peer, me: PeerId, signer: PeerId, msg: Wire): (Peer, Option<Outcome>)
    requires !msg.JoinRequest? && p.rejected.None?
  {
    if msg.target != me || msg.linkId !in p.pending then (p, None)
    else
      var expected := p.pending[msg.linkId];
      var taken := p.(pending := p.pending - {msg.linkId});
      if signer == expected then (taken, Some(Shown(msg, signer)))
      else (taken.(rejected := Some((msg.linkId, expected))), None)
  }

  /** The second critical section, after a wrong signature. */
  function OnPutBack(p: Peer): Peer
    requires p.rejected.Some?
  {
    p.(pending := p.pending[p.rejected.value.0 := p.rejected.value.1], rejected := None)
  }

  // ----- The client, updated in place

  /** The two shared tables of `ClientHandle` and the methods that change them. */
  class Client {
    const me: PeerId
    var links: seq<JoinLink>
    var pending: map<string, PeerId>
    var rejected: Option<(string, PeerId)>

    ghost function View(): Peer
      reads this
    {
      Peer(links, pending, rejected)
    }

    constructor (me: PeerId, hydrated: seq<JoinLink>)
      ensures this.me == me && View() == Peer(hydrated, map[], None)
    {
      this.me := me;
      links, pending, rejected := hydrated, map[], None;
    }

    method SendJoinRequest(linkId: string, inviter: PeerId) returns (msg: Wire)
      modifies this
      ensures View() == OnSend(old(View()), linkId, inviter)
      ensures msg == JoinRequest(linkId, me)
    {
      pending := pending[linkId := inviter];
      msg := JoinRequest(linkId, me);
    }

    /** The permission check and the registry lookup come before; the id is a fresh UUID. */
    method CreateJoinLink(id: string, serverId: string, maxUses: u32, expiresAt: Option<nat>)
      modifies this
      ensures View() == OnCreate(old(View()), id, serverId, maxUses, expiresAt)
    {
      links := links + [JoinLink(id, serverId, maxUses, 0, true, expiresAt)];
    }

    method DeleteJoinLink(id: string)
      modifies this
      ensures View() == OnDelete(old(View()), id)
    {
      var kept := RetainOthers(links, id);
      links := kept;
    }

    method HandleJoinRequest(signer: PeerId, linkId: string, peerId: PeerId, now: nat, invite: Option<string>)
      returns (replies: seq<Wire>)
      modifies this
      ensures (View(), replies) == OnRequest(old(View()), signer, linkId, peerId, now, invite)
    {
      replies := [];
      if peerId != signer {
        return;
      }
      var k := 0;
      while k < |links| && links[k].linkId != linkId
        invariant 0 <= k <= |links| && View() == old(View())
        invariant forall j | 0 <= j < k :: links[j].linkId != linkId
      {
        k := k + 1;
      }
      if k < |links| {
        if IsValid(links[k], now) {
          links := links[k := links[k].(used := links[k].used + 1)];
          if invite.Some? {
            replies := [JoinResponse(linkId, signer, invite.value)];
          }
        } else if !links[k].active {
          replies := [JoinDenied(linkId, signer, "link_disabled")];
        } else {
          replies := [JoinDenied(linkId, signer, "link_expired")];
        }
      }
    }

    method HandleReply(signer: PeerId, msg: Wire) returns (shown: Option<Outcome>)
      requires !msg.JoinRequest? && rejected.None?
      modifies this
      ensures (View(), shown) == OnReply(old(View()), me, signer, msg)
    {
      shown := None;
      if msg.target != me || msg.linkId !in pending {
        return;
      }
      var expected := pending[msg.linkId];
      pending := pending - {msg.linkId};
      if signer != expected {
        rejected := Some((msg.linkId, expected));
      } else if msg.JoinResponse? {
        shown := Some(Admitted(msg.linkId, signer, msg.invite));
      } else {
        shown := Some(Refused(msg.linkId, signer, SanitizeReason(msg.reason)));
      }
    }

    method Reinsert()
      requires rejected.Some?
      modifies this
      ensures View() == OnPutBack(old(View()))
    {
      pending := pending[rejected.value.0 := rejected.value.1];
      rejected := None;
    }
  }
}
