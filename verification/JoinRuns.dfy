/**
 What clients with join links do in a run, read off the actions of the run: which requests are answered and how, what
 a link has been charged, and when a joiner is shown an outcome.
 */
module JoinRuns {
  import opened Collections
  import opened Options
  import opened JoinLinks
  import opened JoinNetwork

  // ----- What an honest client sends

  /** The first link with identifier `l`, if there is one. */
  ghost predicate FirstLink(links: seq<JoinLink>, l: string, k: nat) {
    k < |links| && links[k].linkId == l && forall j | 0 <= j < k :: links[j].linkId != l
  }

  /** The link is switched on, has a use left and has not run out. */
  ghost predicate Usable(link: JoinLink, now: nat) {
    link.active && link.used < link.maxUses && (link.expiresAt.None? || now <= link.expiresAt.value)
  }

  /** Client `i` is delivered a request for link `l` that `t` has signed for itself. */
  ghost predicate Asks(a: Action, i: PeerId, l: string, t: PeerId) {
    a.Deliver? && a.i == i && a.m == Signed(t, JoinRequest(l, t))
  }

  /** This very step makes client `i` send `msg`. */
  ghost predicate Sends(w: World, a: Action, i: PeerId, msg: Wire)
    requires i < |w.peers|
  {
    var links := w.peers[i].links;
    match msg
    case JoinRequest(l, p) => a.Request? && a.i == i && a.id == l && p == i
    case JoinResponse(l, t, invite) =>
      && Asks(a, i, l, t) && a.invite == Some(invite)
      && exists k | 0 <= k < |links| && FirstLink(links, l, k) :: Usable(links[k], a.now)
    case JoinDenied(l, t, reason) =>
      && Asks(a, i, l, t)
      && exists k | 0 <= k < |links| && FirstLink(links, l, k) ::
           && !Usable(links[k], a.now)
           && reason == if links[k].active then "link_expired" else "link_disabled"
  }

  lemma FirstIsFound(links: seq<JoinLink>, l: string, k: nat)
    ensures FirstLink(links, l, k) <==> k < |links| && FindLink(links, l) == k
  {
  }

  lemma RequestSends(w: World, a: Action, i: PeerId, msg: Wire)
    requires Enabled(w, a) && a.Deliver? && a.i == i && a.m.msg.JoinRequest? && i < |w.peers|
    ensures var (_, replies) := OnRequest(w.peers[i], a.m.signer, a.m.msg.linkId, a.m.msg.peerId, a.now, a.invite);
            msg in replies <==> Sends(w, a, i, msg)
  {
    var links, l := w.peers[i].links, a.m.msg.linkId;
    var k := FindLink(links, l);
    FirstIsFound(links, l, k);
    assert forall j | 0 <= j < |links| && FirstLink(links, l, j) :: j == k;
  }

  /** A message signed by an honest client is on the network exactly if it was, or if this step makes it send it. */
  lemma StepSends(w: World, a: Action, i: PeerId, msg: Wire)
    requires Enabled(w, a) && i < |w.peers| && i in w.honest
    ensures Signed(i, msg) in Next(w, a).net <==> Signed(i, msg) in w.net || Sends(w, a, i, msg)
  {
    if a.Deliver? && a.m.msg.JoinRequest? {
      if a.i == i {
        RequestSends(w, a, i, msg);
      }
    }
  }

  lemma {:induction false} SameClients(w: World, acts: seq<Action>)
    requires Legal(w, acts)
    ensures |Exec(w, acts).peers| == |w.peers| && Exec(w, acts).honest == w.honest
    decreases |acts|
  {
    if acts != [] {
      SameClients(w, acts[..|acts| - 1]);
    }
  }

  /**
   In every run, an honest client has sent a response exactly if at some step it was delivered a request its signer
   made for itself, the first link with that identifier was switched on, had a use left and had not run out, and an
   invite was made; a denial exactly if there was such a link that failed one of these, with `link_disabled` exactly
   when it was switched off; and a request exactly if its user made it.
   */
  lemma {:induction false} SentIff(init: World, acts: seq<Action>, i: PeerId, msg: Wire)
    requires Init(init) && Legal(init, acts) && i < |init.peers| && i in init.honest
    ensures Signed(i, msg) in Exec(init, acts).net <==>
            exists k | 0 <= k < |acts| :: SendsAt(init, acts, k, i, msg)
    decreases |acts|
  {
    if acts != [] {
      var n := |acts| - 1;
      var before := acts[..n];
      SentIff(init, before, i, msg);
      SameClients(init, before);
      StepSends(Exec(init, before), acts[n], i, msg);
      forall k | 0 <= k < n
        ensures SendsAt(init, before, k, i, msg) <==> SendsAt(init, acts, k, i, msg)
      {
        assert before[..k] == acts[..k];
      }
      assert SendsAt(init, acts, n, i, msg) <==> Sends(Exec(init, before), acts[n], i, msg);
    }
  }

  ghost predicate SendsAt(init: World, acts: seq<Action>, k: nat, i: PeerId, msg: Wire)
    requires k < |acts|
  {
    Legal(init, acts[..k]) && i < |Exec(init, acts[..k]).peers| && Sends(Exec(init, acts[..k]), acts[k], i, msg)
  }

  // ----- What a link has been charged

  /** How many requests for link `l` that their signers made for themselves client `i` is delivered in time. */
  ghost function InTime(acts: seq<Action>, i: PeerId, l: string, expiresAt: Option<nat>): nat {
    if acts == [] then 0
    else InTime(acts[..|acts| - 1], i, l, expiresAt) + Once(acts[|acts| - 1], i, l, expiresAt)
  }

  ghost function Once(a: Action, i: PeerId, l: string, expiresAt: Option<nat>): nat {
    if a.Deliver? && Asks(a, i, l, a.m.signer) && (expiresAt.None? || a.now <= expiresAt.value) then 1 else 0
  }

  function Least(a: nat, b: nat): nat {
    if a <= b then a else b
  }

  /** The link after n more requests in time. */
  ghost function After(link: JoinLink, n: nat): JoinLink
    requires link.used <= link.maxUses
  {
    link.(used := Least(link.maxUses, link.used + n))
  }

  /** The links of a client hold exactly one under this identifier, and it is this one. */
  ghost predicate Holds(links: seq<JoinLink>, link: JoinLink) {
    link in links && forall other | other in links && other.linkId == link.linkId :: other == link
  }

  lemma {:induction false} RemoveLinksHolds(links: seq<JoinLink>, id: string, link: JoinLink)
    ensures link in RemoveLinks(links, id) <==> link in links && link.linkId != id
  {
    if links != [] {
      RemoveLinksHolds(links[1..], id, link);
      assert links == [links[0]] + links[1..];
    }
  }

  lemma DeleteHolds(links: seq<JoinLink>, id: string, link: JoinLink)
    requires Holds(links, link) && link.linkId != id
    ensures Holds(RemoveLinks(links, id), link)
  {
    forall other: JoinLink
      ensures other in RemoveLinks(links, id) <==> other in links && other.linkId != id
    {
      RemoveLinksHolds(links, id, other);
    }
  }

  lemma ChargeHolds(links: seq<JoinLink>, k: nat, link: JoinLink)
    requires Distinct(links) && k < |links| && links[k].used < links[k].maxUses && Holds(links, link)
    ensures var link' := if links[k].linkId == link.linkId then Charged(link) else link;
            link.linkId == links[k].linkId ==> link.used < link.maxUses && Holds(links[k := Charged(links[k])], link')
    ensures link.linkId != links[k].linkId ==> Holds(links[k := Charged(links[k])], link)
  {
    var links' := links[k := Charged(links[k])];
    if links[k].linkId == link.linkId {
      assert links[k] in links && links[k] == link && links'[k] in links';
    } else {
      var j :| 0 <= j < |links| && links[j] == link;
      assert links'[j] == link;
    }
  }

  lemma CreateHolds(links: seq<JoinLink>, link: JoinLink, added: JoinLink)
    requires added.linkId != link.linkId
    ensures Holds(links, link) ==> Holds(links + [added], link)
  {
    assert forall x: JoinLink :: x in links + [added] <==> x in links || x == added;
  }

  /** A step keeps a link that is not deleted, and charges it for a request in time while it has a use left. */
  lemma LinkStep(w: World, a: Action, i: PeerId, link: JoinLink)
    requires Inv(w) && Enabled(w, a) && i < |w.peers| && link.active && (i, link.linkId) in w.caps
    requires link.used <= link.maxUses && Holds(w.peers[i].links, link) && a != Delete(i, link.linkId)
    ensures Holds(Next(w, a).peers[i].links, After(link, Once(a, i, link.linkId, link.expiresAt)))
  {
    var links := w.peers[i].links;
    assert LinksOk(w, i);
    if a.Create? && a.i == i {
      CreateHolds(links, link, JoinLink(a.id, a.serverId, a.maxUses, 0, true, a.expiresAt));
    } else if a.Delete? && a.i == i {
      DeleteHolds(links, a.id, link);
    } else if a.Deliver? && a.i == i && a.m.msg.JoinRequest? {
      RequestStep(w, a, i, link);
    }
  }

  /** The same for the handler alone. */
  lemma RequestHolds(p: Peer, signer: PeerId, l: string, peerId: PeerId, now: nat, invite: Option<string>,
                     link: JoinLink)
    requires Distinct(p.links) && link.active && link.used <= link.maxUses && Holds(p.links, link)
    ensures var charged := peerId == signer && l == link.linkId
                           && (link.expiresAt.None? || now <= link.expiresAt.value);
            Holds(OnRequest(p, signer, l, peerId, now, invite).0.links, After(link, if charged then 1 else 0))
  {
    var links, k := p.links, FindLink(p.links, l);
    if l == link.linkId {
      var at :| 0 <= at < |links| && links[at] == link;
      assert k <= at && links[k] in links && links[k] == link;
    }
    if peerId == signer && k < |links| && IsValid(links[k], now) {
      ChargeHolds(links, k, link);
    }
  }

  lemma RequestStep(w: World, a: Action, i: PeerId, link: JoinLink)
    requires Inv(w) && Enabled(w, a) && i < |w.peers| && link.active && link.used <= link.maxUses
    requires Holds(w.peers[i].links, link) && a.Deliver? && a.i == i && a.m.msg.JoinRequest?
    ensures Holds(Next(w, a).peers[i].links, After(link, Once(a, i, link.linkId, link.expiresAt)))
  {
    assert LinksOk(w, i);
    RequestHolds(w.peers[i], a.m.signer, a.m.msg.linkId, a.m.msg.peerId, a.now, a.invite, link);
  }

  lemma NewLink(w: World, a: Action)
    requires Inv(w) && Enabled(w, a) && a.Create?
    ensures Holds(Next(w, a).peers[a.i].links, JoinLink(a.id, a.serverId, a.maxUses, 0, true, a.expiresAt))
  {
    var links := w.peers[a.i].links;
    var link := JoinLink(a.id, a.serverId, a.maxUses, 0, true, a.expiresAt);
    assert LinksOk(w, a.i);
    forall other | other in links
      ensures other.linkId != a.id
    {
      var k :| 0 <= k < |links| && links[k] == other;
      assert LinkOk(w, a.i, links[k]);
    }
    assert (links + [link])[|links|] == link;
    assert forall x: JoinLink :: x in links + [link] <==> x in links || x == link;
  }

  lemma {:induction false} CapsGrow(w: World, acts: seq<Action>)
    requires Legal(w, acts)
    ensures forall c | c in w.caps :: c in Exec(w, acts).caps
    decreases |acts|
  {
    if acts != [] {
      CapsGrow(w, acts[..|acts| - 1]);
    }
  }

  /** The link is there and switched on. */
  ghost predicate Tracked(w: World, i: PeerId, link: JoinLink) {
    && Inv(w) && i < |w.peers| && (i, link.linkId) in w.caps
    && link.active && link.used <= link.maxUses && Holds(w.peers[i].links, link)
  }

  lemma TrackedStep(w: World, a: Action, i: PeerId, link: JoinLink)
    requires Tracked(w, i, link) && Enabled(w, a) && a != Delete(i, link.linkId)
    ensures Tracked(Next(w, a), i, After(link, Once(a, i, link.linkId, link.expiresAt)))
  {
    StepKeeps(w, a);
    LinkStep(w, a, i, link);
  }

  lemma AfterAfter(link: JoinLink, n: nat, m: nat)
    requires link.used <= link.maxUses
    ensures After(After(link, n), m) == After(link, n + m)
  {
  }

  /** From any moment on, as long as it is not deleted, a link that is switched on is charged for what is in time. */
  lemma {:induction false} LinkGoesOn(w: World, i: PeerId, link: JoinLink, acts: seq<Action>)
    requires Tracked(w, i, link) && Legal(w, acts)
    requires forall k | 0 <= k < |acts| :: acts[k] != Delete(i, link.linkId)
    ensures Tracked(Exec(w, acts), i, After(link, InTime(acts, i, link.linkId, link.expiresAt)))
    decreases |acts|
  {
    if acts != [] {
      var before, last := acts[..|acts| - 1], acts[|acts| - 1];
      LinkGoesOn(w, i, link, before);
      var n := InTime(before, i, link.linkId, link.expiresAt);
      TrackedStep(Exec(w, before), last, i, After(link, n));
      AfterAfter(link, n, Once(last, i, link.linkId, link.expiresAt));
    }
  }

  /**
   The life of a link, told by the actions of the run: from its creation on, as long as it is not deleted, it stays
   switched on with the same limits, and it has been charged for every request in time, up to its limit.
   */
  lemma LinkLedger(w: World, a: Action, acts: seq<Action>)
    requires Inv(w) && Enabled(w, a) && a.Create? && Legal(Next(w, a), acts)
    requires forall k | 0 <= k < |acts| :: acts[k] != Delete(a.i, a.id)
    ensures a.i < |Exec(Next(w, a), acts).peers|
    ensures var used := Least(a.maxUses, InTime(acts, a.i, a.id, a.expiresAt));
            Holds(Exec(Next(w, a), acts).peers[a.i].links,
                  JoinLink(a.id, a.serverId, a.maxUses, used, true, a.expiresAt))
  {
    StepKeeps(w, a);
    NewLink(w, a);
    LinkGoesOn(Next(w, a), a.i, JoinLink(a.id, a.serverId, a.maxUses, 0, true, a.expiresAt), acts);
  }

  /** A deleted link is gone for good, and no other link goes with it. */
  lemma {:induction false} DeletedForGood(w: World, i: PeerId, id: string, acts: seq<Action>)
    requires Inv(w) && Enabled(w, Delete(i, id)) && (i, id) in w.caps && Legal(Next(w, Delete(i, id)), acts)
    ensures forall link: JoinLink ::
              link in Next(w, Delete(i, id)).peers[i].links <==> link in w.peers[i].links && link.linkId != id
    ensures i < |Exec(Next(w, Delete(i, id)), acts).peers|
    ensures forall link | link in Exec(Next(w, Delete(i, id)), acts).peers[i].links :: link.linkId != id
    decreases |acts|
  {
    var start := Next(w, Delete(i, id));
    forall link: JoinLink
      ensures link in start.peers[i].links <==> link in w.peers[i].links && link.linkId != id
    {
      RemoveLinksHolds(w.peers[i].links, id, link);
    }
    if acts != [] {
      var before := acts[..|acts| - 1];
      DeletedForGood(w, i, id, before);
      CapsGrow(start, before);
      NoNewLink(Exec(start, before), acts[|acts| - 1], i, id);
    }
  }

  lemma NoNewLink(w: World, a: Action, i: PeerId, id: string)
    requires Enabled(w, a) && i < |w.peers| && (i, id) in w.caps
    requires forall link | link in w.peers[i].links :: link.linkId != id
    ensures forall link | link in Next(w, a).peers[i].links :: link.linkId != id
  {
    var links := w.peers[i].links;
    if a.Delete? {
      forall link | link in Next(w, a).peers[i].links
        ensures link.linkId != id
      {
        RemoveLinksHolds(links, a.id, link);
      }
    } else if a.Deliver? && a.i == i && a.m.msg.JoinRequest? {
      var k := FindLink(links, a.m.msg.linkId);
      assert k < |links| ==> links[k] in links;
    }
  }

  // ----- What the histories record

  /** Responses, requests and outcomes are recorded where they happen, and nowhere else. */
  lemma StepRecords(w: World, a: Action)
    requires Enabled(w, a)
    ensures Next(w, a).sent == w.sent + if a.Request? then [Sent(a.i, a.id, a.inviter)] else []
    ensures Next(w, a).surfaced == w.surfaced + if a.Deliver? && Shows(w, a) then [Surfaced(a.i, ShownBy(a.m))] else []
    ensures Next(w, a).produced == w.produced + if a.Deliver? && Responds(w, a)
                                                then [Produced(a.i, a.m.msg.linkId, a.m.signer)] else []
  {
    if a.Deliver? && a.m.msg.JoinRequest? {
      var k := FindLink(w.peers[a.i].links, a.m.msg.linkId);
      FirstIsFound(w.peers[a.i].links, a.m.msg.linkId, k);
      assert forall j | 0 <= j < |w.peers[a.i].links| && FirstLink(w.peers[a.i].links, a.m.msg.linkId, j) :: j == k;
    }
  }

  /** The delivery makes its client send a response. */
  ghost predicate Responds(w: World, a: Action)
    requires a.Deliver? && a.i < |w.peers|
  {
    a.m.msg.JoinRequest? && a.invite.Some?
    && Sends(w, a, a.i, JoinResponse(a.m.msg.linkId, a.m.signer, a.invite.value))
  }

  /** A reply for this client, about a link it has an open attempt at, from the very inviter it asked. */
  ghost predicate Shows(w: World, a: Action)
    requires a.Deliver? && a.i < |w.peers|
  {
    && !a.m.msg.JoinRequest? && a.m.msg.target == a.i
    && a.m.msg.linkId in w.peers[a.i].pending && w.peers[a.i].pending[a.m.msg.linkId] == a.m.signer
  }

  /** What a reply is shown as: an invite as it came, a reason cleaned. */
  ghost function ShownBy(m: Signed): Outcome
    requires !m.msg.JoinRequest?
  {
    match m.msg
    case JoinResponse(l, _, invite) => Admitted(l, m.signer, invite)
    case JoinDenied(l, _, reason) => Refused(l, m.signer, SanitizeReason(reason))
  }

  // ----- From the request to the outcome

  /** A reply about link `l` reaches client `i`, or `i` asks for `l` anew. */
  ghost predicate Touches(a: Action, i: PeerId, l: string) {
    || (a.Request? && a.i == i && a.id == l)
    || (a.Deliver? && a.i == i && !a.m.msg.JoinRequest? && a.m.msg.target == i && a.m.msg.linkId == l)
  }

  ghost predicate Waits(w: World, i: PeerId, l: string, inviter: PeerId) {
    && i < |w.peers| && l in w.peers[i].pending && w.peers[i].pending[l] == inviter
    && (w.peers[i].rejected.Some? ==> w.peers[i].rejected.value.0 != l)
  }

  lemma WaitsStep(w: World, a: Action, i: PeerId, l: string, inviter: PeerId)
    requires Enabled(w, a) && Waits(w, i, l, inviter) && !Touches(a, i, l)
    ensures Waits(Next(w, a), i, l, inviter)
  {
  }

  lemma {:induction false} WaitsOn(w: World, acts: seq<Action>, i: PeerId, l: string, inviter: PeerId)
    requires Legal(w, acts) && Waits(w, i, l, inviter) && forall k | 0 <= k < |acts| :: !Touches(acts[k], i, l)
    ensures Waits(Exec(w, acts), i, l, inviter)
    decreases |acts|
  {
    if acts != [] {
      WaitsOn(w, acts[..|acts| - 1], i, l, inviter);
      WaitsStep(Exec(w, acts[..|acts| - 1]), acts[|acts| - 1], i, l, inviter);
    }
  }

  /**
   A request goes through: whatever else happens in between, the first reply about it that reaches the client is shown,
   word for word or cleaned, if the inviter asked has signed it, and closes the attempt; otherwise it is not shown.
   The one exception is an earlier attempt at the same link that is just being put back.
   */
  lemma FirstReplyDecides(w: World, i: PeerId, l: string, inviter: PeerId, acts: seq<Action>, a: Action)
    requires Enabled(w, Request(i, l, inviter))
    requires w.peers[i].rejected.Some? ==> w.peers[i].rejected.value.0 != l
    requires Legal(Next(w, Request(i, l, inviter)), acts) && forall k | 0 <= k < |acts| :: !Touches(acts[k], i, l)
    requires Enabled(Exec(Next(w, Request(i, l, inviter)), acts), a) && a.Deliver? && Touches(a, i, l)
    ensures var mid := Exec(Next(w, Request(i, l, inviter)), acts);
            var end := Next(mid, a);
            && l !in end.peers[i].pending
            && end.surfaced == mid.surfaced + (if a.m.signer == inviter then [Surfaced(i, ShownBy(a.m))] else [])
            && (a.m.signer != inviter ==> end.peers[i].rejected == Some((l, inviter)))
  {
    var start := Next(w, Request(i, l, inviter));
    WaitsOn(start, acts, i, l, inviter);
    StepRecords(Exec(start, acts), a);
  }
}
