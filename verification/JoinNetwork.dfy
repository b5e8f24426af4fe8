/**
 Clients exchanging join messages over a network that may drop, duplicate, delay and reorder, with peers that
 may sign and send anything under their own identity.
 */
module JoinNetwork {
  import opened Collections
  import opened Options
  import opened JoinLinks

  datatype Signed = Signed(signer: PeerId, msg: Wire)

  /** History records: a request a client made, a response an inviter produced, an outcome a client showed. */
  datatype Sent = Sent(peer: PeerId, linkId: string, inviter: PeerId)
  datatype Produced = Produced(inviter: PeerId, linkId: string, target: PeerId)
  datatype Surfaced = Surfaced(peer: PeerId, outcome: Outcome)

  /**
   `net` holds every message ever sent; a delivery takes any of them any number of times.  Peers in `honest`
   sign only what their client sends.  `caps` remembers `max_uses` of every link a client ever had.
   */
  datatype World = World(
    peers: seq<Peer>, honest: set<PeerId>, net: set<Signed>,
    sent: seq<Sent>, produced: seq<Produced>, surfaced: seq<Surfaced>, caps: map<(PeerId, string), nat>)

  datatype Action =
    | Create(i: PeerId, id: string, serverId: string, maxUses: u32, expiresAt: Option<nat>)
    | Delete(i: PeerId, id: string)
    | Request(i: PeerId, id: string, inviter: PeerId)
    | Deliver(i: PeerId, m: Signed, now: nat, invite: Option<string>)
    | PutBack(i: PeerId)
    | Forge(m: Signed)

  ghost predicate Enabled(w: World, a: Action) {
    match a
    case Create(i, id, _, _, _) => i < |w.peers| && (i, id) !in w.caps
    case Delete(i, _) => i < |w.peers|
    case Request(i, _, _) => i < |w.peers|
    case Deliver(i, m, _, _) => i < |w.peers| && m in w.net && w.peers[i].rejected.None?
    case PutBack(i) => i < |w.peers| && w.peers[i].rejected.Some?
    case Forge(m) => m.signer !in w.honest
  }

  ghost function Next(w: World, a: Action): World
    requires Enabled(w, a)
  {
    match a
    case Create(i, id, serverId, maxUses, expiresAt) =>
      w.(peers := w.peers[i := OnCreate(w.peers[i], id, serverId, maxUses, expiresAt)],
         caps := w.caps[(i, id) := maxUses])
    case Delete(i, id) =>
      w.(peers := w.peers[i := OnDelete(w.peers[i], id)])
    case Request(i, id, inviter) =>
      w.(peers := w.peers[i := OnSend(w.peers[i], id, inviter)],
         net := w.net + {Signed(i, JoinRequest(id, i))},
         sent := w.sent + [Sent(i, id, inviter)])
    case Deliver(i, m, now, invite) =>
      if m.msg.JoinRequest? then Requested(w, i, m, now, invite) else Replied(w, i, m)
    case PutBack(i) =>
      w.(peers := w.peers[i := OnPutBack(w.peers[i])])
    case Forge(m) => w.(net := w.net + {m})
  }

  ghost function Requested(w: World, i: PeerId, m: Signed, now: nat, invite: Option<string>): World
    requires i < |w.peers| && m.msg.JoinRequest?
  {
    var (p, replies) := OnRequest(w.peers[i], m.signer, m.msg.linkId, m.msg.peerId, now, invite);
    w.(peers := w.peers[i := p],
       net := w.net + (set r | r in replies :: Signed(i, r)),
       produced := w.produced +
                   (if |replies| == 1 && replies[0].JoinResponse?
                    then [Produced(i, replies[0].linkId, replies[0].target)] else []))
  }

  ghost function Replied(w: World, i: PeerId, m: Signed): World
    requires i < |w.peers| && !m.msg.JoinRequest? && w.peers[i].rejected.None?
  {
    var (p, shown) := OnReply(w.peers[i], i, m.signer, m.msg);
    w.(peers := w.peers[i := p],
       surfaced := w.surfaced + (if shown.Some? then [Surfaced(i, shown.value)] else []))
  }

  /** Links may have been hydrated from storage. */
  ghost predicate Init(w: World) {
    && w.net == {} && w.sent == [] && w.produced == [] && w.surfaced == []
    && (forall i | 0 <= i < |w.peers| :: w.peers[i].pending == map[] && w.peers[i].rejected.None?)
    && (forall i | 0 <= i < |w.peers| :: LinksOk(w, i))
  }

  ghost predicate Legal(w: World, acts: seq<Action>)
    decreases |acts|, 0
  {
    acts == [] ||
    (Legal(w, acts[..|acts| - 1]) && Enabled(Exec(w, acts[..|acts| - 1]), acts[|acts| - 1]))
  }

  ghost function Exec(w: World, acts: seq<Action>): World
    requires Legal(w, acts)
    decreases |acts|, 1
  {
    if acts == [] then w else Next(Exec(w, acts[..|acts| - 1]), acts[|acts| - 1])
  }

  ghost predicate Reachable(w: World) {
    exists init, acts :: Init(init) && Legal(init, acts) && Exec(init, acts) == w
  }

  // ----- Counting

  ghost function Responses(s: seq<Produced>, i: PeerId, l: string): nat {
    if s == [] then 0
    else Responses(s[..|s| - 1], i, l) + (if s[|s| - 1].inviter == i && s[|s| - 1].linkId == l then 1 else 0)
  }

  /** The requests client `p` made for link `l` to an inviter in `who`. */
  ghost function Attempts(s: seq<Sent>, p: PeerId, l: string, who: iset<PeerId>): nat {
    if s == [] then 0
    else
      var last := s[|s| - 1];
      Attempts(s[..|s| - 1], p, l, who) + if last.peer == p && last.linkId == l && last.inviter in who then 1 else 0
  }

  /** The outcomes client `p` was shown for link `l` from an inviter in `who`. */
  ghost function Outcomes(s: seq<Surfaced>, p: PeerId, l: string, who: iset<PeerId>): nat {
    if s == [] then 0
    else
      var last := s[|s| - 1];
      Outcomes(s[..|s| - 1], p, l, who)
      + if last.peer == p && last.outcome.linkId == l && last.outcome.from in who then 1 else 0
  }

  /** Attempts of `p` for link `l` to an inviter in `who` that are still open, in the table or taken out of it. */
  ghost function Live(p: Peer, l: string, who: iset<PeerId>): nat {
    (if l in p.pending && p.pending[l] in who then 1 else 0)
    + (if p.rejected.Some? && p.rejected.value.0 == l && p.rejected.value.1 in who then 1 else 0)
  }

  lemma AttemptsSnoc(s: seq<Sent>, e: Sent, p: PeerId, l: string, who: iset<PeerId>)
    ensures Attempts(s + [e], p, l, who) ==
            Attempts(s, p, l, who) + if e.peer == p && e.linkId == l && e.inviter in who then 1 else 0
  {
    assert (s + [e])[..|s|] == s;
  }

  lemma OutcomesSnoc(s: seq<Surfaced>, e: Surfaced, p: PeerId, l: string, who: iset<PeerId>)
    ensures Outcomes(s + [e], p, l, who) ==
            Outcomes(s, p, l, who) + if e.peer == p && e.outcome.linkId == l && e.outcome.from in who then 1 else 0
  {
    assert (s + [e])[..|s|] == s;
  }

  // ----- Invariants

  ghost predicate LinkOk(w: World, i: PeerId, link: JoinLink) {
    && link.used <= link.maxUses
    && (i, link.linkId) in w.caps && w.caps[(i, link.linkId)] == link.maxUses
    && Responses(w.produced, i, link.linkId) <= link.used
  }

  ghost predicate Distinct(links: seq<JoinLink>) {
    forall j, k | 0 <= j < k < |links| :: links[j].linkId != links[k].linkId
  }

  ghost predicate LinksOk(w: World, i: PeerId)
    requires i < |w.peers|
  {
    && (forall k | 0 <= k < |w.peers[i].links| :: LinkOk(w, i, w.peers[i].links[k]))
    && Distinct(w.peers[i].links)
  }

  /** No link answers more often than it was made for, deleted or not. */
  ghost predicate Capped(w: World) {
    forall i: PeerId, l :: Responses(w.produced, i, l) <= (if (i, l) in w.caps then w.caps[(i, l)] else 0)
  }

  ghost predicate Asked(w: World, p: Produced) {
    Signed(p.target, JoinRequest(p.linkId, p.target)) in w.net
  }

  ghost predicate Recorded(w: World, m: Signed) {
    m.signer in w.honest && m.msg.JoinResponse? ==> Produced(m.signer, m.msg.linkId, m.msg.target) in w.produced
  }

  ghost predicate PendingOk(w: World, i: PeerId)
    requires i < |w.peers|
  {
    && (forall l | l in w.peers[i].pending :: Sent(i, l, w.peers[i].pending[l]) in w.sent)
    && (w.peers[i].rejected.Some? ==>
          Sent(i, w.peers[i].rejected.value.0, w.peers[i].rejected.value.1) in w.sent)
  }

  ghost predicate Accounted(w: World, i: PeerId)
    requires i < |w.peers|
  {
    forall l, who :: Outcomes(w.surfaced, i, l, who) + Live(w.peers[i], l, who) <= Attempts(w.sent, i, l, who)
  }

  /** An outcome comes from the inviter the client asked, in a message that inviter signed for this client. */
  ghost predicate Authentic(w: World, s: Surfaced) {
    && Sent(s.peer, s.outcome.linkId, s.outcome.from) in w.sent
    && (s.outcome.Admitted? ==>
          Signed(s.outcome.from, JoinResponse(s.outcome.linkId, s.peer, s.outcome.invite)) in w.net)
    && (s.outcome.Refused? ==>
          && Clean(s.outcome.reason)
          && exists reason ::
               && Signed(s.outcome.from, JoinDenied(s.outcome.linkId, s.peer, reason)) in w.net
               && SanitizeReason(reason) == s.outcome.reason)
  }

  ghost predicate Inv(w: World) {
    && Capped(w)
    && (forall i | 0 <= i < |w.peers| :: LinksOk(w, i) && PendingOk(w, i) && Accounted(w, i))
    && (forall m | m in w.net :: Recorded(w, m))
    && (forall p | p in w.produced :: Asked(w, p))
    && (forall s | s in w.surfaced :: Authentic(w, s))
  }

  lemma InitInv(w: World)
    requires Init(w)
    ensures Inv(w)
  {
  }

  // ----- Steps

  /** A step that changes only the links of client `i`. */
  lemma LinksStep(w: World, w': World, i: PeerId)
    requires Inv(w) && i < |w.peers| && |w'.peers| == |w.peers|
    requires w' == w.(peers := w'.peers, caps := w'.caps)
    requires forall j | 0 <= j < |w.peers| && j != i :: w'.peers[j] == w.peers[j]
    requires w'.peers[i] == w.peers[i].(links := w'.peers[i].links)
    requires forall k | k in w.caps :: k in w'.caps && w'.caps[k] == w.caps[k]
    requires LinksOk(w', i)
    ensures Inv(w')
  {
    forall j | 0 <= j < |w'.peers|
      ensures LinksOk(w', j) && PendingOk(w', j) && Accounted(w', j)
    {
      assert LinksOk(w, j) && PendingOk(w, j) && Accounted(w, j);
      if j != i {
        forall k | 0 <= k < |w'.peers[j].links|
          ensures LinkOk(w', j, w'.peers[j].links[k])
        {
          assert LinkOk(w, j, w.peers[j].links[k]);
        }
      }
    }
    forall m | m in w'.net ensures Recorded(w', m) { assert Recorded(w, m); }
    forall p | p in w'.produced ensures Asked(w', p) { assert Asked(w, p); }
    forall s | s in w'.surfaced ensures Authentic(w', s) { AuthenticGrows(w, w', s); }
  }

  lemma CreateKeeps(w: World, a: Action)
    requires Inv(w) && Enabled(w, a) && a.Create?
    ensures Inv(Next(w, a))
  {
    var w' := Next(w, a);
    assert LinksOk(w, a.i);
    forall k | 0 <= k < |w'.peers[a.i].links|
      ensures LinkOk(w', a.i, w'.peers[a.i].links[k])
    {
      if k < |w.peers[a.i].links| {
        assert LinkOk(w, a.i, w.peers[a.i].links[k]);
      }
    }
    LinksStep(w, w', a.i);
  }

  lemma {:induction false} RemovedIsSubset(links: seq<JoinLink>, id: string)
    requires Distinct(links)
    ensures forall l | l in RemoveLinks(links, id) :: l in links && l.linkId != id
    ensures Distinct(RemoveLinks(links, id))
  {
    if links != [] {
      RemovedIsSubset(links[1..], id);
      var r := RemoveLinks(links[1..], id);
      forall j | 0 <= j < |r|
        ensures r[j].linkId != links[0].linkId
      {
        assert r[j] in links[1..];
      }
    }
  }

  lemma DeleteKeeps(w: World, a: Action)
    requires Inv(w) && Enabled(w, a) && a.Delete?
    ensures Inv(Next(w, a))
  {
    var w' := Next(w, a);
    assert LinksOk(w, a.i);
    RemovedIsSubset(w.peers[a.i].links, a.id);
    forall k | 0 <= k < |w'.peers[a.i].links|
      ensures LinkOk(w', a.i, w'.peers[a.i].links[k])
    {
      assert w'.peers[a.i].links[k] in w.peers[a.i].links;
    }
    LinksStep(w, w', a.i);
  }

  /** Facts about other clients survive when the histories grow. */
  lemma OtherKeeps(w: World, w': World, j: PeerId)
    requires j < |w.peers| == |w'.peers| && w'.peers[j] == w.peers[j] && w'.caps == w.caps
    requires LinksOk(w, j) && PendingOk(w, j) && Accounted(w, j)
    requires forall s | s in w.sent :: s in w'.sent
    requires forall l :: Responses(w'.produced, j, l) == Responses(w.produced, j, l)
    requires forall l, who :: Outcomes(w'.surfaced, j, l, who) == Outcomes(w.surfaced, j, l, who)
    requires forall l, who :: Attempts(w'.sent, j, l, who) >= Attempts(w.sent, j, l, who)
    ensures LinksOk(w', j) && PendingOk(w', j) && Accounted(w', j)
  {
    forall k | 0 <= k < |w'.peers[j].links|
      ensures LinkOk(w', j, w'.peers[j].links[k])
    {
      assert LinkOk(w, j, w.peers[j].links[k]);
    }
  }

  lemma RequestOwn(w: World, a: Action)
    requires Inv(w) && Enabled(w, a) && a.Request?
    ensures PendingOk(Next(w, a), a.i) && Accounted(Next(w, a), a.i)
  {
    var w' := Next(w, a);
    assert PendingOk(w, a.i) && Accounted(w, a.i);
    assert w'.sent[|w.sent|] == Sent(a.i, a.id, a.inviter);
    forall s | s in w.sent ensures s in w'.sent {}
    forall l, who
      ensures Outcomes(w'.surfaced, a.i, l, who) + Live(w'.peers[a.i], l, who) <= Attempts(w'.sent, a.i, l, who)
    {
      AttemptsSnoc(w.sent, Sent(a.i, a.id, a.inviter), a.i, l, who);
    }
  }

  lemma RequestKeeps(w: World, a: Action)
    requires Inv(w) && Enabled(w, a) && a.Request?
    ensures Inv(Next(w, a))
  {
    var w' := Next(w, a);
    forall s | s in w.sent ensures s in w'.sent {}
    forall j | 0 <= j < |w'.peers|
      ensures LinksOk(w', j) && PendingOk(w', j) && Accounted(w', j)
    {
      assert LinksOk(w, j) && PendingOk(w, j) && Accounted(w, j);
      if j != a.i {
        forall l, who
          ensures Attempts(w'.sent, j, l, who) >= Attempts(w.sent, j, l, who)
        {
          AttemptsSnoc(w.sent, Sent(a.i, a.id, a.inviter), j, l, who);
        }
        OtherKeeps(w, w', j);
      } else {
        RequestOwn(w, a);
        OwnLinksKeep(w, w', j);
      }
    }
    forall m | m in w'.net ensures Recorded(w', m) { assert m in w.net ==> Recorded(w, m); }
    forall p | p in w'.produced ensures Asked(w', p) { assert Asked(w, p); }
    forall s | s in w'.surfaced ensures Authentic(w', s) { AuthenticGrows(w, w', s); }
  }

  lemma AuthenticGrows(w: World, w': World, s: Surfaced)
    requires Authentic(w, s) && w.net <= w'.net && forall e | e in w.sent :: e in w'.sent
    ensures Authentic(w', s)
  {
  }

  lemma OwnLinksKeep(w: World, w': World, i: PeerId)
    requires i < |w.peers| == |w'.peers| && LinksOk(w, i)
    requires w'.peers[i].links == w.peers[i].links && w'.caps == w.caps && w'.produced == w.produced
    ensures LinksOk(w', i)
  {
    forall k | 0 <= k < |w'.peers[i].links|
      ensures LinkOk(w', i, w'.peers[i].links[k])
    {
      assert LinkOk(w, i, w.peers[i].links[k]);
    }
  }

  lemma PutBackKeeps(w: World, a: Action)
    requires Inv(w) && Enabled(w, a) && a.PutBack?
    ensures Inv(Next(w, a))
  {
    var w' := Next(w, a);
    forall j | 0 <= j < |w'.peers|
      ensures LinksOk(w', j) && PendingOk(w', j) && Accounted(w', j)
    {
      assert LinksOk(w, j) && PendingOk(w, j) && Accounted(w, j);
      OwnLinksKeep(w, w', j);
    }
    forall m | m in w'.net ensures Recorded(w', m) { assert Recorded(w, m); }
    forall p | p in w'.produced ensures Asked(w', p) { assert Asked(w, p); }
    forall s | s in w'.surfaced ensures Authentic(w', s) { AuthenticGrows(w, w', s); }
  }

  // ----- Delivering a reply

  lemma RejectedOwn(w: World, i: PeerId, m: Signed)
    requires i < |w.peers| && !m.msg.JoinRequest? && w.peers[i].rejected.None?
    requires PendingOk(w, i) && Accounted(w, i)
    requires OnReply(w.peers[i], i, m.signer, m.msg).1.None?
    ensures PendingOk(Replied(w, i, m), i) && Accounted(Replied(w, i, m), i)
  {
    var w' := Replied(w, i, m);
    assert w'.surfaced == w.surfaced;
    forall l, who
      ensures Outcomes(w'.surfaced, i, l, who) + Live(w'.peers[i], l, who) <= Attempts(w'.sent, i, l, who)
    {
      assert Outcomes(w.surfaced, i, l, who) + Live(w.peers[i], l, who) <= Attempts(w.sent, i, l, who);
    }
  }

  lemma ShownOwn(w: World, i: PeerId, m: Signed)
    requires i < |w.peers| && !m.msg.JoinRequest? && w.peers[i].rejected.None?
    requires PendingOk(w, i) && Accounted(w, i)
    requires OnReply(w.peers[i], i, m.signer, m.msg).1.Some?
    ensures PendingOk(Replied(w, i, m), i) && Accounted(Replied(w, i, m), i)
  {
    var w' := Replied(w, i, m);
    forall l, who
      ensures Outcomes(w'.surfaced, i, l, who) + Live(w'.peers[i], l, who) <= Attempts(w'.sent, i, l, who)
    {
      assert Outcomes(w.surfaced, i, l, who) + Live(w.peers[i], l, who) <= Attempts(w.sent, i, l, who);
      OutcomesSnoc(w.surfaced, Surfaced(i, Shown(m.msg, m.signer)), i, l, who);
    }
  }

  lemma RepliedOthers(w: World, i: PeerId, m: Signed, j: PeerId)
    requires Inv(w) && i < |w.peers| && !m.msg.JoinRequest? && w.peers[i].rejected.None?
    requires j < |w.peers| && j != i
    ensures LinksOk(Replied(w, i, m), j) && PendingOk(Replied(w, i, m), j) && Accounted(Replied(w, i, m), j)
  {
    var w' := Replied(w, i, m);
    assert LinksOk(w, j) && PendingOk(w, j) && Accounted(w, j);
    if OnReply(w.peers[i], i, m.signer, m.msg).1.None? {
      assert w'.surfaced == w.surfaced;
    }
    forall l, who
      ensures Outcomes(w'.surfaced, j, l, who) == Outcomes(w.surfaced, j, l, who)
    {
      OutcomesSnoc(w.surfaced, Surfaced(i, Shown(m.msg, m.signer)), j, l, who);
    }
    OtherKeeps(w, w', j);
  }

  lemma RepliedAuthentic(w: World, i: PeerId, m: Signed, s: Surfaced)
    requires Inv(w) && i < |w.peers| && m in w.net && !m.msg.JoinRequest? && w.peers[i].rejected.None?
    requires s in Replied(w, i, m).surfaced
    ensures Authentic(Replied(w, i, m), s)
  {
    var w' := Replied(w, i, m);
    if s in w.surfaced {
      AuthenticGrows(w, w', s);
    } else {
      assert s == w'.surfaced[|w.surfaced|];
      assert PendingOk(w, i);
      assert m == Signed(s.outcome.from, m.msg);
      if m.msg.JoinDenied? {
        SanitizedIsClean(m.msg.reason);
        assert m.msg == JoinDenied(s.outcome.linkId, s.peer, m.msg.reason);
      }
    }
  }

  lemma ReplyKeeps(w: World, i: PeerId, m: Signed)
    requires Inv(w) && i < |w.peers| && m in w.net && !m.msg.JoinRequest? && w.peers[i].rejected.None?
    ensures Inv(Replied(w, i, m))
  {
    var w' := Replied(w, i, m);
    forall j | 0 <= j < |w'.peers|
      ensures LinksOk(w', j) && PendingOk(w', j) && Accounted(w', j)
    {
      assert LinksOk(w, j) && PendingOk(w, j) && Accounted(w, j);
      if j == i {
        if OnReply(w.peers[i], i, m.signer, m.msg).1.Some? {
          ShownOwn(w, i, m);
        } else {
          RejectedOwn(w, i, m);
        }
        OwnLinksKeep(w, w', j);
      } else {
        RepliedOthers(w, i, m, j);
      }
    }
    forall m | m in w'.net ensures Recorded(w', m) { assert Recorded(w, m); }
    forall p | p in w'.produced ensures Asked(w', p) { assert Asked(w, p); }
    forall s | s in w'.surfaced ensures Authentic(w', s) { RepliedAuthentic(w, i, m, s); }
  }

  // ----- Delivering a request

  lemma RequestedOwn(w: World, i: PeerId, m: Signed, now: nat, invite: Option<string>)
    requires Inv(w) && i < |w.peers| && m.msg.JoinRequest?
    ensures LinksOk(Requested(w, i, m, now, invite), i)
  {
    var w' := Requested(w, i, m, now, invite);
    assert LinksOk(w, i);
    if w'.produced != w.produced {
      assert w'.produced[..|w.produced|] == w.produced;
    }
    forall k | 0 <= k < |w'.peers[i].links|
      ensures LinkOk(w', i, w'.peers[i].links[k])
    {
      assert LinkOk(w, i, w.peers[i].links[k]);
    }
  }

  lemma RequestedCapped(w: World, i: PeerId, m: Signed, now: nat, invite: Option<string>)
    requires Inv(w) && i < |w.peers| && m.msg.JoinRequest?
    ensures Capped(Requested(w, i, m, now, invite))
  {
    var w' := Requested(w, i, m, now, invite);
    if w'.produced != w.produced {
      assert w'.produced[..|w.produced|] == w.produced;
      assert LinksOk(w, i);
      var k := FindLink(w.peers[i].links, m.msg.linkId);
      assert LinkOk(w, i, w.peers[i].links[k]);
    }
  }

  lemma RequestedKeeps(w: World, i: PeerId, m: Signed, now: nat, invite: Option<string>)
    requires Inv(w) && i < |w.peers| && m in w.net && m.msg.JoinRequest?
    ensures Inv(Requested(w, i, m, now, invite))
  {
    var w' := Requested(w, i, m, now, invite);
    var replies := OnRequest(w.peers[i], m.signer, m.msg.linkId, m.msg.peerId, now, invite).1;
    RequestedCapped(w, i, m, now, invite);
    if w'.produced != w.produced {
      assert w'.produced[..|w.produced|] == w.produced;
      assert w'.produced[|w.produced|] == Produced(i, m.msg.linkId, m.signer);
    }
    forall j | 0 <= j < |w'.peers|
      ensures LinksOk(w', j) && PendingOk(w', j) && Accounted(w', j)
    {
      assert LinksOk(w, j) && PendingOk(w, j) && Accounted(w, j);
      if j == i {
        RequestedOwn(w, i, m, now, invite);
      } else {
        OtherKeeps(w, w', j);
      }
    }
    forall r | r in w'.net
      ensures Recorded(w', r)
    {
      if r in w.net {
        assert Recorded(w, r);
      }
    }
    forall p | p in w'.produced ensures Asked(w', p) { assert p in w.produced ==> Asked(w, p); }
    forall s | s in w'.surfaced ensures Authentic(w', s) { AuthenticGrows(w, w', s); }
  }

  lemma ForgeKeeps(w: World, a: Action)
    requires Inv(w) && Enabled(w, a) && a.Forge?
    ensures Inv(Next(w, a))
  {
    var w' := Next(w, a);
    forall j | 0 <= j < |w'.peers|
      ensures LinksOk(w', j) && PendingOk(w', j) && Accounted(w', j)
    {
      assert LinksOk(w, j) && PendingOk(w, j) && Accounted(w, j);
      OtherKeeps(w, w', j);
    }
    forall m | m in w'.net ensures Recorded(w', m) { assert m in w.net ==> Recorded(w, m); }
    forall p | p in w'.produced ensures Asked(w', p) { assert Asked(w, p); }
    forall s | s in w'.surfaced ensures Authentic(w', s) { AuthenticGrows(w, w', s); }
  }

  lemma StepKeeps(w: World, a: Action)
    requires Inv(w) && Enabled(w, a)
    ensures Inv(Next(w, a))
  {
    match a
    case Create(_, _, _, _, _) => CreateKeeps(w, a);
    case Delete(_, _) => DeleteKeeps(w, a);
    case Request(_, _, _) => RequestKeeps(w, a);
    case Deliver(i, m, now, invite) =>
      if m.msg.JoinRequest? {
        RequestedKeeps(w, i, m, now, invite);
      } else {
        ReplyKeeps(w, i, m);
      }
    case PutBack(_) => PutBackKeeps(w, a);
    case Forge(_) => ForgeKeeps(w, a);
  }

  lemma {:induction false} RunKeeps(w: World, acts: seq<Action>)
    requires Inv(w) && Legal(w, acts)
    ensures Inv(Exec(w, acts))
    decreases |acts|
  {
    if acts != [] {
      RunKeeps(w, acts[..|acts| - 1]);
      StepKeeps(Exec(w, acts[..|acts| - 1]), acts[|acts| - 1]);
    }
  }

  lemma ReachableInv(w: World)
    requires Reachable(w)
    ensures Inv(w)
  {
    var init, acts :| Init(init) && Legal(init, acts) && Exec(init, acts) == w;
    InitInv(init);
    RunKeeps(init, acts);
  }

  // ----- The promises

  /** The peers an inviter answered on a link, and the peers that were shown such an answer. */
  ghost function Targets(s: seq<Produced>, i: PeerId, l: string): set<PeerId> {
    set p | p in s && p.inviter == i && p.linkId == l :: p.target
  }

  ghost function AdmittedPeers(s: seq<Surfaced>, i: PeerId, l: string): set<PeerId> {
    set o | o in s && o.outcome.Admitted? && o.outcome.from == i && o.outcome.linkId == l :: o.peer
  }

  lemma {:induction false} TargetsBounded(s: seq<Produced>, i: PeerId, l: string)
    ensures |Targets(s, i, l)| <= Responses(s, i, l)
    decreases |s|
  {
    if s != [] {
      var before, last := s[..|s| - 1], s[|s| - 1];
      TargetsBounded(before, i, l);
      assert s == before + [last];
      if last.inviter == i && last.linkId == l {
        assert Targets(s, i, l) == Targets(before, i, l) + {last.target};
      } else {
        assert Targets(s, i, l) == Targets(before, i, l);
      }
    }
  }

  /**
   In every run, the peers that are ever shown an admission by an honest inviter for a link were answered by
   it, and there are at most as many of them as the link allows.  While the link exists, its counter is in
   between.
   */
  lemma AdmissionsCapped(w: World, i: PeerId, l: string)
    requires Reachable(w) && i in w.honest
    ensures AdmittedPeers(w.surfaced, i, l) <= Targets(w.produced, i, l)
    ensures |AdmittedPeers(w.surfaced, i, l)| <= |Targets(w.produced, i, l)| <= Responses(w.produced, i, l)
    ensures Responses(w.produced, i, l) <= if (i, l) in w.caps then w.caps[(i, l)] else 0
    ensures i < |w.peers| ==> forall link | link in w.peers[i].links && link.linkId == l ::
              (i, l) in w.caps && Responses(w.produced, i, l) <= link.used <= link.maxUses == w.caps[(i, l)]
  {
    ReachableInv(w);
    var admitted, targets := AdmittedPeers(w.surfaced, i, l), Targets(w.produced, i, l);
    forall p | p in admitted
      ensures p in targets
    {
      var o :| o in w.surfaced && o.outcome.Admitted? && o.outcome.from == i && o.outcome.linkId == l && o.peer == p;
      assert Authentic(w, o);
      var m := Signed(i, JoinResponse(l, p, o.outcome.invite));
      assert m in w.net && Recorded(w, m);
      assert Produced(i, l, p).target == p;
    }
    SubsetSize(admitted, targets);
    TargetsBounded(w.produced, i, l);
    if i < |w.peers| {
      assert LinksOk(w, i);
    }
  }

  /** An inviter answers only peers that signed a request for that link themselves. */
  lemma OnlyAskersAnswered(w: World, p: Produced)
    requires Reachable(w) && p in w.produced
    ensures Signed(p.target, JoinRequest(p.linkId, p.target)) in w.net
  {
    ReachableInv(w);
    assert Asked(w, p);
  }

  /**
   For every client, link and set of inviters: the outcomes shown from them, plus the attempts at them still open,
   never exceed the requests made to them.
   */
  lemma JoinerAccounting(w: World, i: PeerId, l: string, who: iset<PeerId>)
    requires Reachable(w) && i < |w.peers|
    ensures Outcomes(w.surfaced, i, l, who) + Live(w.peers[i], l, who) <= Attempts(w.sent, i, l, who)
  {
    ReachableInv(w);
    assert Accounted(w, i);
  }

  /**
   Every outcome shown was signed, for this client and this link, by an inviter the client had asked for it: an
   admission word for word, a refusal up to the cleaning of its reason.
   */
  lemma OutcomesAuthentic(w: World, s: Surfaced)
    requires Reachable(w) && s in w.surfaced
    ensures Authentic(w, s)
  {
    ReachableInv(w);
  }

  // ----- A reply with the wrong signature

  /** The inviter named by the last request of client `i` for link `l` in `acts`, or `otherwise`. */
  ghost function LastAsked(acts: seq<Action>, i: PeerId, l: string, otherwise: PeerId): PeerId {
    if acts == [] then otherwise
    else
      var last := acts[|acts| - 1];
      if last.Request? && last.i == i && last.id == l then last.inviter
      else LastAsked(acts[..|acts| - 1], i, l, otherwise)
  }

  /** `u` is `v`, but for the entry of `l` that the listener of client `i` has taken out. */
  ghost predicate Shadows(u: World, v: World, i: PeerId, l: string, a: PeerId) {
    && i < |u.peers| && i < |v.peers|
    && var p, q := u.peers[i], v.peers[i];
       && u == v.(peers := v.peers[i := p])
       && p == q.(pending := p.pending, rejected := Some((l, a))) && q.rejected.None?
       && l in q.pending && p.pending - {l} == q.pending - {l}
  }

  lemma ShadowStep(u: World, v: World, i: PeerId, l: string, a: PeerId, act: Action)
    requires Shadows(u, v, i, l, a) && Enabled(u, act) && act != PutBack(i)
    ensures Enabled(v, act) && Shadows(Next(u, act), Next(v, act), i, l, a)
    ensures Next(v, act).peers[i].pending[l] ==
            if act.Request? && act.i == i && act.id == l then act.inviter else v.peers[i].pending[l]
  {
    if act.Request? && act.i == i {
      var p, q := u.peers[i], v.peers[i];
      assert OnSend(p, act.id, act.inviter).pending - {l} == (p.pending - {l})[act.id := act.inviter] - {l};
      assert OnSend(q, act.id, act.inviter).pending - {l} == (q.pending - {l})[act.id := act.inviter] - {l};
    }
    if !act.Forge? {
      assert act.i != i ==> u.peers[act.i] == v.peers[act.i];
      assert Next(u, act).peers == Next(v, act).peers[i := Next(u, act).peers[i]];
    }
  }

  lemma {:induction false} ShadowRun(u: World, v: World, i: PeerId, l: string, a: PeerId, acts: seq<Action>)
    requires Shadows(u, v, i, l, a) && Legal(u, acts) && PutBack(i) !in acts
    ensures Legal(v, acts) && Shadows(Exec(u, acts), Exec(v, acts), i, l, a)
    ensures Exec(v, acts).peers[i].pending[l] == LastAsked(acts, i, l, v.peers[i].pending[l])
    decreases |acts|
  {
    if acts != [] {
      var before, last := acts[..|acts| - 1], acts[|acts| - 1];
      ShadowRun(u, v, i, l, a, before);
      ShadowStep(Exec(u, before), Exec(v, before), i, l, a, last);
    }
  }

  /**
   A reply with a wrong signature is taken up, anything at all happens until its entry is put back, and then the
   whole world -- tables, messages, outcomes shown -- is as if the reply had never been delivered, if and only if
   the last request made meanwhile for the same link, if there is one, names the inviter already recorded.
   */
  lemma SpoofLeavesNoTrace(w: World, i: PeerId, m: Signed, now: nat, invite: Option<string>, acts: seq<Action>)
    requires Enabled(w, Deliver(i, m, now, invite)) && !m.msg.JoinRequest? && m.msg.target == i
    requires m.msg.linkId in w.peers[i].pending && m.signer != w.peers[i].pending[m.msg.linkId]
    requires Legal(Next(w, Deliver(i, m, now, invite)), acts) && PutBack(i) !in acts
    ensures var taken := Exec(Next(w, Deliver(i, m, now, invite)), acts);
            var recorded := w.peers[i].pending[m.msg.linkId];
            && Enabled(taken, PutBack(i)) && Legal(w, acts)
            && (Next(taken, PutBack(i)) == Exec(w, acts) <==>
                LastAsked(acts, i, m.msg.linkId, recorded) == recorded)
  {
    var l := m.msg.linkId;
    var a := w.peers[i].pending[l];
    var u := Next(w, Deliver(i, m, now, invite));
    assert u.surfaced == w.surfaced;
    ShadowRun(u, w, i, l, a, acts);
    PutBackReveals(Exec(u, acts), Exec(w, acts), i, l, a);
  }

  lemma PutBackReveals(u: World, v: World, i: PeerId, l: string, a: PeerId)
    requires Shadows(u, v, i, l, a)
    ensures Enabled(u, PutBack(i))
    ensures Next(u, PutBack(i)) == v <==> v.peers[i].pending[l] == a
  {
    var p, q := u.peers[i], v.peers[i];
    assert p.pending[l := a] == (p.pending - {l})[l := a];
    assert q.pending == (q.pending - {l})[l := q.pending[l]];
    var w' := Next(u, PutBack(i));
    assert w'.peers == v.peers[i := OnPutBack(p)];
    if v.peers[i].pending[l] == a {
      assert OnPutBack(p) == q;
      assert w'.peers == v.peers;
    } else {
      assert w'.peers[i].pending[l] == a;
    }
  }

  /**
   The other case happens: a client asks `b` while a reply that `mallory` forged in the name of its first inviter
   `a` is being rejected, and afterwards the table names `a` and the attempt at `b` is lost.
   */
  lemma AttemptLost(a: PeerId, b: PeerId, mallory: PeerId)
    requires a != b && mallory != a
    ensures exists w: World ::
              && Reachable(w) && Enabled(w, PutBack(0)) && "l" in w.peers[0].pending && w.peers[0].pending["l"] == b
              && "l" in Next(w, PutBack(0)).peers[0].pending && Next(w, PutBack(0)).peers[0].pending["l"] == a
              && mallory !in w.honest && w.surfaced == []
  {
    ReachAskedAgain(a, b, mallory);
    var w := Attempted(map["l" := b], Some(("l", a)), mallory, [Sent(0, "l", a), Sent(0, "l", b)]);
    assert Init(ALONE);
    assert Reachable(w);
  }

  ghost const ALONE := World([Peer([], map[], None)], {}, {}, [], [], [], map[])

  ghost function Forged(mallory: PeerId): Signed {
    Signed(mallory, JoinDenied("l", 0, ""))
  }

  /** A lone client after its first request and a forged answer to it. */
  ghost function Attempted(pending: map<string, PeerId>, rejected: Option<(string, PeerId)>, mallory: PeerId,
                           sent: seq<Sent>): World {
    World([Peer([], pending, rejected)], {}, {Signed(0, JoinRequest("l", 0)), Forged(mallory)}, sent, [], [], map[])
  }

  lemma ReachForged(a: PeerId, mallory: PeerId)
    ensures Leads(ALONE, Attempted(map["l" := a], None, mallory, [Sent(0, "l", a)]))
  {
    var w := World([Peer([], map["l" := a], None)], {}, {Signed(0, JoinRequest("l", 0))}, [Sent(0, "l", a)], [], [],
                   map[]);
    Stay(ALONE);
    Move(ALONE, ALONE, Request(0, "l", a), w);
    Move(ALONE, w, Forge(Forged(mallory)), Attempted(map["l" := a], None, mallory, [Sent(0, "l", a)]));
  }

  lemma ReachTaken(a: PeerId, mallory: PeerId)
    requires mallory != a
    ensures Leads(ALONE, Attempted(map[], Some(("l", a)), mallory, [Sent(0, "l", a)]))
  {
    ReachForged(a, mallory);
    var w := Attempted(map["l" := a], None, mallory, [Sent(0, "l", a)]);
    assert map["l" := a] - {"l"} == map[];
    Move(ALONE, w, Deliver(0, Forged(mallory), 0, None),
         Attempted(map[], Some(("l", a)), mallory, [Sent(0, "l", a)]));
  }

  lemma ReachAskedAgain(a: PeerId, b: PeerId, mallory: PeerId)
    requires mallory != a
    ensures Leads(ALONE, Attempted(map["l" := b], Some(("l", a)), mallory, [Sent(0, "l", a), Sent(0, "l", b)]))
  {
    ReachTaken(a, mallory);
    var w := Attempted(map[], Some(("l", a)), mallory, [Sent(0, "l", a)]);
    assert w.net + {Signed(0, JoinRequest("l", 0))} == w.net;
    Move(ALONE, w, Request(0, "l", b),
         Attempted(map["l" := b], Some(("l", a)), mallory, [Sent(0, "l", a), Sent(0, "l", b)]));
  }

  ghost predicate Leads(w: World, w': World) {
    exists acts :: Legal(w, acts) && Exec(w, acts) == w'
  }

  lemma Stay(w: World)
    ensures Leads(w, w)
  {
    assert Legal(w, []) && Exec(w, []) == w;
  }

  lemma Move(w0: World, w: World, a: Action, w': World)
    requires Leads(w0, w) && Enabled(w, a) && Next(w, a) == w'
    ensures Leads(w0, w')
  {
    var acts :| Legal(w0, acts) && Exec(w0, acts) == w;
    assert (acts + [a])[..|acts|] == acts;
    assert Legal(w0, acts + [a]);
  }
}
