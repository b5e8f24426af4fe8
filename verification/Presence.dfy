/**
 Peer presence over clock ticks (crates/client/src/presence.rs and `tick_once` of crates/client/src/connect.rs).
 A tick first reads the connected peers and, in a second step, stamps them; peers may come and go in between.
 */
module Presence {
  import opened Options

  type Peer = nat

  const MAX_TICK: nat := 0xFFFF_FFFF_FFFF_FFFF

  datatype State = Here | Away | Whispering | InCall | Queued(depth: nat) | Gone | Invisible

  datatype Inputs = Inputs(
    now: nat, lastSeen: nat, reachable: bool, inCall: bool, whispering: bool,
    queueDepth: nat, invisible: bool, idleTicks: nat, goneTicks: nat)

  function Min(a: nat, b: nat): nat {
    if a <= b then a else b
  }

  /** `saturating_sub`. */
  function Elapsed(inputs: Inputs): nat {
    if inputs.now < inputs.lastSeen then 0 else inputs.now - inputs.lastSeen
  }

  function Derive(inputs: Inputs): State {
    if inputs.invisible then Invisible
    else if inputs.reachable then
      if inputs.whispering then Whispering
      else if inputs.inCall then InCall
      else if Elapsed(inputs) >= inputs.idleTicks then Away
      else Here
    else if inputs.queueDepth > 0 && Elapsed(inputs) < inputs.goneTicks then Queued(inputs.queueDepth)
    else if Elapsed(inputs) >= inputs.goneTicks then Gone
    else Away
  }

  // ----- The world

  /** What the derivation reads besides the clock and the connections. */
  datatype Settings = Settings(
    queueDepth: map<Peer, nat>, whispering: set<Peer>, invisible: set<Peer>, inCall: set<Peer>,
    idleTicks: nat, goneTicks: nat)

  /** `reading` is the list a tick in progress has read; `snaps` is history: the list each tick stamped. */
  datatype World = World(
    now: nat, lastSeen: map<Peer, nat>, peers: set<Peer>, reading: Option<set<Peer>>, snaps: seq<set<Peer>>)

  datatype Action = Connect(p: Peer) | Disconnect(p: Peer) | ReadPeers | Stamp

  ghost predicate Enabled(w: World, a: Action) {
    match a
    case ReadPeers => w.reading.None?
    case Stamp => w.reading.Some?
    case _ => true
  }

  function Stamped(lastSeen: map<Peer, nat>, peers: set<Peer>, now: nat): map<Peer, nat> {
    lastSeen + map p | p in peers :: now
  }

  ghost function Next(w: World, a: Action): World
    requires Enabled(w, a)
  {
    match a
    case Connect(p) => w.(peers := w.peers + {p})
    case Disconnect(p) => w.(peers := w.peers - {p})
    case ReadPeers => w.(reading := Some(w.peers))
    case Stamp =>
      var now := Min(w.now + 1, MAX_TICK);
      w.(now := now, lastSeen := Stamped(w.lastSeen, w.reading.value, now), reading := None,
         snaps := w.snaps + [w.reading.value])
  }

  ghost function Lookup(m: map<Peer, nat>, p: Peer): nat {
    if p in m then m[p] else 0
  }

  ghost function InputsFor(w: World, s: Settings, p: Peer): Inputs {
    Inputs(w.now, Lookup(w.lastSeen, p), p in w.peers,
           p in s.inCall && p !in s.whispering, p in s.whispering,
           Lookup(s.queueDepth, p), p in s.invisible, s.idleTicks, s.goneTicks)
  }

  ghost function Shown(w: World, s: Settings, p: Peer): State {
    Derive(InputsFor(w, s, p))
  }

  // ----- Runs

  ghost predicate Legal(w: World, acts: seq<Action>)
    decreases |acts|, 0
  {
    acts == [] ||
    (Legal(w, acts[..|acts| - 1]) && Enabled(Exec(w, acts[..|acts| - 1]), acts[|acts| - 1]))
  }

  ghost function Exec(w: World, acts: seq<Action>): World
    requires Legal(w, acts)
    decreases |acts|, 1
  {
    if acts == [] then w else Next(Exec(w, acts[..|acts| - 1]), acts[|acts| - 1])
  }

  ghost predicate Init(w: World) {
    w.now == 0 && w.lastSeen == map[] && w.reading.None? && w.snaps == []
  }

  ghost predicate Reachable(w: World) {
    exists init, acts :: Init(init) && Legal(init, acts) && Exec(init, acts) == w
  }

  /** The number of the last tick that stamped `p`; 0 if none did. */
  ghost function LastTick(snaps: seq<set<Peer>>, p: Peer): (t: nat)
    ensures t <= |snaps|
    ensures t > 0 ==> p in snaps[t - 1] && forall k | t <= k < |snaps| :: p !in snaps[k]
    ensures t == 0 ==> forall k | 0 <= k < |snaps| :: p !in snaps[k]
  {
    if snaps == [] then 0
    else if p in snaps[|snaps| - 1] then |snaps|
    else LastTick(snaps[..|snaps| - 1], p)
  }

  /** The clock counts ticks up to its ceiling, and a stamp is the number of the last tick that saw the peer. */
  ghost predicate Inv(w: World) {
    && w.now == Min(|w.snaps|, MAX_TICK)
    && forall p :: Lookup(w.lastSeen, p) == Min(LastTick(w.snaps, p), MAX_TICK)
  }

  lemma StepKeeps(w: World, a: Action)
    requires Inv(w) && Enabled(w, a)
    ensures Inv(Next(w, a))
  {
    if a.Stamp? {
      var w' := Next(w, a);
      assert w'.snaps[..|w'.snaps| - 1] == w.snaps;
      forall p
        ensures Lookup(w'.lastSeen, p) == Min(LastTick(w'.snaps, p), MAX_TICK)
      {
        assert Lookup(w.lastSeen, p) == Min(LastTick(w.snaps, p), MAX_TICK);
      }
    }
  }

  lemma {:induction false} RunKeeps(w: World, acts: seq<Action>)
    requires Inv(w) && Legal(w, acts)
    ensures Inv(Exec(w, acts))
    decreases |acts|
  {
    if acts != [] {
      RunKeeps(w, acts[..|acts| - 1]);
      StepKeeps(Exec(w, acts[..|acts| - 1]), acts[|acts| - 1]);
    }
  }

  /** In every run `last_seen` holds the last tick at which the peer was stamped. */
  lemma ReachableInv(w: World)
    requires Reachable(w)
    ensures Inv(w)
  {
    var init, acts :| Init(init) && Legal(init, acts) && Exec(init, acts) == w;
    RunKeeps(init, acts);
  }

  // ----- What a run did

  /** Connected by the last `Connect` or `Disconnect` of the peer, or from the start. */
  ghost predicate Connected(init: World, acts: seq<Action>, p: Peer) {
    if acts == [] then p in init.peers
    else
      var last := acts[|acts| - 1];
      last == Connect(p) || (last != Disconnect(p) && Connected(init, acts[..|acts| - 1], p))
  }

  lemma {:induction false} PeersAre(init: World, acts: seq<Action>, p: Peer)
    requires Legal(init, acts)
    ensures p in Exec(init, acts).peers <==> Connected(init, acts, p)
    decreases |acts|
  {
    if acts != [] {
      PeersAre(init, acts[..|acts| - 1], p);
    }
  }

  /** The actions up to the last time the connected peers were read. */
  ghost function UpToRead(acts: seq<Action>): (r: seq<Action>)
    ensures r <= acts
  {
    if acts == [] || acts[|acts| - 1].ReadPeers? then acts[..if acts == [] then 0 else |acts| - 1]
    else UpToRead(acts[..|acts| - 1])
  }

  /** For each tick, whether the peer was connected when that tick read the list. */
  ghost function SeenBy(init: World, acts: seq<Action>, p: Peer): seq<bool> {
    if acts == [] then []
    else
      var before := acts[..|acts| - 1];
      SeenBy(init, before, p) + if acts[|acts| - 1].Stamp? then [Connected(init, UpToRead(before), p)] else []
  }

  ghost predicate ReadsRight(init: World, acts: seq<Action>, p: Peer)
    requires Legal(init, acts)
  {
    var w := Exec(init, acts);
    && (w.reading.Some? ==> (p in w.reading.value <==> Connected(init, UpToRead(acts), p)))
    && |w.snaps| == |SeenBy(init, acts, p)|
    && forall k | 0 <= k < |w.snaps| :: p in w.snaps[k] <==> SeenBy(init, acts, p)[k]
  }

  /** Over every run: tick k stamps exactly the peers that were connected when it read the list. */
  lemma {:induction false} TicksSee(init: World, acts: seq<Action>, p: Peer)
    requires Init(init) && Legal(init, acts)
    ensures ReadsRight(init, acts, p)
    decreases |acts|
  {
    if acts != [] {
      TicksSee(init, acts[..|acts| - 1], p);
      PeersAre(init, acts[..|acts| - 1], p);
    }
  }

  // ----- Thresholds

  /** Ticks since `p` was last stamped. */
  ghost function Silence(w: World, p: Peer): nat {
    |w.snaps| - LastTick(w.snaps, p)
  }

  ghost function UnreachableState(silence: nat, s: Settings, p: Peer): State {
    if p in s.invisible then Invisible
    else if silence >= s.goneTicks then Gone
    else if Lookup(s.queueDepth, p) > 0 then Queued(Lookup(s.queueDepth, p))
    else Away
  }

  /** An unreachable peer is gone exactly from `gone_ticks` ticks of silence on, however deep its queue. */
  lemma UnreachableShown(w: World, s: Settings, p: Peer)
    requires Reachable(w) && |w.snaps| <= MAX_TICK && p !in w.peers
    ensures Shown(w, s, p) == UnreachableState(Silence(w, p), s, p)
  {
    ReachableInv(w);
    assert Lookup(w.lastSeen, p) == Min(LastTick(w.snaps, p), MAX_TICK);
  }

  /** A reachable peer shows as away exactly after `idle_ticks` of silence, and never as queued or gone. */
  lemma ReachableShown(w: World, s: Settings, p: Peer)
    requires Reachable(w) && |w.snaps| <= MAX_TICK && p in w.peers
    ensures Shown(w, s, p) == (if p in s.invisible then Invisible
                               else if p in s.whispering then Whispering
                               else if p in s.inCall then InCall
                               else if Silence(w, p) >= s.idleTicks then Away else Here)
  {
    ReachableInv(w);
    assert Lookup(w.lastSeen, p) == Min(LastTick(w.snaps, p), MAX_TICK);
  }

  /** Right after a tick, no peer that the tick saw and that is still there shows as away, queued or gone. */
  lemma FreshAfterTick(w: World, s: Settings, p: Peer)
    requires Reachable(w) && Enabled(w, Stamp) && p in w.reading.value && p in w.peers && s.idleTicks >= 1
    ensures var shown := Shown(Next(w, Stamp), s, p);
            shown.Here? || shown.Whispering? || shown.InCall? || shown.Invisible?
  {
    ReachableInv(w);
  }

  /** A tick's stamp is all that counts: one that missed a connected peer leaves it away. */
  lemma LateArrivalIsAway(w: World, s: Settings, p: Peer)
    requires Reachable(w) && |w.snaps| < MAX_TICK && Enabled(w, Stamp) && p !in w.reading.value && p in w.peers
    requires p !in s.invisible + s.whispering + s.inCall
    ensures Shown(Next(w, Stamp), s, p) == (if Silence(w, p) + 1 >= s.idleTicks then Away else Here)
  {
    ReachableInv(w);
    var w' := Next(w, Stamp);
    StepKeeps(w, Stamp);
    assert w'.snaps[..|w'.snaps| - 1] == w.snaps;
    assert Lookup(w'.lastSeen, p) == Min(LastTick(w'.snaps, p), MAX_TICK);
  }

  /** A client that has seen n ticks and nobody. */
  ghost function Lonely(n: nat): World {
    World(n, map[], {}, None, seq(n, _ => {}))
  }

  ghost predicate Leads(w: World, w': World) {
    exists acts :: Legal(w, acts) && Exec(w, acts) == w'
  }

  lemma Move(w0: World, w: World, a: Action, w': World)
    requires Leads(w0, w) && Enabled(w, a) && Next(w, a) == w'
    ensures Leads(w0, w')
  {
    var acts :| Legal(w0, acts) && Exec(w0, acts) == w;
    assert (acts + [a])[..|acts|] == acts;
    assert Legal(w0, acts + [a]);
  }

  lemma {:induction false} ReachLonely(n: nat)
    requires n <= MAX_TICK
    ensures Leads(Lonely(0), Lonely(n))
    decreases n
  {
    if n == 0 {
      assert Legal(Lonely(0), []) && Exec(Lonely(0), []) == Lonely(0);
    } else {
      ReachLonely(n - 1);
      var read := Lonely(n - 1).(reading := Some({}));
      Move(Lonely(0), Lonely(n - 1), ReadPeers, read);
      assert Stamped(map[], {}, n) == map[];
      assert read.snaps + [{}] == Lonely(n).snaps;
      Move(Lonely(0), read, Stamp, Lonely(n));
    }
  }

  lemma {:induction false} NeverSeen(n: nat, p: Peer)
    ensures LastTick(Lonely(n).snaps, p) == 0
  {
  }

  /**
   Such a tick exists for every threshold: a peer connects between a tick's read and its stamp, after
   `idle_ticks` less one of silence, and that tick leaves it shown as away although it is connected.
   */
  lemma LateArrivalHappens(s: Settings, p: Peer)
    requires 1 <= s.idleTicks <= MAX_TICK && p !in s.invisible + s.whispering + s.inCall
    ensures exists w :: Reachable(w) && Enabled(w, Stamp) && p in w.peers && p !in w.reading.value
                        && Shown(Next(w, Stamp), s, p) == Away
  {
    var n := s.idleTicks - 1;
    var read := Lonely(n).(reading := Some({}));
    var w := read.(peers := {p});
    ReachLonely(n);
    Move(Lonely(0), Lonely(n), ReadPeers, read);
    Move(Lonely(0), read, Connect(p), w);
    assert Init(Lonely(0));
    assert Reachable(w);
    NeverSeen(n, p);
    LateArrivalIsAway(w, s, p);
  }

  // ----- Silence over runs

  ghost function Stamps(acts: seq<Action>): nat {
    if acts == [] then 0 else Stamps(acts[..|acts| - 1]) + if acts[|acts| - 1].Stamp? then 1 else 0
  }

  /** Neither connected nor in the list of a tick under way. */
  ghost predicate Absent(w: World, p: Peer) {
    p !in w.peers && (w.reading.Some? ==> p !in w.reading.value)
  }

  lemma {:induction false} AbsentKeeps(w: World, acts: seq<Action>, p: Peer)
    requires Legal(w, acts) && Absent(w, p) && Connect(p) !in acts
    ensures Absent(Exec(w, acts), p)
    ensures LastTick(Exec(w, acts).snaps, p) == LastTick(w.snaps, p)
    ensures |Exec(w, acts).snaps| == |w.snaps| + Stamps(acts)
    decreases |acts|
  {
    if acts != [] {
      var n := |acts| - 1;
      var before := acts[..n];
      assert acts == before + [acts[n]];
      assert Connect(p) !in before && Connect(p) != acts[n];
      AbsentKeeps(w, before, p);
      var v, v' := Exec(w, before), Exec(w, acts);
      if acts[n].Stamp? {
        assert v'.snaps[..|v'.snaps| - 1] == v.snaps;
      }
    }
  }

  lemma {:induction false} ExecReachable(w: World, acts: seq<Action>)
    requires Reachable(w) && Legal(w, acts)
    ensures Reachable(Exec(w, acts))
    decreases |acts|
  {
    if acts != [] {
      var n := |acts| - 1;
      ExecReachable(w, acts[..n]);
      var v := Exec(w, acts[..n]);
      var init, pre :| Init(init) && Legal(init, pre) && Exec(init, pre) == v;
      assert (pre + [acts[n]])[..|pre|] == pre;
      assert Legal(init, pre + [acts[n]]) && Exec(init, pre + [acts[n]]) == Exec(w, acts);
    }
  }

  lemma ShownLater(w: World, v: World, ticks: nat, s: Settings, p: Peer)
    requires Reachable(v) && p !in v.peers && |w.snaps| + ticks <= MAX_TICK
    requires LastTick(v.snaps, p) == LastTick(w.snaps, p) && |v.snaps| == |w.snaps| + ticks
    ensures Shown(v, s, p) == UnreachableState(Silence(w, p) + ticks, s, p)
  {
    UnreachableShown(v, s, p);
  }

  /**
   Whatever else happens, a peer that stays away is shown by the count of ticks since it was last seen:
   it turns gone with the tick that completes `gone_ticks` of silence, and stays gone from then on.
   */
  lemma CountsDown(w: World, acts: seq<Action>, s: Settings, p: Peer)
    requires Reachable(w) && Legal(w, acts) && Absent(w, p) && Connect(p) !in acts
    requires |w.snaps| + Stamps(acts) <= MAX_TICK
    ensures Shown(Exec(w, acts), s, p) == UnreachableState(Silence(w, p) + Stamps(acts), s, p)
  {
    AbsentKeeps(w, acts, p);
    ExecReachable(w, acts);
    ShownLater(w, Exec(w, acts), Stamps(acts), s, p);
  }

  /** At the clock's ceiling silence stops growing: a peer stamped there is never gone again. */
  lemma FrozenAtCeiling(w: World, s: Settings, p: Peer)
    requires Reachable(w) && LastTick(w.snaps, p) >= MAX_TICK && s.goneTicks > 0
    ensures !Shown(w, s, p).Gone?
  {
    ReachableInv(w);
    assert Lookup(w.lastSeen, p) == Min(LastTick(w.snaps, p), MAX_TICK);
  }

  // ----- The stamping closure

  function Listed(s: seq<Peer>): (r: set<Peer>)
    ensures forall p :: p in r <==> p in s
  {
    if s == [] then {} else Listed(s[..|s| - 1]) + {s[|s| - 1]}
  }

  lemma StampOne(lastSeen: map<Peer, nat>, peers: set<Peer>, q: Peer, now: nat)
    ensures Stamped(lastSeen, peers + {q}, now) == Stamped(lastSeen, peers, now)[q := now]
  {
  }

  /** The state actor's fields that a tick changes. */
  class Meta {
    var now: nat
    var lastSeen: map<Peer, nat>

    constructor ()
      ensures now == 0 && lastSeen == map[]
    {
      now, lastSeen := 0, map[];
    }

    method Tick(reachable: seq<Peer>)
      modifies this
      ensures now == Min(old(now) + 1, MAX_TICK)
      ensures lastSeen == Stamped(old(lastSeen), Listed(reachable), now)
    {
      now := if now < MAX_TICK then now + 1 else MAX_TICK;
      for i := 0 to |reachable|
        invariant now == Min(old(now) + 1, MAX_TICK)
        invariant lastSeen == Stamped(old(lastSeen), Listed(reachable[..i]), now)
      {
        assert reachable[..i + 1][..i] == reachable[..i];
        StampOne(old(lastSeen), Listed(reachable[..i]), reachable[i], now);
        lastSeen := lastSeen[reachable[i] := now];
      }
      assert reachable[..|reachable|] == reachable;
    }
  }
}
