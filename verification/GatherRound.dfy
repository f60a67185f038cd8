/** A round of the network, watched for one unicast message: it travels as module Gather says, over
    the relay tree or, with a TTL of its source, over any node. */
module GatherRound {
  import opened Types
  import opened NodeSpec
  import opened Network
  import opened Origin
  import opened Air
  import opened Gather
  import FloodRound
  import PullTable

  // ---- the world of a unicast message --------------------------------------------------

  /** Unicast for another node, as it is on the air. */
  predicate Unicast(u: HashKey) {
    u.DataHashKey? && u.data.uheader.Some? && u.data.uheader.value.dest != u.data.srcnode
  }

  /** Without a TTL of its own it follows the relay tree. */
  predicate AlongTree(u: HashKey) { u.DataHashKey? && u.data.srcttl.None? }

  function Dest(u: HashKey): NodeId
    requires Unicast(u)
  {
    u.data.uheader.value.dest
  }

  /** The flow whose hop counts guide the message: that of its destination. */
  function Guide(u: HashKey): FlowKey
    requires Unicast(u)
  {
    FlowKey(Gid(u), Dest(u))
  }

  /** The TTL that the source gives the message, or that relays of the tree renew. */
  function Full(u: HashKey): u32 { if u.DataHashKey? && u.data.srcttl.Some? then u.data.srcttl.value else 1 }

  /** What the node does with the TTL of the message. */
  function DutyIn(n: Node, u: HashKey): Duty {
    if AlongTree(u) then (if RelaysTree(n, Gid(u)) then Renews else Rests)
    else if !IsGroupNode(n, Gid(u)) then Wears
    else if u.DataHashKey? && u.data.nottlregen then Saves
    else Renews
  }

  function LevelsOf(nodes: Net, u: HashKey): map<NodeId, nat>
    requires Unicast(u)
  {
    map x | x in nodes :: Hops(nodes[x].dist, Guide(u))
  }

  function DutiesOf(nodes: Net, u: HashKey): map<NodeId, Duty> { map x | x in nodes :: DutyIn(nodes[x], u) }

  function WorldOf(links: Links, nodes: Net, u: HashKey): World
    requires Unicast(u)
  {
    World(links, LevelsOf(nodes, u), DutiesOf(nodes, u), Full(u), Dest(u), Src(u))
  }

  function RelayOf(d: Data): nat { if d.uheader.Some? then d.uheader.value.relaydistance else 0 }

  function OfferOf(d: Data, ttl: u32): Offer { Offer(RelayOf(d), ttl) }

  function OfferSeen(u: HashKey): OtaMsg -> Option<Offer> {
    (m: OtaMsg) => if m.OtaData? && DataHash(m.data) == u then Some(OfferOf(m.data, m.data.ttl)) else None
  }

  function Has(n: Node, u: HashKey): bool { u in n.hash }

  /** The TTL of the copy sent last. */
  function LastTtl(s: seq<OtaMsg>, u: HashKey): u32 {
    if s == [] then 0
    else if Carries(s[|s| - 1], u) then s[|s| - 1].data.ttl
    else LastTtl(s[..|s| - 1], u)
  }

  lemma LastTtlAppend(s: seq<OtaMsg>, m: OtaMsg, u: HashKey)
    ensures LastTtl(s + [m], u) == if Carries(m, u) then m.data.ttl else LastTtl(s, u)
  {
    assert (s + [m])[..|s|] == s;
  }

  /** The origin sends the message once of itself; whatever is sent beyond that is passed on. */
  function HasForwarded(n: Node, u: HashKey): bool { FloodRound.TimesSent(n.sent, u) > if n.id == Src(u) then 1 else 0 }

  function ForwardedTtl(n: Node, u: HashKey): Option<u32> {
    if HasForwarded(n, u) then Some(LastTtl(n.sent, u)) else None
  }

  function WaitingOffer(n: Node, u: HashKey): Option<Offer> {
    if u in n.dataTimers then Some(OfferOf(n.dataTimers[u].data, n.dataTimers[u].ttl)) else None
  }

  function HasOf(nodes: Net, u: HashKey): set<NodeId> { set x | x in nodes && Has(nodes[x], u) }

  function ForwardedOf(nodes: Net, u: HashKey): map<NodeId, u32> {
    map x | x in nodes && ForwardedTtl(nodes[x], u).Some? :: ForwardedTtl(nodes[x], u).value
  }

  function WaitingOf(nodes: Net, u: HashKey): map<NodeId, Offer> {
    map x | x in nodes && WaitingOffer(nodes[x], u).Some? :: WaitingOffer(nodes[x], u).value
  }

  function GatherOf(s: Air, u: HashKey): Gather {
    Gather(HasOf(s.nodes, u), ForwardedOf(s.nodes, u), WaitingOf(s.nodes, u), Seen(s, OfferSeen(u)))
  }

  predicate Carries(m: OtaMsg, u: HashKey) { m.OtaData? && DataHash(m.data) == u }

  /** What else may be afoot: nothing that changes hop counts to the destination; and, along the tree,
      no advertisement or ACK of the group. */
  predicate Bystander(u: HashKey, m: OtaMsg)
    requires Unicast(u)
  {
    match m
    case OtaAdv(a) => AdvFlow(a) != Guide(u) && (AlongTree(u) ==> a.gid != Gid(u))
    case OtaAck(a) => AlongTree(u) ==> a.gid != Gid(u)
    case OtaData(d) => DataFlow(d) != Guide(u)
  }

  ghost predicate Watched(links: Links, s: Air, u: HashKey) {
    && Unicast(u) && WellFormed(links, s) && (forall m :: m in Afoot(s) ==> Bystander(u, m))
    && (forall x :: x in s.nodes ==> FloodRound.Keyed(s.nodes[x]))
    && (Src(u) in s.nodes ==> FloodRound.TimesSent(s.nodes[Src(u)].sent, u) > 0)
  }

  // ---- one node ------------------------------------------------------------------------

  /** A node takes the first copy up if that allows its own hop count and the TTL lasts. */
  predicate TakesUp(n: Node, d: Data, u: HashKey)
    requires Unicast(u)
  {
    && u !in n.hash && n.id != Dest(u) && 0 < Hops(n.dist, Guide(u)) <= RelayOf(d)
    && Reply(DutyIn(n, u), Full(u), d.ttl).Some?
  }

  /** Hearing the message: only the first copy counts, and it is passed on with a relay distance
      below the node's own hop count, which it does not change. */
  lemma DataHears(n: Node, d0: Data, from: NodeId, now: int, u: HashKey)
    requires Unicast(u) && DataHash(d0) == u && FloodRound.Keyed(n)
    ensures var m, hops := OnData(n, d0, from, now), Hops(n.dist, Guide(u));
            && m.hash.Keys == n.hash.Keys + {u} && Hops(m.dist, Guide(u)) == hops && m.sent == n.sent
            && DutyIn(m, u) == DutyIn(n, u) && m.id == n.id && FloodRound.Keyed(m)
            && (TakesUp(n, d0, u) ==>
                  WaitingOffer(m, u) == Some(Offer(hops - 1, Reply(DutyIn(n, u), Full(u), d0.ttl).value)))
            && (!TakesUp(n, d0, u) ==> WaitingOffer(m, u) == WaitingOffer(n, u))
  {
    hide OnData, DataDistance, AnyLocal, AnyRemote, DataHash, DataForward, DataRaises, Reply;
    DataTables(n, d0, from, now);
    var d := HeardData(d0);
    assert DataHash(d) == u by { CopyKeepsKey(d0, d0.ttl, Inc32(d0.distance), 0); }
    HeaderOf(d, u);
    var t := n.dist[DataFlow(d) := DataDistance(n, d, from)];
    assert Hops(t, Guide(u)) == Hops(n.dist, Guide(u));
    ForwardsOnce(n, d, t, u);
  }

  /** The key tells the header. */
  lemma HeaderOf(d: Data, u: HashKey)
    requires Unicast(u) && DataHash(d) == u
    ensures d.uheader.Some? && d.uheader.value.dest == Dest(u) && d.srcttl == u.data.srcttl && DataFlow(d) == FlowOf(u)
            && d.gid == Gid(u) && d.nottlregen == u.data.nottlregen
  {
  }

  lemma ForwardsOnce(n: Node, d: Data, t: map<FlowKey, Distance>, u: HashKey)
    requires Unicast(u) && DataHash(d) == u && Hops(t, Guide(u)) == Hops(n.dist, Guide(u))
    ensures var f := DataForward(n, d, t);
            && !DataRaises(n, d) && (f.Some? <==> TakesUp(n, d, u))
            && (f.Some? ==>
                  && RelayOf(f.value.data) == Hops(t, Guide(u)) - 1 && DataHash(f.value.data) == u
                  && Reply(DutyIn(n, u), Full(u), d.ttl) == Some(f.value.ttl))
  {
    hide DataHash, RelaysTree, IsGroupNode;
    HeaderOf(d, u);
    if DataForward(n, d, t).Some? {
      DataForwardKey(n, d, t);
    }
  }

  /** Nothing changes about the message, nor about what guides it. */
  ghost predicate SamePart(n: Node, m: Node, u: HashKey)
    requires Unicast(u)
  {
    && m.id == n.id && Has(m, u) == Has(n, u) && WaitingOffer(m, u) == WaitingOffer(n, u)
    && FloodRound.TimesSent(m.sent, u) == FloodRound.TimesSent(n.sent, u) && LastTtl(m.sent, u) == LastTtl(n.sent, u)
    && Hops(m.dist, Guide(u)) == Hops(n.dist, Guide(u)) && DutyIn(m, u) == DutyIn(n, u)
    && (FloodRound.Keyed(n) ==> FloodRound.Keyed(m))
  }

  /** Duties come from membership and, along the tree, from remote pulls. */
  lemma SameDuty(n: Node, m: Node, u: HashKey)
    requires m.localPull == n.localPull && m.announce.Keys == n.announce.Keys
             && m.alwaysRebroadcast == n.alwaysRebroadcast
    requires AlongTree(u) ==> AnyRemote(m.remotePull, Gid(u)) == AnyRemote(n.remotePull, Gid(u))
    ensures DutyIn(m, u) == DutyIn(n, u)
  {
    hide AnyLocal, AnyRemote;
  }

  lemma OtherAdvertise(n: Node, a: Advertise, from: NodeId, now: int, u: HashKey)
    requires Unicast(u) && AdvFlow(a) != Guide(u)
    ensures SamePart(n, OnAdvertise(n, a, from, now), u)
  {
    hide HashedAt, NextDistance, AdvForward, AdvRaises, JoinsTree, Overrides, LearnPath, AdvHash, SetAckTimer,
         PullWrites, FloodRound.Keyed, FloodRound.TimesSent, LastTtl, DutyIn;
    AdvKeyKind(a);
    SameDuty(n, OnAdvertise(n, a, from, now), u);
    FloodRound.AdvertiseSteadfast(n, a, from, now, u);
  }

  lemma OtherAck(n: Node, a: Ack, from: NodeId, draw: nat, now: int, u: HashKey)
    requires Unicast(u) && (AlongTree(u) ==> a.gid != Gid(u)) && OnAck(n, a, from, draw, now).Running?
    ensures SamePart(n, OnAck(n, a, from, draw, now).node, u)
  {
    hide Adopts, PassesAck, Flips, Chosen, AddPull, SetAckTimer, PullWrites, FloodRound.TimesSent, LastTtl, DutyIn,
         AnyRemote;
    if a.gid != Gid(u) {
      PullTable.OtherPulls(n.remotePull, RemotePull(a.gid, from, now), Gid(u));
    }
    SameDuty(n, OnAck(n, a, from, draw, now).node, u);
  }

  lemma OtherData(n: Node, d0: Data, from: NodeId, now: int, u: HashKey)
    requires Unicast(u) && DataHash(d0) != u && DataFlow(d0) != Guide(u)
    ensures SamePart(n, OnData(n, d0, from, now), u)
  {
    hide OnData, DataDistance, DutyIn, DataHash, DataForward, DataRaises, FloodRound.TimesSent, LastTtl;
    DataTables(n, d0, from, now);
    SameDuty(n, OnData(n, d0, from, now), u);
    var d := HeardData(d0);
    var t := n.dist[DataFlow(d) := DataDistance(n, d, from)];
    assert DataHash(d) == DataHash(d0) by { CopyKeepsKey(d0, d0.ttl, Inc32(d0.distance), 0); }
    if DataForward(n, d, t).Some? {
      DataForwardKey(n, d, t);
    }
  }

  lemma OtherHears(n: Node, e: Event, u: HashKey)
    requires Unicast(u) && e.Receive? && React(n, e).Running? && e.from != n.id && Bystander(u, e.msg)
             && !Carries(e.msg, u)
    ensures SamePart(n, React(n, e).node, u)
  {
    hide OnAdvertise, OnAck, OnData, SamePart, Unicast;
    match e.msg
    case OtaAck(a) => OtherAck(n, a, e.from, e.draw, e.now, u);
    case OtaAdv(a) => OtherAdvertise(n, a, e.from, e.now, u);
    case OtaData(d) => OtherData(n, d, e.from, e.now, u);
  }

  lemma OtherTimer(n: Node, e: Event, u: HashKey)
    requires Unicast(u) && TimerEvent(e) && React(n, e).Running? && FloodRound.Keyed(n) && !Carries(TimerMsg(n, e), u)
    ensures SamePart(n, React(n, e).node, u)
  {
    hide React, DataHash, FloodRound.TimesSent, LastTtl, DutyIn;
    TimerReact(n, e);
    SameDuty(n, React(n, e).node, u);
    FloodRound.TimesSentAppend(n.sent, TimerMsg(n, e), u);
    LastTtlAppend(n.sent, TimerMsg(n, e), u);
    if e.DataTimer? {
      var d := n.dataTimers[e.key].data;
      CopyKeepsKey(d, Dec32(n.dataTimers[e.key].ttl), d.distance, 0);
    }
  }

  /** The timer of the message sends what was waiting. */
  lemma TheTimer(n: Node, e: Event, u: HashKey)
    requires TimerEvent(e) && React(n, e).Running? && FloodRound.Keyed(n) && Carries(TimerMsg(n, e), u)
    ensures e == DataTimer(u) && u in n.dataTimers && WaitingOffer(n, u).Some?
    ensures OfferSeen(u)(TimerMsg(n, e)) == Some(Sent(WaitingOffer(n, u).value))
    ensures TimerMsg(n, e).data.ttl == Sent(WaitingOffer(n, u).value).ttl
  {
    hide DataHash, AckProb;
    if e.DataTimer? {
      var d := n.dataTimers[e.key].data;
      CopyKeepsKey(d, Dec32(n.dataTimers[e.key].ttl), d.distance, 0);
    }
  }

  // ---- the network seen as a gathering -------------------------------------------------

  /** How one node's part changes the whole picture. */
  lemma HasShows(nodes: Net, next: Net, x: NodeId, u: HashKey)
    requires x in nodes && x in next && next == nodes[x := next[x]]
    ensures HasOf(next, u) == if Has(next[x], u) then HasOf(nodes, u) + {x} else HasOf(nodes, u) - {x}
  {
    hide Has;
  }

  lemma ForwardedShows(nodes: Net, next: Net, x: NodeId, u: HashKey)
    requires x in nodes && x in next && next == nodes[x := next[x]]
    ensures var p := ForwardedTtl(next[x], u);
            ForwardedOf(next, u) == if p.Some? then ForwardedOf(nodes, u)[x := p.value] else ForwardedOf(nodes, u) - {x}
  {
    hide ForwardedTtl;
    var g, f := ForwardedOf(next, u), ForwardedOf(nodes, u);
    assert forall y :: y in g && y != x <==> y in f && y != x;
  }

  lemma WaitingShows(nodes: Net, next: Net, x: NodeId, u: HashKey)
    requires x in nodes && x in next && next == nodes[x := next[x]]
    ensures var p := WaitingOffer(next[x], u);
            WaitingOf(next, u) == if p.Some? then WaitingOf(nodes, u)[x := p.value] else WaitingOf(nodes, u) - {x}
  {
    hide WaitingOffer;
    var g, f := WaitingOf(next, u), WaitingOf(nodes, u);
    assert forall y :: y in g && y != x <==> y in f && y != x;
  }

  lemma NodeShows(nodes: Net, next: Net, x: NodeId, u: HashKey)
    requires x in nodes && x in next && next == nodes[x := next[x]]
    ensures HasOf(next, u) == if Has(next[x], u) then HasOf(nodes, u) + {x} else HasOf(nodes, u) - {x}
    ensures var p := ForwardedTtl(next[x], u);
            ForwardedOf(next, u) == if p.Some? then ForwardedOf(nodes, u)[x := p.value] else ForwardedOf(nodes, u) - {x}
    ensures var p := WaitingOffer(next[x], u);
            WaitingOf(next, u) == if p.Some? then WaitingOf(nodes, u)[x := p.value] else WaitingOf(nodes, u) - {x}
  {
    hide HasOf, ForwardedOf, WaitingOf;
    HasShows(nodes, next, x, u);
    ForwardedShows(nodes, next, x, u);
    WaitingShows(nodes, next, x, u);
  }

  /** A node has what it has. */
  lemma NodeStands(nodes: Net, x: NodeId, u: HashKey)
    requires x in nodes
    ensures x in HasOf(nodes, u) <==> Has(nodes[x], u)
    ensures x in ForwardedOf(nodes, u) <==> ForwardedTtl(nodes[x], u).Some?
    ensures x in ForwardedOf(nodes, u) ==> Some(ForwardedOf(nodes, u)[x]) == ForwardedTtl(nodes[x], u)
    ensures x in WaitingOf(nodes, u) <==> WaitingOffer(nodes[x], u).Some?
    ensures x in WaitingOf(nodes, u) ==> Some(WaitingOf(nodes, u)[x]) == WaitingOffer(nodes[x], u)
  {
    hide Has, ForwardedTtl, WaitingOffer;
  }

  lemma SameLevels(nodes: Net, next: Net, x: NodeId, u: HashKey)
    requires Unicast(u) && x in nodes && x in next && next == nodes[x := next[x]]
    requires Hops(next[x].dist, Guide(u)) == Hops(nodes[x].dist, Guide(u))
    ensures LevelsOf(next, u) == LevelsOf(nodes, u)
  {
    hide Hops;
  }

  lemma SameDuties(nodes: Net, next: Net, x: NodeId, u: HashKey)
    requires x in nodes && x in next && next == nodes[x := next[x]] && DutyIn(next[x], u) == DutyIn(nodes[x], u)
    ensures DutiesOf(next, u) == DutiesOf(nodes, u)
  {
    hide DutyIn;
  }

  lemma SameWorld(links: Links, nodes: Net, next: Net, x: NodeId, u: HashKey)
    requires Unicast(u) && x in nodes && x in next && next == nodes[x := next[x]]
    requires Hops(next[x].dist, Guide(u)) == Hops(nodes[x].dist, Guide(u))
             && DutyIn(next[x], u) == DutyIn(nodes[x], u)
    ensures WorldOf(links, next, u) == WorldOf(links, nodes, u)
  {
    hide LevelsOf, DutiesOf, Hops, DutyIn;
    SameLevels(nodes, next, x, u);
    SameDuties(nodes, next, x, u);
  }

  /** A node whose part stays the same changes nothing. */
  lemma SamePicture(links: Links, nodes: Net, next: Net, x: NodeId, u: HashKey)
    requires Unicast(u) && x in nodes && x in next && next == nodes[x := next[x]] && SamePart(nodes[x], next[x], u)
    ensures HasOf(next, u) == HasOf(nodes, u) && ForwardedOf(next, u) == ForwardedOf(nodes, u)
            && WaitingOf(next, u) == WaitingOf(nodes, u)
    ensures WorldOf(links, next, u) == WorldOf(links, nodes, u)
  {
    hide Has, WaitingOffer, HasOf, ForwardedOf, WaitingOf, FloodRound.TimesSent, LastTtl, FloodRound.Keyed, Hops,
         DutyIn, WorldOf;
    NodeShows(nodes, next, x, u);
    NodeShows(nodes, nodes, x, u);
    assert nodes[x := nodes[x]] == nodes;
    SameWorld(links, nodes, next, x, u);
  }

  lemma WatchedNode(links: Links, s: Air, u: HashKey, x: NodeId)
    requires Watched(links, s, u) && x in s.nodes
    ensures Unicast(u) && s.nodes[x].id == x && FloodRound.Keyed(s.nodes[x]) && WellFormed(links, s)
    ensures x == Src(u) ==> FloodRound.TimesSent(s.nodes[x].sent, u) > 0
  {
    hide NodeMsgs, FloodRound.Keyed, Afoot;
  }

  lemma Delivered(links: Links, s: Air, u: HashKey, c: Copy)
    requires Watched(links, s, u) && c in s.flight
    ensures Unicast(u) && c.from in s.nodes && c.to in s.nodes && c.index < |s.nodes[c.from].sent| && c.from != c.to
    ensures Bystander(u, MsgOf(s.nodes, c)) && MsgOf(s.nodes, c) in s.nodes[c.from].sent
  {
    hide NodeMsgs, FloodRound.Keyed, Bystander;
    assert MsgOf(s.nodes, c) in Afoot(s);
  }

  lemma BystanderDescends(u: HashKey, m: OtaMsg, o: OtaMsg)
    requires Unicast(u) && Bystander(u, m) && Descends(o, m)
    ensures Bystander(u, o)
  {
    if m.OtaAdv? {
      AdvKeyKind(m.adv);
      if o.OtaAdv? { AdvKeyKind(o.adv); }
    } else if m.OtaData? {
      DataKeyKind(m.data);
      DataKeyKind(o.data);
    }
  }

  lemma BystandersStay(links: Links, s: Air, a: Act, t: Air, u: HashKey)
    requires Watched(links, s, u) && Goes(links, s, a, t) && Relaying(a)
    ensures forall o :: o in Afoot(t) ==> Bystander(u, o)
  {
    hide Goes, Afoot, Bystander, Descends, FloodRound.Keyed;
    forall o | o in Afoot(t) ensures Bystander(u, o) {
      AfootCaused(links, s, a, t, o);
      var m :| m in Afoot(s) && (o == m || Descends(o, m));
      if o != m {
        BystanderDescends(u, m, o);
      }
    }
  }

  // ---- steps ---------------------------------------------------------------------------

  /** The first copy is taken up in the network when it is in the world. */
  lemma TakenUp(links: Links, nodes: Net, u: HashKey, x: NodeId, d: Data)
    requires Unicast(u) && x in nodes && nodes[x].id == x
    ensures var w, o := WorldOf(links, nodes, u), OfferOf(d, d.ttl);
            && (TakesUp(nodes[x], d, u) <==> u !in nodes[x].hash && PassesOn(w, x, o))
            && (PassesOn(w, x, o) ==>
                  Reply(DutyIn(nodes[x], u), Full(u), d.ttl).Some? &&
                  Taken(w, x, o) == Offer(Hops(nodes[x].dist, Guide(u)) - 1,
                                          Reply(DutyIn(nodes[x], u), Full(u), d.ttl).value))
  {
    hide WorldOf, DutyIn, Reply, Full, Hops;
    WorldAt(links, nodes, u, x);
  }

  /** A copy of the message arrives. */
  lemma CopyArrives(links: Links, s: Air, a: Act, t: Air, u: HashKey)
    requires Watched(links, s, u) && Goes(links, s, a, t) && a.Deliver? && Carries(MsgOf(s.nodes, a.copy), u)
    ensures Arrives(WorldOf(links, s.nodes, u), GatherOf(s, u), a.copy, GatherOf(t, u))
    ensures WorldOf(links, t.nodes, u) == WorldOf(links, s.nodes, u) && FloodRound.Keyed(t.nodes[a.copy.to])
    ensures t.nodes[a.copy.to].sent == s.nodes[a.copy.to].sent
  {
    hide Watched, OnData, WellFormed, HasOf, ForwardedOf, WaitingOf, Seen, OfferSeen, Hops, DutyIn, FloodRound.Keyed,
         Unicast, LastTtl, FloodRound.TimesSent, Reply, Full, WaitingOffer, TakesUp, PassesOn, WorldOf, Aired;
    var x := a.copy.to;
    Delivered(links, s, u, a.copy);
    WatchedNode(links, s, u, x);
    var n, m, d := s.nodes[x], t.nodes[x], MsgOf(s.nodes, a.copy).data;
    assert m == OnData(n, d, a.copy.from, a.now);
    DataHears(n, d, a.copy.from, a.now, u);
    SameWorld(links, s.nodes, t.nodes, x, u);
    NodeShows(s.nodes, t.nodes, x, u);
    NodeShows(s.nodes, s.nodes, x, u);
    NodeStands(s.nodes, x, u);
    assert s.nodes[x := s.nodes[x]] == s.nodes;
    DeliverySeen(links, s, a, t, OfferSeen(u));
    assert OfferSeen(u)(MsgOf(s.nodes, a.copy)) == Some(OfferOf(d, d.ttl)) by { SeesOffer(u, d); }
    TakenUp(links, s.nodes, u, x, d);
  }

  lemma SeesOffer(u: HashKey, d: Data)
    requires DataHash(d) == u
    ensures OfferSeen(u)(OtaData(d)) == Some(OfferOf(d, d.ttl))
  {
  }

  lemma SeesNothing(u: HashKey, m: OtaMsg)
    requires !Carries(m, u)
    ensures OfferSeen(u)(m) == None
  {
  }

  lemma WorldAt(links: Links, nodes: Net, u: HashKey, x: NodeId)
    requires Unicast(u) && x in nodes
    ensures var w := WorldOf(links, nodes, u);
            && Level(w, x) == Hops(nodes[x].dist, Guide(u)) && x in w.level && w.dest == Dest(u)
            && forall ttl :: Answer(w, x, ttl) == Reply(DutyIn(nodes[x], u), Full(u), ttl)
  {
    hide Hops, DutyIn, Reply;
  }

  /** Any other message arrives. */
  lemma OtherArrives(links: Links, s: Air, a: Act, t: Air, u: HashKey)
    requires Watched(links, s, u) && Goes(links, s, a, t) && a.Deliver? && !Carries(MsgOf(s.nodes, a.copy), u)
    ensures GatherOf(t, u) == GatherOf(s, u) && WorldOf(links, t.nodes, u) == WorldOf(links, s.nodes, u)
    ensures SamePart(s.nodes[a.copy.to], t.nodes[a.copy.to], u)
  {
    hide Watched, React, WellFormed, HasOf, ForwardedOf, WaitingOf, Seen, OfferSeen, WorldOf, FloodRound.Keyed, Unicast,
         SamePart, Carries, Bystander;
    var x := a.copy.to;
    Delivered(links, s, u, a.copy);
    WatchedNode(links, s, u, x);
    OtherHears(s.nodes[x], EventOf(s, a), u);
    SamePicture(links, s.nodes, t.nodes, x, u);
    DeliverySeen(links, s, a, t, OfferSeen(u));
    SeesNothing(u, MsgOf(s.nodes, a.copy));
  }

  /** The message is passed on. */
  lemma RelayFires(links: Links, s: Air, a: Act, t: Air, u: HashKey)
    requires Watched(links, s, u) && Goes(links, s, a, t) && Relaying(a) && a.Occurs?
    requires React(s.nodes[a.node], a.event).Running? && Carries(TimerMsg(s.nodes[a.node], a.event), u)
    ensures Fires(WorldOf(links, s.nodes, u), GatherOf(s, u), a.node, GatherOf(t, u))
    ensures WorldOf(links, t.nodes, u) == WorldOf(links, s.nodes, u) && FloodRound.Keyed(t.nodes[a.node])
    ensures FloodRound.TimesSent(t.nodes[a.node].sent, u) == FloodRound.TimesSent(s.nodes[a.node].sent, u) + 1
  {
    hide Watched, WellFormed, HasOf, ForwardedOf, WaitingOf, Seen, OfferSeen, Hops, React, Aired, TimerMsg, DutiesOf,
         FloodRound.TimesSent, LastTtl, Broadcasts, Unicast, DutyIn;
    var x := a.node;
    WatchedNode(links, s, u, x);
    var n, m := s.nodes[x], t.nodes[x];
    TheTimer(n, a.event, u);
    TimerReact(n, a.event);
    FloodRound.TimesSentAppend(n.sent, TimerMsg(n, a.event), u);
    LastTtlAppend(n.sent, TimerMsg(n, a.event), u);
    SameDuty(n, m, u);
    SameWorld(links, s.nodes, t.nodes, x, u);
    NodeShows(s.nodes, t.nodes, x, u);
    NodeShows(s.nodes, s.nodes, x, u);
    NodeStands(s.nodes, x, u);
    assert s.nodes[x := s.nodes[x]] == s.nodes;
    FiringSeen(links, s, a, t, OfferSeen(u));
    assert WorldOf(links, s.nodes, u).level.Keys == s.nodes.Keys && WorldOf(links, s.nodes, u).links == links;
  }

  lemma OtherFires(links: Links, s: Air, a: Act, t: Air, u: HashKey)
    requires Watched(links, s, u) && Goes(links, s, a, t) && Relaying(a) && a.Occurs?
    requires React(s.nodes[a.node], a.event).Running? && !Carries(TimerMsg(s.nodes[a.node], a.event), u)
    ensures GatherOf(t, u) == GatherOf(s, u) && WorldOf(links, t.nodes, u) == WorldOf(links, s.nodes, u)
    ensures SamePart(s.nodes[a.node], t.nodes[a.node], u)
  {
    hide Watched, WellFormed, HasOf, ForwardedOf, WaitingOf, Seen, OfferSeen, React, Aired, TimerMsg, WorldOf, Unicast,
         SamePart, Carries, FloodRound.Keyed;
    WatchedNode(links, s, u, a.node);
    OtherTimer(s.nodes[a.node], a.event, u);
    SamePicture(links, s.nodes, t.nodes, a.node, u);
    FiringSeen(links, s, a, t, OfferSeen(u));
    SeesNothing(u, TimerMsg(s.nodes[a.node], a.event));
  }

  lemma OthersStay(links: Links, s: Air, a: Act, t: Air)
    requires Goes(links, s, a, t)
    ensures s.nodes.Keys == t.nodes.Keys && Actor(a) in t.nodes
            && forall y :: y in s.nodes && y != Actor(a) ==> t.nodes[y] == s.nodes[y]
  {
    hide React, Aired;
  }

  /** What a step makes of the node it concerns. */
  ghost predicate Kept(n: Node, m: Node, u: HashKey) {
    FloodRound.Keyed(m) && FloodRound.TimesSent(n.sent, u) <= FloodRound.TimesSent(m.sent, u)
  }

  lemma StepMoves(links: Links, s: Air, a: Act, t: Air, u: HashKey)
    requires Watched(links, s, u) && Goes(links, s, a, t) && Relaying(a)
    ensures Moves(WorldOf(links, s.nodes, u), GatherOf(s, u), GatherOf(t, u))
            && WorldOf(links, t.nodes, u) == WorldOf(links, s.nodes, u)
    ensures Actor(a) in t.nodes && Kept(s.nodes[Actor(a)], t.nodes[Actor(a)], u)
  {
    hide Watched, React, WorldOf, GatherOf, FloodRound.Keyed, FloodRound.TimesSent, Unicast, Aired, Carries, Arrives,
         Broadcasts, Has, WaitingOffer, Hops, DutyIn;
    WatchedNode(links, s, u, Actor(a));
    if a.Deliver? {
      if Carries(MsgOf(s.nodes, a.copy), u) {
        CopyArrives(links, s, a, t, u);
      } else {
        OtherArrives(links, s, a, t, u);
      }
    } else {
      if Carries(TimerMsg(s.nodes[a.node], a.event), u) {
        RelayFires(links, s, a, t, u);
      } else {
        OtherFires(links, s, a, t, u);
      }
    }
  }

  lemma NodesKept(links: Links, s: Air, a: Act, t: Air, u: HashKey)
    requires Watched(links, s, u) && Goes(links, s, a, t) && Relaying(a)
    ensures forall x :: x in t.nodes ==> FloodRound.Keyed(t.nodes[x])
    ensures Src(u) in t.nodes ==> FloodRound.TimesSent(t.nodes[Src(u)].sent, u) > 0
  {
    hide Goes, FloodRound.Keyed, FloodRound.TimesSent, Watched, Moves, WorldOf, GatherOf;
    StepMoves(links, s, a, t, u);
    OthersStay(links, s, a, t);
    forall x | x in s.nodes
      ensures FloodRound.Keyed(s.nodes[x]) && (x == Src(u) ==> FloodRound.TimesSent(s.nodes[x].sent, u) > 0)
    {
      WatchedNode(links, s, u, x);
    }
  }

  lemma StepWatched(links: Links, s: Air, a: Act, t: Air, u: HashKey)
    requires Watched(links, s, u) && Goes(links, s, a, t) && Relaying(a)
    ensures Watched(links, t, u)
  {
    hide Goes, FloodRound.Keyed, FloodRound.TimesSent, Afoot, Bystander, WellFormed;
    NodesKept(links, s, a, t, u);
    FlightStays(links, s, a, t);
    BystandersStay(links, s, a, t, u);
  }

  /** The origin has just sent the message. */
  ghost predicate GatherStarts(links: Links, s: Air, u: HashKey, first: Offer) {
    Watched(links, s, u) && Departed(WorldOf(links, s.nodes, u), GatherOf(s, u), first)
  }

  lemma QuietOver(s: Air, u: HashKey)
    requires Quiescent(s)
    ensures Over(GatherOf(s, u))
  {
    hide HasForwarded, Has, LastTtl;
  }

  lemma SeeHas(s: Air, u: HashKey, x: NodeId)
    ensures x in GatherOf(s, u).has <==> x in s.nodes && u in s.nodes[x].hash
  {
    hide LastTtl, FloodRound.TimesSent;
  }
}
