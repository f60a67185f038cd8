/** A lossless round of the network, watched for one message: it floods as module Flood says. */
module FloodRound {
  import opened Types
  import opened NodeSpec
  import opened Network
  import opened Origin
  import opened Air
  import opened Flood
  import LoopFreedom
  import PullTable
  import Silence

  // ---- the world of a message ----------------------------------------------------------

  /** Group DATA without a TTL of its own follows the relay tree. */
  predicate AlongTree(h: HashKey) { h.DataHashKey? && h.data.srcttl.None? }

  function Full(h: HashKey): u32 {
    match h case AdvHashKey(a) => a.srcttl case DataHashKey(d) => if d.srcttl.Some? then d.srcttl.value else 1
  }

  /** Advertisements and group DATA. A source TTL of zero wraps when sent and is left out. */
  predicate Floods(h: HashKey) { Full(h) > 0 && (h.DataHashKey? ==> h.data.uheader.None?) }

  /** Group nodes renew the TTL of the message, or relays ignore it. */
  predicate Renews(h: HashKey) {
    match h case AdvHashKey(a) => !a.nottlregen case DataHashKey(d) => d.srcttl.None? || !d.nottlregen
  }

  function RoleIn(n: Node, h: HashKey): Role {
    if AlongTree(h) then (if n.id == Src(h) || RelaysTree(n, Gid(h)) then Regenerates else Absorbs)
    else if !IsGroupNode(n, Gid(h)) then PassesOn
    else if n.id == Src(h) || Renews(h) then Regenerates
    else PassesFirst
  }

  function WorldOf(links: Links, nodes: Net, h: HashKey): World {
    World(links, Src(h), Full(h), map x | x in nodes :: RoleIn(nodes[x], h))
  }

  // ---- one node ------------------------------------------------------------------------

  /** What one node knows of the message: the TTL stored and the TTL waiting. */
  datatype Facet = Facet(got: Option<u32>, waiting: Option<u32>)

  function WaitingTtl(n: Node, h: HashKey): Option<u32> {
    match h
    case AdvHashKey(_) =>
      if FlowOf(h) in n.advTimers && AdvHash(n.advTimers[FlowOf(h)].adv) == h then Some(n.advTimers[FlowOf(h)].ttl)
        else None
    case DataHashKey(_) => if h in n.dataTimers then Some(n.dataTimers[h].ttl) else None
  }

  function GotTtl(n: Node, h: HashKey): Option<u32> { if h in n.hash then Some(n.hash[h]) else None }

  function FacetOf(n: Node, h: HashKey): Facet { Facet(GotTtl(n, h), WaitingTtl(n, h)) }

  function MsgTtl(m: OtaMsg): u32 { match m case OtaAdv(a) => a.ttl case OtaData(d) => d.ttl case OtaAck(_) => 0 }

  function Learn(role: Role, full: u32, f: Facet, ttl: u32): Facet {
    if f.got.None? || (role.PassesOn? && ttl > f.got.value) then
      Facet(Some(ttl), if Reply(role, full, ttl).Some? then Reply(role, full, ttl) else f.waiting)
    else f
  }

  predicate Carries(m: OtaMsg, h: HashKey) { KeyOf(m) == Some(h) }

  /** Neither an advertisement nor an ACK of the group. */
  predicate Elsewhere(m: OtaMsg, gid: GroupId) {
    match m case OtaAdv(a) => a.gid != gid case OtaAck(a) => a.gid != gid case OtaData(_) => true
  }

  /** What else may be afoot: no other advertisement of the flow, whose timer this one would share;
      and nothing that changes the relay tree while DATA follows it. */
  predicate Bystander(h: HashKey, m: OtaMsg) {
    match h
    case AdvHashKey(_) => m.OtaAdv? && AdvFlow(m.adv) == FlowOf(h) ==> AdvHash(m.adv) == h
    case DataHashKey(_) => AlongTree(h) ==> Elsewhere(m, Gid(h))
  }

  /** Timers are stored under the key of their message. */
  ghost predicate Keyed(n: Node) {
    && (forall k :: k in n.advTimers ==> AdvFlow(n.advTimers[k].adv) == k)
    && (forall h :: h in n.dataTimers ==> DataHash(n.dataTimers[h].data) == h)
  }

  lemma AdvertiseFacet(n: Node, a: Advertise, from: NodeId, now: int, h: HashKey)
    requires Floods(h) && Bystander(h, OtaAdv(a)) && SourceKnows(n, h)
    ensures FacetOf(OnAdvertise(n, a, from, now), h) ==
            if AdvHash(a) == h then Learn(RoleIn(n, h), Full(h), FacetOf(n, h), a.ttl) else FacetOf(n, h)
  {
    hide HashedAt, AdvDistance, JoinsTree, Overrides, LearnPath, PullWrites, Pulled, IsGroupNode, RelaysTree,
         SetAckTimer, NextDistance;
    if AdvForward(n, a, from).Some? {
      AdvForwardKey(n, a, from);
    }
  }

  lemma DataFacet(n: Node, d0: Data, from: NodeId, now: int, h: HashKey)
    requires Floods(h) && Keyed(n) && SourceKnows(n, h)
    ensures FacetOf(OnData(n, d0, from, now), h) ==
            if DataHash(d0) == h then Learn(RoleIn(n, h), Full(h), FacetOf(n, h), d0.ttl) else FacetOf(n, h)
  {
    hide HashedAt, DataDistance, Handed, IsGroupNode, RelaysTree, NextDistance, UnicastForward;
    var d := HeardData(d0);
    assert DataHash(d) == DataHash(d0) by { CopyKeepsKey(d0, d0.ttl, Inc32(d0.distance), 0); }
  }

  /** What only a source is asked: it has its own message and is itself a participant. */
  predicate SourceKnows(n: Node, h: HashKey) {
    n.id == Src(h) ==> h in n.hash && (AlongTree(h) || IsGroupNode(n, Gid(h)))
  }

  lemma AckFacet(n: Node, a: Ack, from: NodeId, draw: nat, now: int, h: HashKey)
    requires OnAck(n, a, from, draw, now).Running?
    ensures FacetOf(OnAck(n, a, from, draw, now).node, h) == FacetOf(n, h)
  {
    hide Adopts, PassesAck, Flips, Chosen, AddPull, PullWrites, Pulled, SetAckTimer;
  }

  lemma ReceiveFacet(n: Node, e: Event, h: HashKey)
    requires e.Receive? && React(n, e).Running? && e.from != n.id
    requires Floods(h) && Keyed(n) && SourceKnows(n, h) && Bystander(h, e.msg)
    ensures FacetOf(React(n, e).node, h) ==
            if Carries(e.msg, h) then Learn(RoleIn(n, h), Full(h), FacetOf(n, h), MsgTtl(e.msg)) else FacetOf(n, h)
  {
    hide OnAdvertise, OnAck, OnData, Floods, Bystander, FacetOf, RoleIn, Learn, AdvHash, DataHash;
    match e.msg
    case OtaAck(a) => AckFacet(n, a, e.from, e.draw, e.now, h);
    case OtaAdv(a) => AdvertiseFacet(n, a, e.from, e.now, h);
    case OtaData(d) => DataFacet(n, d, e.from, e.now, h);
  }

  /** The roles of nodes and the keys of their timers outlast a reception. */
  ghost predicate Steadfast(n: Node, m: Node, h: HashKey) {
    && m.id == n.id && RoleIn(m, h) == RoleIn(n, h) && (Keyed(n) ==> Keyed(m))
    && (SourceKnows(n, h) ==> SourceKnows(m, h))
  }

  lemma SameRole(n: Node, m: Node, h: HashKey)
    requires m.id == n.id && m.localPull == n.localPull && m.announce.Keys == n.announce.Keys
    requires m.alwaysRebroadcast == n.alwaysRebroadcast
             && (AlongTree(h) ==> AnyRemote(m.remotePull, Gid(h)) == AnyRemote(n.remotePull, Gid(h)))
    requires forall k :: k in n.hash ==> k in m.hash
    ensures RoleIn(m, h) == RoleIn(n, h) && (SourceKnows(n, h) ==> SourceKnows(m, h))
  {
    hide AnyLocal, AnyRemote;
  }

  lemma AdvertiseSteadfast(n: Node, a: Advertise, from: NodeId, now: int, h: HashKey)
    ensures Steadfast(n, OnAdvertise(n, a, from, now), h)
  {
    hide HashedAt, AdvDistance, AdvForward, AdvRaises, JoinsTree, Overrides, LearnPath, AdvHash, RoleIn, SourceKnows,
         SetAckTimer;
    SameRole(n, OnAdvertise(n, a, from, now), h);
    if AdvForward(n, a, from).Some? {
      AdvForwardKey(n, a, from);
      LoopFreedom.ForwardFlow(n, a, from);
    }
  }

  lemma AckSteadfast(n: Node, a: Ack, from: NodeId, draw: nat, now: int, h: HashKey)
    requires OnAck(n, a, from, draw, now).Running? && (AlongTree(h) ==> a.gid != Gid(h))
    ensures Steadfast(n, OnAck(n, a, from, draw, now).node, h)
  {
    if a.gid != Gid(h) {
      PullTable.OtherPulls(n.remotePull, RemotePull(a.gid, from, now), Gid(h));
    }
    hide Adopts, PassesAck, Flips, Chosen, AddPull, RoleIn, SourceKnows, AlongTree, SetAckTimer, AnyRemote;
    SameRole(n, OnAck(n, a, from, draw, now).node, h);
  }

  lemma DataSteadfast(n: Node, d0: Data, from: NodeId, now: int, h: HashKey)
    ensures Steadfast(n, OnData(n, d0, from, now), h)
  {
    hide HashedAt, DataDistance, DataForward, DataRaises, Handed, DataHash, RoleIn, SourceKnows;
    SameRole(n, OnData(n, d0, from, now), h);
    var d := HeardData(d0);
    var t := n.dist[DataFlow(d) := DataDistance(n, d, from)];
    if DataForward(n, d, t).Some? {
      DataForwardKey(n, d, t);
    }
  }

  lemma TimerSteadfast(n: Node, e: Event, h: HashKey)
    requires TimerEvent(e) && React(n, e).Running?
    ensures Steadfast(n, React(n, e).node, h)
  {
    hide React, RoleIn, SourceKnows, TimerMsg;
    TimerReact(n, e);
    SameRole(n, React(n, e).node, h);
  }

  lemma ReactSteadfast(n: Node, e: Event, h: HashKey)
    requires (e.Receive? && e.from != n.id && Bystander(h, e.msg)) || TimerEvent(e)
    requires React(n, e).Running?
    ensures Steadfast(n, React(n, e).node, h)
  {
    if e.Receive? {
      hide OnAdvertise, OnAck, OnData, Steadfast, AlongTree;
      match e.msg
      case OtaAck(a) => AckSteadfast(n, a, e.from, e.draw, e.now, h);
      case OtaAdv(a) => AdvertiseSteadfast(n, a, e.from, e.now, h);
      case OtaData(d) => DataSteadfast(n, d, e.from, e.now, h);
    } else {
      hide React, Steadfast;
      TimerSteadfast(n, e, h);
    }
  }

  // ---- the network seen as a flood -----------------------------------------------------

  /** How often a node sent the message. */
  function TimesSent(s: seq<OtaMsg>, h: HashKey): nat {
    if s == [] then 0 else TimesSent(s[..|s| - 1], h) + if Carries(s[|s| - 1], h) then 1 else 0
  }

  lemma TimesSentAppend(s: seq<OtaMsg>, m: OtaMsg, h: HashKey)
    ensures TimesSent(s + [m], h) == TimesSent(s, h) + if Carries(m, h) then 1 else 0
  {
    assert (s + [m])[..|s|] == s;
  }

  lemma UnsentCount(s: seq<OtaMsg>, h: HashKey)
    requires forall m :: m in s ==> KeyOf(m) != Some(h)
    ensures TimesSent(s, h) == 0
  {
    hide DataHash, AdvHash;
    if s != [] {
      UnsentCount(s[..|s| - 1], h);
    }
  }

  function TtlSeen(h: HashKey): OtaMsg -> Option<u32> { m => if Carries(m, h) then Some(MsgTtl(m)) else None }

  function FlightOf(s: Air, h: HashKey): map<Copy, u32> { Seen(s, TtlSeen(h)) }

  function GotOf(nodes: Net, h: HashKey): map<NodeId, u32> {
    map x | x in nodes && GotTtl(nodes[x], h).Some? :: GotTtl(nodes[x], h).value
  }

  function WaitingOf(nodes: Net, h: HashKey): map<NodeId, u32> {
    map x | x in nodes && WaitingTtl(nodes[x], h).Some? :: WaitingTtl(nodes[x], h).value
  }

  function SendsOf(nodes: Net, h: HashKey): map<NodeId, nat> { map x | x in nodes :: TimesSent(nodes[x].sent, h) }

  function FloodOf(s: Air, h: HashKey): Flood {
    Flood(GotOf(s.nodes, h), WaitingOf(s.nodes, h), SendsOf(s.nodes, h), FlightOf(s, h))
  }

  /** What must hold for the message to be watched undisturbed. */
  ghost predicate Watched(links: Links, s: Air, h: HashKey) {
    && WellFormed(links, s) && Floods(h) && (forall m :: m in Afoot(s) ==> Bystander(h, m))
    && forall x :: x in s.nodes ==> Keyed(s.nodes[x]) && SourceKnows(s.nodes[x], h)
  }

  lemma BystanderDescends(h: HashKey, m: OtaMsg, o: OtaMsg)
    requires Bystander(h, m) && Descends(o, m)
    ensures Bystander(h, o)
  {
    if o.OtaAdv? {
      assert AdvFlow(o.adv) == AdvFlow(AdvHash(m.adv).adv);
    }
  }

  lemma BystandersStay(links: Links, s: Air, a: Act, t: Air, h: HashKey)
    requires WellFormed(links, s) && (forall m :: m in Afoot(s) ==> Bystander(h, m)) && Goes(links, s, a, t)
             && Relaying(a)
    ensures forall o :: o in Afoot(t) ==> Bystander(h, o)
  {
    hide Goes, Afoot, Bystander, Descends;
    forall o | o in Afoot(t) ensures Bystander(h, o) {
      AfootCaused(links, s, a, t, o);
      var m :| m in Afoot(s) && (o == m || Descends(o, m));
      if o != m {
        BystanderDescends(h, m, o);
      }
    }
  }

  lemma NodesSteadfast(links: Links, s: Air, a: Act, t: Air, h: HashKey)
    requires Watched(links, s, h) && Goes(links, s, a, t) && Relaying(a)
    ensures forall x :: x in t.nodes ==> Keyed(t.nodes[x]) && SourceKnows(t.nodes[x], h)
    ensures WorldOf(links, t.nodes, h) == WorldOf(links, s.nodes, h)
  {
    hide React, Afoot, Bystander, Keyed, RoleIn, SourceKnows, Aired, WellFormed, Floods;
    ReactOnSteadfast(links, s, a, h);
  }

  lemma StepWatched(links: Links, s: Air, a: Act, t: Air, h: HashKey)
    requires Watched(links, s, h) && Goes(links, s, a, t) && Relaying(a)
    ensures Watched(links, t, h) && WorldOf(links, t.nodes, h) == WorldOf(links, s.nodes, h)
  {
    hide Goes, Afoot, Bystander, Keyed, SourceKnows, WellFormed, Floods, WorldOf;
    FlightStays(links, s, a, t);
    BystandersStay(links, s, a, t, h);
    NodesSteadfast(links, s, a, t, h);
  }

  lemma ReactOnSteadfast(links: Links, s: Air, a: Act, h: HashKey)
    requires Watched(links, s, h) && Possible(s, a) && Relaying(a) && Actor(a) in s.nodes
             && React(s.nodes[Actor(a)], EventOf(s, a)).Running?
    ensures Steadfast(s.nodes[Actor(a)], React(s.nodes[Actor(a)], EventOf(s, a)).node, h)
    ensures a.Deliver? ==> a.copy.from != s.nodes[Actor(a)].id && Bystander(h, MsgOf(s.nodes, a.copy))
  {
    hide React, Bystander, Keyed, SourceKnows, Steadfast, NodeMsgs;
    assert a.Deliver? ==> MsgOf(s.nodes, a.copy) in Afoot(s);
    ReactSteadfast(s.nodes[Actor(a)], EventOf(s, a), h);
  }

  /** How one node's part changes the whole picture. */
  lemma GotShows(nodes: Net, next: Net, x: NodeId, h: HashKey)
    requires x in nodes && x in next && next == nodes[x := next[x]]
    ensures var p := GotTtl(next[x], h);
            GotOf(next, h) == if p.Some? then GotOf(nodes, h)[x := p.value] else GotOf(nodes, h) - {x}
  {
    hide GotTtl;
    var g, f := GotOf(next, h), GotOf(nodes, h);
    assert forall y :: y in g && y != x <==> y in f && y != x;
  }

  lemma WaitingShows(nodes: Net, next: Net, x: NodeId, h: HashKey)
    requires x in nodes && x in next && next == nodes[x := next[x]]
    ensures var p := WaitingTtl(next[x], h);
            WaitingOf(next, h) == if p.Some? then WaitingOf(nodes, h)[x := p.value] else WaitingOf(nodes, h) - {x}
  {
    hide WaitingTtl;
    var g, f := WaitingOf(next, h), WaitingOf(nodes, h);
    assert forall y :: y in g && y != x <==> y in f && y != x;
  }

  lemma FacetShows(nodes: Net, next: Net, x: NodeId, h: HashKey)
    requires x in nodes && x in next && next == nodes[x := next[x]]
    ensures var f := FacetOf(next[x], h);
            && GotOf(next, h) == (if f.got.Some? then GotOf(nodes, h)[x := f.got.value] else GotOf(nodes, h) - {x})
            && WaitingOf(next, h) == (if f.waiting.Some? then WaitingOf(nodes, h)[x := f.waiting.value]
                                      else WaitingOf(nodes, h) - {x})
  {
    hide GotTtl, WaitingTtl, GotOf, WaitingOf;
    GotShows(nodes, next, x, h);
    WaitingShows(nodes, next, x, h);
  }

  lemma WatchedNode(links: Links, s: Air, h: HashKey, x: NodeId)
    requires Watched(links, s, h) && x in s.nodes
    ensures Floods(h) && Keyed(s.nodes[x]) && SourceKnows(s.nodes[x], h) && s.nodes[x].id == x && WellFormed(links, s)
  {
  }

  lemma DeliveryFacet(links: Links, s: Air, a: Act, t: Air, h: HashKey)
    requires Watched(links, s, h) && Goes(links, s, a, t) && a.Deliver?
    ensures var n, o := s.nodes[Actor(a)], MsgOf(s.nodes, a.copy);
            FacetOf(t.nodes[Actor(a)], h) == if Carries(o, h)
              then Learn(RoleIn(n, h), Full(h), FacetOf(n, h), MsgTtl(o)) else FacetOf(n, h)
  {
    hide React, Bystander, Keyed, RoleIn, SourceKnows, FacetOf, Watched, Learn, Steadfast, Carries;
    ReactOnSteadfast(links, s, a, h);
    WatchedNode(links, s, h, Actor(a));
    ReceiveFacet(s.nodes[Actor(a)], EventOf(s, a), h);
  }

  lemma DeliveryFlight(links: Links, s: Air, a: Act, t: Air, h: HashKey)
    requires WellFormed(links, s) && Goes(links, s, a, t) && a.Deliver?
    ensures FlightOf(t, h) == if Carries(MsgOf(s.nodes, a.copy), h) then FlightOf(s, h) - {a.copy} else FlightOf(s, h)
    ensures Carries(MsgOf(s.nodes, a.copy), h) ==>
              a.copy in FlightOf(s, h) && FlightOf(s, h)[a.copy] == MsgTtl(MsgOf(s.nodes, a.copy))
  {
    hide Goes, WellFormed, Seen, Carries, MsgTtl;
    DeliverySeen(links, s, a, t, TtlSeen(h));
  }

  lemma DeliverySends(links: Links, s: Air, a: Act, t: Air, h: HashKey)
    requires Goes(links, s, a, t) && a.Deliver?
    ensures SendsOf(t.nodes, h) == SendsOf(s.nodes, h)
  {
    hide React, TimesSent;
    RelayLog(links, s, a, t);
  }

  lemma RoleShows(links: Links, nodes: Net, x: NodeId, h: HashKey)
    requires x in nodes
    ensures RoleOf(WorldOf(links, nodes, h), x) == RoleIn(nodes[x], h) && WorldOf(links, nodes, h).full == Full(h)
  {
  }

  /** A delivery of the message is an arrival; any other delivery changes nothing. */
  lemma DeliveryArrives(links: Links, s: Air, a: Act, t: Air, h: HashKey)
    requires Watched(links, s, h) && Goes(links, s, a, t) && a.Deliver?
    ensures Moves(WorldOf(links, s.nodes, h), FloodOf(s, h), FloodOf(t, h))
    ensures Carries(MsgOf(s.nodes, a.copy), h) ==>
              Arrives(WorldOf(links, s.nodes, h), FloodOf(s, h), a.copy, FloodOf(t, h))
  {
    hide React, Bystander, RoleIn, Watched, FlightOf, SendsOf, Reply, MsgTtl, Carries, Aired, GotOf, WaitingOf, Full,
         WorldOf, RoleOf;
    var x := Actor(a);
    var w := WorldOf(links, s.nodes, h);
    DeliveryFacet(links, s, a, t, h);
    DeliverySends(links, s, a, t, h);
    WatchedNode(links, s, h, x);
    DeliveryFlight(links, s, a, t, h);
    FacetShows(s.nodes, t.nodes, x, h);
    FacetShows(s.nodes, s.nodes, x, h);
    assert s.nodes[x := s.nodes[x]] == s.nodes;
    RoleShows(links, s.nodes, x, h);
    if Carries(MsgOf(s.nodes, a.copy), h) {
      assert Arrives(w, FloodOf(s, h), a.copy, FloodOf(t, h));
    } else {
      assert FloodOf(t, h) == FloodOf(s, h);
    }
  }

  lemma TimerFacet(n: Node, e: Event, h: HashKey)
    requires TimerEvent(e) && React(n, e).Running? && Keyed(n)
    ensures var o, m := TimerMsg(n, e), React(n, e).node;
            if Carries(o, h) then
              && WaitingTtl(n, h).Some? && MsgTtl(o) == Dec32(WaitingTtl(n, h).value)
              && FacetOf(m, h) == FacetOf(n, h).(waiting := None)
            else FacetOf(m, h) == FacetOf(n, h)
  {
    hide React, AdvHash, DataHash, AckProb;
    TimerReact(n, e);
    match e
    case AckTimer(k) =>
    case AdvTimer(k) =>
      AdvCopyKeepsKey(n.advTimers[k].adv, Dec32(n.advTimers[k].ttl), n.advTimers[k].adv.distance);
      AdvKeyFlow(n.advTimers[k].adv);
    case DataTimer(g) =>
      DataKeyKind(n.dataTimers[g].data);
      CopyKeepsKey(n.dataTimers[g].data, Dec32(n.dataTimers[g].ttl), n.dataTimers[g].data.distance, 0);
  }

  lemma AdvKeyFlow(a: Advertise)
    ensures AdvHash(a).AdvHashKey? && FlowOf(AdvHash(a)) == AdvFlow(a)
  {
  }

  lemma FiringFlight(links: Links, s: Air, a: Act, t: Air, h: HashKey)
    requires WellFormed(links, s) && Goes(links, s, a, t) && Relaying(a) && a.Occurs? && TimerEvent(a.event)
    requires a.node in s.nodes && React(s.nodes[a.node], a.event).Running?
    ensures var o, w := TimerMsg(s.nodes[a.node], a.event), WorldOf(links, s.nodes, h);
            && (Carries(o, h) ==> Broadcasts<u32>(links, w.role.Keys, a.node, MsgTtl(o), FlightOf(s, h),
                                                  FlightOf(t, h)))
            && (!Carries(o, h) ==> FlightOf(t, h) == FlightOf(s, h))
  {
    hide React, Goes, WellFormed, Seen, Carries, MsgTtl, TimerMsg, RoleIn, Full, Broadcasts;
    FiringSeen(links, s, a, t, TtlSeen(h));
    assert WorldOf(links, s.nodes, h).role.Keys == s.nodes.Keys;
  }

  lemma FiringSends(links: Links, s: Air, a: Act, t: Air, h: HashKey)
    requires Goes(links, s, a, t) && Relaying(a) && a.Occurs? && TimerEvent(a.event)
             && React(s.nodes[a.node], a.event).Running?
    ensures var f, x := SendsOf(s.nodes, h), a.node;
            x in f && SendsOf(t.nodes, h) == if Carries(TimerMsg(s.nodes[x], a.event), h) then f[x := f[x] + 1] else f
  {
    hide React, TimesSent, Carries, TimerMsg, Aired;
    RelayLog(links, s, a, t);
    TimesSentAppend(s.nodes[a.node].sent, TimerMsg(s.nodes[a.node], a.event), h);
  }

  /** A timer that sends the message fires; any other timer changes nothing. */
  lemma FiringFires(links: Links, s: Air, a: Act, t: Air, h: HashKey)
    requires Watched(links, s, h) && Goes(links, s, a, t) && Relaying(a) && a.Occurs?
    requires a.node in s.nodes ==> WaitingTtl(s.nodes[a.node], h) != Some(0)
    ensures Moves(WorldOf(links, s.nodes, h), FloodOf(s, h), FloodOf(t, h))
    ensures a.node in s.nodes && TimerEvent(a.event) && React(s.nodes[a.node], a.event).Running?
    ensures Carries(TimerMsg(s.nodes[a.node], a.event), h) ==>
              Fires(WorldOf(links, s.nodes, h), FloodOf(s, h), a.node, FloodOf(t, h))
  {
    hide React, Bystander, RoleIn, Watched, FlightOf, Broadcasts, MsgTtl, TimerMsg, Carries, Full, Afoot, Keyed, Aired,
         GotOf, WaitingOf, SendsOf;
    var x := a.node;
    var w, n, m := WorldOf(links, s.nodes, h), s.nodes[x], t.nodes[x];
    WatchedNode(links, s, h, x);
    RelayLog(links, s, a, t);
    TimerFacet(n, a.event, h);
    FiringFlight(links, s, a, t, h);
    FiringSends(links, s, a, t, h);
    FacetShows(s.nodes, t.nodes, x, h);
    FacetShows(s.nodes, s.nodes, x, h);
    assert s.nodes[x := s.nodes[x]] == s.nodes;
    if Carries(TimerMsg(n, a.event), h) {
      assert Fires(w, FloodOf(s, h), x, FloodOf(t, h));
    } else {
      assert FloodOf(t, h) == FloodOf(s, h);
    }
  }

  // ---- whole rounds --------------------------------------------------------------------

  /** The source has just sent the message; nothing else about it is known or afoot. */
  ghost predicate FloodStarts(links: Links, s: Air, h: HashKey) {
    Watched(links, s, h) && Launched(WorldOf(links, s.nodes, h), FloodOf(s, h))
  }

  lemma StepMoves(links: Links, s: Air, a: Act, t: Air, h: HashKey, w: World)
    requires Watched(links, s, h) && Goes(links, s, a, t) && Relaying(a) && w == WorldOf(links, s.nodes, h)
    requires Sensible(w) && Modest(w, FloodOf(s, h))
    ensures Watched(links, t, h) && w == WorldOf(links, t.nodes, h) && Moves(w, FloodOf(s, h), FloodOf(t, h))
  {
    hide Goes, Watched, WorldOf, Moves;
    StepWatched(links, s, a, t, h);
    if a.Deliver? {
      DeliveryArrives(links, s, a, t, h);
    } else {
      forall x | x in s.nodes ensures WaitingTtl(s.nodes[x], h) != Some(0) {
        assert WaitingTtl(s.nodes[x], h).Some? ==> x in FloodOf(s, h).waiting;
      }
      FiringFires(links, s, a, t, h);
    }
  }

  lemma StepFlood(links: Links, s: Air, a: Act, t: Air, h: HashKey, w: World)
    requires Watched(links, s, h) && Goes(links, s, a, t) && Relaying(a)
    requires w == WorldOf(links, s.nodes, h) && FloodInv(w, FloodOf(s, h))
    ensures Watched(links, t, h) && w == WorldOf(links, t.nodes, h) && FloodInv(w, FloodOf(t, h))
  {
    hide Goes, Watched, WorldOf, Moves, Sound, Complete;
    StepMoves(links, s, a, t, h, w);
    MovesInv(w, FloodOf(s, h), FloodOf(t, h));
  }

  lemma StartInv(links: Links, s: Air, h: HashKey)
    requires FloodStarts(links, s, h)
    ensures Watched(links, s, h) && FloodInv(WorldOf(links, s.nodes, h), FloodOf(s, h))
  {
    hide Watched, WorldOf, FloodOf, Launched, FloodInv;
    LaunchedInv(WorldOf(links, s.nodes, h), FloodOf(s, h));
  }

  lemma {:induction false} RoundFloods(links: Links, ss: seq<Air>, acts: seq<Act>, h: HashKey, w: World)
    requires Round(links, ss, acts) && w == WorldOf(links, ss[0].nodes, h)
    requires Watched(links, ss[0], h) && FloodInv(w, FloodOf(ss[0], h))
    ensures var s := ss[|acts|]; Watched(links, s, h) && w == WorldOf(links, s.nodes, h) && FloodInv(w, FloodOf(s, h))
    decreases |acts|
  {
    hide Goes, Watched, WorldOf, FloodInv, FloodOf;
    if acts != [] {
      RoundPrefix(links, ss, acts);
      var last := |acts| - 1;
      RoundFloods(links, ss[..|acts|], acts[..last], h, w);
      StepFlood(links, ss[last], acts[last], ss[|acts|], h, w);
    }
  }

  lemma RenewsOrderless(links: Links, nodes: Net, h: HashKey)
    requires Renews(h)
    ensures Orderless(WorldOf(links, nodes, h))
  {
  }

  /** The outcome of a flood does not depend on the order of deliveries and timers: when nothing is
      left to do, exactly the nodes with a walk on which the TTL lasts, renewed at group nodes,
      have the message, and every other node's stored TTL is the most any such walk leaves. */
  lemma FloodOutcome(links: Links, ss: seq<Air>, acts: seq<Act>, h: HashKey, x: NodeId)
    requires Round(links, ss, acts) && FloodStarts(links, ss[0], h) && Orderless(WorldOf(links, ss[0].nodes, h))
    requires Quiescent(ss[|acts|]) && x in ss[|acts|].nodes
    ensures var n, w := ss[|acts|].nodes[x], WorldOf(links, ss[0].nodes, h);
            && (h in n.hash <==> Reachable(w, x))
            && (h in n.hash && RoleOf(w, x).PassesOn? ==> Audible(w, x, n.hash[h]))
            && (h in n.hash && RoleOf(w, x).PassesOn? ==> forall ttl: u32 :: Audible(w, x, ttl) ==> ttl <= n.hash[h])
  {
    hide Watched, FloodInv, Audible, WorldOf, Orderless;
    var w, s := WorldOf(links, ss[0].nodes, h), ss[|acts|];
    StartInv(links, ss[0], h);
    RoundFloods(links, ss, acts, h, w);
    assert FlightOf(s, h) == map[] && WaitingOf(s.nodes, h) == map[];
    DiedOut(w, FloodOf(s, h), x);
    assert x in GotOf(s.nodes, h) <==> h in s.nodes[x].hash;
  }

  /** Whatever the message allows, nobody ever has it without such a walk. */
  lemma OnlyWalksReach(links: Links, ss: seq<Air>, acts: seq<Act>, h: HashKey, x: NodeId)
    requires Round(links, ss, acts) && FloodStarts(links, ss[0], h) && x in ss[|acts|].nodes
             && h in ss[|acts|].nodes[x].hash
    ensures x == Src(h) || Audible(WorldOf(links, ss[0].nodes, h), x, ss[|acts|].nodes[x].hash[h])
  {
    hide Watched, Complete, Modest, Audible, Goes, Afoot, Launched, Sendable;
    var w, s := WorldOf(links, ss[0].nodes, h), ss[|acts|];
    StartInv(links, ss[0], h);
    RoundFloods(links, ss, acts, h, w);
    assert x in GotOf(s.nodes, h) && GotOf(s.nodes, h)[x] == s.nodes[x].hash[h];
  }

  lemma LossWatched(links: Links, s: Air, t: Air, h: HashKey, w: World)
    requires Watched(links, s, h) && Loses(s, t) && w == WorldOf(links, s.nodes, h) && Modest(w, FloodOf(s, h))
    ensures Watched(links, t, h) && w == WorldOf(links, t.nodes, h) && Modest(w, FloodOf(t, h))
  {
    assert Watched(links, t, h) by { hide NodeMsgs, Bystander, Keyed, SourceKnows, Floods; }
    hide Watched, WorldOf, Modest, GotOf, WaitingOf, SendsOf, TtlSeen;
    LossModest(w, FloodOf(s, h), FloodOf(t, h));
  }

  lemma {:induction false} LossyModest(links: Links, ss: seq<Air>, h: HashKey, w: World)
    requires Silence.LossyRound(links, ss) && Watched(links, ss[0], h) && w == WorldOf(links, ss[0].nodes, h)
    requires Sensible(w) && Modest(w, FloodOf(ss[0], h))
    ensures var s := ss[|ss| - 1]; Watched(links, s, h) && w == WorldOf(links, s.nodes, h) && Modest(w, FloodOf(s, h))
    decreases |ss|
  {
    hide Goes, Loses, Watched, WorldOf, Modest, Sensible, FloodOf;
    if |ss| > 1 {
      var last := |ss| - 2;
      LossyModest(links, ss[..last + 1], h, w);
      assert Loses(ss[last + 1 - 1], ss[last + 1]) || Silence.Relays(links, ss[last + 1 - 1], ss[last + 1]);
      if Loses(ss[last], ss[last + 1]) {
        LossWatched(links, ss[last], ss[last + 1], h, w);
      } else {
        var a :| Relaying(a) && Goes(links, ss[last], a, ss[last + 1]);
        StepMoves(links, ss[last], a, ss[last + 1], h, w);
        MovesModest(w, FloodOf(ss[last], h), FloodOf(ss[last + 1], h));
      }
    }
  }

  /** At any moment of a flood, whatever gets lost, TTLs waiting are between one and the source's, TTLs
      sent are below it, and no node has sent the message more often than that; a node that does not
      pass on rising TTLs sent it once at most. */
  lemma FloodBounded(links: Links, ss: seq<Air>, h: HashKey, x: NodeId)
    requires Silence.LossyRound(links, ss) && FloodStarts(links, ss[0], h) && x in ss[|ss| - 1].nodes
    ensures var s := ss[|ss| - 1]; var n := s.nodes[x];
            && (WaitingTtl(n, h).Some? ==> 1 <= WaitingTtl(n, h).value <= Full(h))
            && (forall c :: c in FlightOf(s, h) ==> FlightOf(s, h)[c] < Full(h))
            && TimesSent(n.sent, h) <= Full(h)
            && (!RoleOf(WorldOf(links, ss[0].nodes, h), x).PassesOn? ==> TimesSent(n.sent, h) <= 1)
  {
    hide Watched, Sound, Complete, FlightOf, WaitingTtl, TimesSent, Loses, Silence.Relays, WorldOf, Launched, Afoot;
    var w, s := WorldOf(links, ss[0].nodes, h), ss[|ss| - 1];
    StartInv(links, ss[0], h);
    LossyModest(links, ss, h, w);
    var f := FloodOf(s, h);
    assert x in f.sends && f.sends[x] == TimesSent(s.nodes[x].sent, h);
    SendsBounded(w, f, x);
    assert w.full == Full(h) by { RoleShows(links, s.nodes, x, h); }
    assert WaitingTtl(s.nodes[x], h).Some? ==> x in f.waiting && f.waiting[x] == WaitingTtl(s.nodes[x], h).value;
  }
}
