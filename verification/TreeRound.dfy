/** A lossless round of the network, watched for one advertisement and its ACKs: it builds a relay
    tree as module Tree says. */
module TreeRound {
  import opened Types
  import opened NodeSpec
  import opened Network
  import opened Origin
  import opened Air
  import opened Tree
  import opened FloodStart
  import FloodRound
  import LoopFreedom
  import opened Sums
  import PullTable

  // ---- the world of an advertisement ---------------------------------------------------

  function WorldOf(links: Links, nodes: Net, h: HashKey): World {
    World(links, nodes.Keys, Src(h), set x | x in nodes && IsGroupNode(nodes[x], Gid(h)))
  }

  function Children(s: seq<RemotePull>, gid: GroupId): set<NodeId> { set e | e in s && e.gid == gid :: e.node }

  function IdOf(h: HashKey): AdvId
    requires h.AdvHashKey?
  {
    AdvIdOf(h.adv)
  }

  function HasAcked(n: Node, h: HashKey): bool
    requires h.AdvHashKey?
  {
    FlowOf(h) in n.ackSent && h.adv.sequence <= n.ackSent[FlowOf(h)]
  }

  function PartOf(n: Node, h: HashKey): Part
    requires h.AdvHashKey?
  {
    var k := FlowOf(h);
    Part(h in n.hash,
         if h in n.hash then Hops(n.dist, k) else 0,
         if h in n.hash && k in n.revPath then n.revPath[k].next else 0,
         if k in n.advTimers then Some(n.advTimers[k].adv.distance) else None,
         if k in n.ackTimers then Some(n.ackTimers[k].oblig) else None,
         HasAcked(n, h), IdOf(h) in n.advSeen, Children(n.remotePull, k.gid),
         k.gid in n.announce && n.announce[k.gid].pullSent)
  }

  /** What else may be afoot: nothing of another advertisement of the group, no DATA of the flow. */
  predicate Bystander(h: HashKey, m: OtaMsg) {
    match m
    case OtaAdv(a) => a.gid == Gid(h) ==> AdvHash(a) == h
    case OtaAck(a) => a.gid == Gid(h) ==> AckFlow(a) == FlowOf(h) && a.sequence == SeqNo(h)
    case OtaData(d) => DataFlow(d) != FlowOf(h)
  }

  /** Neither of the group's advertisements and ACKs nor of the flow's DATA. */
  predicate Stranger(h: HashKey, m: OtaMsg) {
    FloodRound.Elsewhere(m, Gid(h)) && (m.OtaData? ==> DataFlow(m.data) != FlowOf(h))
  }

  /** Tables that agree: a node that knows the advertisement has its distance and its path, one
      that does not has nothing as recent; and the source is announcing. */
  ghost predicate Ready(n: Node, h: HashKey)
    requires h.AdvHashKey?
  {
    var k := FlowOf(h);
    && (forall j :: j in n.advTimers ==> AdvFlow(n.advTimers[j].adv) == j)
    && (forall j :: j in n.ackTimers ==> AckFlow(n.ackTimers[j]) == j)
    && (h in n.hash ==> k in n.dist && n.dist[k].latest == h && (n.id != k.src ==> k in n.revPath))
    && (h !in n.hash ==>
          (k in n.revPath ==> n.revPath[k].seqNo < h.adv.sequence) && (k in n.dist ==> n.dist[k].latest != h))
    && (n.id == k.src ==> h in n.hash && k.gid in n.announce)
  }

  /** The node keeps its identity, its membership and its readiness. */
  ghost predicate Kept(n: Node, m: Node, h: HashKey)
    requires h.AdvHashKey?
  {
    m.id == n.id && IsGroupNode(m, Gid(h)) == IsGroupNode(n, Gid(h)) && (Ready(n, h) ==> Ready(m, h))
  }

  predicate InWorld(w: World, n: Node, h: HashKey) {
    w.src == Src(h) && (n.id in w.members <==> IsGroupNode(n, Gid(h)))
  }

  lemma SameMember(n: Node, m: Node, g: GroupId)
    requires m.localPull == n.localPull && m.announce.Keys == n.announce.Keys
    ensures IsGroupNode(m, g) == IsGroupNode(n, g)
  {
  }

  // ---- ADVERTISE -----------------------------------------------------------------------

  /** The advertisement itself. */
  lemma AdvertiseHears(w: World, n: Node, a: Advertise, from: NodeId, now: int, h: HashKey)
    requires h == AdvHash(a) && Ready(n, h) && InWorld(w, n, h) && (h !in n.hash ==> a.distance + 1 < U32)
    ensures HearsAd(w, n.id, PartOf(n, h), from, a.distance, PartOf(OnAdvertise(n, a, from, now), h))
  {
    hide HashedAt, PullWrites, IsGroupNode, Children, AdvHash, LearnPath, AdvForward, NextDistance;
    AdvertiseLearns(n, a, from, now);
  }

  /** The hop count, the path and the copy to be spread, once heard. */
  lemma AdvertiseLearns(n: Node, a: Advertise, from: NodeId, now: int)
    requires Ready(n, AdvHash(a)) && (AdvHash(a) !in n.hash ==> a.distance + 1 < U32)
    ensures var k, h, f := AdvFlow(a), AdvHash(a), AdvForward(n, a, from); var d := AdvDistance(n, a, from);
            && FlowOf(h) == k && IdOf(h) == AdvIdOf(a) && Gid(h) == a.gid && h.adv.sequence == a.sequence
            && d.hops == (if h in n.hash then n.dist[k].hops else a.distance + 1)
            && (f.Some? ==> f.value.adv.distance == d.hops)
            && (h !in n.hash ==> LearnPath(n.revPath, k,
                                           RevPath(from, a.sequence, now, a.probrelay)) == n.revPath[k := RevPath(from,
                                               a.sequence, now, a.probrelay)])
  {
    hide IsGroupNode;
  }

  lemma AdvertiseKept(n: Node, a: Advertise, from: NodeId, now: int, h: HashKey)
    requires h.AdvHashKey? && Bystander(h, OtaAdv(a))
    ensures Kept(n, OnAdvertise(n, a, from, now), h)
  {
    hide HashedAt, Overrides, PullWrites, IsGroupNode, AdvRaises, AdvForward, JoinsTree, AdvHash;
    SameMember(n, OnAdvertise(n, a, from, now), Gid(h));
    AdvKeyKind(a);
    FloodRound.AdvKeyFlow(a);
    if AdvForward(n, a, from).Some? {
      LoopFreedom.ForwardFlow(n, a, from);
    }
  }

  /** An advertisement of another group. */
  lemma AdvertiseElsewhere(n: Node, a: Advertise, from: NodeId, now: int, h: HashKey)
    requires h.AdvHashKey? && a.gid != Gid(h)
    ensures PartOf(OnAdvertise(n, a, from, now), h) == PartOf(n, h)
  {
    hide HashedAt, Overrides, PullWrites, IsGroupNode, Children, AdvForward, NextDistance, JoinsTree, AdvRaises;
    assert AdvHash(a) != h;
  }

  // ---- ACK -----------------------------------------------------------------------------

  lemma AdoptsChild(s: seq<RemotePull>, e: RemotePull, gid: GroupId)
    ensures Children(AddPull(s, e), gid) == if e.gid == gid then Children(s, gid) + {e.node} else Children(s, gid)
  {
    var r := AddPull(s, e);
    forall c ensures c in Children(r, gid) <==> (c in Children(s, gid) || (e.gid == gid && c == e.node)) {
      if c in Children(r, gid) {
        var x :| x in r && x.gid == gid && x.node == c;
        PullTable.AddPullMembers(s, e, x);
      }
      if c in Children(s, gid) {
        var x :| x in s && x.gid == gid && x.node == c;
        PullTable.AddPullMembers(s, e, x);
        var y :| y in r && PullTable.SamePull(y, x.gid, x.node);
      }
      if e.gid == gid && c == e.node {
        PullTable.AddPullMembers(s, e, e);
      }
    }
  }

  /** An ACK of the advertisement. */
  lemma AckHears(w: World, n: Node, a: Ack, from: NodeId, draw: nat, now: int, h: HashKey)
    requires h.AdvHashKey? && AckFlow(a) == FlowOf(h) && a.sequence == h.adv.sequence && Ready(n, h) && InWorld(w, n, h)
    requires OnAck(n, a, from, draw, now).Running? && (a.oblig == n.id || PartOf(n, h).seen ==> h in n.hash)
    ensures HearsOk(w, n.id, PartOf(n, h), from, a.oblig, Chosen(n, a, draw),
                    PartOf(OnAck(n, a, from, draw, now).node, h))
  {
    hide PullWrites, IsGroupNode, Children, AddPull, AlreadyFlipped;
    AdoptsChild(n.remotePull, RemotePull(a.gid, from, now), a.gid);
  }

  lemma AckKept(n: Node, a: Ack, from: NodeId, draw: nat, now: int, h: HashKey)
    requires h.AdvHashKey? && OnAck(n, a, from, draw, now).Running?
    ensures Kept(n, OnAck(n, a, from, draw, now).node, h)
  {
    hide PullWrites, IsGroupNode, Chosen, Adopts, Flips, PassesAck, AddPull;
    SameMember(n, OnAck(n, a, from, draw, now).node, Gid(h));
  }

  /** An ACK of another group. */
  lemma AckElsewhere(n: Node, a: Ack, from: NodeId, draw: nat, now: int, h: HashKey)
    requires h.AdvHashKey? && a.gid != Gid(h) && OnAck(n, a, from, draw, now).Running?
    ensures PartOf(OnAck(n, a, from, draw, now).node, h) == PartOf(n, h)
  {
    hide PullWrites, IsGroupNode, Children, AddPull, Chosen, Adopts, Flips, PassesAck;
    AdoptsChild(n.remotePull, RemotePull(a.gid, from, now), Gid(h));
  }

  // ---- DATA and timers -----------------------------------------------------------------

  lemma DataElsewhere(n: Node, d: Data, from: NodeId, now: int, h: HashKey)
    requires h.AdvHashKey? && DataFlow(d) != FlowOf(h)
    ensures PartOf(OnData(n, d, from, now), h) == PartOf(n, h) && Kept(n, OnData(n, d, from, now), h)
  {
    hide HashedAt, DataDistance, DataForward, DataRaises, Handed, DataHash, IsGroupNode, Children;
    DataKeyKind(HeardData(d));
    SameMember(n, OnData(n, d, from, now), Gid(h));
  }

  /** What an observer of the round makes of a message. */
  function NoteOf(h: HashKey): OtaMsg -> Option<Note> {
    (m: OtaMsg) => match m
         case OtaAdv(a) => if AdvHash(a) == h then Some(Ad(a.distance)) else None
         case OtaAck(a) => if AckFlow(a) == FlowOf(h) then Some(Ok(a.oblig)) else None
         case OtaData(_) => None
  }

  lemma TimerTells(n: Node, e: Event, h: HashKey)
    requires h.AdvHashKey? && TimerEvent(e) && React(n, e).Running? && Ready(n, h)
             && forall m :: m in NodeMsgs(n) ==> Bystander(h, m)
    ensures var o, r := NoteOf(h)(TimerMsg(n, e)), PartOf(React(n, e).node, h);
            if o.Some? then Fired(PartOf(n, h), o.value, r) else r == PartOf(n, h)
  {
    hide React, AdvHash, AckProb, Children, Bystander, NodeMsgs;
    TimerReact(n, e);
    match e
    case AckTimer(k) =>
    case AdvTimer(k) =>
      AdvTimerTells(n, k, h);
      assert TimerMsg(n, e) == OtaAdv(n.advTimers[k].adv.(ttl := Dec32(n.advTimers[k].ttl)));
    case DataTimer(g) =>
  }

  lemma TimerKept(n: Node, e: Event, h: HashKey)
    requires h.AdvHashKey? && TimerEvent(e) && React(n, e).Running?
    ensures Kept(n, React(n, e).node, h)
  {
    hide React, TimerMsg, IsGroupNode;
    TimerReact(n, e);
    SameMember(n, React(n, e).node, Gid(h));
  }

  lemma AdvTimerTells(n: Node, k: FlowKey, h: HashKey)
    requires h.AdvHashKey? && k in n.advTimers && Ready(n, h) && forall m :: m in NodeMsgs(n) ==> Bystander(h, m)
    ensures var p := n.advTimers[k];
            NoteOf(h)(OtaAdv(p.adv.(ttl := Dec32(p.ttl)))) == if k == FlowOf(h) then Some(Ad(p.adv.distance)) else None
  {
    hide AdvHash;
    var p := n.advTimers[k];
    AdvCopyKeepsKey(p.adv, Dec32(p.ttl), p.adv.distance);
    assert OtaAdv(p.adv) in NodeMsgs(n);
    AdvKeyKind(p.adv);
  }

  // ---- the network seen as a tree under construction -----------------------------------

  function PartsOf(nodes: Net, h: HashKey): map<NodeId, Part>
    requires h.AdvHashKey?
  {
    map x | x in nodes :: PartOf(nodes[x], h)
  }

  function TreeOf(s: Air, h: HashKey): Tree
    requires h.AdvHashKey?
  {
    Tree(PartsOf(s.nodes, h), Seen(s, NoteOf(h)))
  }

  ghost predicate Watched(links: Links, s: Air, h: HashKey) {
    && WellFormed(links, s) && h.AdvHashKey? && (forall m :: m in Afoot(s) ==> Bystander(h, m))
    && forall x :: x in s.nodes ==> Ready(s.nodes[x], h)
  }

  lemma BystanderDescends(h: HashKey, m: OtaMsg, o: OtaMsg)
    requires Bystander(h, m) && Descends(o, m)
    ensures Bystander(h, o)
  {
    if m.OtaAdv? {
      AdvKeyKind(m.adv);
      if o.OtaAdv? { AdvKeyKind(o.adv); }
    } else if m.OtaData? {
      DataKeyKind(m.data);
      DataKeyKind(o.data);
    }
  }

  lemma BystandersStay(links: Links, s: Air, a: Act, t: Air, h: HashKey)
    requires WellFormed(links, s) && (forall m :: m in Afoot(s) ==> Bystander(h, m)) && Goes(links, s, a, t)
             && Relaying(a)
    ensures forall o :: o in Afoot(t) ==> Bystander(h, o)
  {
    hide Goes, Afoot, Bystander, Descends;
    forall o | o in Afoot(t) ensures Bystander(h, o) {
      AfootCaused(links, s, a, t, o);
      var m :| m in Afoot(s) && (o == m || Descends(o, m));
      if o != m {
        BystanderDescends(h, m, o);
      }
    }
  }

  /** What is required of a delivered message beyond being no stranger: it counts its hops without
      wrapping, and nobody is named or drawn as a relay who does not know the advertisement. */
  predicate Timely(n: Node, h: HashKey, m: OtaMsg)
    requires h.AdvHashKey?
  {
    match m
    case OtaAdv(a) => AdvHash(a) == h && h !in n.hash ==> a.distance + 1 < U32
    case OtaAck(a) => AckFlow(a) == FlowOf(h) && (a.oblig == n.id || PartOf(n, h).seen) ==> h in n.hash
    case OtaData(_) => true
  }

  predicate Heads(n: Node, e: Event) { e.Receive? && e.msg.OtaAck? && Chosen(n, e.msg.ack, e.draw) }

  lemma ReceiveTells(w: World, n: Node, e: Event, h: HashKey)
    requires h.AdvHashKey? && e.Receive? && React(n, e).Running? && e.from != n.id
    requires Ready(n, h) && InWorld(w, n, h) && Bystander(h, e.msg) && Timely(n, h, e.msg)
    ensures var o, r := NoteOf(h)(e.msg), PartOf(React(n, e).node, h);
            if o.Some? then Hears(w, n.id, PartOf(n, h), e.from, o.value, Heads(n, e), r) else r == PartOf(n, h)
    ensures Kept(n, React(n, e).node, h)
  {
    hide OnAdvertise, OnAck, OnData, PartOf, Ready, InWorld, HearsAd, HearsOk, AdvHash, Kept, Chosen;
    match e.msg
    case OtaAck(a) =>
      AckKept(n, a, e.from, e.draw, e.now, h);
      if a.gid == Gid(h) {
        AckHears(w, n, a, e.from, e.draw, e.now, h);
      } else {
        AckElsewhere(n, a, e.from, e.draw, e.now, h);
      }
    case OtaAdv(a) =>
      AdvKeyKind(a);
      AdvertiseKept(n, a, e.from, e.now, h);
      if a.gid == Gid(h) {
        AdvertiseHears(w, n, a, e.from, e.now, h);
      } else {
        AdvertiseElsewhere(n, a, e.from, e.now, h);
      }
    case OtaData(d) => DataElsewhere(n, d, e.from, e.now, h);
  }

  lemma FewNodes(nodes: Net)
    ensures |nodes| <= U32
  {
    var s := set x | x in nodes :: x as nat;
    SizeBelow(s, U32);
    SizeOfImage(s, nodes.Keys, (x: NodeId) => x as nat);
  }

  lemma NoteInFlight(links: Links, s: Air, c: Copy, h: HashKey)
    requires h.AdvHashKey? && WellFormed(links, s) && c in s.flight
    ensures OnAir(links, s.nodes, c)
    ensures var v := NoteOf(h)(MsgOf(s.nodes, c));
            v.Some? ==> c in TreeOf(s, h).flight && TreeOf(s, h).flight[c] == v.value
  {
    hide NoteOf, PartOf;
  }

  /** A message of the round, given what its note says. */
  lemma NoteMakesTimely(n: Node, h: HashKey, m: OtaMsg)
    requires h.AdvHashKey?
    requires var v := NoteOf(h)(m); v.Some? && v.value.Ad? && h !in n.hash ==> v.value.hops + 1 < U32
    requires var v := NoteOf(h)(m);
             v.Some? && v.value.Ok? && (v.value.oblig == n.id || PartOf(n, h).seen) ==> h in n.hash
    ensures Timely(n, h, m)
  {
    hide PartOf, AdvHash;
  }

  /** The invariant of the tree makes every delivery timely. */
  lemma DeliveryTimely(links: Links, s: Air, c: Copy, h: HashKey, w: World)
    requires Watched(links, s, h) && w == WorldOf(links, s.nodes, h) && TreeInv(w, TreeOf(s, h)) && c in s.flight
    ensures c.to in s.nodes && c.from in s.nodes && Timely(s.nodes[c.to], h, MsgOf(s.nodes, c))
  {
    hide TreeInv, IsGroupNode, Afoot, Ready, Bystander, NoteOf, PartOf, Seen, Timely;
    NoteInFlight(links, s, c, h);
    if NoteOf(h)(MsgOf(s.nodes, c)).Some? {
      NoteTimely(w, TreeOf(s, h), c);
      FewNodes(s.nodes);
      Knows(s, h, c.to);
    }
    NoteMakesTimely(s.nodes[c.to], h, MsgOf(s.nodes, c));
  }

  lemma WatchedNode(links: Links, s: Air, h: HashKey, x: NodeId)
    requires Watched(links, s, h) && x in s.nodes
    ensures s.nodes[x].id == x && Ready(s.nodes[x], h) && InWorld(WorldOf(links, s.nodes, h), s.nodes[x], h)
    ensures forall m :: m in NodeMsgs(s.nodes[x]) ==> Bystander(h, m)
  {
    hide IsGroupNode, NodeMsgs, Bystander, Ready;
    assert forall m :: m in NodeMsgs(s.nodes[x]) ==> m in Afoot(s);
  }

  lemma PartShows(nodes: Net, next: Net, x: NodeId, h: HashKey)
    requires h.AdvHashKey? && x in nodes && x in next && next == nodes[x := next[x]]
    ensures PartsOf(next, h) == PartsOf(nodes, h)[x := PartOf(next[x], h)]
  {
    hide PartOf;
  }

  /** A step is a move of the tree under construction. */
  lemma DeliveryMoves(links: Links, s: Air, a: Act, t: Air, h: HashKey, w: World)
    requires Watched(links, s, h) && Goes(links, s, a, t) && a.Deliver? && w == WorldOf(links, s.nodes, h)
             && TreeInv(w, TreeOf(s, h))
    ensures Moves(w, TreeOf(s, h), TreeOf(t, h)) && Kept(s.nodes[Actor(a)], t.nodes[Actor(a)], h)
  {
    hide React, Bystander, PartOf, NoteOf, TreeInv, WorldOf, Ready, Kept, Hears, PartsOf, Timely, InWorld, Seen, Aired,
         Heads;
    var x := a.copy.to;
    assert MsgOf(s.nodes, a.copy) in Afoot(s);
    WatchedNode(links, s, h, x);
    DeliveryTimely(links, s, a.copy, h, w);
    ReceiveTells(w, s.nodes[x], EventOf(s, a), h);
    DeliverySeen(links, s, a, t, NoteOf(h));
    PartShows(s.nodes, t.nodes, x, h);
    PartShows(s.nodes, s.nodes, x, h);
    assert s.nodes[x := s.nodes[x]] == s.nodes;
    if NoteOf(h)(MsgOf(s.nodes, a.copy)).Some? {
      assert Arrives(w, TreeOf(s, h), a.copy, Heads(s.nodes[x], EventOf(s, a)), TreeOf(t, h));
    } else {
      assert TreeOf(t, h) == TreeOf(s, h);
    }
  }

  lemma FiringMoves(links: Links, s: Air, a: Act, t: Air, h: HashKey, w: World)
    requires Watched(links, s, h) && Goes(links, s, a, t) && a.Occurs? && Relaying(a) && w == WorldOf(links, s.nodes, h)
    ensures Moves(w, TreeOf(s, h), TreeOf(t, h)) && Kept(s.nodes[Actor(a)], t.nodes[Actor(a)], h)
  {
    hide React, Bystander, PartOf, NoteOf, Ready, Kept, PartsOf, InWorld, Seen, Aired, TimerMsg, Fired, Broadcasts,
         IsGroupNode, Afoot;
    var x := a.node;
    WatchedNode(links, s, h, x);
    TimerTells(s.nodes[x], a.event, h);
    TimerKept(s.nodes[x], a.event, h);
    FiringSeen(links, s, a, t, NoteOf(h));
    PartShows(s.nodes, t.nodes, x, h);
    PartShows(s.nodes, s.nodes, x, h);
    assert s.nodes[x := s.nodes[x]] == s.nodes;
    var v := NoteOf(h)(TimerMsg(s.nodes[x], a.event));
    if v.Some? {
      assert Fires(w, TreeOf(s, h), x, v.value, TreeOf(t, h));
    } else {
      assert TreeOf(t, h) == TreeOf(s, h);
    }
  }

  lemma NodesKept(links: Links, s: Air, a: Act, t: Air, h: HashKey)
    requires Watched(links, s, h) && Goes(links, s, a, t) && Kept(s.nodes[Actor(a)], t.nodes[Actor(a)], h)
    ensures WorldOf(links, t.nodes, h) == WorldOf(links, s.nodes, h)
            && forall x :: x in t.nodes ==> Ready(t.nodes[x], h)
  {
    hide React, Bystander, Ready, Aired, IsGroupNode, WellFormed, Afoot;
    assert s.nodes.Keys == t.nodes.Keys;
  }

  lemma StepTree(links: Links, s: Air, a: Act, t: Air, h: HashKey, w: World)
    requires Watched(links, s, h) && Goes(links, s, a, t) && Relaying(a) && w == WorldOf(links, s.nodes, h)
             && TreeInv(w, TreeOf(s, h))
    ensures Watched(links, t, h) && w == WorldOf(links, t.nodes, h) && TreeInv(w, TreeOf(t, h))
    ensures NoStrays(w, TreeOf(s, h)) ==> NoStrays(w, TreeOf(t, h))
  {
    hide WorldOf, TreeInv, NoStrays, TreeOf, Moves, Afoot, Bystander, WellFormed, Ready, Kept, React;
    if a.Deliver? { DeliveryMoves(links, s, a, t, h, w); } else { FiringMoves(links, s, a, t, h, w); }
    MovesInv(w, TreeOf(s, h), TreeOf(t, h));
    NodesKept(links, s, a, t, h);
    FlightStays(links, s, a, t);
    BystandersStay(links, s, a, t, h);
  }

  // ---- whole rounds --------------------------------------------------------------------

  /** The source has just sent the advertisement; no other node knows it. */
  ghost predicate TreeStarts(links: Links, s: Air, h: HashKey) {
    Watched(links, s, h) && Announced(WorldOf(links, s.nodes, h), TreeOf(s, h))
  }

  lemma {:induction false} RoundTree(links: Links, ss: seq<Air>, acts: seq<Act>, h: HashKey, w: World)
    requires Round(links, ss, acts) && TreeStarts(links, ss[0], h) && w == WorldOf(links, ss[0].nodes, h)
    ensures var s := ss[|acts|];
            && Watched(links, s, h) && w == WorldOf(links, s.nodes, h) && TreeInv(w, TreeOf(s, h))
            && (NoStrays(w, TreeOf(ss[0], h)) ==> NoStrays(w, TreeOf(s, h)))
    decreases |acts|
  {
    hide Goes, WorldOf, TreeInv, NoStrays, TreeOf, Announced, WellFormed, Afoot, Ready, Bystander;
    if acts == [] {
      AnnouncedInv(w, TreeOf(ss[0], h));
    } else {
      RoundPrefix(links, ss, acts);
      var last := |acts| - 1;
      RoundTree(links, ss[..|acts|], acts[..last], h, w);
      StepTree(links, ss[last], acts[last], ss[|acts|], h, w);
    }
  }

  predicate HasChild(n: Node, gid: GroupId, child: NodeId) {
    exists e :: e in n.remotePull && e.gid == gid && e.node == child
  }

  /** From `x` the reverse path leads over `hops` links to the source, and every next hop holds a
      remote pull for the node before it; the client at the source has been told to send. */
  ghost predicate RelayChain(links: Links, nodes: Net, k: FlowKey, x: NodeId, hops: nat)
    decreases hops
  {
    x in nodes &&
    if hops == 0 then x == k.src
    else
      && x != k.src && k in nodes[x].revPath
      && var p := nodes[x].revPath[k].next;
         && Near(links, nodes.Keys, p, x) && HasChild(nodes[p], k.gid, x)
         && (p == k.src ==> k.gid in nodes[p].announce && nodes[p].announce[k.gid].pullSent)
         && RelayChain(links, nodes, k, p, hops - 1)
  }

  /** The node takes part in the flow's tree: it knows the advertisement and is in the group or has passed an ACK on. */
  predicate Joins(n: Node, h: HashKey)
    requires h.AdvHashKey?
  {
    h in n.hash && (n.id == Src(h) || IsGroupNode(n, Gid(h)) || HasAcked(n, h))
  }

  lemma PlaceOf(links: Links, s: Air, h: HashKey, x: NodeId)
    requires Watched(links, s, h) && x in s.nodes && h in s.nodes[x].hash
    ensures var n, k, p := s.nodes[x], FlowOf(h), TreeOf(s, h).parts[x];
            k in n.dist && p.hops == n.dist[k].hops && (x != k.src ==> k in n.revPath && p.parent == n.revPath[k].next)
  {
    hide Afoot, Bystander, IsGroupNode, Seen, HasAcked, Children;
    assert Ready(s.nodes[x], h) && s.nodes[x].id == x;
  }

  lemma ChildOf(s: Air, h: HashKey, p: NodeId, x: NodeId)
    requires h.AdvHashKey? && p in s.nodes && x in TreeOf(s, h).parts[p].children
    ensures HasChild(s.nodes[p], Gid(h), x)
    ensures TreeOf(s, h).parts[p].pulled ==> Gid(h) in s.nodes[p].announce && s.nodes[p].announce[Gid(h)].pullSent
  {
  }

  lemma {:induction false} ChainFromJoined(links: Links, s: Air, h: HashKey, x: NodeId, hops: nat)
    requires Watched(links, s, h) && TreeInv(WorldOf(links, s.nodes, h), TreeOf(s, h))
    requires Joined(WorldOf(links, s.nodes, h), TreeOf(s, h), x, hops)
    requires x in s.nodes && h in s.nodes[x].hash
    ensures RelayChain(links, s.nodes, FlowOf(h), x, hops)
    decreases hops
  {
    hide WellFormed, Afoot, Bystander, Ready, TreeInv, WorldOf, TreeOf, HasChild, Active;
    var w, f := WorldOf(links, s.nodes, h), TreeOf(s, h);
    assert w.links == links && w.nodes == s.nodes.Keys && w.src == Src(h) by { SeeWorld(links, s.nodes, h); }
    PlaceOf(links, s, h, x);
    if hops > 0 {
      var p := f.parts[x].parent;
      ChildOf(s, h, p, x);
      JoinedKnows(w, f, p, hops - 1);
      Knows(s, h, p);
      ChainFromJoined(links, s, h, p, hops - 1);
    }
  }

  lemma SeeWorld(links: Links, nodes: Net, h: HashKey)
    ensures var w := WorldOf(links, nodes, h); w.links == links && w.nodes == nodes.Keys && w.src == Src(h)
  {
  }

  lemma Knows(s: Air, h: HashKey, x: NodeId)
    requires h.AdvHashKey? && x in s.nodes
    ensures x in TreeOf(s, h).parts && (TreeOf(s, h).parts[x].known <==> h in s.nodes[x].hash)
  {
  }

  lemma QuietOver(links: Links, s: Air, h: HashKey)
    requires Quiescent(s) && h.AdvHashKey?
    ensures Over(TreeOf(s, h))
  {
    hide HasAcked, Children;
  }

  lemma JoinsActive(links: Links, s: Air, h: HashKey, x: NodeId)
    requires h.AdvHashKey? && x in s.nodes && s.nodes[x].id == x
    ensures Joins(s.nodes[x], h) <==>
              h in s.nodes[x].hash && (x == Src(h) || Active(WorldOf(links, s.nodes, h), x, TreeOf(s, h).parts[x]))
  {
    hide IsGroupNode, HasAcked, Children, Seen;
  }

  /** The tree is built: nothing of the advertisement or its ACKs is waiting or on the way. */
  ghost predicate AtRest(links: Links, s: Air, h: HashKey) {
    Watched(links, s, h) && TreeInv(WorldOf(links, s.nodes, h), TreeOf(s, h)) && Over(TreeOf(s, h))
  }

  lemma RoundRests(links: Links, ss: seq<Air>, acts: seq<Act>, h: HashKey)
    requires Round(links, ss, acts) && TreeStarts(links, ss[0], h) && Quiescent(ss[|acts|])
    ensures AtRest(links, ss[|acts|], h)
  {
    hide Goes, Announced, WorldOf, TreeInv, TreeOf, Over, Quiescent;
    RoundTree(links, ss, acts, h, WorldOf(links, ss[0].nodes, h));
    QuietOver(links, ss[|acts|], h);
  }

  lemma RestJoins(links: Links, s: Air, h: HashKey, x: NodeId)
    requires AtRest(links, s, h) && x in s.nodes && Joins(s.nodes[x], h)
    ensures FlowOf(h) in s.nodes[x].dist && RelayChain(links, s.nodes, FlowOf(h), x, s.nodes[x].dist[FlowOf(h)].hops)
  {
    hide WorldOf, TreeInv, RelayChain, Joined, PartOf, Seen;
    assert Ready(s.nodes[x], h) && s.nodes[x].id == x by { WatchedNode(links, s, h, x); }
    JoinsActive(links, s, h, x);
    SeeWorld(links, s.nodes, h);
    TreeBuilt(WorldOf(links, s.nodes, h), TreeOf(s, h), x);
    ChainFromJoined(links, s, h, x, TreeOf(s, h).parts[x].hops);
    PartHops(s.nodes[x], h);
  }

  /** When an ADVERTISE and ACK round has come to rest, whatever the order of deliveries and timers
      and however the coins fell, every reached group node and every relay that passed an ACK on is
      joined to the source by remote pulls along its reverse path, as long as its hop count says. */
  lemma TreeComplete(links: Links, ss: seq<Air>, acts: seq<Act>, h: HashKey, x: NodeId)
    requires Round(links, ss, acts) && TreeStarts(links, ss[0], h) && Quiescent(ss[|acts|])
    requires x in ss[|acts|].nodes && Joins(ss[|acts|].nodes[x], h)
    ensures var n, k := ss[|acts|].nodes[x], FlowOf(h);
            k in n.dist && RelayChain(links, ss[|acts|].nodes, k, x, n.dist[k].hops)
  {
    hide Goes, TreeStarts, AtRest, RelayChain, Joins, Quiescent;
    RoundRests(links, ss, acts, h);
    RestJoins(links, ss[|acts|], h, x);
  }

  lemma PartHops(n: Node, h: HashKey)
    requires h.AdvHashKey? && Ready(n, h) && h in n.hash
    ensures FlowOf(h) in n.dist && PartOf(n, h).hops == n.dist[FlowOf(h)].hops
  {
  }

  /** The reverse path of `x` leads over exactly `hops` links to the source. */
  ghost predicate Depth(links: Links, nodes: Net, k: FlowKey, x: NodeId, hops: nat)
    decreases hops
  {
    x in nodes &&
    if hops == 0 then x == k.src
    else x != k.src && k in nodes[x].revPath && Near(links, nodes.Keys, nodes[x].revPath[k].next, x) &&
         Depth(links, nodes, k, nodes[x].revPath[k].next, hops - 1)
  }

  lemma {:induction false} KnownDepth(links: Links, s: Air, h: HashKey, x: NodeId, hops: nat)
    requires Watched(links, s, h) && TreeInv(WorldOf(links, s.nodes, h), TreeOf(s, h))
    requires x in s.nodes && h in s.nodes[x].hash && TreeOf(s, h).parts[x].hops == hops
    ensures Depth(links, s.nodes, FlowOf(h), x, hops)
    decreases hops
  {
    hide WellFormed, Afoot, Bystander, Ready, TreeInv, WorldOf, TreeOf;
    var w, f := WorldOf(links, s.nodes, h), TreeOf(s, h);
    SeeWorld(links, s.nodes, h);
    PlaceOf(links, s, h, x);
    Knows(s, h, x);
    KnownPlace(w, f, x);
    if hops > 0 {
      Knows(s, h, f.parts[x].parent);
      KnownDepth(links, s, h, f.parts[x].parent, hops - 1);
    }
  }

  /** At every moment of an advertisement round, with no DATA of its source about, the hop count of
      every node that knows the advertisement is exactly the depth of its reverse path. */
  lemma HopsAreDepth(links: Links, ss: seq<Air>, acts: seq<Act>, h: HashKey, x: NodeId)
    requires Round(links, ss, acts) && TreeStarts(links, ss[0], h) && x in ss[|acts|].nodes
             && h in ss[|acts|].nodes[x].hash
    ensures FlowOf(h) in ss[|acts|].nodes[x].dist
    ensures Depth(links, ss[|acts|].nodes, FlowOf(h), x, ss[|acts|].nodes[x].dist[FlowOf(h)].hops)
  {
    var w, s := WorldOf(links, ss[0].nodes, h), ss[|acts|];
    hide Round, Announced, WorldOf, TreeInv, PartOf, Seen, Depth;
    RoundTree(links, ss, acts, h, w);
    assert Ready(s.nodes[x], h) by { WatchedNode(links, s, h, x); }
    PartHops(s.nodes[x], h);
    KnownDepth(links, s, h, x, TreeOf(s, h).parts[x].hops);
  }

  // ---- how a round starts --------------------------------------------------------------

  /** Nothing is known of the advertisement, nor of anything as recent of its flow, and nothing of
      its group or flow is afoot. */
  ghost predicate FreshFlow(links: Links, s: Air, h: HashKey) {
    && WellFormed(links, s) && h.AdvHashKey?
    && (forall m :: m in Afoot(s) ==> Stranger(h, m))
    && forall x :: x in s.nodes ==> FreshNodeFor(s.nodes[x], h)
  }

  ghost predicate FreshNodeFor(n: Node, h: HashKey)
    requires h.AdvHashKey?
  {
    var k := FlowOf(h);
    && (forall j :: j in n.advTimers ==> AdvFlow(n.advTimers[j].adv) == j)
    && (forall j :: j in n.ackTimers ==> AckFlow(n.ackTimers[j]) == j)
    && h !in n.hash && IdOf(h) !in n.advSeen && !HasAcked(n, h)
    && (k in n.revPath ==> n.revPath[k].seqNo < h.adv.sequence) && (k in n.dist ==> n.dist[k].latest != h)
  }

  lemma FreshReady(n: Node, h: HashKey)
    requires h.AdvHashKey? && FreshNodeFor(n, h) && n.id != Src(h)
    requires forall m :: m in NodeMsgs(n) ==> FloodRound.Elsewhere(m, Gid(h))
    ensures Ready(n, h) && !PartOf(n, h).known && PartOf(n, h).spreads.None? && PartOf(n, h).acks.None?
            && !PartOf(n, h).acked && !PartOf(n, h).seen
  {
    hide Children;
    var k := FlowOf(h);
    assert k in n.advTimers ==> OtaAdv(n.advTimers[k].adv) in NodeMsgs(n);
    assert k in n.ackTimers ==> OtaAck(n.ackTimers[k]) in NodeMsgs(n);
  }

  /** What announcing makes of the source. */
  lemma AnnouncerReady(n: Node, gid: GroupId, now: int)
    requires gid in n.announce && FreshNodeFor(n, AdvHash(OwnAdvertise(n, gid)))
    requires forall m :: m in NodeMsgs(n) ==> FloodRound.Elsewhere(m, gid)
    ensures OnAnnounce(n, gid, now).Running?
    ensures var h, m := AdvHash(OwnAdvertise(n, gid)), OnAnnounce(n, gid, now).node;
            Ready(m, h) && PartOf(m, h).known && PartOf(m, h).hops == 0 && PartOf(m, h).spreads.None?
              && PartOf(m, h).acks.None?
  {
    hide Children, HashedAt;
    var k := FlowKey(gid, n.id);
    assert k in n.advTimers ==> OtaAdv(n.advTimers[k].adv) in NodeMsgs(n);
    assert k in n.ackTimers ==> OtaAck(n.ackTimers[k]) in NodeMsgs(n);
  }

  lemma OwnMessage(a: Advertise, ttl: u32)
    ensures NoteOf(AdvHash(a))(OtaAdv(a.(ttl := ttl))) == Some(Ad(a.distance))
            && Bystander(AdvHash(a), OtaAdv(a.(ttl := ttl)))
  {
  }

  lemma StrangerUnseen(h: HashKey, m: OtaMsg)
    requires h.AdvHashKey?
    requires Stranger(h, m)
    ensures NoteOf(h)(m) == None && Bystander(h, m)
  {
  }

  lemma AnnouncementAfoot(links: Links, s: Air, x: NodeId, t: Air, h: HashKey, o: OtaMsg)
    requires FreshFlow(links, s, h) && SetsOut(links, s, x, t, h, o) && Bystander(h, o)
    ensures forall m :: m in Afoot(t) ==> Bystander(h, m)
  {
    hide SetsOut, Afoot, NoteOf, Bystander, FreshNodeFor;
    forall m | m in Afoot(t) ensures Bystander(h, m) {
      OriginAfoot(links, s, x, t, h, o, m);
      if m in Afoot(s) {
        StrangerUnseen(h, m);
      }
    }
  }

  lemma AnnouncementFlight(links: Links, s: Air, x: NodeId, t: Air, h: HashKey, o: OtaMsg, c: Copy)
    requires FreshFlow(links, s, h) && SetsOut(links, s, x, t, h, o) && NoteOf(h)(o) == Some(Ad(0))
             && c in Seen(t, NoteOf(h))
    ensures c.from == x && Near(links, t.nodes.Keys, x, c.to) && Seen(t, NoteOf(h))[c] == Ad(0)
  {
    hide Afoot, NoteOf, FreshNodeFor, Originates;
    OriginAir(links, s, x, t, h, o);
    if c in s.flight {
      FlightAfoot(links, s, c);
      StrangerUnseen(h, MsgOf(s.nodes, c));
    }
  }

  /** What a node brings to the start of the round. */
  ghost predicate Begins(n: Node, h: HashKey, own: bool)
    requires h.AdvHashKey?
  {
    && Ready(n, h)
    && var p := PartOf(n, h);
       && (p.known <==> own) && p.spreads.None? && p.acks.None? && (own ==> p.hops == 0)
       && (!own ==> !p.acked && !p.seen)
  }

  lemma AnnouncementNodes(links: Links, s: Air, x: NodeId, gid: GroupId, now: int, t: Air, y: NodeId)
    requires Goes(links, s, Occurs(x, AnnounceTimer(gid, now)), t) && y in t.nodes
    requires FreshFlow(links, s, AdvHash(OwnAdvertise(s.nodes[x], gid)))
    ensures Begins(t.nodes[y], AdvHash(OwnAdvertise(s.nodes[x], gid)), y == x)
  {
    hide FreshNodeFor, Ready, PartOf, NodeMsgs, OnAnnounce, AdvHash;
    var n, a := s.nodes[y], OwnAdvertise(s.nodes[x], gid);
    AdvKeyKind(a);
    forall m | m in NodeMsgs(n) ensures FloodRound.Elsewhere(m, gid) {
      assert m in Afoot(s);
    }
    if y == x {
      AnnouncerReady(n, gid, now);
    } else {
      FreshReady(n, AdvHash(a));
    }
  }

  lemma StartFromNodes(links: Links, t: Air, h: HashKey)
    requires h.AdvHashKey? && WellFormed(links, t) && (forall m :: m in Afoot(t) ==> Bystander(h, m))
    requires forall y, z :: (y, z) in links ==> (z, y) in links
    requires Src(h) in t.nodes && IsGroupNode(t.nodes[Src(h)], Gid(h))
    requires forall y :: y in t.nodes ==> Begins(t.nodes[y], h, y == Src(h))
    requires forall c :: c in Seen(t, NoteOf(h)) ==>
               c.from == Src(h) && Near(links, t.nodes.Keys, c.from, c.to) && Seen(t, NoteOf(h))[c] == Ad(0)
    ensures TreeStarts(links, t, h)
  {
    hide WellFormed, Afoot, Bystander, NoteOf, Ready, PartOf, Seen, IsGroupNode;
  }

  /** A new announcement over symmetric links, with nothing left over from its flow, starts a tree. */
  lemma AnnouncementStartsTree(links: Links, s: Air, x: NodeId, gid: GroupId, now: int, t: Air)
    requires Goes(links, s, Occurs(x, AnnounceTimer(gid, now)), t) && forall y, z :: (y, z) in links ==> (z, y) in links
    requires var h := AdvHash(OwnAdvertise(s.nodes[x], gid)); FloodRound.Floods(h) && FreshFlow(links, s, h)
    ensures TreeStarts(links, t, AdvHash(OwnAdvertise(s.nodes[x], gid)))
  {
    hide OnAnnounce, Originates, Copies, FreshNodeFor, AdvHash, Begins, WellFormed, Afoot, Bystander, NoteOf,
         IsGroupNode, Seen, Descends, TreeStarts;
    var a := OwnAdvertise(s.nodes[x], gid);
    var h, o := AdvHash(a), OtaAdv(a.(ttl := Dec32(a.srcttl)));
    AdvKeyKind(a);
    AnnouncementOriginates(s.nodes[x], gid, now);
    OriginCarries(s.nodes[x], t.nodes[x], h, o);
    OwnMessage(a, Dec32(a.srcttl));
    AnnouncementAfoot(links, s, x, t, h, o);
    OriginAir(links, s, x, t, h, o);
    assert Src(h) == x && IsGroupNode(t.nodes[x], gid) by { AnnouncerMember(s.nodes[x], gid, now);
                                                           assert s.nodes[x].id == x by {
      IdHolds(links, s, x); }
    }
    forall y | y in t.nodes ensures Begins(t.nodes[y], h, y == x) {
      AnnouncementNodes(links, s, x, gid, now, t, y);
    }
    forall c | c in Seen(t, NoteOf(h))
      ensures c.from == x && Near(links, t.nodes.Keys, x, c.to) && Seen(t, NoteOf(h))[c] == Ad(0)
    {
      AnnouncementFlight(links, s, x, t, h, o, c);
    }
    StartFromNodes(links, t, h);
  }

  lemma IdHolds(links: Links, s: Air, x: NodeId)
    requires WellFormed(links, s) && x in s.nodes
    ensures s.nodes[x].id == x
  {
  }

  lemma AnnouncerMember(n: Node, gid: GroupId, now: int)
    requires OnAnnounce(n, gid, now).Running?
    ensures IsGroupNode(OnAnnounce(n, gid, now).node, gid)
  {
    hide HashedAt, OwnDistance, AdvHash, AnyLocal;
  }
}
