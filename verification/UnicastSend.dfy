/** Unicast that a client sends, over the relay tree or with a TTL of its own: how it leaves, and that
    it arrives if it need only go downhill. */
module UnicastSend {
  import opened Types
  import opened NodeSpec
  import opened Network
  import opened Origin
  import opened Air
  import opened Traffic
  import opened Gather
  import opened GatherRound
  import opened GatherSeason
  import opened Numbers
  import opened Sharing
  import FloodRound

  // ---- sending -------------------------------------------------------------------------

  /** The message client unicast puts on the air. */
  function Outgoing(n: Node, d0: Data): Data
    requires d0.uheader.Some?
  {
    var d := Stamped(n, d0);
    var v := d.uheader.value;
    d.(uheader := Some(UnicastHeader(v.dest, RelayStart(Hops(n.dist, FlowKey(d.gid, v.dest)), v.resilience), None)),
       ttl := if d.srcttl.Some? then Dec32(d.srcttl.value) else 0)
  }

  /** Unicast that leaves: for another node, whose distance is known. */
  predicate Sendable(n: Node, d0: Data) {
    && d0.uheader.Some? && d0.uheader.value.dest != n.id
    && 0 < Hops(n.dist, FlowKey(d0.gid, d0.uheader.value.dest)) < U32 - 1
  }

  /** The TTL that the client gives its message, or that relays of the tree renew. */
  function FullOf(d0: Data): u32 { if d0.srcttl.Some? then d0.srcttl.value else 1 }

  /** The offer that the message makes when it leaves. */
  function First(n: Node, d0: Data): Offer
    requires d0.uheader.Some?
  {
    OfferOf(Outgoing(n, d0), Outgoing(n, d0).ttl)
  }

  lemma ClientUnicast(n: Node, from: Session, d0: Data, now: int)
    requires Sendable(n, d0)
    ensures OnClientData(n, from, d0, now).Running?
    ensures var m, k := OnClientData(n, from, d0, now).node, FlowKey(d0.gid, d0.uheader.value.dest);
            m.sent == n.sent + [OtaData(Outgoing(n, d0))] && Hops(m.dist, k) == Hops(n.dist, k)
  {
    hide HashedAt, DataDistance, Handed, AnyLocal, AnyRemote, NextSeq, DataHash;
    OutgoingKey(n, d0);
  }

  lemma OutgoingKey(n: Node, d0: Data)
    requires Sendable(n, d0)
    ensures var u := DataHash(Outgoing(n, d0));
            && Unicast(u) && Dest(u) == d0.uheader.value.dest && Src(u) == n.id && Gid(u) == d0.gid
            && Hops(n.dist, Guide(u)) <= RelayOf(Outgoing(n, d0)) + 1 && Full(u) == FullOf(d0)
            && Outgoing(n, d0).ttl == Dec32(Full(u))
  {
    hide NextSeq;
  }

  // ---- resilience ----------------------------------------------------------------------

  /** What leaves allows relays one hop nearer than the client's node at low resilience, relays as far
      as it at medium, and relays one hop farther at high; the wish itself does not leave. */
  lemma RelayDistances(n: Node, s: Session, d0: Data, now: int)
    requires Sendable(n, d0)
    ensures OnClientData(n, s, d0, now).Running?
    ensures var m, hops := OnClientData(n, s, d0, now).node, Hops(n.dist, FlowKey(d0.gid, d0.uheader.value.dest));
            && |m.sent| == |n.sent| + 1 && n.sent <= m.sent && m.sent[|n.sent|].OtaData?
            && var o := m.sent[|n.sent|].data;
               && o.uheader.Some? && o.uheader.value.dest == d0.uheader.value.dest && o.uheader.value.resilience.None?
               && o.gid == d0.gid && o.srcnode == n.id && o.srcttl == d0.srcttl
               && match d0.uheader.value.resilience
                  case Some(High) => o.uheader.value.relaydistance == hops + 1
                  case Some(Medium) => o.uheader.value.relaydistance == hops
                  case _ => o.uheader.value.relaydistance + 1 == hops
  {
    hide HashedAt, Handed, AnyLocal, AnyRemote, NextSeq, DataHash;
    assert OnClientData(n, s, d0, now).node.sent[..|n.sent|] == n.sent;
  }

  /** Without a known distance nothing leaves. */
  lemma NothingLeaves(n: Node, s: Session, d0: Data, now: int)
    requires d0.uheader.Some? && d0.uheader.value.dest != n.id
    requires Hops(n.dist, FlowKey(d0.gid, d0.uheader.value.dest)) == 0
    ensures OnClientData(n, s, d0, now).Running? && OnClientData(n, s, d0, now).node.sent == n.sent
  {
    hide HashedAt, Handed, AnyLocal, AnyRemote, NextSeq, DataHash;
  }

  /** A node that would take the message up as far as its TTL is concerned. */
  predicate Carrier(n: Node, d: Data) {
    if d.srcttl.None? then RelaysTree(n, d.gid) else IsGroupNode(n, d.gid) || d.ttl > 0
  }

  /** What resilience buys: hearing the message straight from its origin, a node nearer than the origin
      passes it on in any case, one as far away at medium and high resilience, and one that is a hop
      farther at high resilience only. */
  lemma ResilienceBuys(n: Node, s: Session, d0: Data, now: int, y: Node, later: int)
    requires Sendable(n, d0) && y.id != d0.uheader.value.dest && FloodRound.Keyed(y)
    requires OnClientData(n, s, d0, now).Running? && |OnClientData(n, s, d0, now).node.sent| > |n.sent|
    requires var o := OnClientData(n, s, d0, now).node.sent[|n.sent|];
             o.OtaData? && DataHash(o.data) !in y.hash && DataHash(o.data) !in y.dataTimers && Carrier(y, o.data)
    ensures var o, k := OnClientData(n, s, d0, now).node.sent[|n.sent|].data, FlowKey(d0.gid, d0.uheader.value.dest);
            var hops, far := Hops(n.dist, k), Hops(y.dist, k);
            DataHash(o) in OnData(y, o, n.id, later).dataTimers <==>
              0 < far && match d0.uheader.value.resilience
                         case Some(High) => far <= hops + 1
                         case Some(Medium) => far <= hops
                         case _ => far < hops
  {
    RelayDistances(n, s, d0, now);
    hide OnClientData, OnData;
    var o := OnClientData(n, s, d0, now).node.sent[|n.sent|].data;
    var u := DataHash(o);
    assert Unicast(u) && Guide(u) == FlowKey(d0.gid, d0.uheader.value.dest) && Dest(u) == d0.uheader.value.dest;
    DataHears(y, o, n.id, later, u);
    CarrierReplies(y, o, u);
  }

  lemma CarrierReplies(n: Node, d: Data, u: HashKey)
    requires Unicast(u) && DataHash(d) == u
    ensures Carrier(n, d) <==> Reply(DutyIn(n, u), Full(u), d.ttl).Some?
  {
    hide RelaysTree, IsGroupNode;
    HeaderOf(d, u);
  }

  /** Unicast with a TTL of its source, heard for the first time: it waits to be passed on at nodes that
      it allows, in the group with the TTL of the source unless that is not to be renewed and some is
      left, elsewhere with what is left, if anything is. */
  lemma SourceTtlWaits(n: Node, d0: Data, from: NodeId, now: int)
    requires d0.srcttl.Some? && d0.uheader.Some? && d0.uheader.value.dest != n.id && d0.uheader.value.dest != d0.srcnode
    requires FloodRound.Keyed(n) && DataHash(d0) !in n.hash && DataHash(d0) !in n.dataTimers
    ensures var u, m := DataHash(d0), OnData(n, d0, from, now);
            var hops, inside := Hops(n.dist, FlowKey(d0.gid, d0.uheader.value.dest)), IsGroupNode(n, d0.gid);
            && (u in m.dataTimers <==> 0 < hops <= d0.uheader.value.relaydistance && (inside || d0.ttl > 0))
            && (u in m.dataTimers ==>
                  && var p := m.dataTimers[u];
                     && p.data.uheader.Some? && p.data.uheader.value.relaydistance == hops - 1
                     && p.ttl == if inside && (!d0.nottlregen || d0.ttl == 0) then d0.srcttl.value else d0.ttl)
  {
    var u := DataHash(d0);
    assert Unicast(u) && Guide(u) == FlowKey(d0.gid, d0.uheader.value.dest) && Dest(u) == d0.uheader.value.dest;
    hide OnData, IsGroupNode;
    DataHears(n, d0, from, now, u);
    HeaderOf(d0, u);
    if u in OnData(n, d0, from, now).dataTimers {
      WaitingHeader(OnData(n, d0, from, now), u);
    }
  }

  /** Unicast along the tree, heard for the first time: it waits at nodes that it allows and that have a
      remote pull of the group, or are in the group and set to relay always. */
  lemma TreeWaits(n: Node, d0: Data, from: NodeId, now: int)
    requires d0.srcttl.None? && d0.uheader.Some? && d0.uheader.value.dest != n.id && d0.uheader.value.dest != d0.srcnode
    requires FloodRound.Keyed(n) && DataHash(d0) !in n.hash && DataHash(d0) !in n.dataTimers
    ensures var u, m := DataHash(d0), OnData(n, d0, from, now);
            var hops := Hops(n.dist, FlowKey(d0.gid, d0.uheader.value.dest));
            && (u in m.dataTimers <==>
                  && 0 < hops <= d0.uheader.value.relaydistance
                  && ((exists e :: e in n.remotePull && e.gid == d0.gid) ||
                      (n.alwaysRebroadcast && (d0.gid in n.announce
                                               || exists e :: e in n.localPull && e.gid == d0.gid))))
            && (u in m.dataTimers ==>
                  && m.dataTimers[u].data.uheader.Some? && m.dataTimers[u].data.uheader.value.relaydistance == hops - 1)
  {
    var u := DataHash(d0);
    assert Unicast(u) && Guide(u) == FlowKey(d0.gid, d0.uheader.value.dest) && Dest(u) == d0.uheader.value.dest;
    hide OnData;
    DataHears(n, d0, from, now, u);
    HeaderOf(d0, u);
    if u in OnData(n, d0, from, now).dataTimers {
      WaitingHeader(OnData(n, d0, from, now), u);
    }
  }

  lemma WaitingHeader(n: Node, u: HashKey)
    requires FloodRound.Keyed(n) && Unicast(u) && u in n.dataTimers
    ensures n.dataTimers[u].data.uheader.Some?
  {
    HeaderOf(n.dataTimers[u].data, u);
  }

  /** A source TTL of at least two more than the relay distance lasts for every node. */
  lemma AmpleTtl(links: Links, nodes: Net, n: Node, d0: Data, p: NodeId)
    requires Sendable(n, d0) && d0.srcttl.Some? && RelayOf(Outgoing(n, d0)) + 2 <= d0.srcttl.value && p in nodes
    ensures var u := DataHash(Outgoing(n, d0)); Unicast(u) && Lasts(WorldOf(links, nodes, u), First(n, d0), p)
  {
    OutgoingKey(n, d0);
    var u := DataHash(Outgoing(n, d0));
    assert DutyIn(nodes[p], u) != Rests by { OffTree(n, d0, nodes[p]); }
    hide DutyIn, Outgoing, DataHash, Lasts;
    AmpleLasts(WorldOf(links, nodes, u), First(n, d0), p);
  }

  lemma OffTree(n: Node, d0: Data, p: Node)
    requires Sendable(n, d0) && d0.srcttl.Some?
    ensures DutyIn(p, DataHash(Outgoing(n, d0))) != Rests
  {
    hide NextSeq, IsGroupNode, RelaysTree;
  }

  /** `x` puts the outgoing message on the air, whatever else is there. */
  ghost predicate Sends(links: Links, s: Air, x: NodeId, d0: Data, t: Air) {
    && WellFormed(links, s) && x in s.nodes && x in t.nodes && Sendable(s.nodes[x], d0)
    && t.nodes == s.nodes[x := t.nodes[x]] && t.flight == s.flight + Copies(links, s.nodes, x, |s.nodes[x].sent|)
    && var n, m, k := s.nodes[x], t.nodes[x], FlowKey(d0.gid, d0.uheader.value.dest);
       Said(n, m, d0) && m.sent == n.sent + [OtaData(Outgoing(n, d0))] && Hops(m.dist, k) == Hops(n.dist, k)
  }

  lemma ClientSendsUnicast(links: Links, s: Air, a: Act, t: Air)
    requires WellFormed(links, s) && Goes(links, s, a, t) && Talks(a) && a.node in s.nodes
             && Sendable(s.nodes[a.node], SaidBy(a))
    ensures Sends(links, s, a.node, SaidBy(a), t)
  {
    hide OnClientData, Outgoing, Hops, Copies, Sendable, WellFormed, Said;
    TalkNode(links, s, a, t);
    ClientUnicast(s.nodes[a.node], a.event.session, SaidBy(a), a.event.now);
  }

  lemma SendsFacts(links: Links, s: Air, x: NodeId, d0: Data, t: Air)
    requires Sends(links, s, x, d0, t)
    ensures x in s.nodes && x in t.nodes && s.nodes[x].id == x && Sendable(s.nodes[x], d0)
            && t.nodes == s.nodes[x := t.nodes[x]]
    ensures Said(s.nodes[x], t.nodes[x], d0) && t.nodes[x].sent == s.nodes[x].sent + [OtaData(Outgoing(s.nodes[x], d0))]
    ensures t.flight == s.flight + Copies(links, s.nodes, x, |s.nodes[x].sent|) && WellFormed(links, s)
    ensures d0.uheader.Some? && var k := FlowKey(d0.gid, d0.uheader.value.dest);
            Hops(t.nodes[x].dist, k) == Hops(s.nodes[x].dist, k) && Hops(s.nodes[x].dist, k) > 0
  {
  }

  /** What was on the air stays; what is new is the message. */
  lemma SentAir(links: Links, s: Air, x: NodeId, d0: Data, t: Air)
    requires Sends(links, s, x, d0, t)
    ensures WellFormed(links, t)
    ensures forall c :: c in s.flight ==>
              OnAir(links, t.nodes, c) && MsgOf(t.nodes, c) == MsgOf(s.nodes, c)
                && !(c.from == x && c.index == |s.nodes[x].sent|)
    ensures forall c :: c in t.flight && c !in s.flight ==>
              OnAir(links, t.nodes, c) && MsgOf(t.nodes, c) == OtaData(Outgoing(s.nodes[x], d0))
  {
    hide Sends, Sendable, Outgoing, Said;
    SendsFacts(links, s, x, d0, t);
    SaidLog(s.nodes[x], t.nodes[x], d0);
  }

  lemma SentAfoot(links: Links, s: Air, x: NodeId, d0: Data, t: Air, o: OtaMsg)
    requires Sends(links, s, x, d0, t) && o in Afoot(t)
    ensures x in s.nodes && d0.uheader.Some? && (o in Afoot(s) || o == OtaData(Outgoing(s.nodes[x], d0)))
  {
    SendsFacts(links, s, x, d0, t);
    SentAir(links, s, x, d0, t);
    SaidWaits(s.nodes[x], t.nodes[x], d0);
    hide Sends, Sendable, Outgoing, Said, NodeMsgs;
    if y :| y in t.nodes && o in NodeMsgs(t.nodes[y]) {
      assert y in s.nodes && o in NodeMsgs(s.nodes[y]);
    } else {
      var c :| c in t.flight && c.from in t.nodes && c.index < |t.nodes[c.from].sent| && MsgOf(t.nodes, c) == o;
      assert c in s.flight ==> o == MsgOf(s.nodes, c);
    }
  }

  lemma SaidWaits(n: Node, m: Node, d0: Data)
    requires Said(n, m, d0)
    ensures NodeMsgs(m) == NodeMsgs(n) && (FloodRound.Keyed(n) ==> FloodRound.Keyed(m)) && m.dataTimers == n.dataTimers
    ensures forall u :: DutyIn(m, u) == DutyIn(n, u)
  {
    hide DataHash, Stamped, Utters, DutyIn;
    forall u ensures DutyIn(m, u) == DutyIn(n, u) { SameDuty(n, m, u); }
  }

  /** Nothing but bystanders of the message about. */
  ghost predicate Undisturbed(s: Air, u: HashKey)
    requires Unicast(u)
  {
    (forall m :: m in Afoot(s) ==> Bystander(u, m)) && forall y :: y in s.nodes ==> FloodRound.Keyed(s.nodes[y])
  }

  lemma OwnBystander(n: Node, d0: Data)
    requires Sendable(n, d0)
    ensures Unicast(DataHash(Outgoing(n, d0))) && Bystander(DataHash(Outgoing(n, d0)), OtaData(Outgoing(n, d0)))
  {
    hide NextSeq;
    OutgoingKey(n, d0);
  }

  lemma OnceSent(s: seq<OtaMsg>, m: OtaMsg, u: HashKey)
    requires (forall o :: o in s ==> KeyOf(o) != Some(u)) && KeyOf(m) == Some(u)
    ensures FloodRound.TimesSent(s + [m], u) == 1
  {
    hide FloodRound.TimesSent, DataHash, AdvHash;
    FloodRound.UnsentCount(s, u);
    FloodRound.TimesSentAppend(s, m, u);
  }

  lemma SentWatched(links: Links, s: Air, x: NodeId, d0: Data, t: Air)
    requires Sends(links, s, x, d0, t) && Sendable(s.nodes[x], d0) && Unicast(DataHash(Outgoing(s.nodes[x], d0)))
    requires var u := DataHash(Outgoing(s.nodes[x], d0)); Undisturbed(s, u) && Unnamed(s.nodes, u)
    ensures Watched(links, t, DataHash(Outgoing(s.nodes[x], d0)))
  {
    hide Sends, Sendable, Outgoing, DataHash, Afoot, FloodRound.Keyed, FloodRound.TimesSent, Bystander, Said;
    SendsFacts(links, s, x, d0, t);
    var u := DataHash(Outgoing(s.nodes[x], d0));
    SentAir(links, s, x, d0, t);
    OutgoingKey(s.nodes[x], d0);
    OwnBystander(s.nodes[x], d0);
    SaidWaits(s.nodes[x], t.nodes[x], d0);
    OnceSent(s.nodes[x].sent, OtaData(Outgoing(s.nodes[x], d0)), u);
    forall o | o in Afoot(t) ensures Bystander(u, o) { SentAfoot(links, s, x, d0, t, o); }
  }

  lemma SentFlight(links: Links, s: Air, x: NodeId, d0: Data, t: Air)
    requires Sends(links, s, x, d0, t) && Sendable(s.nodes[x], d0)
             && Unnamed(s.nodes, DataHash(Outgoing(s.nodes[x], d0)))
    ensures var o := Outgoing(s.nodes[x], d0);
            Broadcasts<Offer>(links, t.nodes.Keys, x, OfferOf(o, o.ttl), map[], Seen(t, OfferSeen(DataHash(o))))
  {
    hide Sends, Sendable, Outgoing, DataHash, OfferOf, Copies, Sight, Broadcasts, Unnamed, Said;
    SendsFacts(links, s, x, d0, t);
    SentAir(links, s, x, d0, t);
    var o := Outgoing(s.nodes[x], d0);
    var see := OfferSeen(DataHash(o));
    SeesOffer(DataHash(o), o);
    forall c | c in s.flight ensures Sight(s, c, see) == None && Sight(t, c, see) == None {
      NotYet(links, s, c, DataHash(o));
      SightOf(links, t, c, see);
    }
    forall c | c in t.flight && c !in s.flight
      ensures Sight(t, c, see) == Some(OfferOf(o, o.ttl))
    {
      SightOf(links, t, c, see);
    }
    assert Seen(s, see) == map[];
    FreshCopiesSeen<Offer>(links, s, x, |s.nodes[x].sent|, t, see, Some(OfferOf(o, o.ttl)));
  }

  lemma NotYet(links: Links, s: Air, c: Copy, u: HashKey)
    requires WellFormed(links, s) && Unnamed(s.nodes, u) && c in s.flight
    ensures OnAir(links, s.nodes, c) && OfferSeen(u)(MsgOf(s.nodes, c)) == None && Sight(s, c, OfferSeen(u)) == None
  {
    hide DataHash, AdvHash;
    assert MsgOf(s.nodes, c) in s.nodes[c.from].sent;
  }

  lemma SightOf<V>(links: Links, t: Air, c: Copy, see: OtaMsg -> Option<V>)
    requires OnAir(links, t.nodes, c)
    ensures Sight(t, c, see) == see(MsgOf(t.nodes, c))
  {
  }

  lemma SentParts(links: Links, s: Air, x: NodeId, d0: Data, t: Air)
    requires Sends(links, s, x, d0, t) && Sendable(s.nodes[x], d0)
    requires var u := DataHash(Outgoing(s.nodes[x], d0)); Unicast(u) && Undisturbed(s, u) && Unnamed(s.nodes, u)
    ensures var u := DataHash(Outgoing(s.nodes[x], d0));
            HasOf(t.nodes, u) <= {x} && ForwardedOf(t.nodes, u) == map[] && WaitingOf(t.nodes, u) == map[]
  {
    var u := DataHash(Outgoing(s.nodes[x], d0));
    OutgoingKey(s.nodes[x], d0);
    hide Sends, Sendable, Outgoing, DataHash, FloodRound.TimesSent, LastTtl, Afoot, Bystander;
    SendsFacts(links, s, x, d0, t);
    SaidWaits(s.nodes[x], t.nodes[x], d0);
    OnceSent(s.nodes[x].sent, OtaData(Outgoing(s.nodes[x], d0)), u);
    assert t.nodes[x].id == x;
    hide Said;
    forall y | y in t.nodes
      ensures !HasForwarded(t.nodes[y], u) && u !in t.nodes[y].dataTimers && (y != x ==> u !in t.nodes[y].hash)
    {
      assert u !in s.nodes[y].dataTimers;
      FloodRound.UnsentCount(s.nodes[y].sent, u);
    }
    hide HasForwarded;
  }

  lemma SentStarts(links: Links, s: Air, x: NodeId, d0: Data, t: Air)
    requires Sends(links, s, x, d0, t) && Sendable(s.nodes[x], d0)
    requires var u := DataHash(Outgoing(s.nodes[x], d0)); Unicast(u) && Undisturbed(s, u) && Unnamed(s.nodes, u)
    ensures var o := Outgoing(s.nodes[x], d0);
            && GatherStarts(links, t, DataHash(o), OfferOf(o, o.ttl))
            && WorldOf(links, t.nodes, DataHash(o)) == WorldOf(links, s.nodes, DataHash(o))
            && AllShared(t, DataHash(o))
  {
    hide Sends, Sendable, Outgoing, DataHash, Watched, Unnamed, Undisturbed, Broadcasts, Hops, DutyIn, HasOf,
         ForwardedOf, WaitingOf, Seen, IsDue, IsHanded, Said;
    SendsFacts(links, s, x, d0, t);
    var o := Outgoing(s.nodes[x], d0);
    var u := DataHash(o);
    OutgoingKey(s.nodes[x], d0);
    SaidWaits(s.nodes[x], t.nodes[x], d0);
    SentWatched(links, s, x, d0, t);
    SentFlight(links, s, x, d0, t);
    SentParts(links, s, x, d0, t);
    SameWorld(links, s.nodes, t.nodes, x, u);
    WorldAt(links, t.nodes, u, x);
    var w := WorldOf(links, t.nodes, u);
    assert w.level.Keys == t.nodes.Keys && w.origin == x && w.links == links;
    assert t.nodes[x].id == x by { SentAir(links, s, x, d0, t); }
    assert forall y :: y in t.nodes && u in t.nodes[y].hash ==> y == x by { HasMeans(t.nodes, u); }
  }

  lemma HasMeans(nodes: Net, u: HashKey)
    ensures forall y :: y in HasOf(nodes, u) <==> y in nodes && u in nodes[y].hash
  {
  }

  // ---- every message of a season -------------------------------------------------------

  lemma OutgoingNumber(n: Node, d0: Data)
    requires Sendable(n, d0)
    ensures var u := DataHash(Outgoing(n, d0));
            u.DataHashKey? && FlowOf(u) == FlowKey(d0.gid, n.id) && SeqNo(u) == NextSeq(n, d0.gid)
  {
    hide NextSeq;
  }

  /** Sending it starts a gathering towards the destination. */
  lemma MessageStarts(links: Links, s: Air, a: Act, t: Air, bound: nat)
    requires WellFormed(links, s) && Goes(links, s, a, t) && Talks(a) && a.node in s.nodes
    requires Sendable(s.nodes[a.node], SaidBy(a)) && Numbered(s.nodes, bound) && bound + 1 < U64
    requires var u := DataHash(Outgoing(s.nodes[a.node], SaidBy(a))); Unicast(u) && Undisturbed(s, u)
    ensures a.node in t.nodes
    ensures var n, d0 := s.nodes[a.node], SaidBy(a); var u := DataHash(Outgoing(n, d0));
            && Src(u) == a.node && Dest(u) == d0.uheader.value.dest && Gid(u) == d0.gid
            && GatherStarts(links, t, u, First(n, d0)) && AllShared(t, u)
            && WorldOf(links, t.nodes, u) == WorldOf(links, s.nodes, u)
            && SeqNo(u) <= Counter(Group, t.nodes[a.node], Gid(u))
  {
    hide Goes, DataHash, Sendable, NodeNumbered, Outgoing, Undisturbed, Unnamed, Watched, Departed, AllShared, Said,
         WorldOf, WellFormed;
    var x, d0, n := a.node, SaidBy(a), s.nodes[a.node];
    ClientSendsUnicast(links, s, a, t);
    SendsFacts(links, s, x, d0, t);
    OutgoingKey(n, d0);
    OutgoingNumber(n, d0);
    NextUnnamed(s.nodes, x, d0, DataHash(Outgoing(n, d0)), bound);
    SentStarts(links, s, x, d0, t);
    SaidNumber(n, t.nodes[x], d0);
  }

  lemma LaterLeaves(links: Links, ss: seq<Air>, acts: seq<Act>, u: HashKey, i: nat, j: nat, bound: nat)
    requires Season(links, ss, acts) && Numbered(ss[0].nodes, bound) && bound + |acts| < U64 && i <= j < |acts|
    requires Unicast(u) && Spares(acts[j], Guide(u))
    requires Src(u) in ss[i].nodes && SeqNo(u) <= Counter(Group, ss[i].nodes[Src(u)], Gid(u))
    ensures Leaves(ss[j], acts[j], u)
  {
    hide Goes, Numbered, Counter, Unicast, Apart;
    if Talks(acts[j]) && acts[j].node in ss[j].nodes {
      LaterApart(links, ss, acts, i, j, u, bound);
    }
  }

  /** What follows the sending. */
  lemma UnicastEnds(links: Links, ss: seq<Air>, acts: seq<Act>, u: HashKey, first: Offer)
    requires Unicast(u) && Season(links, ss, acts) && GatherStarts(links, ss[0], u, first) && AllShared(ss[0], u)
    requires (forall j :: 0 <= j < |acts| ==> Leaves(ss[j], acts[j], u))
             && Downhill(WorldOf(links, ss[0].nodes, u), first)
    requires Dest(u) in ss[|acts|].nodes && Dest(u) != Src(u) && Gone(ss[|acts|], u)
    ensures var n := ss[|acts|].nodes[Dest(u)]; u in n.hash && forall to :: IsDue(n, to, u) ==> IsHanded(n, to, u)
  {
    hide Goes, Downhill, WorldOf, Watched, Departed, Gone, IsDue, IsHanded, Apart;
    DestinationServed(links, ss, acts, u, first);
    SeasonShared(links, ss, acts, u);
    assert Shared(ss[|acts|].nodes[Dest(u)], u);
  }

  /** Every unicast message that a client sends, over the tree or with a TTL of its own, arrives and is
      handed over, whatever the order of events and whatever other messages are about, if when it was
      sent every node that may have to send it had a nearer one next to it that is the destination or
      knows its distance and is one that the TTL lasts for. */
  lemma UnicastArrives(links: Links, ss: seq<Air>, acts: seq<Act>, i: nat, bound: nat)
    requires Season(links, ss, acts) && Numbered(ss[0].nodes, bound) && bound + |acts| < U64
    requires i < |acts| && Talks(acts[i]) && acts[i].node in ss[i].nodes && WellFormed(links, ss[i])
    requires Sendable(ss[i].nodes[acts[i].node], SaidBy(acts[i]))
    requires var n, d0 := ss[i].nodes[acts[i].node], SaidBy(acts[i]); var u := DataHash(Outgoing(n, d0));
             && Unicast(u) && Undisturbed(ss[i], u) && Gone(ss[|acts|], u) && Dest(u) in ss[0].nodes
             && Downhill(WorldOf(links, ss[i].nodes, u), First(n, d0))
             && forall j :: i < j < |acts| ==> Spares(acts[j], Guide(u))
    ensures var d0 := SaidBy(acts[i]);
            var x, u := d0.uheader.value.dest, DataHash(Outgoing(ss[i].nodes[acts[i].node], d0));
            && x in ss[|acts|].nodes && u in ss[|acts|].nodes[x].hash
            && u.DataHashKey? && forall to :: IsDue(ss[|acts|].nodes[x], to, u) ==> IsHanded(ss[|acts|].nodes[x], to, u)
  {
    hide Goes, Numbered, Outgoing, DataHash, Gone, IsDue, IsHanded, GatherStarts, Downhill, AllShared, Counter, Leaves,
         WorldOf, Undisturbed, Spares, WellFormed;
    var s, t, a, all := ss[i], ss[i + 1], acts[i], |acts|;
    SeasonNumbered(links, ss, acts, i, bound);
    SeasonNodes(links, ss, acts, all);
    MessageStarts(links, s, a, t, bound + i);
    var n, d0 := s.nodes[a.node], SaidBy(a);
    var u := DataHash(Outgoing(n, d0));
    forall j | i + 1 <= j < all ensures Leaves(ss[j], acts[j], u) { LaterLeaves(links, ss, acts, u, i + 1, j, bound); }
    SeasonPart(links, ss, acts, i + 1, all);
    UnicastEnds(links, ss[i + 1..all + 1], acts[i + 1..all], u, First(n, d0));
  }

  lemma {:induction false} SeasonNodes(links: Links, ss: seq<Air>, acts: seq<Act>, i: nat)
    requires Season(links, ss, acts) && i <= |acts|
    ensures ss[i].nodes.Keys == ss[0].nodes.Keys
    decreases i
  {
    hide React, Aired;
    if i > 0 {
      SeasonNodes(links, ss, acts, i - 1);
    }
  }
}
