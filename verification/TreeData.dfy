/** Group DATA over the relay tree: every node joined to the source gets it and hands it on, however
    often the source sends. */
module TreeData {
  import opened Types
  import opened NodeSpec
  import opened Network
  import opened Origin
  import opened Air
  import opened Traffic
  import opened Flood
  import opened FloodRound
  import opened FloodStart
  import opened FloodSeason
  import opened Numbers
  import opened Sharing
  import PullTable
  import TreeRound
  import TreeSeason

  // ---- relay chains last ---------------------------------------------------------------

  /** The node keeps its place in the flow's tree and its children. */
  ghost predicate KeepsPlace(n: Node, m: Node, k: FlowKey) {
    && (k in n.revPath ==> k in m.revPath && m.revPath[k] == n.revPath[k])
    && (forall c :: TreeRound.HasChild(n, k.gid, c) ==> TreeRound.HasChild(m, k.gid, c))
    && (k.gid in n.announce && n.announce[k.gid].pullSent ==> k.gid in m.announce && m.announce[k.gid].pullSent)
  }

  lemma SamePlace(n: Node, m: Node, k: FlowKey)
    requires m.revPath == n.revPath && m.remotePull == n.remotePull && m.announce == n.announce
    ensures KeepsPlace(n, m, k)
  {
  }

  lemma AdvertisePlace(n: Node, a: Advertise, from: NodeId, now: int, k: FlowKey)
    requires a.gid != k.gid
    ensures KeepsPlace(n, OnAdvertise(n, a, from, now), k)
  {
    hide HashedAt, Overrides, PullWrites, AdvForward, NextDistance, JoinsTree, AdvRaises, AdvHash;
  }

  lemma AckPlace(n: Node, a: Ack, from: NodeId, draw: nat, now: int, k: FlowKey)
    requires a.gid != k.gid && OnAck(n, a, from, draw, now).Running?
    ensures KeepsPlace(n, OnAck(n, a, from, draw, now).node, k)
  {
    hide PullWrites, AddPull, Chosen, Adopts, Flips, PassesAck;
    var m := OnAck(n, a, from, draw, now).node;
    forall c | TreeRound.HasChild(n, k.gid, c) ensures TreeRound.HasChild(m, k.gid, c) {
      KeepsChild(n, a, from, now, k, c, m);
    }
  }

  lemma KeepsChild(n: Node, a: Ack, from: NodeId, now: int, k: FlowKey, c: NodeId, m: Node)
    requires a.gid != k.gid && TreeRound.HasChild(n, k.gid, c)
    requires m.remotePull == n.remotePull || m.remotePull == AddPull(n.remotePull, RemotePull(a.gid, from, now))
    ensures TreeRound.HasChild(m, k.gid, c)
  {
    var x :| x in n.remotePull && x.gid == k.gid && x.node == c;
    if m.remotePull != n.remotePull {
      PullTable.AddPullMembers(n.remotePull, RemotePull(a.gid, from, now), x);
    }
  }

  lemma ReactPlace(n: Node, e: Event, k: FlowKey)
    requires (e.Receive? || TimerEvent(e)) && React(n, e).Running? && (e.Receive? ==> Elsewhere(e.msg, k.gid))
    ensures KeepsPlace(n, React(n, e).node, k)
  {
    if TimerEvent(e) {
      hide React, KeepsPlace, TimerMsg;
      TimerReact(n, e);
      SamePlace(n, React(n, e).node, k);
    } else if e.from != n.id {
      hide OnAdvertise, OnAck, OnData, KeepsPlace, DataDistance, DataForward, DataHash;
      match e.msg
      case OtaAck(a) => AckPlace(n, a, e.from, e.draw, e.now, k);
      case OtaAdv(a) => AdvertisePlace(n, a, e.from, e.now, k);
      case OtaData(d) => DataTables(n, d, e.from, e.now); SamePlace(n, OnData(n, d, e.from, e.now), k);
    }
  }

  /** Nothing of the group but DATA is waiting or on the way. */
  ghost predicate Free(s: Air, gid: GroupId) { forall m :: m in Afoot(s) ==> Elsewhere(m, gid) }

  lemma StepFree(links: Links, s: Air, a: Act, t: Air, gid: GroupId)
    requires WellFormed(links, s) && Free(s, gid) && Goes(links, s, a, t) && (Relaying(a) || Talks(a))
    ensures WellFormed(links, t) && Free(t, gid)
  {
    hide Goes, Afoot, WellFormed;
    if Talks(a) { TalkAir(links, s, a, t); } else { FlightStays(links, s, a, t); }
    forall o | o in Afoot(t) ensures Elsewhere(o, gid) {
      if Talks(a) {
        TalkAfoot(links, s, a, t, o);
      } else {
        AfootCaused(links, s, a, t, o);
        var m :| m in Afoot(s) && (o == m || Descends(o, m));
        StaysElsewhere(o, m, gid);
      }
    }
  }

  lemma StaysElsewhere(o: OtaMsg, m: OtaMsg, gid: GroupId)
    requires Elsewhere(m, gid) && (o == m || Descends(o, m))
    ensures Elsewhere(o, gid)
  {
    if o.OtaAdv? && m.OtaAdv? {
      AdvKeyKind(o.adv);
      AdvKeyKind(m.adv);
    }
  }

  ghost predicate KeepsPlaces(nodes: Net, next: Net, k: FlowKey) {
    nodes.Keys == next.Keys && forall x :: x in nodes ==> KeepsPlace(nodes[x], next[x], k)
  }

  lemma StepPlaces(links: Links, s: Air, a: Act, t: Air, k: FlowKey)
    requires Free(s, k.gid) && Goes(links, s, a, t) && (Relaying(a) || Talks(a))
    ensures KeepsPlaces(s.nodes, t.nodes, k)
  {
    hide React, KeepsPlace, Aired, NodeMsgs, Said, Elsewhere;
    if Talks(a) {
      TalkNode(links, s, a, t);
      SaidPlace(s.nodes[a.node], t.nodes[a.node], SaidBy(a), k);
    } else {
      assert a.Deliver? ==> MsgOf(s.nodes, a.copy) in Afoot(s);
      assert TimerEvent(EventOf(s, a)) || EventOf(s, a).Receive?;
      ReactPlace(s.nodes[Actor(a)], EventOf(s, a), k);
    }
    forall x | x in s.nodes && x != Actor(a)
      ensures KeepsPlace(s.nodes[x], t.nodes[x], k)
    {
      SamePlace(s.nodes[x], t.nodes[x], k);
    }
  }

  lemma SaidPlace(n: Node, m: Node, d0: Data, k: FlowKey)
    requires Said(n, m, d0)
    ensures KeepsPlace(n, m, k)
  {
    SamePlace(n, m, k);
  }

  lemma {:induction false} ChainStays(links: Links, nodes: Net, next: Net, k: FlowKey, x: NodeId, hops: nat)
    requires TreeRound.RelayChain(links, nodes, k, x, hops) && KeepsPlaces(nodes, next, k)
    ensures TreeRound.RelayChain(links, next, k, x, hops)
    decreases hops
  {
    hide TreeRound.HasChild;
    assert KeepsPlace(nodes[x], next[x], k);
    if hops > 0 {
      var p := nodes[x].revPath[k].next;
      assert KeepsPlace(nodes[p], next[p], k);
      ChainStays(links, nodes, next, k, p, hops - 1);
    }
  }

  /** DATA of any flow leaves relay chains as they are. */
  lemma {:induction false} SeasonChains(links: Links, ss: seq<Air>, acts: seq<Act>, i: nat, k: FlowKey, x: NodeId,
                                        hops: nat)
    requires Season(links, ss, acts) && WellFormed(links, ss[0]) && Free(ss[0], k.gid) && i <= |acts|
    requires TreeRound.RelayChain(links, ss[0].nodes, k, x, hops)
    ensures WellFormed(links, ss[i]) && Free(ss[i], k.gid) && TreeRound.RelayChain(links, ss[i].nodes, k, x, hops)
    decreases i
  {
    hide Goes, WellFormed, Free, TreeRound.RelayChain, KeepsPlaces;
    if i > 0 {
      SeasonChains(links, ss, acts, i - 1, k, x, hops);
      StepFree(links, ss[i - 1], acts[i - 1], ss[i], k.gid);
      StepPlaces(links, ss[i - 1], acts[i - 1], ss[i], k);
      ChainStays(links, ss[i - 1].nodes, ss[i].nodes, k, x, hops);
    }
  }

  // ---- along a chain -------------------------------------------------------------------

  /** Along a relay chain DATA of the flow is heard, and passed on by whoever relays. */
  lemma {:induction false} ChainHears(links: Links, nodes: Net, h: HashKey, x: NodeId, hops: nat)
    requires TreeRound.RelayChain(links, nodes, FlowOf(h), x, hops) && AlongTree(h)
             && forall y :: y in nodes ==> nodes[y].id == y
    ensures var w := FloodRound.WorldOf(links, nodes, h);
            (hops > 0 ==> CanHear(w, x, 0, hops))
              && (hops == 0 || RelaysTree(nodes[x], Gid(h)) ==> CanSend(w, x, 1, hops))
    decreases hops
  {
    var w := FloodRound.WorldOf(links, nodes, h);
    if hops > 0 {
      var p := nodes[x].revPath[FlowOf(h)].next;
      ChainHears(links, nodes, h, p, hops - 1);
      assert p != Src(h) ==> AnyRemote(nodes[p].remotePull, Gid(h));
      assert Linked(w, p, x) && CanSend(w, p, 1, hops - 1);
      assert CanHear(w, x, 0, hops);
    }
  }

  lemma {:induction false} ChainSource(links: Links, nodes: Net, k: FlowKey, x: NodeId, hops: nat)
    requires TreeRound.RelayChain(links, nodes, k, x, hops) && hops > 0
    ensures x in nodes && x != k.src && k.src in nodes && AnyRemote(nodes[k.src].remotePull, k.gid)
    ensures k.gid in nodes[k.src].announce && nodes[k.src].announce[k.gid].pullSent
    decreases hops
  {
    var p := nodes[x].revPath[k].next;
    if p == k.src {
      var e :| e in nodes[p].remotePull && e.gid == k.gid && e.node == x;
    } else {
      ChainSource(links, nodes, k, p, hops - 1);
    }
  }

  lemma WalkReaches(w: World, x: NodeId, hops: nat)
    requires CanHear(w, x, 0, hops)
    ensures Reachable(w, x)
  {
    hide CanHear;
    assert Audible(w, x, 0);
  }

  /** New DATA without a TTL is passed on by nodes with a remote pull of the group, and by those of its
      group nodes that are set to relay always; by nobody else. */
  lemma TreeRelayIff(n: Node, d0: Data, from: NodeId, now: int)
    requires d0.uheader.None? && d0.srcttl.None? && d0.srcnode != n.id
    requires DataHash(d0) !in n.hash && DataHash(d0) !in n.dataTimers
    ensures DataHash(d0) in OnData(n, d0, from, now).dataTimers <==>
              || (exists e :: e in n.remotePull && e.gid == d0.gid)
              || (n.alwaysRebroadcast && (d0.gid in n.announce || exists e :: e in n.localPull && e.gid == d0.gid))
  {
    hide HashedAt, DataDistance, Handed, DataHash;
    CopyKeepsKey(d0, d0.ttl, Inc32(d0.distance), 0);
  }

  // ---- sending -------------------------------------------------------------------------

  /** Group DATA for the tree of the flow. */
  predicate ForTree(d: Data, k: FlowKey) { d.gid == k.gid && d.uheader.None? && d.srcttl.None? }

  lemma TreeKey(n: Node, d: Data)
    requires d.uheader.None? && d.srcttl.None?
    ensures var h := DataHash(Stamped(n, d));
            AlongTree(h) && Floods(h) && FlowOf(h) == FlowKey(d.gid, n.id) && h.data.uheader.None?
              && SeqNo(h) == NextSeq(n, d.gid)
  {
    hide NextSeq;
  }

  /** What a source sends next is unheard of. */
  lemma NextUnheard(links: Links, s: Air, k: FlowKey, d: Data, bound: nat)
    requires WellFormed(links, s) && Free(s, k.gid) && ForTree(d, k) && k.src in s.nodes && Numbered(s.nodes, bound)
             && bound + 1 < U64
    ensures Unheard(links, s, DataHash(Stamped(s.nodes[k.src], d)))
  {
    var h := DataHash(Stamped(s.nodes[k.src], d));
    assert s.nodes[k.src].id == k.src;
    TreeKey(s.nodes[k.src], d);
    NextUnnamed(s.nodes, k.src, d, h, bound);
    hide DataHash, Stamped, NodeNumbered, Elsewhere, Unnamed, Afoot, Keyed, TimesSent;
    forall m | m in Afoot(s) ensures Bystander(h, m) && !Carries(m, h) {
      NotAfoot(links, s, h, m);
    }
    forall x | x in s.nodes ensures Keyed(s.nodes[x]) && h !in s.nodes[x].hash && TimesSent(s.nodes[x].sent, h) == 0 {
      NodeUnheard(s.nodes, x, h, bound);
    }
  }

  lemma NotAfoot(links: Links, s: Air, h: HashKey, m: OtaMsg)
    requires WellFormed(links, s) && Unnamed(s.nodes, h) && h.DataHashKey? && m in Afoot(s)
    ensures KeyOf(m) != Some(h)
  {
    hide DataHash, AdvHash;
    if y :| y in s.nodes && m in NodeMsgs(s.nodes[y]) {
      NotWaiting(s.nodes[y], h, m);
    } else {
      hide NodeMsgs;
      var c :| c in s.flight && c.from in s.nodes && c.index < |s.nodes[c.from].sent| && m == MsgOf(s.nodes, c);
      assert m in s.nodes[c.from].sent;
    }
  }

  lemma NotWaiting(n: Node, h: HashKey, m: OtaMsg)
    requires h.DataHashKey? && m in NodeMsgs(n) && forall k :: k in n.dataTimers ==> DataHash(n.dataTimers[k].data) != h
    ensures KeyOf(m) != Some(h)
  {
    hide DataHash, AdvHash;
    if m.OtaAdv? {
      AdvKeyKind(m.adv);
    }
  }

  lemma NodeUnheard(nodes: Net, x: NodeId, h: HashKey, bound: nat)
    requires Unnamed(nodes, h) && Numbered(nodes, bound) && x in nodes
    ensures Keyed(nodes[x]) && h !in nodes[x].hash && TimesSent(nodes[x].sent, h) == 0
  {
    hide Keyed, HashReached, LogReached, TimesSent, DataHash, AdvHash;
    assert NodeNumbered(nodes, x, nodes[x], bound);
    UnsentCount(nodes[x].sent, h);
  }

  lemma UnheardShared(links: Links, s: Air, h: HashKey, a: Act, t: Air)
    requires h.DataHashKey? && Unheard(links, s, h) && Goes(links, s, a, t) && a.Occurs? && Actor(a) == Src(h)
             && t.nodes[Actor(a)].id == Actor(a)
    ensures AllShared(t, h)
  {
    hide React, Afoot, Bystander, Aired;
  }

  lemma StartIds(links: Links, s: Air, h: HashKey)
    requires FloodStarts(links, s, h)
    ensures forall y :: y in s.nodes ==> s.nodes[y].id == y
  {
    hide Launched, Afoot;
  }

  /** Client DATA starts a flood along the tree. */
  lemma TreeFloodStarts(links: Links, s: Air, k: FlowKey, a: Act, t: Air, x: NodeId, hops: nat, bound: nat)
    requires WellFormed(links, s) && Free(s, k.gid) && TreeRound.RelayChain(links, s.nodes, k, x, hops) && hops > 0
    requires Goes(links, s, a, t) && Talks(a) && a.node == k.src && ForTree(SaidBy(a), k) && Numbered(s.nodes, bound)
             && bound + 1 < U64
    ensures k.src in s.nodes && k.src in t.nodes && var h := DataHash(Stamped(s.nodes[k.src], SaidBy(a)));
            && AlongTree(h) && Floods(h) && FlowOf(h) == k && h.data.uheader.None?
            && FloodStarts(links, t, h) && AllShared(t, h) && x != k.src
            && SeqNo(h) <= Counter(Group, t.nodes[k.src], k.gid)
  {
    hide OnClientData, Unheard, Aired, DataHash, TreeRound.RelayChain, Stamped, FloodStarts, AllShared, Free, Numbered,
         WellFormed, Said, NextSeq, Counter;
    var d := SaidBy(a);
    ChainSource(links, s.nodes, k, x, hops);
    TalkAir(links, s, a, t);
    var h, n := DataHash(Stamped(s.nodes[k.src], d)), s.nodes[k.src];
    assert n.id == k.src && t.nodes[k.src].id == k.src by { Ids(links, s, k.src); Ids(links, t, k.src); }
    TreeKey(n, d);
    NextUnheard(links, s, k, d, bound);
    SaidNumber(n, t.nodes[k.src], d);
    ClientDataFloods(links, s, k.src, a.event.session, d, a.event.now, t);
    UnheardShared(links, s, h, a, t);
  }

  lemma Ids(links: Links, s: Air, x: NodeId)
    requires WellFormed(links, s) && x in s.nodes
    ensures s.nodes[x].id == x
  {
  }

  lemma TreeFloodEnds(links: Links, ss: seq<Air>, acts: seq<Act>, h: HashKey, x: NodeId, hops: nat)
    requires h.DataHashKey? && Season(links, ss, acts) && FloodStarts(links, ss[0], h) && AllShared(ss[0], h)
             && Gone(ss[|acts|], h)
    requires forall i :: 0 <= i < |acts| ==> Leaves(ss[i], acts[i], h)
    requires AlongTree(h) && Floods(h) && TreeRound.RelayChain(links, ss[0].nodes, FlowOf(h), x, hops) && hops > 0
    requires x in ss[|acts|].nodes
    ensures h in ss[|acts|].nodes[x].hash && Shared(ss[|acts|].nodes[x], h) && ss[|acts|].nodes[x].id == x
  {
    hide Goes, FloodStarts, TreeRound.RelayChain, Reachable, Shared, Gone, CanHear, CanSend, Apart;
    StartIds(links, ss[0], h);
    ChainHears(links, ss[0].nodes, h, x, hops);
    WalkReaches(FloodRound.WorldOf(links, ss[0].nodes, h), x, hops);
    RenewsOrderless(links, ss[0].nodes, h);
    FloodReaches(links, ss, acts, h, x);
    SeasonShared(links, ss, acts, h);
  }

  // ---- every message of a season -------------------------------------------------------

  /** Every DATA message without a TTL that the source's client sends to the group, at any moment of a
      season, reaches every node that a relay chain joined to the source at the outset, and is handed
      to all its subscribers, whatever other DATA and whatever traffic of other groups is about. */
  lemma GroupDataDelivered(links: Links, ss: seq<Air>, acts: seq<Act>, k: FlowKey, i: nat, x: NodeId, hops: nat,
                           bound: nat)
    requires Season(links, ss, acts) && WellFormed(links, ss[0]) && Free(ss[0], k.gid) && Numbered(ss[0].nodes, bound)
             && bound + |acts| < U64
    requires TreeRound.RelayChain(links, ss[0].nodes, k, x, hops) && hops > 0
    requires i < |acts| && Talks(acts[i]) && acts[i].node == k.src && ForTree(SaidBy(acts[i]), k)
             && k.src in ss[i].nodes
    requires Gone(ss[|acts|], DataHash(Stamped(ss[i].nodes[k.src], SaidBy(acts[i]))))
    ensures x in ss[|acts|].nodes && var h, n := DataHash(Stamped(ss[i].nodes[k.src], SaidBy(acts[i]))),
            ss[|acts|].nodes[x];
            h.DataHashKey? && h in n.hash && forall to :: IsDue(n, to, h) ==> IsHanded(n, to, h)
  {
    hide Goes, IsHanded, IsDue, DataHash, TreeRound.RelayChain, Gone, Stamped, FloodStarts, AllShared, Numbered, Free,
         WellFormed, Leaves, Counter;
    var s, t, all := ss[i], ss[i + 1], |acts|;
    SeasonChains(links, ss, acts, i, k, x, hops);
    SeasonChains(links, ss, acts, i + 1, k, x, hops);
    SeasonChains(links, ss, acts, all, k, x, hops);
    SeasonNumbered(links, ss, acts, i, bound);
    TreeFloodStarts(links, s, k, acts[i], t, x, hops, bound + i);
    var h := DataHash(Stamped(s.nodes[k.src], SaidBy(acts[i])));
    forall j | i + 1 <= j < all ensures Leaves(ss[j], acts[j], h) { LaterLeaves(links, ss, acts, h, i + 1, j, bound); }
    ChainSource(links, ss[all].nodes, k, x, hops);
    SeasonPart(links, ss, acts, i + 1, all);
    TreeFloodEnds(links, ss[i + 1..all + 1], acts[i + 1..all], h, x, hops);
  }

  lemma LaterLeaves(links: Links, ss: seq<Air>, acts: seq<Act>, h: HashKey, i: nat, j: nat, bound: nat)
    requires Season(links, ss, acts) && Numbered(ss[0].nodes, bound) && bound + |acts| < U64 && i <= j < |acts|
    requires Src(h) in ss[i].nodes && SeqNo(h) <= Counter(Group, ss[i].nodes[Src(h)], Gid(h))
    ensures Leaves(ss[j], acts[j], h)
  {
    hide Goes, Numbered, Counter, Apart;
    if Talks(acts[j]) && acts[j].node in ss[j].nodes {
      LaterApart(links, ss, acts, i, j, h, bound);
    }
  }

  lemma RestFree(links: Links, s: Air, h: HashKey)
    requires TreeRound.AtRest(links, s, h)
    ensures WellFormed(links, s) && Free(s, Gid(h)) && h.AdvHashKey?
  {
    hide Afoot, TreeRound.Ready, TreeRound.Bystander;
    TreeSeason.RestStrangers(links, s, h);
  }

  lemma PositiveHops(links: Links, s: Air, h: HashKey, x: NodeId)
    requires TreeRound.AtRest(links, s, h) && x in s.nodes && TreeRound.Joins(s.nodes[x], h) && x != Src(h)
    ensures FlowOf(h) in s.nodes[x].dist && s.nodes[x].dist[FlowOf(h)].hops > 0
    ensures TreeRound.RelayChain(links, s.nodes, FlowOf(h), x, s.nodes[x].dist[FlowOf(h)].hops)
  {
    hide TreeRound.AtRest;
    TreeRound.RestJoins(links, s, h, x);
  }

  /** After an advertisement round every node but the source that joined the tree is served, with all
      its subscribers, by every DATA message the source sends, for every order of events and every
      fall of the coins. */
  lemma SubscribersServed(links: Links, ss: seq<Air>, acts: seq<Act>, h: HashKey, i: nat, x: NodeId, bound: nat)
    requires Season(links, ss, acts) && TreeRound.AtRest(links, ss[0], h) && Numbered(ss[0].nodes, bound)
             && bound + |acts| < U64
    requires x in ss[0].nodes && TreeRound.Joins(ss[0].nodes[x], h) && x != Src(h)
    requires i < |acts| && Talks(acts[i]) && acts[i].node == Src(h) && ForTree(SaidBy(acts[i]), FlowOf(h))
             && Src(h) in ss[i].nodes
    requires Gone(ss[|acts|], DataHash(Stamped(ss[i].nodes[Src(h)], SaidBy(acts[i]))))
    ensures x in ss[|acts|].nodes && var g, n := DataHash(Stamped(ss[i].nodes[Src(h)], SaidBy(acts[i]))),
            ss[|acts|].nodes[x];
            g.DataHashKey? && g in n.hash && forall to :: IsDue(n, to, g) ==> IsHanded(n, to, g)
  {
    hide Goes, IsHanded, IsDue, DataHash, Stamped, TreeRound.AtRest, TreeRound.Joins, Gone, Numbered,
         TreeRound.RelayChain, Free, WellFormed;
    RestFree(links, ss[0], h);
    PositiveHops(links, ss[0], h, x);
    GroupDataDelivered(links, ss, acts, FlowOf(h), i, x, ss[0].nodes[x].dist[FlowOf(h)].hops, bound);
  }

  /** An advertisement round and then a season that comes to rest: every message has been served. */
  lemma EveryMessage(links: Links, rs: seq<Air>, racts: seq<Act>, ss: seq<Air>, acts: seq<Act>, h: HashKey, i: nat,
                     x: NodeId, bound: nat)
    requires Round(links, rs, racts) && Quiescent(rs[|racts|]) && TreeRound.TreeStarts(links, rs[0], h)
    requires Season(links, ss, acts) && ss[0] == rs[|racts|] && Quiescent(ss[|acts|]) && Numbered(ss[0].nodes, bound)
             && bound + |acts| < U64
    requires x in ss[0].nodes && TreeRound.Joins(ss[0].nodes[x], h) && x != Src(h)
    requires i < |acts| && Talks(acts[i]) && acts[i].node == Src(h) && ForTree(SaidBy(acts[i]), FlowOf(h))
             && Src(h) in ss[i].nodes
    ensures x in ss[|acts|].nodes && var g, n := DataHash(Stamped(ss[i].nodes[Src(h)], SaidBy(acts[i]))),
            ss[|acts|].nodes[x];
            g.DataHashKey? && g in n.hash && forall to :: IsDue(n, to, g) ==> IsHanded(n, to, g)
  {
    hide Goes, TreeRound.TreeStarts, TreeRound.AtRest, TreeRound.Joins, Quiescent, Gone, Numbered, IsDue, IsHanded,
         Stamped, DataHash;
    TreeRound.RoundRests(links, rs, racts, h);
    QuietGone(ss[|acts|], DataHash(Stamped(ss[i].nodes[Src(h)], SaidBy(acts[i]))));
    SubscribersServed(links, ss, acts, h, i, x, bound);
  }
}
