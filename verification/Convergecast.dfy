/** After a flow's first ADVERTISE and ACK round, unicast from any node of its tree reaches the
    source, at every resilience level and as often as clients like. */
module Convergecast {
  import opened Types
  import opened NodeSpec
  import opened Network
  import opened Origin
  import opened Air
  import opened Traffic
  import opened Gather
  import opened GatherRound
  import opened Numbers
  import opened Sharing
  import opened UnicastSend
  import FloodRound
  import Tree
  import TreeRound
  import TreeSeason
  import Sums

  // ---- the tree as a gathering world ---------------------------------------------------

  /** What the tree knows of a node. */
  lemma NodeInTree(links: Links, s: Air, h: HashKey, x: NodeId)
    requires TreeSeason.Settled(links, s, h) && x in s.nodes
    ensures var n, p, w, k := s.nodes[x], TreeRound.PartOf(s.nodes[x], h), TreeRound.WorldOf(links, s.nodes, h),
            FlowOf(h);
            && (Hops(n.dist, k) > 0 ==> h in n.hash)
            && (h in n.hash ==> p.hops == Hops(n.dist, k)) && (p.known <==> h in n.hash)
            && (x in w.members <==> IsGroupNode(n, k.gid))
            && (p.children != {} <==> AnyRemote(n.remotePull, k.gid))
            && (x == k.src ==> p.hops == 0)
  {
    hide Afoot, TreeRound.Bystander, IsGroupNode, TreeRound.HasAcked, Seen, Tree.Acknowledged, Tree.NoStrays, Tree.Over,
         Tree.Knowing;
    var w, f := TreeRound.WorldOf(links, s.nodes, h), TreeRound.TreeOf(s, h);
    assert TreeRound.Ready(s.nodes[x], h) && TreeSeason.Unmeasured(s.nodes[x], h) && Tree.Fits(w, f, x, f.parts[x]);
    var c := TreeRound.Children(s.nodes[x].remotePull, Gid(h));
    if AnyRemote(s.nodes[x].remotePull, Gid(h)) {
      var e :| e in s.nodes[x].remotePull && e.gid == Gid(h);
      assert e.node in c;
    }
  }

  /** A node that would relay, or that joined the tree, is active in it. */
  lemma SenderIsActive(links: Links, s: Air, h: HashKey, x: NodeId)
    requires TreeSeason.Settled(links, s, h) && x in s.nodes && Hops(s.nodes[x].dist, FlowOf(h)) > 0
    requires RelaysTree(s.nodes[x], Gid(h)) || TreeRound.Joins(s.nodes[x], h)
    ensures x != Src(h) && Tree.Active(TreeRound.WorldOf(links, s.nodes, h), x, TreeRound.PartOf(s.nodes[x], h))
  {
    hide Afoot, TreeRound.Bystander, IsGroupNode, AnyRemote, TreeRound.Ready, Tree.Over, Tree.TreeInv,
         TreeSeason.Unmeasured;
    NodeInTree(links, s, h, x);
    var w, f := TreeRound.WorldOf(links, s.nodes, h), TreeRound.TreeOf(s, h);
    assert f.parts[x] == TreeRound.PartOf(s.nodes[x], h);
    assert s.nodes[x].id == x;
  }

  /** The parent of an active node is the source or relays too, one hop nearer. */
  lemma ParentRelays(links: Links, s: Air, h: HashKey, x: NodeId) returns (p: NodeId)
    requires TreeSeason.Settled(links, s, h) && x in s.nodes && x != Src(h)
    requires Tree.Active(TreeRound.WorldOf(links, s.nodes, h), x, TreeRound.PartOf(s.nodes[x], h))
    ensures Near(links, s.nodes.Keys, x, p) && Hops(s.nodes[p].dist, FlowOf(h)) + 1 == Hops(s.nodes[x].dist, FlowOf(h))
    ensures p == Src(h) || (RelaysTree(s.nodes[p], Gid(h)) && Hops(s.nodes[p].dist, FlowOf(h)) > 0)
  {
    hide WellFormed, Afoot, TreeRound.Bystander, TreeRound.Ready, IsGroupNode, AnyRemote, TreeRound.PartOf,
         Tree.NoStrays, TreeSeason.AllUnmeasured, Tree.Knowing, Seen;
    var w, f := TreeRound.WorldOf(links, s.nodes, h), TreeRound.TreeOf(s, h);
    assert Tree.Fits(w, f, x, f.parts[x]);
    p := f.parts[x].parent;
    assert Tree.Fits(w, f, p, f.parts[p]);
    NodeInTree(links, s, h, x);
    NodeInTree(links, s, h, p);
  }

  /** Along the tree only nodes with a remote pull, or those set to relay always, take the message up. */
  lemma TreeTakes(links: Links, nodes: Net, u: HashKey, x: NodeId, o: Offer)
    requires Unicast(u) && AlongTree(u) && PassesOn(GatherRound.WorldOf(links, nodes, u), x, o)
    ensures x in nodes && RelaysTree(nodes[x], Gid(u)) && Hops(nodes[x].dist, Guide(u)) > 0
  {
    hide RelaysTree, Hops;
  }

  lemma TreeLasts(links: Links, nodes: Net, u: HashKey, first: Offer, p: NodeId)
    requires Unicast(u) && AlongTree(u) && p in nodes && RelaysTree(nodes[p], Gid(u))
    ensures Lasts(GatherRound.WorldOf(links, nodes, u), first, p)
  {
    hide MaySend, Lasts, RelaysTree;
    RenewerLasts(GatherRound.WorldOf(links, nodes, u), first, p);
  }

  /** After a first round every possible sender has someone nearer to turn to. */
  lemma TreeDownhill(links: Links, s: Air, h: HashKey, u: HashKey, first: Offer)
    requires TreeSeason.Settled(links, s, h) && Unicast(u) && AlongTree(u) && Guide(u) == FlowOf(h)
             && Src(u) in s.nodes && TreeRound.Joins(s.nodes[Src(u)], h) && Hops(s.nodes[Src(u)].dist, FlowOf(h)) > 0
    ensures Downhill(GatherRound.WorldOf(links, s.nodes, u), first)
  {
    hide TreeSeason.Settled, RelaysTree, Hops, TreeRound.Joins, MaySend, Lasts, PassesOn, GatherRound.WorldOf;
    var w := GatherRound.WorldOf(links, s.nodes, u);
    forall x, o | MaySend(w, first, x, o)
      ensures exists p ::
                Linked(w, x, p) && Level(w, p) < Level(w, x) && (p == w.dest || (Level(w, p) > 0 && Lasts(w, first, p)))
    {
      var p := NearerRelay(links, s, h, u, first, x, o);
    }
  }

  lemma NearerRelay(links: Links, s: Air, h: HashKey, u: HashKey, first: Offer, x: NodeId, o: Offer) returns (p: NodeId)
    requires TreeSeason.Settled(links, s, h) && Unicast(u) && AlongTree(u) && Guide(u) == FlowOf(h)
             && Src(u) in s.nodes && TreeRound.Joins(s.nodes[Src(u)], h) && Hops(s.nodes[Src(u)].dist, FlowOf(h)) > 0
    requires MaySend(GatherRound.WorldOf(links, s.nodes, u), first, x, o)
    ensures var w := GatherRound.WorldOf(links, s.nodes, u);
            Linked(w, x, p) && Level(w, p) < Level(w, x) && (p == w.dest || (Level(w, p) > 0 && Lasts(w, first, p)))
  {
    hide TreeSeason.Settled, RelaysTree, Hops, TreeRound.Joins, MaySend, Lasts, PassesOn;
    var w := GatherRound.WorldOf(links, s.nodes, u);
    SenderPasses(w, first, x, o);
    if x != Src(u) {
      var v :| PassesOn(w, x, v) && o == Sent(Taken(w, x, v));
      TreeTakes(links, s.nodes, u, x, v);
    }
    SenderIsActive(links, s, h, x);
    p := ParentRelays(links, s, h, x);
    WorldAt(links, s.nodes, u, x);
    WorldAt(links, s.nodes, u, p);
    if p != w.dest {
      TreeLasts(links, s.nodes, u, first, p);
    }
  }

  /** No earlier round of the flow, or of the group, left anything at the node. */
  predicate Traceless(n: Node, k: FlowKey) {
    && k !in n.dist && k !in n.revPath && k !in n.ackSent && (forall v :: v in n.advSeen ==> v.gid != k.gid)
    && (forall h: HashKey :: h in n.hash && h.AdvHashKey? ==> h.adv.gid != k.gid)
    && (forall e :: e in n.remotePull ==> e.gid != k.gid)
  }

  lemma TracelessFresh(n: Node, h: HashKey)
    requires h.AdvHashKey? && Traceless(n, FlowOf(h)) && Idle(n)
    ensures TreeRound.FreshNodeFor(n, h) && TreeSeason.Unmeasured(n, h) && NodeMsgs(n) == {}
  {
  }

  /** The first announcement of a flow, made while nothing is waiting or on the way, starts a round
      of the kind that unicast may follow. */
  lemma FirstRoundStarts(links: Links, s: Air, x: NodeId, gid: GroupId, now: int, t: Air)
    requires WellFormed(links, s) && Quiescent(s) && (forall y, z :: (y, z) in links ==> (z, y) in links)
    requires forall y :: y in s.nodes ==> Traceless(s.nodes[y], FlowKey(gid, x))
    requires Goes(links, s, Occurs(x, AnnounceTimer(gid, now)), t) && s.nodes[x].announce[gid].srcTtl > 0
    ensures var h := AdvHash(OwnAdvertise(s.nodes[x], gid));
            && h.AdvHashKey? && TreeRound.TreeStarts(links, t, h) && TreeSeason.AllUnmeasured(t, h)
            && Tree.NoStrays(TreeRound.WorldOf(links, t.nodes, h), TreeRound.TreeOf(t, h))
  {
    var a := OwnAdvertise(s.nodes[x], gid);
    var h := AdvHash(a);
    AdvKeyKind(a);
    assert s.nodes[x].id == x && FlowOf(h) == FlowKey(gid, x);
    assert FloodRound.Floods(h);
    TracelessFlow(links, s, h);
    hide React, TreeRound.TreeStarts, TreeRound.FreshFlow, Traceless, AdvHash, FloodRound.Floods,
         TreeSeason.AllUnmeasured, Tree.NoStrays, Quiescent;
    TreeRound.AnnouncementStartsTree(links, s, x, gid, now, t);
    FirstRoundClean(links, s, x, gid, now, t, h);
  }

  lemma TracelessFlow(links: Links, s: Air, h: HashKey)
    requires WellFormed(links, s) && Quiescent(s) && h.AdvHashKey?
             && forall y :: y in s.nodes ==> Traceless(s.nodes[y], FlowOf(h))
    ensures TreeRound.FreshFlow(links, s, h)
  {
    hide TreeRound.FreshNodeFor, Traceless, NodeMsgs, Idle;
    forall y | y in s.nodes ensures TreeRound.FreshNodeFor(s.nodes[y], h) && NodeMsgs(s.nodes[y]) == {} {
      TracelessFresh(s.nodes[y], h);
    }
    assert Afoot(s) == {};
  }

  lemma FirstRoundClean(links: Links, s: Air, x: NodeId, gid: GroupId, now: int, t: Air, h: HashKey)
    requires Goes(links, s, Occurs(x, AnnounceTimer(gid, now)), t) && h == AdvHash(OwnAdvertise(s.nodes[x], gid))
             && h.AdvHashKey?
    requires s.nodes[x].id == x && forall y :: y in s.nodes ==> Traceless(s.nodes[y], FlowKey(gid, x))
    ensures TreeSeason.AllUnmeasured(t, h) && Tree.NoStrays(TreeRound.WorldOf(links, t.nodes, h),
                                                            TreeRound.TreeOf(t, h))
  {
    hide HashedAt, NextDistance, Seen, Aired, IsGroupNode, TreeRound.HasAcked;
    AdvKeyKind(OwnAdvertise(s.nodes[x], gid));
    forall y | y in t.nodes
      ensures TreeSeason.Unmeasured(t.nodes[y], h) && (y != x ==> TreeRound.Children(t.nodes[y].remotePull, gid) == {})
    {
      assert Traceless(s.nodes[y], FlowKey(gid, x));
    }
  }

  // ---- sending -------------------------------------------------------------------------

  lemma MaySendUnicast(links: Links, s: Air, h: HashKey, x: NodeId, d0: Data)
    requires TreeSeason.Settled(links, s, h) && x in s.nodes && x != Src(h) && TreeRound.Joins(s.nodes[x], h)
             && |s.nodes| < U32
    requires d0.gid == Gid(h) && d0.srcttl.None? && d0.uheader.Some? && d0.uheader.value.dest == Src(h)
    ensures WellFormed(links, s) && s.nodes[x].id == x && Sendable(s.nodes[x], d0)
  {
    hide WellFormed, Afoot, TreeRound.Bystander, TreeRound.Ready, Tree.NoStrays, Tree.Over, TreeRound.PartOf,
         Tree.Acknowledged, IsGroupNode, TreeRound.HasAcked;
    var w, f := TreeRound.WorldOf(links, s.nodes, h), TreeRound.TreeOf(s, h);
    NodeInTree(links, s, h, x);
    assert s.nodes[x].id == x by { TreeRound.WatchedNode(links, s, h, x); }
    assert Tree.Fits(w, f, x, f.parts[x]);
    Sums.SubsetSize(Tree.Knowing(f), s.nodes.Keys);
  }

  // ---- every message of a season -------------------------------------------------------

  /** At rest the tree leaves the air to others. */
  lemma SettledUndisturbed(links: Links, s: Air, h: HashKey, u: HashKey)
    requires TreeSeason.Settled(links, s, h) && Unicast(u) && Guide(u) == FlowOf(h)
    requires forall y :: y in s.nodes ==> FloodRound.Keyed(s.nodes[y])
    ensures Undisturbed(s, u)
  {
    hide TreeRound.AtRest, TreeSeason.AllUnmeasured, FloodRound.Keyed, Afoot;
    TreeSeason.RestStrangers(links, s, h);
  }

  /** Unicast over the tree to its source. */
  predicate ToSource(d0: Data, h: HashKey) {
    d0.gid == Gid(h) && d0.srcttl.None? && d0.uheader.Some? && d0.uheader.value.dest == Src(h)
  }

  /** From its tree everything goes downhill to the source. */
  lemma UnicastStarts(links: Links, s: Air, h: HashKey, a: Act, bound: nat)
    requires TreeSeason.Settled(links, s, h) && Talks(a) && Spares(a, FlowOf(h)) && |s.nodes| < U32
    requires a.node in s.nodes && TreeRound.Joins(s.nodes[a.node], h) && ToSource(SaidBy(a), h)
    requires Numbered(s.nodes, bound) && bound + 1 < U64
    ensures Sendable(s.nodes[a.node], SaidBy(a)) && WellFormed(links, s)
    ensures var u := DataHash(Outgoing(s.nodes[a.node], SaidBy(a)));
            && Unicast(u) && Guide(u) == FlowOf(h) && Undisturbed(s, u)
            && Downhill(WorldOf(links, s.nodes, u), First(s.nodes[a.node], SaidBy(a)))
  {
    hide TreeSeason.Settled, Goes, DataHash, NodeNumbered, TreeRound.Joins, Outgoing, Undisturbed, Downhill;
    var x, d0, n := a.node, SaidBy(a), s.nodes[a.node];
    MaySendUnicast(links, s, h, x, d0);
    OutgoingKey(n, d0);
    var u := DataHash(Outgoing(n, d0));
    AllKeyed(s.nodes, bound);
    SettledUndisturbed(links, s, h, u);
    assert AlongTree(u) by { OutgoingTree(n, d0); }
    TreeDownhill(links, s, h, u, First(n, d0));
  }

  lemma OutgoingTree(n: Node, d0: Data)
    requires Sendable(n, d0) && d0.srcttl.None?
    ensures AlongTree(DataHash(Outgoing(n, d0)))
  {
    hide NextSeq;
  }

  /** Once a flow's first advertisement round has come to rest in a network without leftovers of the
      flow, every unicast message that a client of any node of the tree sends to the source arrives,
      at low, medium or high resilience, whatever the order of events and whatever other flows' DATA
      and other unicast is about, and is handed to the announcing client. */
  lemma UnicastDelivered(links: Links, ss: seq<Air>, acts: seq<Act>, h: HashKey, i: nat, bound: nat)
    requires Season(links, ss, acts) && TreeSeason.Settled(links, ss[0], h) && |ss[0].nodes| < U32
    requires Numbered(ss[0].nodes, bound) && bound + |acts| < U64
    requires forall j :: 0 <= j < |acts| ==> Spares(acts[j], FlowOf(h))
    requires i < |acts| && Talks(acts[i]) && acts[i].node in ss[i].nodes
    requires TreeRound.Joins(ss[i].nodes[acts[i].node], h) && ToSource(SaidBy(acts[i]), h)
    requires Gone(ss[|acts|], DataHash(Outgoing(ss[i].nodes[acts[i].node], SaidBy(acts[i]))))
    ensures Src(h) in ss[|acts|].nodes
    ensures var u, n := DataHash(Outgoing(ss[i].nodes[acts[i].node], SaidBy(acts[i]))), ss[|acts|].nodes[Src(h)];
            u.DataHashKey? && u in n.hash && forall to :: IsDue(n, to, u) ==> IsHanded(n, to, u)
  {
    hide Goes, TreeSeason.Settled, Spares, Numbered, TreeRound.Joins, Outgoing, DataHash, Gone, IsDue,
         IsHanded, GatherStarts, Downhill, AllShared, Counter;
    SeasonPart(links, ss, acts, 0, i);
    TreeSeason.SeasonSettled(links, ss[0..i + 1], acts[0..i], h);
    SeasonNumbered(links, ss, acts, i, bound);
    SeasonNodes(links, ss, acts, i);
    SourceThere(links, ss[0], h);
    UnicastStarts(links, ss[i], h, acts[i], bound + i);
    var u := DataHash(Outgoing(ss[i].nodes[acts[i].node], SaidBy(acts[i])));
    assert u.DataHashKey? && Dest(u) == Src(h) by { OutgoingKey(ss[i].nodes[acts[i].node], SaidBy(acts[i])); }
    UnicastArrives(links, ss, acts, i, bound);
  }

  /** The first advertisement round of a flow, and then a season that comes to rest: every unicast
      message sent to the source from its tree has arrived and been handed over. */
  lemma EveryUnicast(links: Links, rs: seq<Air>, racts: seq<Act>, ss: seq<Air>, acts: seq<Act>, h: HashKey, i: nat,
                     bound: nat)
    requires h.AdvHashKey? && Round(links, rs, racts) && Quiescent(rs[|racts|]) && TreeRound.TreeStarts(links, rs[0], h)
    requires TreeSeason.AllUnmeasured(rs[0], h) && Tree.NoStrays(TreeRound.WorldOf(links, rs[0].nodes, h),
                                                                 TreeRound.TreeOf(rs[0], h))
    requires Season(links, ss, acts) && ss[0] == rs[|racts|] && Quiescent(ss[|acts|]) && |ss[0].nodes| < U32
    requires Numbered(ss[0].nodes, bound) && bound + |acts| < U64
             && forall j :: 0 <= j < |acts| ==> Spares(acts[j], FlowOf(h))
    requires i < |acts| && Talks(acts[i]) && acts[i].node in ss[i].nodes
    requires TreeRound.Joins(ss[i].nodes[acts[i].node], h) && ToSource(SaidBy(acts[i]), h)
    ensures Src(h) in ss[|acts|].nodes
    ensures var u, n := DataHash(Outgoing(ss[i].nodes[acts[i].node], SaidBy(acts[i]))), ss[|acts|].nodes[Src(h)];
            u.DataHashKey? && u in n.hash && forall to :: IsDue(n, to, u) ==> IsHanded(n, to, u)
  {
    hide Goes, TreeRound.TreeStarts, TreeSeason.Settled, TreeSeason.AllUnmeasured, Tree.NoStrays, Numbered,
         TreeRound.Joins, Outgoing, Quiescent, Gone, IsDue, IsHanded;
    TreeSeason.RoundSettles(links, rs, racts, h);
    QuietGone(ss[|acts|], DataHash(Outgoing(ss[i].nodes[acts[i].node], SaidBy(acts[i]))));
    UnicastDelivered(links, ss, acts, h, i, bound);
  }

  lemma SourceThere(links: Links, s: Air, h: HashKey)
    requires TreeSeason.Settled(links, s, h)
    ensures Src(h) in s.nodes && h.AdvHashKey?
  {
    hide TreeSeason.Unmeasured, Tree.Fits, Tree.NoStrays, WellFormed, TreeRound.Ready, TreeRound.Bystander, Afoot;
  }
}
