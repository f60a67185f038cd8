/** One flood while clients go on sending other DATA. */
module FloodSeason {
  import opened Types
  import opened NodeSpec
  import opened Network
  import opened Origin
  import opened Air
  import opened Traffic
  import opened Flood
  import opened FloodRound
  import opened FloodStart
  import opened Numbers
  import GatherSeason

  lemma TalkFacet(n: Node, m: Node, d0: Data, h: HashKey)
    requires Said(n, m, d0) && Apart(n, d0, h)
    ensures FacetOf(m, h) == FacetOf(n, h) && TimesSent(m.sent, h) == TimesSent(n.sent, h) && Steadfast(n, m, h)
  {
    hide TimesSent, DataHash, AdvHash, Apart, RoleIn, SourceKnows;
    ApartKeys(n, d0, h);
    SameRole(n, m, h);
    GatherSeason.TalkTimesSent(n, m, d0, h);
  }

  /** What the client sends is not the message. */
  predicate Leaves(s: Air, a: Act, h: HashKey) {
    Talks(a) && a.node in s.nodes ==> Apart(s.nodes[a.node], SaidBy(a), h)
  }

  lemma SameSends(nodes: Net, next: Net, x: NodeId, h: HashKey)
    requires x in nodes && x in next && next == nodes[x := next[x]]
             && TimesSent(next[x].sent, h) == TimesSent(nodes[x].sent, h)
    ensures SendsOf(next, h) == SendsOf(nodes, h)
  {
    hide TimesSent;
  }

  lemma SamePicture(nodes: Net, next: Net, x: NodeId, h: HashKey)
    requires x in nodes && x in next && next == nodes[x := next[x]]
    requires FacetOf(next[x], h) == FacetOf(nodes[x], h) && TimesSent(next[x].sent, h) == TimesSent(nodes[x].sent, h)
    ensures GotOf(next, h) == GotOf(nodes, h) && WaitingOf(next, h) == WaitingOf(nodes, h)
            && SendsOf(next, h) == SendsOf(nodes, h)
  {
    hide GotOf, WaitingOf, SendsOf, FacetOf, TimesSent;
    SameSends(nodes, next, x, h);
    FacetShows(nodes, next, x, h);
    FacetShows(nodes, nodes, x, h);
    assert nodes[x := nodes[x]] == nodes;
  }

  lemma SteadfastWorld(links: Links, nodes: Net, next: Net, x: NodeId, h: HashKey)
    requires x in nodes && x in next && next == nodes[x := next[x]] && Steadfast(nodes[x], next[x], h)
    ensures WorldOf(links, next, h) == WorldOf(links, nodes, h)
  {
    hide RoleIn, Keyed, SourceKnows;
  }

  lemma TalkStutters(links: Links, s: Air, a: Act, t: Air, h: HashKey)
    requires Watched(links, s, h) && Goes(links, s, a, t) && Talks(a) && Leaves(s, a, h)
    ensures FloodOf(t, h) == FloodOf(s, h) && WorldOf(links, t.nodes, h) == WorldOf(links, s.nodes, h)
    ensures a.node in s.nodes && Steadfast(s.nodes[a.node], t.nodes[a.node], h)
  {
    hide Goes, Watched, Said, Apart, Steadfast, GotOf, WaitingOf, SendsOf, Seen, Utters, Keyed, TimesSent, FacetOf,
         WorldOf;
    TalkNode(links, s, a, t);
    var n := s.nodes[a.node];
    WatchedNode(links, s, h, a.node);
    TalkFacet(n, t.nodes[a.node], SaidBy(a), h);
    SamePicture(s.nodes, t.nodes, a.node, h);
    SteadfastWorld(links, s.nodes, t.nodes, a.node, h);
    ApartKeys(n, SaidBy(a), h);
    forall o | Utters(o, Stamped(n, SaidBy(a))) ensures TtlSeen(h)(o) == None {}
    TalkSeen(links, s, a, t, TtlSeen(h));
  }

  lemma UtterancePasses(n: Node, d0: Data, h: HashKey, o: OtaMsg)
    requires Utters(o, Stamped(n, d0))
    ensures Bystander(h, o)
  {
  }

  lemma TalkWatched(links: Links, s: Air, a: Act, t: Air, h: HashKey)
    requires Watched(links, s, h) && Goes(links, s, a, t) && Talks(a) && Leaves(s, a, h)
    ensures Watched(links, t, h) && WorldOf(links, t.nodes, h) == WorldOf(links, s.nodes, h)
  {
    hide Goes, Said, Leaves, FloodOf, Afoot, Bystander, Keyed, SourceKnows, RoleIn, Floods, Utters, Stamped, WorldOf;
    TalkStutters(links, s, a, t, h);
    TalkAir(links, s, a, t);
    forall o | o in Afoot(t) ensures Bystander(h, o) {
      TalkAfoot(links, s, a, t, o);
      if o !in Afoot(s) {
        UtterancePasses(s.nodes[a.node], SaidBy(a), h, o);
      }
    }
    WatchedNode(links, s, h, a.node);
  }

  lemma SeasonStep(links: Links, s: Air, a: Act, t: Air, h: HashKey, w: World)
    requires Watched(links, s, h) && Goes(links, s, a, t) && (Relaying(a) || Talks(a)) && Leaves(s, a, h)
    requires w == WorldOf(links, s.nodes, h) && FloodInv(w, FloodOf(s, h))
    ensures Watched(links, t, h) && w == WorldOf(links, t.nodes, h) && FloodInv(w, FloodOf(t, h))
  {
    hide Goes, Watched, Leaves, WorldOf, FloodOf, FloodInv;
    if Talks(a) {
      TalkStutters(links, s, a, t, h);
      TalkWatched(links, s, a, t, h);
    } else {
      StepFlood(links, s, a, t, h, w);
    }
  }

  lemma {:induction false} SeasonFloods(links: Links, ss: seq<Air>, acts: seq<Act>, h: HashKey, w: World)
    requires Season(links, ss, acts) && w == WorldOf(links, ss[0].nodes, h)
             && forall i :: 0 <= i < |acts| ==> Leaves(ss[i], acts[i], h)
    requires Watched(links, ss[0], h) && FloodInv(w, FloodOf(ss[0], h))
    ensures var s := ss[|acts|]; Watched(links, s, h) && w == WorldOf(links, s.nodes, h) && FloodInv(w, FloodOf(s, h))
    decreases |acts|
  {
    hide Goes, Watched, WorldOf, FloodInv, FloodOf, Leaves, Talks;
    if acts != [] {
      SeasonPrefix(links, ss, acts);
      var last := |acts| - 1;
      SeasonFloods(links, ss[..|acts|], acts[..last], h, w);
      SeasonStep(links, ss[last], acts[last], ss[|acts|], h, w);
    }
  }

  lemma WaitsAfoot(s: Air, h: HashKey, x: NodeId)
    requires x in s.nodes && Keyed(s.nodes[x]) && WaitingTtl(s.nodes[x], h).Some?
    ensures exists m :: m in Afoot(s) && KeyOf(m) == Some(h)
  {
    WaitingIsAfoot(s, x, h);
  }

  lemma GoneFlood(s: Air, h: HashKey)
    requires Gone(s, h) && forall x :: x in s.nodes ==> Keyed(s.nodes[x])
    ensures FlightOf(s, h) == map[] && WaitingOf(s.nodes, h) == map[]
  {
    hide NodeMsgs, DataHash, AdvHash, WaitingTtl, Keyed;
    forall c | c in s.flight ensures Sight(s, c, TtlSeen(h)).None? {
      assert c.from in s.nodes && c.index < |s.nodes[c.from].sent| ==> MsgOf(s.nodes, c) in Afoot(s);
    }
    forall x | x in s.nodes ensures WaitingTtl(s.nodes[x], h).None? {
      if WaitingTtl(s.nodes[x], h).Some? {
        WaitsAfoot(s, h, x);
      }
    }
  }

  /** Whatever else clients send meanwhile, once nothing of the flood is afoot exactly the nodes its
      walks reach have the message. */
  lemma FloodReaches(links: Links, ss: seq<Air>, acts: seq<Act>, h: HashKey, x: NodeId)
    requires Season(links, ss, acts) && FloodStarts(links, ss[0], h) && Orderless(WorldOf(links, ss[0].nodes, h))
    requires forall i :: 0 <= i < |acts| ==> Leaves(ss[i], acts[i], h)
    requires Gone(ss[|acts|], h) && x in ss[|acts|].nodes
    ensures h in ss[|acts|].nodes[x].hash <==> Reachable(WorldOf(links, ss[0].nodes, h), x)
    ensures ss[|acts|].nodes[x].id == x
  {
    hide Watched, FloodInv, Audible, WorldOf, Orderless, Leaves, Talks, Gone, Reachable, Goes, Launched, Keyed;
    var w, s := WorldOf(links, ss[0].nodes, h), ss[|acts|];
    StartInv(links, ss[0], h);
    SeasonFloods(links, ss, acts, h, w);
    forall y | y in s.nodes ensures Keyed(s.nodes[y]) { WatchedNode(links, s, h, y); }
    WatchedNode(links, s, h, x);
    GoneFlood(s, h);
    DiedOut(w, FloodOf(s, h), x);
    GotMeans(s, h, x);
  }

  lemma GotMeans(s: Air, h: HashKey, x: NodeId)
    ensures x in FloodOf(s, h).got <==> x in s.nodes && h in s.nodes[x].hash
  {
  }
}
