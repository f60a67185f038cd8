/** One unicast message while clients go on sending other DATA. */
module GatherSeason {
  import opened Types
  import opened NodeSpec
  import opened Network
  import opened Origin
  import opened Air
  import opened Traffic
  import opened Gather
  import opened GatherBlock
  import opened GatherRound
  import FloodRound

  lemma TalkTimesSent(n: Node, m: Node, d0: Data, u: HashKey)
    requires Said(n, m, d0) && Apart(n, d0, u)
    ensures FloodRound.TimesSent(m.sent, u) == FloodRound.TimesSent(n.sent, u)
  {
    hide FloodRound.TimesSent, DataHash, NextSeq, Apart;
    ApartKeys(n, d0, u);
    if |m.sent| > |n.sent| {
      assert m.sent == n.sent + [m.sent[|n.sent|]];
      FloodRound.TimesSentAppend(n.sent, m.sent[|n.sent|], u);
    } else {
      assert m.sent == n.sent;
    }
  }

  lemma TalkLastTtl(n: Node, m: Node, d0: Data, u: HashKey)
    requires Said(n, m, d0) && Apart(n, d0, u)
    ensures LastTtl(m.sent, u) == LastTtl(n.sent, u)
  {
    hide LastTtl, DataHash, NextSeq, Apart;
    ApartKeys(n, d0, u);
    if |m.sent| > |n.sent| {
      assert m.sent == n.sent + [m.sent[|n.sent|]];
      LastTtlAppend(n.sent, m.sent[|n.sent|], u);
    } else {
      assert m.sent == n.sent;
    }
  }

  lemma TalkSamePart(n: Node, m: Node, d0: Data, u: HashKey)
    requires Unicast(u) && Said(n, m, d0) && Apart(n, d0, u) && FlowKey(d0.gid, n.id) != Guide(u)
    ensures SamePart(n, m, u) && (FloodRound.Keyed(n) ==> FloodRound.Keyed(m))
    ensures FloodRound.TimesSent(m.sent, u) == FloodRound.TimesSent(n.sent, u)
  {
    hide FloodRound.TimesSent, LastTtl, DataHash, NextSeq, DutyIn, Apart;
    ApartKeys(n, d0, u);
    SameDuty(n, m, u);
    TalkTimesSent(n, m, d0, u);
    TalkLastTtl(n, m, d0, u);
  }

  /** What the client sends is of another flow than the one that guides the message, and is not it. */
  predicate Leaves(s: Air, a: Act, u: HashKey)
    requires Unicast(u)
  {
    Talks(a) && a.node in s.nodes ==> FlowKey(SaidBy(a).gid, a.node) != Guide(u) && Apart(s.nodes[a.node], SaidBy(a), u)
  }

  lemma TalkBystanders(links: Links, s: Air, a: Act, t: Air, u: HashKey)
    requires Watched(links, s, u) && Goes(links, s, a, t) && Talks(a) && Leaves(s, a, u)
    ensures forall o :: o in Afoot(t) ==> Bystander(u, o)
  {
    hide Goes, Afoot, Apart, FloodRound.Keyed, FloodRound.TimesSent;
    forall o | o in Afoot(t) ensures Bystander(u, o) {
      TalkAfoot(links, s, a, t, o);
      WatchedNode(links, s, u, a.node);
    }
  }

  lemma TalkStutters(links: Links, s: Air, a: Act, t: Air, u: HashKey)
    requires Watched(links, s, u) && Goes(links, s, a, t) && Talks(a) && Leaves(s, a, u)
    ensures GatherOf(t, u) == GatherOf(s, u) && WorldOf(links, t.nodes, u) == WorldOf(links, s.nodes, u)
    ensures a.node in s.nodes && SamePart(s.nodes[a.node], t.nodes[a.node], u)
  {
    hide Goes, Watched, Said, Apart, SamePart, HasOf, ForwardedOf, WaitingOf, Seen, WorldOf, OfferSeen, Guide, Utters,
         FloodRound.Keyed, FloodRound.TimesSent;
    TalkNode(links, s, a, t);
    var n := s.nodes[a.node];
    WatchedNode(links, s, u, a.node);
    TalkSamePart(n, t.nodes[a.node], SaidBy(a), u);
    SamePicture(links, s.nodes, t.nodes, a.node, u);
    ApartKeys(n, SaidBy(a), u);
    forall o | Utters(o, Stamped(n, SaidBy(a))) ensures OfferSeen(u)(o) == None { SeesNothing(u, o); }
    TalkSeen(links, s, a, t, OfferSeen(u));
  }

  lemma TalkWatched(links: Links, s: Air, a: Act, t: Air, u: HashKey)
    requires Watched(links, s, u) && Goes(links, s, a, t) && Talks(a) && Leaves(s, a, u)
    ensures Watched(links, t, u)
  {
    hide LastTtl, Goes, Said, Leaves, HasOf, ForwardedOf, WaitingOf, WorldOf, GatherOf, Afoot, Bystander,
         FloodRound.Keyed, FloodRound.TimesSent;
    TalkStutters(links, s, a, t, u);
    TalkAir(links, s, a, t);
    TalkBystanders(links, s, a, t, u);
    forall x | x in t.nodes ensures FloodRound.Keyed(t.nodes[x]) { WatchedNode(links, s, u, x); }
  }

  lemma SeasonStep(links: Links, s: Air, a: Act, t: Air, u: HashKey, w: World, first: Offer, had: set<NodeId>)
    requires Watched(links, s, u) && Goes(links, s, a, t) && (Relaying(a) || Talks(a)) && Leaves(s, a, u)
    requires w == WorldOf(links, s.nodes, u) && Accounts(w, first, had, GatherOf(s, u))
    ensures Watched(links, t, u) && w == WorldOf(links, t.nodes, u) && Accounts(w, first, had, GatherOf(t, u))
  {
    hide Goes, Watched, Leaves, WorldOf, GatherOf, Accounts, Moves, Kept;
    if Talks(a) {
      TalkStutters(links, s, a, t, u);
      TalkWatched(links, s, a, t, u);
    } else {
      StepMoves(links, s, a, t, u);
      StepWatched(links, s, a, t, u);
      MovesAccounts(w, first, had, GatherOf(s, u), GatherOf(t, u));
    }
  }

  lemma {:induction false} SeasonAccounts(links: Links, ss: seq<Air>, acts: seq<Act>, u: HashKey, first: Offer,
                                          w: World, had: set<NodeId>)
    requires Unicast(u) && Season(links, ss, acts) && Watched(links, ss[0], u) && w == WorldOf(links, ss[0].nodes, u)
    requires Accounts(w, first, had, GatherOf(ss[0], u)) && forall i :: 0 <= i < |acts| ==> Leaves(ss[i], acts[i], u)
    ensures Watched(links, ss[|acts|], u) && w == WorldOf(links, ss[|acts|].nodes, u)
            && Accounts(w, first, had, GatherOf(ss[|acts|], u))
    decreases |acts|
  {
    hide Goes, WorldOf, Accounts, GatherOf, Watched, Leaves, Talks;
    if acts != [] {
      SeasonPrefix(links, ss, acts);
      var last := |acts| - 1;
      SeasonAccounts(links, ss[..|acts|], acts[..last], u, first, w, had);
      SeasonStep(links, ss[last], acts[last], ss[|acts|], u, w, first, had);
    }
  }

  lemma WaitsAfoot(s: Air, u: HashKey, x: NodeId)
    requires x in s.nodes && FloodRound.Keyed(s.nodes[x]) && u in s.nodes[x].dataTimers
    ensures var m := OtaData(s.nodes[x].dataTimers[u].data); m in Afoot(s) && KeyOf(m) == Some(u)
  {
    hide DataHash;
    assert OtaData(s.nodes[x].dataTimers[u].data) in NodeMsgs(s.nodes[x]);
  }

  lemma NotWaiting(s: Air, u: HashKey, x: NodeId)
    requires Gone(s, u) && x in s.nodes && FloodRound.Keyed(s.nodes[x])
    ensures u !in s.nodes[x].dataTimers
  {
    hide Afoot;
    if u in s.nodes[x].dataTimers {
      WaitsAfoot(s, u, x);
    }
  }

  lemma NotSeen(s: Air, u: HashKey)
    requires Gone(s, u)
    ensures Seen(s, OfferSeen(u)) == map[]
  {
    hide NodeMsgs, DataHash, AdvHash;
    forall c | c in s.flight ensures Sight(s, c, OfferSeen(u)).None? {
      assert c.from in s.nodes && c.index < |s.nodes[c.from].sent| ==> MsgOf(s.nodes, c) in Afoot(s);
    }
  }

  lemma GoneOver(s: Air, u: HashKey)
    requires Gone(s, u) && forall x :: x in s.nodes ==> FloodRound.Keyed(s.nodes[x])
    ensures Over(GatherOf(s, u))
  {
    hide HasForwarded, LastTtl, Has, FloodRound.Keyed, Gone, Seen;
    forall x | x in s.nodes ensures u !in s.nodes[x].dataTimers { NotWaiting(s, u, x); }
    NotSeen(s, u);
  }

  /** Whatever else clients send meanwhile, once nothing of the message is afoot the destination has
      it, if at the start every node that may have to send it had a nearer one next to it that is the
      destination or takes it up. */
  lemma DestinationServed(links: Links, ss: seq<Air>, acts: seq<Act>, u: HashKey, first: Offer)
    requires Unicast(u) && Season(links, ss, acts) && GatherStarts(links, ss[0], u, first) && Gone(ss[|acts|], u)
    requires forall i :: 0 <= i < |acts| ==> Leaves(ss[i], acts[i], u)
    requires Downhill(WorldOf(links, ss[0].nodes, u), first) && Dest(u) in ss[|acts|].nodes
    ensures u in ss[|acts|].nodes[Dest(u)].hash && ss[|acts|].nodes[Dest(u)].id == Dest(u)
  {
    hide Goes, WorldOf, GatherOf, Accounts, Watched, Leaves, Talks, Downhill, Gone, FloodRound.Keyed, Over;
    var w, s, had := WorldOf(links, ss[0].nodes, u), ss[|acts|], GatherOf(ss[0], u).has;
    DepartedAccounts(w, GatherOf(ss[0], u), first);
    SeasonAccounts(links, ss, acts, u, first, w, had);
    forall x | x in s.nodes ensures FloodRound.Keyed(s.nodes[x]) { WatchedNode(links, s, u, x); }
    WatchedNode(links, s, u, Dest(u));
    GoneOver(s, u);
    SeeHas(s, u, Dest(u));
    WorldAt(links, s.nodes, u, Dest(u));
    Arrived(w, first, had, GatherOf(s, u));
  }
}
