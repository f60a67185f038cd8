/** A relay tree at rest, and what goes on without disturbing it. */
module TreeSeason {
  import opened Types
  import opened NodeSpec
  import opened Network
  import opened Origin
  import opened Air
  import opened Traffic
  import opened Tree
  import opened TreeRound

  // ---- hop counts and advertisements ---------------------------------------------------

  /** A node that does not know the advertisement knows no hop count of its flow either. */
  ghost predicate Unmeasured(n: Node, h: HashKey) { h !in n.hash ==> FlowOf(h) !in n.dist }

  ghost predicate AllUnmeasured(s: Air, h: HashKey) { forall x :: x in s.nodes ==> Unmeasured(s.nodes[x], h) }

  lemma AdvertiseUnmeasured(n: Node, a: Advertise, from: NodeId, now: int, h: HashKey)
    requires Unmeasured(n, h) && h.AdvHashKey? && Bystander(h, OtaAdv(a))
    ensures Unmeasured(OnAdvertise(n, a, from, now), h)
  {
    hide HashedAt, NextDistance, AdvForward, AdvRaises, JoinsTree, Overrides, LearnPath, AdvHash, PullWrites, Pulled;
    AdvKeyKind(a);
  }

  lemma DataUnmeasured(n: Node, d: Data, from: NodeId, now: int, h: HashKey)
    requires Unmeasured(n, h) && h.AdvHashKey? && Bystander(h, OtaData(d))
    ensures Unmeasured(OnData(n, d, from, now), h)
  {
    hide HashedAt, NextDistance, DataForward, DataRaises, DataHash, Handed;
    DataKeyKind(HeardData(d));
  }

  lemma AckUnmeasured(n: Node, a: Ack, from: NodeId, draw: nat, now: int, h: HashKey)
    requires Unmeasured(n, h) && OnAck(n, a, from, draw, now).Running?
    ensures Unmeasured(OnAck(n, a, from, draw, now).node, h)
  {
    hide Adopts, PassesAck, Flips, Chosen, AddPull, PullWrites, Pulled;
  }

  lemma ReactUnmeasured(n: Node, e: Event, h: HashKey)
    requires Unmeasured(n, h) && h.AdvHashKey? && (e.Receive? || TimerEvent(e)) && React(n, e).Running?
    requires e.Receive? ==> Bystander(h, e.msg)
    ensures Unmeasured(React(n, e).node, h)
  {
    if TimerEvent(e) {
      hide React, TimerMsg;
      TimerReact(n, e);
    } else if e.from != n.id {
      hide OnAdvertise, OnAck, OnData, Bystander, Unmeasured;
      match e.msg
      case OtaAck(a) => AckUnmeasured(n, a, e.from, e.draw, e.now, h);
      case OtaAdv(a) => AdvertiseUnmeasured(n, a, e.from, e.now, h);
      case OtaData(d) => DataUnmeasured(n, d, e.from, e.now, h);
    }
  }

  lemma StepUnmeasured(links: Links, s: Air, a: Act, t: Air, h: HashKey)
    requires Watched(links, s, h) && AllUnmeasured(s, h) && Goes(links, s, a, t) && Relaying(a)
    ensures AllUnmeasured(t, h)
  {
    hide React, Unmeasured, Aired, Bystander, NodeMsgs, Ready;
    assert a.Deliver? ==> MsgOf(s.nodes, a.copy) in Afoot(s);
    RelayLog(links, s, a, t);
    ReactUnmeasured(s.nodes[Actor(a)], EventOf(s, a), h);
  }

  lemma {:induction false} RoundUnmeasured(links: Links, ss: seq<Air>, acts: seq<Act>, h: HashKey)
    requires Round(links, ss, acts) && TreeStarts(links, ss[0], h) && AllUnmeasured(ss[0], h)
    ensures AllUnmeasured(ss[|acts|], h)
    decreases |acts|
  {
    hide Goes, AllUnmeasured, Watched, TreeInv, NoStrays, WorldOf, TreeOf, TreeStarts;
    if acts != [] {
      RoundPrefix(links, ss, acts);
      var last := |acts| - 1;
      RoundUnmeasured(links, ss[..|acts|], acts[..last], h);
      RoundTree(links, ss[..|acts|], acts[..last], h, WorldOf(links, ss[0].nodes, h));
      StepUnmeasured(links, ss[last], acts[last], ss[|acts|], h);
    }
  }

  /** The state an advertisement round ends in when no earlier round left any trace of the flow. */
  ghost predicate Settled(links: Links, s: Air, h: HashKey) {
    AtRest(links, s, h) && AllUnmeasured(s, h) && NoStrays(WorldOf(links, s.nodes, h), TreeOf(s, h))
  }

  lemma RoundSettles(links: Links, ss: seq<Air>, acts: seq<Act>, h: HashKey)
    requires h.AdvHashKey? && Round(links, ss, acts) && TreeStarts(links, ss[0], h) && Quiescent(ss[|acts|])
    requires AllUnmeasured(ss[0], h) && NoStrays(WorldOf(links, ss[0].nodes, h), TreeOf(ss[0], h))
    ensures Settled(links, ss[|acts|], h)
  {
    hide Goes, TreeInv, NoStrays, AllUnmeasured, Watched, Announced, WorldOf, TreeOf, Quiescent, AtRest;
    RoundUnmeasured(links, ss, acts, h);
    RoundTree(links, ss, acts, h, WorldOf(links, ss[0].nodes, h));
    RoundRests(links, ss, acts, h);
  }

  // ---- at rest the tree leaves the air to others ---------------------------------------

  lemma NothingWaits(links: Links, s: Air, h: HashKey, y: NodeId, m: OtaMsg)
    requires AtRest(links, s, h) && y in s.nodes && m in NodeMsgs(s.nodes[y])
    ensures Stranger(h, m)
  {
    hide TreeInv, WellFormed, Seen, PartOf, AdvHash, Ready, Bystander;
    assert m in Afoot(s);
    assert TreeOf(s, h).parts[y] == PartOf(s.nodes[y], h);
    RestTimers(s.nodes[y], h);
    if m.OtaAdv? {
      AdvKeyKind(m.adv);
    }
    OnlyTimers(s.nodes[y], h, m);
  }

  lemma RestTimers(n: Node, h: HashKey)
    requires h.AdvHashKey? && PartOf(n, h).spreads.None? && PartOf(n, h).acks.None?
    ensures FlowOf(h) !in n.advTimers && FlowOf(h) !in n.ackTimers
  {
    hide Children, HasAcked;
  }

  lemma OnlyTimers(n: Node, h: HashKey, m: OtaMsg)
    requires h.AdvHashKey? && Ready(n, h) && FlowOf(h) !in n.advTimers && FlowOf(h) !in n.ackTimers && m in NodeMsgs(n)
             && Bystander(h, m)
    ensures Stranger(h, m)
  {
    if m.OtaAdv? {
      AdvKeyKind(m.adv);
    }
    hide AdvHash;
  }

  lemma NothingFlies(links: Links, s: Air, h: HashKey, c: Copy)
    requires AtRest(links, s, h) && c in s.flight && c.from in s.nodes && c.index < |s.nodes[c.from].sent|
    ensures Stranger(h, MsgOf(s.nodes, c))
  {
    hide TreeInv, WellFormed, PartOf, Ready, NodeMsgs, AdvHash;
    assert MsgOf(s.nodes, c) in Afoot(s);
    assert c !in TreeOf(s, h).flight;
  }

  lemma RestStrangers(links: Links, s: Air, h: HashKey)
    requires AtRest(links, s, h)
    ensures forall m :: m in Afoot(s) ==> Stranger(h, m)
  {
    hide AtRest, NodeMsgs, Stranger;
    forall m | m in Afoot(s) ensures Stranger(h, m) {
      if y :| y in s.nodes && m in NodeMsgs(s.nodes[y]) {
        NothingWaits(links, s, h, y, m);
      } else {
        var c :| c in s.flight && c.from in s.nodes && c.index < |s.nodes[c.from].sent| && m == MsgOf(s.nodes, c);
        NothingFlies(links, s, h, c);
      }
    }
  }

  // ---- client DATA ---------------------------------------------------------------------

  lemma TalkSamePart(n: Node, m: Node, d0: Data, h: HashKey)
    requires h.AdvHashKey? && Said(n, m, d0) && FlowKey(d0.gid, n.id) != FlowOf(h)
    ensures PartOf(m, h) == PartOf(n, h) && Kept(n, m, h) && (Unmeasured(n, h) ==> Unmeasured(m, h))
  {
    hide DataHash, NextSeq, Children;
    DataKeyKind(Stamped(n, d0));
    SameMember(n, m, Gid(h));
  }

  lemma UtterancePasses(n: Node, d0: Data, h: HashKey, o: OtaMsg)
    requires Utters(o, Stamped(n, d0)) && FlowKey(d0.gid, n.id) != FlowOf(h)
    ensures Bystander(h, o) && NoteOf(h)(o) == None
  {
  }

  lemma TalkStutters(links: Links, s: Air, a: Act, t: Air, h: HashKey)
    requires Watched(links, s, h) && Goes(links, s, a, t) && Talks(a) && Spares(a, FlowOf(h))
    ensures TreeOf(t, h) == TreeOf(s, h)
    ensures a.node in s.nodes && Kept(s.nodes[a.node], t.nodes[a.node], h)
    ensures Unmeasured(s.nodes[a.node], h) ==> Unmeasured(t.nodes[a.node], h)
  {
    hide Goes, Watched, Said, PartOf, PartsOf, Seen, NoteOf, Utters, Kept, Unmeasured, Stamped;
    SeeWatched(links, s, h);
    TalkNode(links, s, a, t);
    WatchedNode(links, s, h, a.node);
    TalkSamePart(s.nodes[a.node], t.nodes[a.node], SaidBy(a), h);
    PartShows(s.nodes, t.nodes, a.node, h);
    PartShows(s.nodes, s.nodes, a.node, h);
    assert s.nodes[a.node := s.nodes[a.node]] == s.nodes;
    forall o | Utters(o, Stamped(s.nodes[a.node], SaidBy(a))) ensures NoteOf(h)(o) == None {
      UtterancePasses(s.nodes[a.node], SaidBy(a), h, o);
    }
    TalkSeen(links, s, a, t, NoteOf(h));
  }

  lemma SeeWatched(links: Links, s: Air, h: HashKey)
    requires Watched(links, s, h)
    ensures h.AdvHashKey? && WellFormed(links, s)
  {
  }

  lemma TalkWatched(links: Links, s: Air, a: Act, t: Air, h: HashKey)
    requires Watched(links, s, h) && Goes(links, s, a, t) && Talks(a) && Spares(a, FlowOf(h))
    ensures Watched(links, t, h) && WorldOf(links, t.nodes, h) == WorldOf(links, s.nodes, h)
  {
    hide Goes, Said, Afoot, Bystander, Ready, WorldOf, TreeOf, Kept, Stamped, Utters, PartOf;
    TalkStutters(links, s, a, t, h);
    TalkAir(links, s, a, t);
    WatchedNode(links, s, h, a.node);
    NodesKept(links, s, a, t, h);
    forall o | o in Afoot(t) ensures Bystander(h, o) {
      TalkAfoot(links, s, a, t, o);
      if o !in Afoot(s) {
        UtterancePasses(s.nodes[a.node], SaidBy(a), h, o);
      }
    }
  }

  // ---- a settled tree stays ------------------------------------------------------------

  lemma NoMove(w: World, s: Tree, t: Tree)
    requires Over(s) && Moves(w, s, t)
    ensures t == s
  {
  }

  lemma RelayKeeps(links: Links, s: Air, a: Act, t: Air, h: HashKey)
    requires Settled(links, s, h) && Goes(links, s, a, t) && Relaying(a)
    ensures Watched(links, t, h) && WorldOf(links, t.nodes, h) == WorldOf(links, s.nodes, h)
            && TreeOf(t, h) == TreeOf(s, h)
  {
    hide Goes, Watched, WorldOf, TreeOf, TreeInv, NoStrays, Over, AllUnmeasured, Moves, Kept;
    var w := WorldOf(links, s.nodes, h);
    SeeWatched(links, s, h);
    StepTree(links, s, a, t, h, w);
    if a.Deliver? { DeliveryMoves(links, s, a, t, h, w); } else { FiringMoves(links, s, a, t, h, w); }
    NoMove(w, TreeOf(s, h), TreeOf(t, h));
  }

  lemma StepSettled(links: Links, s: Air, a: Act, t: Air, h: HashKey)
    requires Settled(links, s, h) && Goes(links, s, a, t) && (Relaying(a) || Talks(a)) && Spares(a, FlowOf(h))
    ensures Settled(links, t, h)
  {
    hide Goes, Watched, WorldOf, TreeOf, TreeInv, NoStrays, Over, Unmeasured, Kept, Said;
    if Talks(a) {
      TalkStutters(links, s, a, t, h);
      TalkWatched(links, s, a, t, h);
      TalkNode(links, s, a, t);
    } else {
      RelayKeeps(links, s, a, t, h);
      StepUnmeasured(links, s, a, t, h);
    }
  }

  /** The tree outlasts any amount of DATA of other flows: unicast to its source in particular. */
  lemma {:induction false} SeasonSettled(links: Links, ss: seq<Air>, acts: seq<Act>, h: HashKey)
    requires Season(links, ss, acts) && Settled(links, ss[0], h)
             && forall i :: 0 <= i < |acts| ==> Spares(acts[i], FlowOf(h))
    ensures Settled(links, ss[|acts|], h)
    decreases |acts|
  {
    hide Goes, Settled, Spares, Talks;
    if acts != [] {
      SeasonPrefix(links, ss, acts);
      var last := |acts| - 1;
      SeasonSettled(links, ss[..|acts|], acts[..last], h);
      StepSettled(links, ss[last], acts[last], ss[|acts|], h);
    }
  }
}
