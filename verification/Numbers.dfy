/** No DATA anywhere carries a number its source has not reached: what a source sends next, nobody
    has heard of. Hashes may expire and clients come and go. */
module Numbers {
  import opened Types
  import opened NodeSpec
  import opened Network
  import opened Origin
  import opened Air
  import opened Traffic
  import FloodRound

  /** The source, if it is in the network, has counted up to the number. */
  predicate Reached(net: Net, src: NodeId, gid: GroupId, number: nat) {
    src in net ==> number <= Counter(Group, net[src], gid)
  }

  predicate KeyReached(net: Net, h: HashKey) { h.DataHashKey? ==> Reached(net, Src(h), Gid(h), SeqNo(h)) }

  predicate MsgReached(net: Net, m: OtaMsg) { m.OtaData? ==> Reached(net, m.data.srcnode, m.data.gid, m.data.sequence) }

  ghost predicate HashReached(net: Net, n: Node) { forall h :: h in n.hash ==> KeyReached(net, h) }

  ghost predicate LogReached(net: Net, n: Node) {
    (forall m :: m in n.sent ==> MsgReached(net, m))
      && (forall h :: h in n.dataTimers ==> MsgReached(net, OtaData(n.dataTimers[h].data)))
  }

  ghost predicate NodeNumbered(net: Net, x: NodeId, n: Node, bound: nat) {
    n.id == x && FloodRound.Keyed(n) && HashReached(net, n) && LogReached(net, n)
      && forall g :: Counter(Group, n, g) <= bound
  }

  ghost predicate Numbered(net: Net, bound: nat) { forall x :: x in net ==> NodeNumbered(net, x, net[x], bound) }

  // ---- one event -----------------------------------------------------------------------

  /** What the event stores, waits to send and logs had been reached before it. */
  ghost predicate Inherits(net: Net, n: Node, m: Node) {
    && m.id == n.id && m.seqByGid == n.seqByGid && (FloodRound.Keyed(n) ==> FloodRound.Keyed(m))
    && (forall h :: h in m.hash && h !in n.hash ==> KeyReached(net, h))
    && (forall o :: o in m.sent && o !in n.sent ==> MsgReached(net, o))
    && (forall h :: h in m.dataTimers && !(h in n.dataTimers && m.dataTimers[h] == n.dataTimers[h]) ==>
          MsgReached(net, OtaData(m.dataTimers[h].data)))
  }

  lemma InheritsNumbers(net: Net, x: NodeId, m: Node, bound: nat)
    requires x in net && NodeNumbered(net, x, net[x], bound) && Inherits(net, net[x], m)
    ensures NodeNumbered(net, x, m, bound)
  {
    hide FloodRound.Keyed, KeyReached, MsgReached;
    var n := net[x];
    assert forall g :: Counter(Group, m, g) == Counter(Group, n, g);
    assert HashReached(net, m);
    forall h | h in m.dataTimers ensures MsgReached(net, OtaData(m.dataTimers[h].data)) {
      if h in n.dataTimers && m.dataTimers[h] == n.dataTimers[h] {
        assert MsgReached(net, OtaData(n.dataTimers[h].data));
      }
    }
    assert LogReached(net, m);
  }

  lemma HearsData(net: Net, n: Node, d0: Data, from: NodeId, now: int)
    requires MsgReached(net, OtaData(d0))
    ensures Inherits(net, n, OnData(n, d0, from, now))
  {
    hide OnData, DataDistance, DataForward, DataHash;
    DataTables(n, d0, from, now);
    var d := HeardData(d0);
    var t := n.dist[DataFlow(d) := DataDistance(n, d, from)];
    DataKeyKind(d);
    if DataForward(n, d, t).Some? {
      DataForwardKey(n, d, t);
      DataKeyKind(DataForward(n, d, t).value.data);
    }
  }

  lemma HearsAdvertise(net: Net, n: Node, a: Advertise, from: NodeId, now: int)
    ensures Inherits(net, n, OnAdvertise(n, a, from, now))
  {
    hide HashedAt, AdvDistance, AdvForward, AdvRaises, JoinsTree, Overrides, LearnPath, AdvHash, PullWrites, Pulled,
         SetAckTimer, FloodRound.Keyed;
    AdvKeyKind(a);
    FloodRound.AdvertiseSteadfast(n, a, from, now, AdvHash(a));
  }

  lemma HearsAck(net: Net, n: Node, a: Ack, from: NodeId, draw: nat, now: int)
    requires OnAck(n, a, from, draw, now).Running?
    ensures Inherits(net, n, OnAck(n, a, from, draw, now).node)
  {
    hide Adopts, PassesAck, Flips, Chosen, AddPull, PullWrites, Pulled, SetAckTimer;
  }

  lemma Hears(net: Net, n: Node, e: Event)
    requires e.Receive? && React(n, e).Running? && MsgReached(net, e.msg)
    ensures Inherits(net, n, React(n, e).node)
  {
    hide OnAdvertise, OnAck, OnData, Inherits, MsgReached;
    if e.from == n.id {
      assert Inherits(net, n, n) by { SameInherits(net, n); }
    } else {
      match e.msg
      case OtaAck(a) => HearsAck(net, n, a, e.from, e.draw, e.now);
      case OtaAdv(a) => HearsAdvertise(net, n, a, e.from, e.now);
      case OtaData(d) => HearsData(net, n, d, e.from, e.now);
    }
  }

  lemma SameInherits(net: Net, n: Node)
    ensures Inherits(net, n, n)
  {
  }

  lemma TimerInherits(net: Net, n: Node, e: Event)
    requires TimerEvent(e) && React(n, e).Running? && LogReached(net, n)
    ensures Inherits(net, n, React(n, e).node)
  {
    hide React, AckProb;
    TimerReact(n, e);
    if e.DataTimer? {
      assert MsgReached(net, OtaData(n.dataTimers[e.key].data));
    }
  }

  lemma IdleInherits(net: Net, n: Node, e: Event)
    requires IdleEvent(e) && React(n, e).Running?
    ensures Inherits(net, n, React(n, e).node)
  {
    hide React;
    UntouchedReact(n, e);
    if e.HashTimer? {
      CleanupShrinks(n, e.now);
    }
  }

  lemma CleanupShrinks(n: Node, now: int)
    ensures React(n, HashTimer(now)).Running? && React(n, HashTimer(now)).node.hash.Keys <= n.hash.Keys
  {
  }

  lemma AnnounceInherits(net: Net, n: Node, gid: GroupId, now: int)
    requires OnAnnounce(n, gid, now).Running?
    ensures Inherits(net, n, OnAnnounce(n, gid, now).node)
  {
    hide HashedAt, OwnDistance, AdvHash;
    AdvKeyKind(OwnAdvertise(n, gid));
  }

  /** Client DATA takes the next number. */
  lemma TalkNumbered(net: Net, x: NodeId, s: Session, d0: Data, now: int, bound: nat)
    requires x in net && NodeNumbered(net, x, net[x], bound) && bound + 1 < U64
             && OnClientData(net[x], s, d0, now).Running?
    ensures var m := OnClientData(net[x], s, d0, now).node;
            NodeNumbered(net[x := m], x, m, bound + 1) && forall g :: Counter(Group, net[x], g) <= Counter(Group, m, g)
  {
    var n, m := net[x], OnClientData(net[x], s, d0, now).node;
    ClientTalk(n, s, d0, now);
    assert Counter(Group, n, d0.gid) <= bound;
    CountUp(n, d0.gid, bound);
    hide OnClientData, DataHash, NextSeq;
    DataKeyKind(Stamped(n, d0));
    CountersRise(net, x, m);
  }

  /** Rising counters unsettle nothing. */
  lemma CountersRise(net: Net, x: NodeId, m: Node)
    requires x in net && forall g :: Counter(Group, net[x], g) <= Counter(Group, m, g)
    ensures forall h :: KeyReached(net, h) ==> KeyReached(net[x := m], h)
    ensures forall o :: MsgReached(net, o) ==> MsgReached(net[x := m], o)
  {
    hide Counter;
  }

  lemma NodeStays(net: Net, x: NodeId, m: Node, y: NodeId, bound: nat)
    requires x in net && y in net && y != x && NodeNumbered(net, y, net[y], bound)
    requires forall g :: Counter(Group, net[x], g) <= Counter(Group, m, g)
    ensures NodeNumbered(net[x := m], y, net[y], bound + 1)
  {
    CountersRise(net, x, m);
    hide Counter, KeyReached, MsgReached;
    assert forall g :: Counter(Group, net[y], g) <= bound;
  }

  // ---- runs ----------------------------------------------------------------------------

  lemma QuietNumbered(net: Net, x: NodeId, e: Event, bound: nat)
    requires Numbered(net, bound) && Enabled(net, x, e) && React(net[x], e).Running?
             && !(e.FromClient? && e.cmd.ClientData?)
    ensures Inherits(net, net[x], React(net[x], e).node)
  {
    hide React, Inherits, HashReached, MsgReached, FloodRound.Keyed;
    assert NodeNumbered(net, x, net[x], bound);
    if e.Receive? {
      assert NodeNumbered(net, e.from, net[e.from], bound);
      Hears(net, net[x], e);
    } else if TimerEvent(e) {
      TimerInherits(net, net[x], e);
    } else if e.AnnounceTimer? {
      ReactAnnounce(net[x], e);
      AnnounceInherits(net, net[x], e.gid, e.now);
    } else {
      IdleInherits(net, net[x], e);
    }
  }

  lemma ReactAnnounce(n: Node, e: Event)
    requires e.AnnounceTimer?
    ensures React(n, e) == OnAnnounce(n, e.gid, e.now)
  {
  }

  lemma ReactTalk(n: Node, e: Event)
    requires e.FromClient? && e.cmd.ClientData?
    ensures React(n, e) == OnClientData(n, e.session, e.cmd.data, e.now)
  {
  }

  lemma StepNumbered(net: Net, x: NodeId, e: Event, next: Net, bound: nat)
    requires Numbered(net, bound) && Step(net, x, e, next) && bound + 1 < U64
    ensures Numbered(next, bound + 1) && x in net && x in next
            && forall g :: Counter(Group, net[x], g) <= Counter(Group, next[x], g)
  {
    hide React, NodeNumbered, Inherits, Counter, OnClientData;
    var n, m := net[x], next[x];
    if e.FromClient? && e.cmd.ClientData? {
      ReactTalk(n, e);
      TalkNumbered(net, x, e.session, e.cmd.data, e.now, bound);
    } else {
      QuietNumbered(net, x, e, bound);
      InheritsNumbers(net, x, m, bound);
      SameCounters(net, n, m);
      CountersRise(net, x, m);
      StillNumbered(net, next, x, m, bound);
    }
    forall y | y in next && y != x ensures NodeNumbered(next, y, next[y], bound + 1) {
      NodeStays(net, x, m, y, bound);
    }
  }

  lemma SameCounters(net: Net, n: Node, m: Node)
    requires Inherits(net, n, m)
    ensures forall g :: Counter(Group, m, g) == Counter(Group, n, g)
  {
  }

  lemma StillNumbered(net: Net, next: Net, x: NodeId, m: Node, bound: nat)
    requires NodeNumbered(net, x, m, bound)
    requires forall h :: KeyReached(net, h) ==> KeyReached(next, h)
    requires forall o :: MsgReached(net, o) ==> MsgReached(next, o)
    ensures NodeNumbered(next, x, m, bound + 1)
  {
    hide KeyReached, MsgReached, Counter;
    assert forall g :: Counter(Group, m, g) <= bound;
  }

  /** In every run of fewer than 2^64 events each name of DATA, stored, waiting or sent anywhere, has
      a number its source has counted. */
  lemma {:induction false} RunNumbered(nets: seq<Net>, moves: seq<Move>)
    requires Run(nets, moves) && |moves| < U64
    ensures Numbered(nets[|moves|], |moves|)
    decreases |moves|
  {
    hide Step, Numbered, Start;
    if moves == [] {
      StartNumbered(nets[0]);
    } else {
      RunPrefix(nets, moves);
      var last := |moves| - 1;
      RunNumbered(nets[..|moves|], moves[..last]);
      StepNumbered(nets[last], moves[last].node, moves[last].event, nets[|moves|], last);
    }
  }

  lemma StartNumbered(net: Net)
    requires Start(net)
    ensures Numbered(net, 0)
  {
  }

  /** Nobody has stored, sent or is about to send it. */
  ghost predicate Unnamed(net: Net, h: HashKey) {
    forall y :: y in net ==>
      h !in net[y].hash && (forall m :: m in net[y].sent ==> KeyOf(m) != Some(h))
      && forall k :: k in net[y].dataTimers ==> DataHash(net[y].dataTimers[k].data) != h
  }

  /** Nobody has heard of what a client sends next. */
  lemma NextUnnamed(net: Net, x: NodeId, d: Data, h: HashKey, bound: nat)
    requires Numbered(net, bound) && bound + 1 < U64 && x in net
    requires h.DataHashKey? && FlowOf(h) == FlowKey(d.gid, x) && SeqNo(h) == NextSeq(net[x], d.gid)
    ensures Unnamed(net, h)
  {
    assert NodeNumbered(net, x, net[x], bound);
    assert Counter(Group, net[x], d.gid) <= bound;
    CountUp(net[x], d.gid, bound);
    hide NextSeq, DataHash, AdvHash, Counter;
    forall y | y in net
      ensures h !in net[y].hash && (forall m :: m in net[y].sent ==> KeyOf(m) != Some(h))
      ensures forall k :: k in net[y].dataTimers ==> DataHash(net[y].dataTimers[k].data) != h
    {
      assert NodeNumbered(net, y, net[y], bound);
      assert h in net[y].hash ==> KeyReached(net, h);
      forall m | m in net[y].sent && m.OtaData? ensures DataHash(m.data) != h {
        assert MsgReached(net, m);
        DataKeyKind(m.data);
      }
      forall a: Advertise ensures AdvHash(a) != h { AdvKeyKind(a); }
      forall k | k in net[y].dataTimers ensures DataHash(net[y].dataTimers[k].data) != h {
        assert MsgReached(net, OtaData(net[y].dataTimers[k].data));
        DataKeyKind(net[y].dataTimers[k].data);
      }
    }
  }

  lemma AllKeyed(net: Net, bound: nat)
    requires Numbered(net, bound)
    ensures forall y :: y in net ==> FloodRound.Keyed(net[y])
  {
    hide FloodRound.Keyed, HashReached, LogReached;
    forall y | y in net ensures FloodRound.Keyed(net[y]) { assert NodeNumbered(net, y, net[y], bound); }
  }

  lemma SaidNumber(n: Node, m: Node, d0: Data)
    requires Said(n, m, d0)
    ensures Counter(Group, m, d0.gid) == NextSeq(n, d0.gid)
  {
    hide NextSeq, DataHash;
  }

  // ---- seasons -------------------------------------------------------------------------

  lemma GoesStep(links: Links, s: Air, a: Act, t: Air, bound: nat)
    requires Goes(links, s, a, t) && Numbered(s.nodes, bound) && bound + 1 < U64
    ensures Numbered(t.nodes, bound + 1) && s.nodes.Keys == t.nodes.Keys
    ensures forall x, g :: x in s.nodes ==> Counter(Group, s.nodes[x], g) <= Counter(Group, t.nodes[x], g)
  {
    hide React, Numbered, Aired, Counter;
    StepNumbered(s.nodes, Actor(a), EventOf(s, a), t.nodes, bound);
  }

  lemma {:induction false} SeasonNumbered(links: Links, ss: seq<Air>, acts: seq<Act>, i: nat, bound: nat)
    requires Season(links, ss, acts) && i <= |acts| && Numbered(ss[0].nodes, bound) && bound + |acts| < U64
    ensures Numbered(ss[i].nodes, bound + i)
    decreases i
  {
    hide Goes, Numbered, Counter;
    if i > 0 {
      SeasonNumbered(links, ss, acts, i - 1, bound);
      GoesStep(links, ss[i - 1], acts[i - 1], ss[i], bound + i - 1);
    }
  }

  /** Numbers never run backwards. */
  lemma {:induction false} SeasonCounts(links: Links, ss: seq<Air>, acts: seq<Act>, i: nat, j: nat, x: NodeId,
                                        bound: nat)
    requires Season(links, ss, acts) && i <= j <= |acts| && Numbered(ss[0].nodes, bound) && bound + |acts| < U64
             && x in ss[i].nodes
    ensures x in ss[j].nodes && forall g :: Counter(Group, ss[i].nodes[x], g) <= Counter(Group, ss[j].nodes[x], g)
    decreases j
  {
    hide Goes, Numbered, Counter;
    if j > i {
      SeasonCounts(links, ss, acts, i, j - 1, x, bound);
      SeasonNumbered(links, ss, acts, j - 1, bound);
      GoesStep(links, ss[j - 1], acts[j - 1], ss[j], bound + j - 1);
    }
  }

  lemma NextApart(net: Net, x: NodeId, d: Data, h: HashKey, bound: nat)
    requires Numbered(net, bound) && bound + 1 < U64 && x in net
    requires Src(h) in net ==> SeqNo(h) <= Counter(Group, net[Src(h)], Gid(h))
    ensures Apart(net[x], d, h)
  {
    assert NodeNumbered(net, x, net[x], bound);
    hide HashReached, LogReached;
    assert Counter(Group, net[x], d.gid) <= bound;
    CountUp(net[x], d.gid, bound);
  }

  /** What clients send after a message goes by another name. */
  lemma LaterApart(links: Links, ss: seq<Air>, acts: seq<Act>, i: nat, j: nat, h: HashKey, bound: nat)
    requires Season(links, ss, acts) && i <= j < |acts| && Numbered(ss[0].nodes, bound) && bound + |acts| < U64
    requires Src(h) in ss[i].nodes && SeqNo(h) <= Counter(Group, ss[i].nodes[Src(h)], Gid(h))
    requires Talks(acts[j]) && acts[j].node in ss[j].nodes
    ensures Apart(ss[j].nodes[acts[j].node], SaidBy(acts[j]), h)
  {
    hide Goes, Numbered, Counter, Apart;
    SeasonCounts(links, ss, acts, i, j, Src(h), bound);
    SeasonNumbered(links, ss, acts, j, bound);
    NextApart(ss[j].nodes, acts[j].node, SaidBy(acts[j]), h, bound + j);
  }
}
