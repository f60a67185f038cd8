/** On a fixed topology every hop count a node stores or sends is the length of a real walk. */
module Distances {
  import opened Types
  import opened NodeSpec
  import opened Network

  /** Messages travel along links only. */
  ghost predicate Along(links: Links, moves: seq<Move>) {
    forall i :: 0 <= i < |moves| && moves[i].event.Receive? ==> (moves[i].event.from, moves[i].node) in links
  }

  ghost predicate Walk(links: Links, src: NodeId, x: NodeId, length: nat)
    decreases length
  {
    if length == 0 then x == src else exists y: NodeId :: (y, x) in links && Walk(links, src, y, length - 1)
  }

  /** `d` is, on a 32-bit counter, the length of a walk of at most `bound` hops. */
  ghost predicate Measures(links: Links, src: NodeId, x: NodeId, d: u32, bound: nat) {
    exists length: nat :: length <= bound && Walk(links, src, x, length) && d == length % U32
  }

  ghost predicate Message(links: Links, x: NodeId, m: OtaMsg, bound: nat) {
    match m
    case OtaAdv(a) => Measures(links, a.srcnode, x, a.distance, bound)
    case OtaData(d) => Measures(links, d.srcnode, x, d.distance, bound)
    case OtaAck(_) => true
  }

  ghost predicate Table(links: Links, x: NodeId, t: map<FlowKey, Distance>, bound: nat) {
    forall k :: k in t ==> Measures(links, k.src, x, t[k].hops, bound)
  }

  ghost predicate Pending(links: Links, x: NodeId, n: Node, bound: nat) {
    && (forall k :: k in n.advTimers ==> Message(links, x, OtaAdv(n.advTimers[k].adv), bound))
    && (forall h :: h in n.dataTimers ==> Message(links, x, OtaData(n.dataTimers[h].data), bound))
  }

  ghost predicate Sound(links: Links, x: NodeId, n: Node, bound: nat) {
    && n.id == x && Table(links, x, n.dist, bound) && Pending(links, x, n, bound)
    && (forall m :: m in n.sent ==> Message(links, x, m, bound))
  }

  lemma Here(links: Links, x: NodeId, bound: nat)
    ensures Measures(links, x, x, 0, bound)
  {
    assert Walk(links, x, x, 0);
  }

  lemma Longer(links: Links, src: NodeId, y: NodeId, d: u32, bound: nat)
    requires Measures(links, src, y, d, bound)
    ensures Measures(links, src, y, d, bound + 1)
  {
  }

  lemma OneMore(links: Links, src: NodeId, y: NodeId, x: NodeId, d: u32, bound: nat)
    requires Measures(links, src, y, d, bound) && (y, x) in links
    ensures Measures(links, src, x, Inc32(d), bound + 1)
  {
    var length: nat :| length <= bound && Walk(links, src, y, length) && d == length % U32;
    assert Walk(links, src, x, length + 1);
  }

  lemma SoundLonger(links: Links, x: NodeId, n: Node, bound: nat)
    requires Sound(links, x, n, bound)
    ensures Sound(links, x, n, bound + 1)
  {
    hide Measures;
    assert forall src: NodeId, y: NodeId, d: u32 :: Measures(links, src, y, d, bound) ==>
             Measures(links, src, y, d, bound + 1) by {
      forall src: NodeId, y: NodeId, d: u32 | Measures(links, src, y, d, bound)
        ensures Measures(links, src, y, d, bound + 1)
      {
        Longer(links, src, y, d, bound);
      }
    }
  }

  lemma NextMeasured(links: Links, x: NodeId, t: map<FlowKey, Distance>, k: FlowKey, h: HashKey, hops: u32,
                     from: NodeId,
                     isNew: bool, isAdv: bool, bound: nat)
    requires Table(links, x, t, bound) && Measures(links, k.src, x, hops, bound)
    ensures Table(links, x, t[k := NextDistance(t, x, k, h, hops, from, isNew, isAdv)], bound)
  {
    hide Measures;
  }

  lemma AdvertiseSound(links: Links, x: NodeId, n: Node, a: Advertise, from: NodeId, now: int, bound: nat)
    requires Sound(links, x, n, bound) && Message(links, from, OtaAdv(a), bound) && (from, x) in links
    ensures Sound(links, x, OnAdvertise(n, a, from, now), bound + 1)
  {
    hide Measures, Hashed, HashedAt, NextDistance, AdvRaises, JoinsTree, Overrides, AdvHash, LearnPath, SetAckTimer;
    SoundLonger(links, x, n, bound);
    OneMore(links, a.srcnode, from, x, a.distance, bound);
    var m := OnAdvertise(n, a, from, now);
    NextMeasured(links, x, n.dist, AdvFlow(a), AdvHash(a), Inc32(a.distance), from, AdvHash(a) !in n.hash, true,
                 bound + 1);
    var f := AdvForward(n, a, from);
    if f.Some? {
      assert m.dist[AdvFlow(a)] == AdvDistance(n, a, from);
      assert Message(links, x, OtaAdv(f.value.adv), bound + 1);
    }
  }

  lemma DataSound(links: Links, x: NodeId, n: Node, d0: Data, from: NodeId, now: int, bound: nat)
    requires Sound(links, x, n, bound) && Message(links, from, OtaData(d0), bound) && (from, x) in links
    ensures Sound(links, x, OnData(n, d0, from, now), bound + 1)
  {
    hide Measures, Hashed, HashedAt, NextDistance, DataRaises, DataForward, Handed, DataHash;
    SoundLonger(links, x, n, bound);
    OneMore(links, d0.srcnode, from, x, d0.distance, bound);
    var m := OnData(n, d0, from, now);
    var d := HeardData(d0);
    NextMeasured(links, x, n.dist, DataFlow(d), DataHash(d), d.distance, from, DataHash(d) !in n.hash, false,
                 bound + 1);
    if DataForward(n, d, m.dist).Some? {
      ForwardKeeps(n, d, m.dist);
      assert Message(links, x, OtaData(DataForward(n, d, m.dist).value.data), bound + 1);
    }
  }

  /** A forwarded DATA names the same source, and its distance is the one heard or the one stored. */
  lemma ForwardKeeps(n: Node, d: Data, t: map<FlowKey, Distance>)
    requires DataForward(n, d, t).Some? && DataFlow(d) in t
    ensures var e := DataForward(n, d, t).value.data;
            e.srcnode == d.srcnode && (e.distance == d.distance || e.distance == t[DataFlow(d)].hops)
  {
    hide IsGroupNode, RelaysTree, DataHash, DataRaises, UnicastTtl;
  }

  lemma ClientDataSound(links: Links, x: NodeId, n: Node, s: Session, d: Data, now: int, bound: nat)
    requires Sound(links, x, n, bound) && OnClientData(n, s, d, now).Running?
    ensures Sound(links, x, OnClientData(n, s, d, now).node, bound)
  {
    hide Measures, Hashed, HashedAt, NextDistance, Handed, DataHash, ClientSends, NextSeq;
    var e := Stamped(n, d);
    Here(links, x, bound);
    NextMeasured(links, x, n.dist, DataFlow(e), DataHash(e), 0, x, DataHash(e) !in n.hash, false, bound);
    SendsOwn(PreProcess(n, e, n.id, Some(s), now), e);
  }

  lemma SendsOwn(m: Node, d: Data)
    ensures forall o :: o in ClientSends(m, d) ==>
              o.OtaData? && o.data.srcnode == d.srcnode && o.data.distance == d.distance
  {
    hide AnyRemote, RelayStart;
  }

  lemma AnnounceSound(links: Links, x: NodeId, n: Node, gid: GroupId, now: int, bound: nat)
    requires Sound(links, x, n, bound) && OnAnnounce(n, gid, now).Running?
    ensures Sound(links, x, OnAnnounce(n, gid, now).node, bound)
  {
    hide Measures, Hashed, HashedAt, NextDistance, AdvHash;
    var a := OwnAdvertise(n, gid);
    Here(links, x, bound);
    NextMeasured(links, x, n.dist, AdvFlow(a), AdvHash(a), 0, x, true, true, bound);
  }

  lemma TimerSound(links: Links, x: NodeId, n: Node, e: Event, bound: nat)
    requires Sound(links, x, n, bound) && (e.AckTimer? || e.AdvTimer? || e.DataTimer?) && React(n, e).Running?
    ensures Sound(links, x, React(n, e).node, bound)
  {
    hide Measures, AckProb;
    var m := React(n, e).node;
    match e
    case AckTimer(k) =>
    case AdvTimer(k) =>
    case DataTimer(h) =>
  }

  lemma AckSound(links: Links, x: NodeId, n: Node, a: Ack, from: NodeId, draw: nat, now: int, bound: nat)
    requires Sound(links, x, n, bound) && OnAck(n, a, from, draw, now).Running?
    ensures Sound(links, x, OnAck(n, a, from, draw, now).node, bound)
  {
    hide Measures, Adopts, PassesAck, Flips, Chosen, AddPull;
  }

  lemma OtherSound(links: Links, x: NodeId, n: Node, e: Event, bound: nat)
    requires Sound(links, x, n, bound) && React(n, e).Running?
    requires IdleEvent(e)
    ensures Sound(links, x, React(n, e).node, bound)
  {
    hide Measures, React;
    UntouchedReact(n, e);
  }

  ghost predicate NetSound(links: Links, net: Net, bound: nat) {
    forall x :: x in net ==> Sound(links, x, net[x], bound)
  }

  lemma StepSound(links: Links, net: Net, x: NodeId, e: Event, next: Net, bound: nat)
    requires NetSound(links, net, bound) && Step(net, x, e, next) && (e.Receive? ==> (e.from, x) in links)
    ensures NetSound(links, next, bound + 1)
  {
    hide Sound, OnReceive, OnAckTimeout, OnAdvTimeout, OnDataTimeout, OnAnnounce, OnHashCleanup, OnPullCleanup,
         OnClient, OnClose;
    forall y | y in next ensures Sound(links, y, next[y], bound + 1) {
      SoundLonger(links, y, net[y], bound);
      if y == x {
        ReactSound(links, net, x, e, bound);
      }
    }
  }

  lemma ReactSound(links: Links, net: Net, x: NodeId, e: Event, bound: nat)
    requires NetSound(links, net, bound) && Enabled(net, x, e) && React(net[x], e).Running?
             && (e.Receive? ==> (e.from, x) in links)
    ensures Sound(links, x, React(net[x], e).node, bound + 1)
  {
    hide Message, Table, Pending, OnAdvertise, OnAck, OnData, OnAckTimeout, OnAdvTimeout, OnDataTimeout, OnAnnounce,
         OnHashCleanup, OnPullCleanup, OnClientData, OnRegister, OnClose, RemoveFirst;
    var n := net[x];
    assert Sound(links, x, n, bound);
    SoundLonger(links, x, n, bound);
    match e
    case Receive(from, m, draw, now) =>
      assert Sound(links, from, net[from], bound);
      if from != x {
        match m
        case OtaAck(a) => AckSound(links, x, n, a, from, draw, now, bound + 1);
        case OtaAdv(a) => AdvertiseSound(links, x, n, a, from, now, bound);
        case OtaData(d) => DataSound(links, x, n, d, from, now, bound);
      }
    case AckTimer(_) => TimerSound(links, x, n, e, bound + 1);
    case AdvTimer(_) => TimerSound(links, x, n, e, bound + 1);
    case DataTimer(_) => TimerSound(links, x, n, e, bound + 1);
    case AnnounceTimer(gid, now) => AnnounceSound(links, x, n, gid, now, bound + 1);
    case FromClient(s, c, now) =>
      if c.ClientData? {
        ClientDataSound(links, x, n, s, c.data, now, bound + 1);
      } else {
        OtherSound(links, x, n, e, bound + 1);
      }
    case _ => OtherSound(links, x, n, e, bound + 1);
  }

  /** In every run on a fixed topology each stored and each sent hop count is the length of a
      walk from the source of its flow, taken on a 32-bit counter. */
  lemma {:induction false} HopCountsAreWalks(links: Links, nets: seq<Net>, moves: seq<Move>)
    requires Run(nets, moves) && Along(links, moves)
    ensures NetSound(links, nets[|moves|], |moves|)
    decreases |moves|
  {
    hide Step, Sound;
    if moves == [] {
      StartSound(links, nets[0]);
    } else {
      hide NetSound;
      RunPrefix(nets, moves);
      var last := |moves| - 1;
      HopCountsAreWalks(links, nets[..|moves|], moves[..last]);
      StepSound(links, nets[last], moves[last].node, moves[last].event, nets[|moves|], last);
    }
  }

  lemma StartSound(links: Links, net: Net)
    requires Start(net)
    ensures NetSound(links, net, 0)
  {
  }

  /** While fewer than 2^32 events have happened the counter has not wrapped: the stored value
      is a walk length, so it is never below the length of a shortest path. */
  lemma NeverBelowShortest(links: Links, nets: seq<Net>, moves: seq<Move>, x: NodeId, k: FlowKey, shortest: nat)
    requires Run(nets, moves) && Along(links, moves) && |moves| < U32
    requires x in nets[|moves|] && k in nets[|moves|][x].dist
    requires forall length: nat :: Walk(links, k.src, x, length) ==> shortest <= length
    ensures Walk(links, k.src, x, nets[|moves|][x].dist[k].hops)
    ensures shortest <= nets[|moves|][x].dist[k].hops
  {
    hide Walk, Step, Sound;
    HopCountsAreWalks(links, nets, moves);
    var hops := nets[|moves|][x].dist[k].hops;
    assert Sound(links, x, nets[|moves|][x], |moves|);
    SoundEntry(links, x, nets[|moves|][x], |moves|, k);
    assert Measures(links, k.src, x, hops, |moves|);
    var length: nat :| length <= |moves| && Walk(links, k.src, x, length) && hops == length % U32;
    SmallMod(length);
  }

  lemma SoundEntry(links: Links, x: NodeId, n: Node, bound: nat, k: FlowKey)
    requires Sound(links, x, n, bound) && k in n.dist
    ensures Measures(links, k.src, x, n.dist[k].hops, bound)
  {
  }

  lemma SmallMod(length: nat)
    requires length < U32
    ensures length % U32 == length
  {
  }

  // ---- what is passed on ---------------------------------------------------------------

  /** DATA that is taken up waits under its own name and with its payload; its distance is one more than
      in the copy heard, or if that is a repeat the node's own hop count. */
  lemma DataPassedOn(n: Node, d0: Data, from: NodeId, now: int)
    ensures var m, h := OnData(n, d0, from, now), DataHash(d0);
            m.dataTimers == n.dataTimers || (
              && h in m.dataTimers && m.dataTimers == n.dataTimers[h := m.dataTimers[h]]
              && var o := m.dataTimers[h].data;
                 && o.gid == d0.gid && o.srcnode == d0.srcnode && o.sequence == d0.sequence && o.payload == d0.payload
                 && o.srcttl == d0.srcttl && o.nottlregen == d0.nottlregen
                 && o.distance == if h in n.hash then Hops(m.dist, FlowKey(d0.gid, d0.srcnode))
                    else (d0.distance + 1) % U32)
  {
    hide HashedAt, DataDistance, Handed, IsGroupNode, RelaysTree;
    assert DataHash(HeardData(d0)) == DataHash(d0);
  }

  /** So for advertisements, of which one waits for a flow. */
  lemma AdvertisePassedOn(n: Node, a: Advertise, from: NodeId, now: int)
    ensures var m, k, h := OnAdvertise(n, a, from, now), FlowKey(a.gid, a.srcnode), AdvHash(a);
            m.advTimers == n.advTimers || (
              && k in m.advTimers && m.advTimers == n.advTimers[k := m.advTimers[k]]
              && var o := m.advTimers[k].adv;
                 && o.gid == a.gid && o.srcnode == a.srcnode && o.sequence == a.sequence && o.srcttl == a.srcttl
                 && o.probrelay == a.probrelay && o.nottlregen == a.nottlregen
                 && o.distance == if h in n.hash then Hops(m.dist, k) else (a.distance + 1) % U32)
  {
    hide HashedAt, NextDistance, JoinsTree, Overrides, LearnPath, PullWrites, Pulled, SetAckTimer, IsGroupNode, AdvHash;
  }
}
