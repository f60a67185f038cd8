/** Reverse paths never form a loop, and no assertion of a network or timer handler fails. */
module LoopFreedom {
  import opened Types
  import opened NodeSpec
  import opened Network

  // ---- who may be pointed at -----------------------------------------------------------

  /** `x` is the source of the flow or has a reverse path at least as recent as `s`. */
  ghost predicate Backs(net: Net, x: NodeId, k: FlowKey, s: u32) {
    x == k.src || (x in net && k in net[x].revPath && s <= net[x].revPath[k].seqNo)
  }

  ghost predicate Backed(net: Net, x: NodeId, m: OtaMsg) {
    match m
    case OtaAdv(a) => Backs(net, x, AdvFlow(a), a.sequence)
    case OtaAck(a) => Backs(net, a.oblig, AckFlow(a), 0)
    case OtaData(_) => true
  }

  ghost predicate PathsBacked(net: Net, n: Node) {
    forall k :: k in n.revPath ==> Backs(net, n.revPath[k].next, k, n.revPath[k].seqNo)
  }

  ghost predicate SentBacked(net: Net, x: NodeId, n: Node) { forall m :: m in n.sent ==> Backed(net, x, m) }

  ghost predicate TimersBacked(net: Net, x: NodeId, n: Node) {
    && (forall k :: k in n.advTimers ==>
          AdvFlow(n.advTimers[k].adv) == k && Backs(net, x, k, n.advTimers[k].adv.sequence))
    && (forall k :: k in n.ackTimers ==> AckFlow(n.ackTimers[k]) == k && Backs(net, n.ackTimers[k].oblig, k, 0))
  }

  ghost predicate NodeBacked(net: Net, x: NodeId, n: Node) {
    n.id == x && NodeOk(n) && PathsBacked(net, n) && SentBacked(net, x, n) && TimersBacked(net, x, n)
  }

  ghost predicate Inv(net: Net) { forall x :: x in net ==> NodeBacked(net, x, net[x]) }

  // ---- reverse paths only get newer ----------------------------------------------------

  ghost predicate Newer(n: Node, m: Node) {
    && m.id == n.id
    && forall k :: k in n.revPath ==> k in m.revPath && n.revPath[k].seqNo <= m.revPath[k].seqNo
  }

  ghost predicate PathsLearned(n: Node, m: Node, a: Advertise, from: NodeId, now: int) {
    m.revPath == if AdvHash(a) in n.hash then n.revPath
                 else LearnPath(n.revPath, AdvFlow(a), RevPath(from, a.sequence, now, a.probrelay))
  }

  lemma AdvertisePaths(n: Node, a: Advertise, from: NodeId, now: int)
    ensures var m := OnAdvertise(n, a, from, now); m.id == n.id && PathsLearned(n, m, a, from, now)
  {
    hide LearnPath, Hashed, HashedAt, AdvDistance, AdvForward, AdvRaises, JoinsTree, Overrides, AdvHash;
  }

  lemma AckPaths(n: Node, a: Ack, from: NodeId, draw: nat, now: int)
    requires OnAck(n, a, from, draw, now).Running?
    ensures var m := OnAck(n, a, from, draw, now).node; m.id == n.id && m.revPath == n.revPath
  {
    hide Adopts, PassesAck, Flips, Chosen, AddPull;
  }

  lemma DataPaths(n: Node, d: Data, from: NodeId, now: int)
    ensures var m := OnData(n, d, from, now); m.id == n.id && m.revPath == n.revPath
  {
    hide Hashed, HashedAt, DataDistance, DataForward, DataRaises, Handed, DataHash;
  }

  lemma ReceivePaths(n: Node, e: Event)
    requires e.Receive? && React(n, e).Running?
    ensures React(n, e).node.id == n.id
    ensures if e.from != n.id && e.msg.OtaAdv? then PathsLearned(n, React(n, e).node, e.msg.adv, e.from, e.now)
            else React(n, e).node.revPath == n.revPath
  {
    hide OnAdvertise, OnAck, OnData, PathsLearned;
    if e.from != n.id {
      match e.msg
      case OtaAck(a) => AckPaths(n, a, e.from, e.draw, e.now);
      case OtaAdv(a) => AdvertisePaths(n, a, e.from, e.now);
      case OtaData(d) => DataPaths(n, d, e.from, e.now);
    }
  }

  lemma OtherPaths(n: Node, e: Event)
    requires !e.Receive? && React(n, e).Running?
    ensures React(n, e).node.id == n.id && React(n, e).node.revPath == n.revPath
  {
    if QuietEvent(e) {
      hide React;
      QuietReact(n, e);
    } else {
      hide Hashed, HashedAt, NextDistance, Handed, ExpiredKeys, Fresh, ClientSends;
      match e
      case AnnounceTimer(gid, now) =>
      case HashTimer(now) =>
      case FromClient(s, ClientData(d), now) =>
    }
  }

  lemma ReactNewer(n: Node, e: Event)
    requires React(n, e).Running?
    ensures Newer(n, React(n, e).node)
  {
    hide React;
    if e.Receive? {
      ReceivePaths(n, e);
    } else {
      OtherPaths(n, e);
    }
  }

  lemma BacksStays(net: Net, x: NodeId, m: Node)
    requires x in net && Newer(net[x], m)
    ensures forall y: NodeId, k: FlowKey, s: u32 :: Backs(net, y, k, s) ==> Backs(net[x := m], y, k, s)
  {
  }

  lemma NodeBackedStays(net: Net, next: Net, y: NodeId, n: Node)
    requires NodeBacked(net, y, n)
    requires forall y: NodeId, k: FlowKey, s: u32 :: Backs(net, y, k, s) ==> Backs(next, y, k, s)
    ensures NodeBacked(next, y, n)
  {
    hide Backs, NodeOk;
    forall m | m in n.sent ensures Backed(next, y, m) {
      assert Backed(net, y, m);
    }
  }

  // ---- what an event adds --------------------------------------------------------------

  /** Every entry of `m` is an entry of `n` or backed: enough for `m` to be backed. */
  ghost predicate Gains(next: Net, x: NodeId, n: Node, m: Node) {
    && (forall o :: o in m.sent ==> o in n.sent || Backed(next, x, o))
    && (forall k :: k in m.revPath && !(k in n.revPath && m.revPath[k] == n.revPath[k]) ==>
          Backs(next, m.revPath[k].next, k, m.revPath[k].seqNo))
    && (forall k :: k in m.advTimers && !(k in n.advTimers && m.advTimers[k] == n.advTimers[k]) ==>
          AdvFlow(m.advTimers[k].adv) == k && Backs(next, x, k, m.advTimers[k].adv.sequence))
    && (forall k :: k in m.ackTimers && !(k in n.ackTimers && m.ackTimers[k] == n.ackTimers[k]) ==>
          AckFlow(m.ackTimers[k]) == k && Backs(next, m.ackTimers[k].oblig, k, 0))
  }

  lemma GainsBacked(next: Net, x: NodeId, n: Node, m: Node)
    requires NodeBacked(next, x, n) && m.id == n.id && NodeOk(m) && Gains(next, x, n, m)
    ensures NodeBacked(next, x, m)
  {
    hide Backs, Backed, NodeOk;
  }

  /** After handling an ADVERTISE that it knew or now learns, a node has a path as recent. */
  lemma HearerKnows(n: Node, a: Advertise, from: NodeId, now: int)
    requires Noted(n)
    ensures KnownSince(OnAdvertise(n, a, from, now), AdvFlow(a), a.sequence)
  {
    hide Hashed, HashedAt, NextDistance, JoinsTree, Overrides, PullWrites, Pulled, AdvHash, AnyLocal, AdvForward,
         AdvRaises;
    if AdvHash(a) in n.hash {
      HashKnown(n, a);
    }
  }

  lemma ForwardFlow(n: Node, a: Advertise, from: NodeId)
    requires AdvForward(n, a, from).Some?
    ensures AdvFlow(AdvForward(n, a, from).value.adv) == AdvFlow(a)
    ensures AdvForward(n, a, from).value.adv.sequence == a.sequence
  {
    hide AdvDistance, IsGroupNode, AdvRaises, AdvHash;
  }

  lemma AdvertiseGains(net: Net, x: NodeId, a: Advertise, from: NodeId, now: int)
    requires x in net && net[x].id == x && Noted(net[x]) && Backs(net, from, AdvFlow(a), a.sequence)
    ensures var m := OnAdvertise(net[x], a, from, now); Gains(net[x := m], x, net[x], m)
  {
    hide Noted, Hashed, HashedAt, AdvDistance, AdvForward, AdvRaises, JoinsTree, Overrides, PullWrites, Pulled, AdvHash,
         IsGroupNode;
    var n := net[x];
    var m := OnAdvertise(n, a, from, now);
    assert Newer(n, m);
    BacksStays(net, x, m);
    HearerKnows(n, a, from, now);
    if AdvForward(n, a, from).Some? {
      ForwardFlow(n, a, from);
    }
  }

  lemma HashKnown(n: Node, a: Advertise)
    requires Noted(n) && AdvHash(a) in n.hash
    ensures KnownSince(n, AdvFlow(a), a.sequence)
  {
    assert AdvFlow(AdvHash(a).adv) == AdvFlow(a);
  }

  lemma AckGains(net: Net, x: NodeId, a: Ack, from: NodeId, draw: nat, now: int)
    requires Inv(net) && x in net && OnAck(net[x], a, from, draw, now).Running?
    ensures var m := OnAck(net[x], a, from, draw, now).node; Gains(net[x := m], x, net[x], m)
  {
    hide NodeOk, Adopts, Flips, AddPull, PullWrites, Pulled, IsGroupNode, AlreadyAcked, Chosen;
    var n := net[x];
    var m := OnAck(n, a, from, draw, now).node;
    BacksStays(net, x, m);
    if PassesAck(n, a, draw) {
      assert Backs(net[x := m], n.revPath[AckFlow(a)].next, AckFlow(a), 0);
    }
  }

  lemma DataGains(net: Net, x: NodeId, d: Data, from: NodeId, now: int)
    requires x in net
    ensures var m := OnData(net[x], d, from, now); Gains(net[x := m], x, net[x], m)
  {
    hide Backs, Hashed, HashedAt, NextDistance, DataForward, DataRaises, Handed;
  }

  lemma AnnounceGains(net: Net, x: NodeId, gid: GroupId, now: int)
    requires x in net && net[x].id == x && OnAnnounce(net[x], gid, now).Running?
    ensures var m := OnAnnounce(net[x], gid, now).node; Gains(net[x := m], x, net[x], m)
  {
    hide Hashed, HashedAt, NextDistance;
    var n := net[x];
    var m := OnAnnounce(n, gid, now).node;
    var o := OtaAdv(OwnAdvertise(n, gid).(ttl := Dec32(OwnAdvertise(n, gid).srcttl)));
    assert Backed(net[x := m], x, o);
    assert forall p :: p in m.sent ==> p in n.sent || p == o;
  }

  lemma ClientDataGains(net: Net, x: NodeId, s: Session, d: Data, now: int)
    requires x in net && OnClientData(net[x], s, d, now).Running?
    ensures var m := OnClientData(net[x], s, d, now).node; Gains(net[x := m], x, net[x], m)
  {
    hide Backs, Hashed, HashedAt, NextDistance, Handed;
    var n := net[x];
    var m := OnClientData(n, s, d, now).node;
    var e := Stamped(n, d);
    assert m.sent == n.sent + ClientSends(PreProcess(n, e, n.id, Some(s), now), e);
    OnlyData(PreProcess(n, e, n.id, Some(s), now), e);
  }

  lemma OnlyData(m: Node, d: Data)
    ensures forall o :: o in ClientSends(m, d) ==> o.OtaData?
  {
    hide AnyRemote;
  }

  lemma AckTimerGains(net: Net, x: NodeId, k: FlowKey)
    requires x in net && TimersBacked(net, x, net[x]) && OnAckTimeout(net[x], k).Running?
    ensures var m := OnAckTimeout(net[x], k).node; Gains(net[x := m], x, net[x], m)
  {
    hide AckProb, Backs;
    var n := net[x];
    var m := OnAckTimeout(n, k).node;
    BacksStays(net, x, m);
    assert forall o :: o in m.sent ==> o in n.sent || o == OtaAck(n.ackTimers[k].(prob := AckProb(n, k).value));
  }

  lemma AdvTimerGains(net: Net, x: NodeId, k: FlowKey)
    requires x in net && TimersBacked(net, x, net[x]) && OnAdvTimeout(net[x], k).Running?
    ensures var m := OnAdvTimeout(net[x], k).node; Gains(net[x := m], x, net[x], m)
  {
    hide Backs;
    var n := net[x];
    var m := OnAdvTimeout(n, k).node;
    BacksStays(net, x, m);
    assert forall o :: o in m.sent ==>
             o in n.sent || o == OtaAdv(n.advTimers[k].adv.(ttl := Dec32(n.advTimers[k].ttl)));
  }

  lemma DataTimerGains(net: Net, x: NodeId, h: HashKey)
    requires x in net && OnDataTimeout(net[x], h).Running?
    ensures var m := OnDataTimeout(net[x], h).node; Gains(net[x := m], x, net[x], m)
  {
    hide Backs;
    var n := net[x];
    var m := OnDataTimeout(n, h).node;
    assert forall o :: o in m.sent ==>
             o in n.sent || o == OtaData(n.dataTimers[h].data.(ttl := Dec32(n.dataTimers[h].ttl)));
  }

  lemma HashTimerGains(net: Net, x: NodeId, now: int)
    requires x in net
    ensures var m := OnHashCleanup(net[x], now); Gains(net[x := m], x, net[x], m)
  {
    hide Backs, ExpiredKeys, Fresh;
  }

  lemma PullTimerGains(net: Net, x: NodeId, now: int)
    requires x in net
    ensures var m := OnPullCleanup(net[x], now); Gains(net[x := m], x, net[x], m)
  {
    hide Backs, FilterSeq, UnpullWrites, Orphaned, Orphans;
  }

  lemma CloseGains(net: Net, x: NodeId, s: Session)
    requires x in net
    ensures var m := OnClose(net[x], s); Gains(net[x := m], x, net[x], m)
  {
    hide Backs, FilterSeq;
  }

  lemma ClientGains(net: Net, x: NodeId, s: Session, c: ClientCmd, now: int)
    requires x in net && !c.ClientData? && OnClient(net[x], s, c, now).Running?
    ensures var m := OnClient(net[x], s, c, now).node; Gains(net[x := m], x, net[x], m)
  {
    hide Backs, RemoveFirst, Registered;
    match c
    case ClientPull(g) =>
    case ClientUnpull(g) =>
    case ClientRegister(_, _, _, _, _) =>
    case ClientDeregister(g) =>
  }

  lemma ReactGains(net: Net, x: NodeId, e: Event)
    requires Inv(net) && Enabled(net, x, e) && React(net[x], e).Running?
    ensures var m := React(net[x], e).node; Gains(net[x := m], x, net[x], m)
  {
    hide Gains, NodeOk, OnAdvertise, OnAck, OnData, OnAnnounce, OnClientData, OnClose, OnPullCleanup, OnHashCleanup,
         OnAckTimeout, OnAdvTimeout, OnDataTimeout, OnRegister, RemoveFirst, Backs, PathsBacked, TimersBacked;
    match e
    case Receive(from, m, draw, now) =>
      if from == x {
        assert net[x := net[x]] == net;
        SelfGains(net, x);
      } else {
        match m
        case OtaAck(a) => AckGains(net, x, a, from, draw, now);
        case OtaAdv(a) =>
          assert Backed(net, from, m);
          assert net[x].id == x && Noted(net[x]) by { NodeFacts(net, x); }
          AdvertiseGains(net, x, a, from, now);
        case OtaData(d) => DataGains(net, x, d, from, now);
      }
    case AckTimer(k) => AckTimerGains(net, x, k);
    case AdvTimer(k) => AdvTimerGains(net, x, k);
    case DataTimer(h) => DataTimerGains(net, x, h);
    case AnnounceTimer(gid, now) => AnnounceGains(net, x, gid, now);
    case HashTimer(now) => HashTimerGains(net, x, now);
    case PullTimer(now) => PullTimerGains(net, x, now);
    case ClientGone(s) => CloseGains(net, x, s);
    case FromClient(s, c, now) =>
      if c.ClientData? { ClientDataGains(net, x, s, c.data, now); } else { ClientGains(net, x, s, c, now); }
  }

  lemma NodeFacts(net: Net, x: NodeId)
    requires Inv(net) && x in net
    ensures net[x].id == x && Noted(net[x])
  {
  }

  lemma SelfGains(net: Net, x: NodeId)
    requires x in net
    ensures Gains(net, x, net[x], net[x])
  {
    hide Backs, Backed;
  }

  /** Every step keeps the invariant. */
  lemma StepInv(net: Net, x: NodeId, e: Event, next: Net)
    requires Inv(net) && Step(net, x, e, next)
    ensures Inv(next)
  {
    hide NodeBacked, Gains, React, Backs;
    var m := React(net[x], e).node;
    assert NodeBacked(net, x, net[x]);
    IdAndOk(net, x);
    ReactNewer(net[x], e);
    BacksStays(net, x, m);
    ReactOk(net[x], e);
    ReactGains(net, x, e);
    forall y | y in next ensures NodeBacked(next, y, next[y]) {
      NodeBackedStays(net, next, y, net[y]);
      if y == x {
        GainsBacked(next, x, net[x], m);
      }
    }
  }

  lemma IdAndOk(net: Net, x: NodeId)
    requires x in net && NodeBacked(net, x, net[x])
    ensures net[x].id == x && NodeOk(net[x])
  {
  }

  // ---- no assertion fails --------------------------------------------------------------

  lemma AckNeverFatal(net: Net, x: NodeId, a: Ack, from: NodeId, draw: nat, now: int)
    requires Inv(net) && x in net && Backs(net, a.oblig, AckFlow(a), 0)
    ensures OnAck(net[x], a, from, draw, now).Running?
  {
    hide Adopts, AddPull, PullWrites, Pulled, IsGroupNode, AlreadyAcked, AlreadyFlipped, Hashed, PathsBacked,
         SentBacked, TimersBacked;
    var n := net[x];
    if Chosen(n, a, draw) && a.oblig != x {
      assert KnownSince(n, AckFlow(a), 0);
    }
  }

  lemma AckTimerNeverFatal(net: Net, x: NodeId, k: FlowKey)
    requires Inv(net) && x in net && k in net[x].ackTimers
    ensures OnAckTimeout(net[x], k).Running?
  {
    hide Noted, PathsBacked, SentBacked, TimersBacked;
    var n := net[x];
    assert NodeOk(n);
  }

  /** In a network that satisfies the invariant no enabled event ends a service. */
  lemma NeverFatal(net: Net, x: NodeId, e: Event)
    requires Inv(net) && Enabled(net, x, e)
    ensures React(net[x], e).Running?
  {
    hide NodeOk, Backs, PathsBacked, TimersBacked, OnAdvertise, OnAck, OnData, OnAckTimeout, ClientSends, Handed,
         NextDistance, Hashed, HashedAt;
    match e
    case Receive(from, m, draw, now) =>
      assert Backed(net, from, m);
      if from != x && m.OtaAck? {
        AckNeverFatal(net, x, m.ack, from, draw, now);
      }
    case AckTimer(k) => AckTimerNeverFatal(net, x, k);
    case FromClient(s, c, now) => ClientNeverFatal(net[x], s, c, now);
    case _ =>
  }

  lemma ClientNeverFatal(n: Node, s: Session, c: ClientCmd, now: int)
    requires WellBehaved(n, c)
    ensures OnClient(n, s, c, now).Running?
  {
    hide ClientSends, PreProcess, RemoveFirst, Registered, NextSeq;
    match c
    case ClientData(d) =>
    case ClientPull(g) =>
    case ClientUnpull(g) =>
    case ClientRegister(_, _, _, _, _) =>
    case ClientDeregister(g) =>
  }

  lemma StartInv(net: Net)
    requires Start(net)
    ensures Inv(net)
  {
  }

  lemma {:induction false} RunInv(nets: seq<Net>, moves: seq<Move>)
    requires Run(nets, moves)
    ensures Inv(nets[|moves|])
    decreases |moves|
  {
    hide Inv, Step, Start;
    if moves == [] {
      StartInv(nets[0]);
    } else {
      RunPrefix(nets, moves);
      var last := |moves| - 1;
      RunInv(nets[..|moves|], moves[..last]);
      StepInv(nets[last], moves[last].node, moves[last].event, nets[|moves|]);
    }
  }

  /** In every run, with loss, repetition, reordering, changing topology and membership and hash
      expiry, no enabled network, timer or well-behaved client event ends a service. */
  lemma NoAssertionFails(nets: seq<Net>, moves: seq<Move>, x: NodeId, e: Event)
    requires Run(nets, moves) && Enabled(nets[|moves|], x, e)
    ensures React(nets[|moves|][x], e).Running?
  {
    RunInv(nets, moves);
    NeverFatal(nets[|moves|], x, e);
  }

  // ---- loop freedom --------------------------------------------------------------------

  /** Following next hops from `x` arrives at the source within `hops`, sequence numbers never falling. */
  ghost predicate Arrives(net: Net, k: FlowKey, x: NodeId, hops: nat)
    decreases hops
  {
    x == k.src ||
    (hops > 0 && x in net && k in net[x].revPath && Backs(net, net[x].revPath[k].next, k, net[x].revPath[k].seqNo) &&
     Arrives(net, k, net[x].revPath[k].next, hops - 1))
  }

  ghost predicate LoopFree(net: Net) {
    forall x, k :: x in net && k in net[x].revPath ==> exists hops: nat :: Arrives(net, k, x, hops)
  }

  /** The reverse path of `x` for `k` is as before, or it was absent or older than `s`. */
  ghost predicate Outdated(net: Net, next: Net, x: NodeId, k: FlowKey, s: u32)
    requires x in net && x in next
  {
    k !in net[x].revPath || net[x].revPath[k].seqNo < s
      || (k in next[x].revPath && next[x].revPath[k] == net[x].revPath[k])
  }

  /** A chain as recent as `s` does not pass through an entry older than `s`. */
  lemma {:induction false} ChainStays(net: Net, next: Net, x: NodeId, k: FlowKey, s: u32, y: NodeId, hops: nat)
    requires x in net && x in next && next == net[x := next[x]] && Newer(net[x], next[x])
             && Outdated(net, next, x, k, s)
    requires Arrives(net, k, y, hops) && Backs(net, y, k, s)
    ensures Arrives(next, k, y, hops)
    decreases hops
  {
    if y != k.src {
      var p := net[y].revPath[k];
      BacksStays(net, x, next[x]);
      ChainStays(net, next, x, k, s, p.next, hops - 1);
      assert next[y].revPath[k] == p;
    }
  }

  /** If the changed node arrives, so does every node that arrived before. */
  lemma {:induction false} ChainRejoins(net: Net, next: Net, x: NodeId, k: FlowKey, y: NodeId, hops: nat,
                                        xHops: nat) returns (r: nat)
    requires x in net && x in next && next == net[x := next[x]] && Newer(net[x], next[x])
    requires Arrives(net, k, y, hops) && Arrives(next, k, x, xHops)
    ensures Arrives(next, k, y, r)
    decreases hops
  {
    if y == k.src {
      r := 0;
    } else if y == x {
      r := xHops;
    } else {
      var p := net[y].revPath[k];
      BacksStays(net, x, next[x]);
      var q := ChainRejoins(net, next, x, k, p.next, hops - 1, xHops);
      r := q + 1;
    }
  }

  /** The changed node arrives: by its old path, or through the sender it has just heard. */
  lemma NewEntryArrives(net: Net, x: NodeId, e: Event, next: Net, k: FlowKey) returns (r: nat)
    requires Inv(net) && LoopFree(net) && Step(net, x, e, next) && k in next[x].revPath
    ensures Arrives(next, k, x, r)
  {
    hide React, NodeBacked;
    ReactNewer(net[x], e);
    if k in net[x].revPath && next[x].revPath[k] == net[x].revPath[k] {
      r :| Arrives(net, k, x, r);
      var s := net[x].revPath[k].seqNo;
      ChainStays(net, next, x, k, s, x, r);
    } else {
      var a, from := NewEntryCause(net, x, e, next, k);
      var hops := SenderArrives(net, from, k, a.sequence);
      ChainStays(net, next, x, k, a.sequence, from, hops);
      BacksStays(net, x, next[x]);
      r := hops + 1;
    }
  }

  /** A changed entry points at the sender of an advertisement more recent than the old entry. */
  lemma NewEntryCause(net: Net, x: NodeId, e: Event, next: Net, k: FlowKey) returns (a: Advertise, from: NodeId)
    requires Inv(net) && Step(net, x, e, next) && k in next[x].revPath
    requires k !in net[x].revPath || next[x].revPath[k] != net[x].revPath[k]
    ensures next[x].revPath[k].next == from && next[x].revPath[k].seqNo == a.sequence
    ensures k !in net[x].revPath || net[x].revPath[k].seqNo < a.sequence
    ensures Backs(net, from, k, a.sequence)
  {
    hide React, Backs, NodeOk, PathsBacked, TimersBacked;
    if e.Receive? {
      ReceivePaths(net[x], e);
      a, from := e.msg.adv, e.from;
      assert Backed(net, from, e.msg);
    } else {
      OtherPaths(net[x], e);
    }
  }

  lemma SenderArrives(net: Net, x: NodeId, k: FlowKey, s: u32) returns (hops: nat)
    requires LoopFree(net) && Backs(net, x, k, s)
    ensures Arrives(net, k, x, hops)
  {
    if x == k.src {
      hops := 0;
    } else {
      hops :| Arrives(net, k, x, hops);
    }
  }

  lemma StepLoopFree(net: Net, x: NodeId, e: Event, next: Net)
    requires Inv(net) && LoopFree(net) && Step(net, x, e, next)
    ensures LoopFree(next)
  {
    hide React, Inv, Backs, Arrives;
    ReactNewer(net[x], e);
    forall y, k | y in next && k in next[y].revPath ensures exists hops: nat :: Arrives(next, k, y, hops) {
      if y == x {
        var r := NewEntryArrives(net, x, e, next, k);
      } else {
        var hops: nat :| Arrives(net, k, y, hops);
        OthersArrive(net, x, e, next, k, y, hops);
      }
    }
  }

  lemma OthersArrive(net: Net, x: NodeId, e: Event, next: Net, k: FlowKey, y: NodeId, hops: nat)
    requires Inv(net) && LoopFree(net) && Step(net, x, e, next) && Newer(net[x], next[x]) && Arrives(net, k, y, hops)
    ensures exists r: nat :: Arrives(next, k, y, r)
  {
    hide React, Inv, LoopFree;
    if k in next[x].revPath {
      var xHops := NewEntryArrives(net, x, e, next, k);
      var r := ChainRejoins(net, next, x, k, y, hops, xHops);
    } else {
      UntouchedChain(net, next, x, k, y, hops);
    }
  }

  lemma {:induction false} UntouchedChain(net: Net, next: Net, x: NodeId, k: FlowKey, y: NodeId, hops: nat)
    requires x in net && x in next && next == net[x := next[x]] && Newer(net[x], next[x]) && k !in next[x].revPath
    requires Arrives(net, k, y, hops)
    ensures Arrives(next, k, y, hops)
    decreases hops
  {
    if y != k.src {
      BacksStays(net, x, next[x]);
      UntouchedChain(net, next, x, k, net[y].revPath[k].next, hops - 1);
    }
  }

  /** In every reachable network the next hops of a flow lead from every node that has one to
      the source in finitely many hops, whatever the medium did. */
  lemma {:induction false} ReversePathsLoopFree(nets: seq<Net>, moves: seq<Move>)
    requires Run(nets, moves)
    ensures LoopFree(nets[|moves|])
    decreases |moves|
  {
    hide Inv, Step, LoopFree;
    if moves == [] {
      StartLoopFree(nets[0]);
    } else {
      RunPrefix(nets, moves);
      var last := |moves| - 1;
      ReversePathsLoopFree(nets[..|moves|], moves[..last]);
      RunInv(nets[..|moves|], moves[..last]);
      StepLoopFree(nets[last], moves[last].node, moves[last].event, nets[|moves|]);
    }
  }

  lemma StartLoopFree(net: Net)
    requires Start(net)
    ensures LoopFree(net)
  {
  }
}
