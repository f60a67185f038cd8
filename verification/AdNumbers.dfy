/** While registrations stay, no advertisement or ACK anywhere, and no trace of one, carries a number
    its source has not reached: every new announcement is news to everyone. */
module AdNumbers {
  import opened Types
  import opened NodeSpec
  import opened Network
  import opened Origin
  import opened Air
  import FloodRound
  import FloodStart
  import LoopFreedom
  import Numbers
  import Traffic
  import TreeRound

  /** The source, if it is in the network, has announced that often. */
  predicate Reached(net: Net, k: FlowKey, number: nat) { k.src in net ==> number <= Counter(Ads, net[k.src], k.gid) }

  predicate MsgReached(net: Net, m: OtaMsg) {
    match m
    case OtaAdv(a) => Reached(net, AdvFlow(a), a.sequence)
    case OtaAck(a) => Reached(net, AckFlow(a), a.sequence)
    case OtaData(_) => true
  }

  predicate KeyReached(net: Net, h: HashKey) { h.AdvHashKey? ==> Reached(net, FlowOf(h), h.adv.sequence) }

  ghost predicate KeysReached(net: Net, n: Node) {
    (forall h :: h in n.hash ==> KeyReached(net, h)) && (forall k :: k in n.dist ==> KeyReached(net, n.dist[k].latest))
  }

  ghost predicate TracesReached(net: Net, n: Node) {
    && (forall v :: v in n.advSeen ==> Reached(net, FlowKey(v.gid, v.src), v.seqNo))
    && (forall k :: k in n.revPath ==> Reached(net, k, n.revPath[k].seqNo))
    && (forall k :: k in n.ackSent ==> Reached(net, k, n.ackSent[k]))
  }

  ghost predicate MessagesReached(net: Net, n: Node) {
    && (forall m :: m in n.sent ==> MsgReached(net, m))
    && (forall k :: k in n.advTimers ==>
          AdvFlow(n.advTimers[k].adv) == k && Reached(net, k, n.advTimers[k].adv.sequence))
    && (forall k :: k in n.ackTimers ==> AckFlow(n.ackTimers[k]) == k && Reached(net, k, n.ackTimers[k].sequence))
  }

  ghost predicate AllReached(net: Net, n: Node) {
    KeysReached(net, n) && TracesReached(net, n) && MessagesReached(net, n)
  }

  ghost predicate NodeNumbered(net: Net, x: NodeId, n: Node, bound: nat) {
    n.id == x && AllReached(net, n) && forall g :: Counter(Ads, n, g) <= bound
  }

  ghost predicate Numbered(net: Net, bound: nat) { forall x :: x in net ==> NodeNumbered(net, x, net[x], bound) }

  /** A registration is not given up. */
  predicate Lasting(e: Event) { !e.ClientGone? && !(e.FromClient? && e.cmd.ClientDeregister?) }

  ghost predicate AllLasting(moves: seq<Move>) { forall i :: 0 <= i < |moves| ==> Lasting(moves[i].event) }

  predicate SameCounters(n: Node, m: Node) {
    m.announce.Keys == n.announce.Keys && forall g :: g in n.announce ==> m.announce[g].seqNo == n.announce[g].seqNo
  }

  // ---- tables that hardly change -------------------------------------------------------

  lemma AddsKey(net: Net, n: Node, m: Node, h: HashKey)
    requires KeysReached(net, n) && KeyReached(net, h) && m.hash.Keys <= n.hash.Keys + {h}
    requires forall k :: k in m.dist ==> m.dist[k].latest == h || (k in n.dist && m.dist[k].latest == n.dist[k].latest)
    ensures KeysReached(net, m)
  {
    hide KeyReached;
  }

  lemma KeepsTraces(net: Net, n: Node, m: Node)
    requires TracesReached(net, n) && m.advSeen == n.advSeen && m.revPath == n.revPath && m.ackSent == n.ackSent
    ensures TracesReached(net, m)
  {
    hide Reached;
  }

  lemma KeepsMessages(net: Net, n: Node, m: Node)
    requires MessagesReached(net, n) && forall o :: o in m.sent ==> o in n.sent || MsgReached(net, o)
    requires forall k :: k in m.advTimers ==> k in n.advTimers && m.advTimers[k] == n.advTimers[k]
    requires forall k :: k in m.ackTimers ==> k in n.ackTimers && m.ackTimers[k] == n.ackTimers[k]
    ensures MessagesReached(net, m)
  {
    hide Reached, MsgReached;
  }

  // ---- receptions ----------------------------------------------------------------------

  lemma AdvertiseLatest(n: Node, a: Advertise, from: NodeId, now: int)
    ensures var m, h := OnAdvertise(n, a, from, now), AdvHash(a);
            && m.hash.Keys <= n.hash.Keys + {h}
            && forall k :: k in m.dist ==>
                 m.dist[k].latest == h || (k in n.dist && m.dist[k].latest == n.dist[k].latest)
  {
    hide HashedAt, AdvForward, JoinsTree, Overrides, AdvHash, PullWrites, Pulled, SetAckTimer, IsGroupNode, LearnPath;
  }

  lemma AdvertiseKeys(net: Net, n: Node, a: Advertise, from: NodeId, now: int)
    requires KeysReached(net, n) && MsgReached(net, OtaAdv(a))
    ensures KeysReached(net, OnAdvertise(n, a, from, now))
  {
    assert KeyReached(net, AdvHash(a)) by { FloodRound.AdvKeyFlow(a); AdvKeyKind(a); }
    hide OnAdvertise, AdvHash, KeyReached, KeysReached;
    AdvertiseLatest(n, a, from, now);
    AddsKey(net, n, OnAdvertise(n, a, from, now), AdvHash(a));
  }

  lemma AdvertiseTraces(net: Net, n: Node, a: Advertise, from: NodeId, now: int)
    requires TracesReached(net, n) && MsgReached(net, OtaAdv(a))
    ensures TracesReached(net, OnAdvertise(n, a, from, now))
  {
    hide HashedAt, AdvDistance, AdvForward, AdvRaises, JoinsTree, Overrides, AdvHash, PullWrites, Pulled, SetAckTimer,
         Reached, IsGroupNode;
  }

  lemma AdvertiseMessages(net: Net, n: Node, a: Advertise, from: NodeId, now: int)
    requires MessagesReached(net, n) && MsgReached(net, OtaAdv(a))
    ensures MessagesReached(net, OnAdvertise(n, a, from, now)) && SameCounters(n, OnAdvertise(n, a, from, now))
    ensures OnAdvertise(n, a, from, now).id == n.id
  {
    hide HashedAt, AdvDistance, AdvForward, AdvRaises, JoinsTree, Overrides, AdvHash, PullWrites, LearnPath, Reached,
         IsGroupNode;
    if AdvForward(n, a, from).Some? {
      LoopFreedom.ForwardFlow(n, a, from);
      AdvForwardKey(n, a, from);
      AdvKeyKind(a);
      AdvKeyKind(AdvForward(n, a, from).value.adv);
    }
  }

  lemma AckTables(net: Net, n: Node, a: Ack, from: NodeId, draw: nat, now: int)
    requires TracesReached(net, n) && MessagesReached(net, n) && MsgReached(net, OtaAck(a))
             && OnAck(n, a, from, draw, now).Running?
    ensures var m := OnAck(n, a, from, draw, now).node;
            TracesReached(net, m) && (forall k :: k in m.ackTimers ==>
                                        AckFlow(m.ackTimers[k]) == k && Reached(net, k, m.ackTimers[k].sequence))
  {
    hide Adopts, PassesAck, Flips, Chosen, AddPull, PullWrites, Pulled, Reached;
  }

  lemma AckRest(n: Node, a: Ack, from: NodeId, draw: nat, now: int)
    requires OnAck(n, a, from, draw, now).Running?
    ensures var m := OnAck(n, a, from, draw, now).node;
            && SameCounters(n, m) && m.id == n.id && m.sent == n.sent && m.advTimers == n.advTimers && m.hash == n.hash
            && m.dist == n.dist
  {
    hide Adopts, PassesAck, Flips, Chosen, AddPull, PullWrites;
  }

  lemma AckReached(net: Net, n: Node, a: Ack, from: NodeId, draw: nat, now: int)
    requires AllReached(net, n) && MsgReached(net, OtaAck(a)) && OnAck(n, a, from, draw, now).Running?
    ensures var m := OnAck(n, a, from, draw, now).node; AllReached(net, m) && SameCounters(n, m) && m.id == n.id
  {
    AckTables(net, n, a, from, draw, now);
    AckRest(n, a, from, draw, now);
    hide OnAck, TracesReached, KeyReached, MsgReached, SameCounters, Reached;
  }

  lemma DataLatest(n: Node, d: Data, from: NodeId)
    ensures DataDistance(n, d, from).latest == DataHash(d)
            || (DataFlow(d) in n.dist && DataDistance(n, d, from).latest == n.dist[DataFlow(d)].latest)
  {
    hide DataHash;
  }

  lemma DataReached(net: Net, n: Node, d0: Data, from: NodeId, now: int)
    requires AllReached(net, n)
    ensures var m := OnData(n, d0, from, now); AllReached(net, m) && SameCounters(n, m) && m.id == n.id
  {
    var d, m := HeardData(d0), OnData(n, d0, from, now);
    assert KeyReached(net, DataHash(d)) by { DataKeyKind(d); }
    hide OnData, DataDistance, DataForward, DataHash, Reached, KeyReached, MsgReached, KeysReached, TracesReached,
         MessagesReached;
    DataTables(n, d0, from, now);
    DataTraces(n, d0, from, now);
    DataLatest(n, d, from);
    AddsKey(net, n, m, DataHash(d));
    KeepsTraces(net, n, m);
    KeepsMessages(net, n, m);
  }

  lemma DataTraces(n: Node, d0: Data, from: NodeId, now: int)
    ensures var m := OnData(n, d0, from, now);
            m.advSeen == n.advSeen && m.revPath == n.revPath && m.ackSent == n.ackSent && m.ackTimers == n.ackTimers
  {
    hide HashedAt, DataDistance, DataForward, DataRaises, Handed, DataHash;
  }

  lemma HearsReached(net: Net, n: Node, e: Event)
    requires e.Receive? && React(n, e).Running? && AllReached(net, n) && MsgReached(net, e.msg)
    ensures var m := React(n, e).node; AllReached(net, m) && SameCounters(n, m) && m.id == n.id
  {
    hide OnAdvertise, OnAck, OnData, KeysReached, TracesReached, MessagesReached, MsgReached;
    if e.from != n.id {
      match e.msg
      case OtaAck(a) => hide SameCounters; AckReached(net, n, a, e.from, e.draw, e.now);
      case OtaAdv(a) =>
        hide SameCounters;
        AdvertiseKeys(net, n, a, e.from, e.now);
        AdvertiseTraces(net, n, a, e.from, e.now);
        AdvertiseMessages(net, n, a, e.from, e.now);
      case OtaData(d) => hide SameCounters; DataReached(net, n, d, e.from, e.now);
    }
  }

  // ---- other events --------------------------------------------------------------------

  lemma TimerReached(net: Net, n: Node, e: Event)
    requires TimerEvent(e) && React(n, e).Running? && AllReached(net, n)
    ensures var m := React(n, e).node; AllReached(net, m) && SameCounters(n, m) && m.id == n.id
  {
    hide React, TimerMsg, TracesReached, KeysReached;
    TimerReact(n, e);
    var m := React(n, e).node;
    assert MsgReached(net, TimerMsg(n, e)) by { TimerMsgReached(net, n, e); }
    hide MessagesReached, MsgReached;
    AddsKey(net, n, m, DataHash(Data(0, None, 0, 0, 0, false, None, 0, [])));
    KeepsTraces(net, n, m);
    KeepsMessages(net, n, m);
  }

  lemma TimerMsgReached(net: Net, n: Node, e: Event)
    requires TimerEvent(e) && React(n, e).Running? && MessagesReached(net, n)
    ensures MsgReached(net, TimerMsg(n, e))
  {
    hide AckProb, Reached;
  }

  lemma IdleReached(net: Net, n: Node, e: Event)
    requires IdleEvent(e) && Lasting(e) && React(n, e).Running? && AllReached(net, n)
    ensures var m := React(n, e).node;
            AllReached(net, m) && m.id == n.id && forall g :: Counter(Ads, m, g) == Counter(Ads, n, g)
  {
    hide React, KeysReached, TracesReached, MessagesReached;
    UntouchedReact(n, e);
    var m := React(n, e).node;
    if e.HashTimer? {
      CleanupKeeps(n, e.now);
    } else {
      IdleCounter(n, e);
    }
    AddsKey(net, n, m, DataHash(Data(0, None, 0, 0, 0, false, None, 0, [])));
    KeepsTraces(net, n, m);
    KeepsMessages(net, n, m);
  }

  lemma CleanupKeeps(n: Node, now: int)
    ensures var m := React(n, HashTimer(now));
            m.Running? && m.node.hash.Keys <= n.hash.Keys && m.node.announce == n.announce
  {
  }

  /** Client DATA. */
  lemma TalkReached(net: Net, n: Node, m: Node, d0: Data)
    requires Traffic.Said(n, m, d0) && AllReached(net, n) && KeyReached(net, DataHash(Stamped(n, d0)))
    requires DataFlow(Stamped(n, d0)) in m.dist ==>
               var v, k := m.dist[DataFlow(Stamped(n, d0))].latest, DataFlow(Stamped(n, d0));
               v == DataHash(Stamped(n, d0)) || (k in n.dist && v == n.dist[k].latest)
    ensures AllReached(net, m) && m.announce == n.announce && m.id == n.id
  {
    SaidSends(n, m, d0);
    hide KeyReached, DataHash, Stamped, KeysReached, TracesReached, MessagesReached;
    AddsKey(net, n, m, DataHash(Stamped(n, d0)));
    KeepsTraces(net, n, m);
    KeepsMessages(net, n, m);
  }

  lemma SaidSends(n: Node, m: Node, d0: Data)
    requires Traffic.Said(n, m, d0)
    ensures forall o :: o in m.sent ==> o in n.sent || o.OtaData?
  {
    hide DataHash, Stamped;
    if |m.sent| > |n.sent| {
      assert m.sent == n.sent + [m.sent[|n.sent|]];
    } else {
      assert m.sent == n.sent;
    }
  }

  lemma ClientDataReached(net: Net, n: Node, s: Session, d0: Data, now: int)
    requires AllReached(net, n) && OnClientData(n, s, d0, now).Running?
    ensures var m := OnClientData(n, s, d0, now).node; AllReached(net, m) && m.announce == n.announce && m.id == n.id
  {
    var m, d := OnClientData(n, s, d0, now).node, Stamped(n, d0);
    assert KeyReached(net, DataHash(d)) by { DataKeyKind(d); }
    assert m.dist[DataFlow(d)].latest == DataHash(d)
           || (DataFlow(d) in n.dist && m.dist[DataFlow(d)].latest == n.dist[DataFlow(d)].latest);
    hide OnClientData, KeyReached, DataHash, Stamped, DataFlow, AllReached;
    Traffic.ClientTalk(n, s, d0, now);
    TalkReached(net, n, m, d0);
  }

  /** An announcement takes the next number. */
  lemma AnnounceTables(n: Node, gid: GroupId, now: int)
    requires OnAnnounce(n, gid, now).Running?
    ensures var a, m := OwnAdvertise(n, gid), OnAnnounce(n, gid, now).node;
            && m.hash.Keys <= n.hash.Keys + {AdvHash(a)} && m.sent == n.sent + [OtaAdv(a.(ttl := Dec32(a.srcttl)))]
            && m.advSeen == n.advSeen && m.revPath == n.revPath && m.ackSent == n.ackSent && m.advTimers == n.advTimers
            && m.ackTimers == n.ackTimers && m.id == n.id
            && forall k :: k in m.dist ==>
                 m.dist[k].latest == AdvHash(a) || (k in n.dist && m.dist[k].latest == n.dist[k].latest)
  {
    hide HashedAt, AdvHash;
  }

  lemma AnnounceReached(net: Net, n: Node, gid: GroupId, now: int)
    requires AllReached(net, n) && OnAnnounce(n, gid, now).Running? && MsgReached(net, OtaAdv(OwnAdvertise(n, gid)))
    ensures var m := OnAnnounce(n, gid, now).node; AllReached(net, m) && m.id == n.id
  {
    var a, m := OwnAdvertise(n, gid), OnAnnounce(n, gid, now).node;
    CopyReached(net, a);
    hide OnAnnounce, AdvHash, KeyReached, MsgReached, OwnAdvertise, KeysReached, TracesReached, MessagesReached;
    AnnounceTables(n, gid, now);
    AddsKey(net, n, m, AdvHash(a));
    KeepsTraces(net, n, m);
    KeepsMessages(net, n, m);
  }

  lemma CopyReached(net: Net, a: Advertise)
    requires MsgReached(net, OtaAdv(a))
    ensures KeyReached(net, AdvHash(a)) && forall ttl: u32 :: MsgReached(net, OtaAdv(a.(ttl := ttl)))
  {
    hide Reached;
  }

  // ---- runs ----------------------------------------------------------------------------

  /** Rising counters unsettle nothing. */
  lemma CountersRise(net: Net, next: Net, n: Node)
    requires net.Keys == next.Keys && forall x, g :: x in net ==> Counter(Ads, net[x], g) <= Counter(Ads, next[x], g)
    requires AllReached(net, n)
    ensures AllReached(next, n)
  {
    forall k: FlowKey, s: nat | Reached(net, k, s) ensures Reached(next, k, s) {}
    hide Reached, Counter;
    forall h | KeyReached(net, h) ensures KeyReached(next, h) {}
    forall m | MsgReached(net, m) ensures MsgReached(next, m) {}
    hide KeyReached, MsgReached;
  }

  lemma CountersOf(n: Node, m: Node)
    requires SameCounters(n, m) || m.announce == n.announce
    ensures forall g :: Counter(Ads, m, g) == Counter(Ads, n, g)
  {
  }

  lemma AnnounceCounts(n: Node, gid: GroupId, now: int, bound: nat)
    requires OnAnnounce(n, gid, now).Running? && (forall g :: Counter(Ads, n, g) <= bound) && bound + 1 < U32
    ensures var m := OnAnnounce(n, gid, now).node;
            && (forall g :: Counter(Ads, n, g) <= Counter(Ads, m, g) <= bound + 1)
            && OwnAdvertise(n, gid).sequence == Counter(Ads, m, gid) == Counter(Ads, n, gid) + 1
  {
    hide HashedAt, OwnDistance, AdvHash;
    assert Counter(Ads, n, gid) <= bound;
  }

  /** Everything but an announcement. */
  lemma PlainStep(net: Net, x: NodeId, e: Event, bound: nat)
    requires Numbered(net, bound) && Enabled(net, x, e) && React(net[x], e).Running? && Lasting(e) && !e.AnnounceTimer?
    ensures var m := React(net[x], e).node;
            AllReached(net, m) && m.id == x && forall g :: Counter(Ads, m, g) == Counter(Ads, net[x], g)
  {
    hide React, AllReached, SameCounters, Counter, OnClientData;
    assert NodeNumbered(net, x, net[x], bound);
    if e.Receive? {
      assert NodeNumbered(net, e.from, net[e.from], bound);
      assert MsgReached(net, e.msg) by { SentReached(net, net[e.from], e.msg); }
      HearsReached(net, net[x], e);
      CountersOf(net[x], React(net[x], e).node);
    } else if TimerEvent(e) {
      TimerReached(net, net[x], e);
      CountersOf(net[x], React(net[x], e).node);
    } else if e.FromClient? && e.cmd.ClientData? {
      ReactTalk(net[x], e);
      ClientDataReached(net, net[x], e.session, e.cmd.data, e.now);
      CountersOf(net[x], React(net[x], e).node);
    } else {
      IdleReached(net, net[x], e);
    }
  }

  lemma SentReached(net: Net, n: Node, m: OtaMsg)
    requires AllReached(net, n) && m in n.sent
    ensures MsgReached(net, m)
  {
  }

  lemma ReactTalk(n: Node, e: Event)
    requires e.FromClient? && e.cmd.ClientData?
    ensures React(n, e) == OnClientData(n, e.session, e.cmd.data, e.now)
  {
    hide OnClientData;
  }

  lemma ReactAnnounce(n: Node, e: Event)
    requires e.AnnounceTimer?
    ensures React(n, e) == OnAnnounce(n, e.gid, e.now)
  {
    hide OnAnnounce;
  }

  lemma AnnounceStep(net: Net, x: NodeId, e: Event, next: Net, bound: nat)
    requires Numbered(net, bound) && Step(net, x, e, next) && e.AnnounceTimer? && bound + 1 < U32
    ensures AllReached(next, next[x]) && next[x].id == x
    ensures forall g :: Counter(Ads, net[x], g) <= Counter(Ads, next[x], g) <= bound + 1
  {
    hide React, AllReached, Counter, OnAnnounce, OwnAdvertise;
    var n, m := net[x], next[x];
    assert NodeNumbered(net, x, n, bound);
    ReactAnnounce(n, e);
    AnnounceCounts(n, e.gid, e.now, bound);
    CountersRise(net, next, n);
    assert AdvFlow(OwnAdvertise(n, e.gid)) == FlowKey(e.gid, x) by { OwnFlow(n, e.gid); }
    AnnounceReached(next, n, e.gid, e.now);
  }

  lemma OwnFlow(n: Node, gid: GroupId)
    requires gid in n.announce
    ensures AdvFlow(OwnAdvertise(n, gid)) == FlowKey(gid, n.id)
  {
  }

  lemma StepNumbered(net: Net, x: NodeId, e: Event, next: Net, bound: nat)
    requires Numbered(net, bound) && Step(net, x, e, next) && Lasting(e) && bound + 1 < U32
    ensures Numbered(next, bound + 1)
  {
    hide React, AllReached, Counter;
    assert NodeNumbered(net, x, net[x], bound);
    if e.AnnounceTimer? {
      AnnounceStep(net, x, e, next, bound);
    } else {
      PlainStep(net, x, e, bound);
      CountersRise(net, next, next[x]);
    }
    forall y | y in next ensures NodeNumbered(next, y, next[y], bound + 1) {
      if y != x {
        assert NodeNumbered(net, y, net[y], bound);
        CountersRise(net, next, net[y]);
        assert forall g :: Counter(Ads, net[y], g) <= bound;
      }
    }
  }

  /** In every run of fewer than 2^32 events in which registrations stay. */
  lemma {:induction false} RunNumbered(nets: seq<Net>, moves: seq<Move>)
    requires Run(nets, moves) && AllLasting(moves) && |moves| < U32
    ensures Numbered(nets[|moves|], |moves|)
    decreases |moves|
  {
    hide Step, Numbered, Start, Lasting;
    if moves == [] {
      StartNumbered(nets[0]);
    } else {
      RunPrefix(nets, moves);
      var last := |moves| - 1;
      RunNumbered(nets[..|moves|], moves[..last]);
      StepNumbered(nets[last], moves[last].node, moves[last].event, nets[|moves|], last);
    }
  }

  lemma StartNumbered(net: Net)
    requires Start(net)
    ensures Numbered(net, 0)
  {
  }

  // ---- the next announcement -----------------------------------------------------------

  lemma NextFresh(net: Net, x: NodeId, gid: GroupId, y: NodeId, bound: nat)
    requires Numbered(net, bound) && bound + 1 < U32 && x in net && y in net && gid in net[x].announce
    ensures AdvHash(OwnAdvertise(net[x], gid)).AdvHashKey?
            && TreeRound.FreshNodeFor(net[y], AdvHash(OwnAdvertise(net[x], gid)))
  {
    var n, m, a := net[x], net[y], OwnAdvertise(net[x], gid);
    var h := AdvHash(a);
    assert NodeNumbered(net, x, n, bound) && NodeNumbered(net, y, m, bound);
    AdvKeyKind(a);
    FloodRound.AdvKeyFlow(a);
    assert Counter(Ads, n, gid) <= bound;
    assert a.sequence == Counter(Ads, n, gid) + 1 && FlowOf(h) == FlowKey(gid, x);
    hide AdvHash, Counter, OwnAdvertise;
    assert !Reached(net, FlowOf(h), a.sequence) && !KeyReached(net, h);
  }

  /** While registrations stay, every announcement of a reachable network, over symmetric links and
      with nothing of its group or flow afoot, starts a round that builds a tree. */
  lemma EveryRoundBuilds(links: Links, s: Air, x: NodeId, gid: GroupId, now: int, t: Air, bound: nat)
    requires Numbered(s.nodes, bound) && bound + 1 < U32 && WellFormed(links, s)
             && forall y, z :: (y, z) in links ==> (z, y) in links
    requires Goes(links, s, Occurs(x, AnnounceTimer(gid, now)), t) && s.nodes[x].announce[gid].srcTtl > 0
    requires forall m :: m in Afoot(s) ==> TreeRound.Stranger(AdvHash(OwnAdvertise(s.nodes[x], gid)), m)
    ensures TreeRound.TreeStarts(links, t, AdvHash(OwnAdvertise(s.nodes[x], gid)))
  {
    OwnFloods(s.nodes[x], gid);
    hide React, TreeRound.TreeStarts, AdvHash, OwnAdvertise, FloodRound.Floods, Numbered, TreeRound.FreshFlow, Aired,
         Afoot, TreeRound.Stranger, WellFormed;
    NextFreshFlow(links, s, x, gid, bound);
    TreeRound.AnnouncementStartsTree(links, s, x, gid, now, t);
  }

  lemma NextFreshFlow(links: Links, s: Air, x: NodeId, gid: GroupId, bound: nat)
    requires Numbered(s.nodes, bound) && bound + 1 < U32 && WellFormed(links, s) && x in s.nodes
             && gid in s.nodes[x].announce
    requires forall m :: m in Afoot(s) ==> TreeRound.Stranger(AdvHash(OwnAdvertise(s.nodes[x], gid)), m)
    ensures TreeRound.FreshFlow(links, s, AdvHash(OwnAdvertise(s.nodes[x], gid)))
  {
    AdvKeyKind(OwnAdvertise(s.nodes[x], gid));
    hide AdvHash, OwnAdvertise, Numbered, TreeRound.FreshNodeFor, Afoot, TreeRound.Stranger, WellFormed;
    forall y | y in s.nodes ensures TreeRound.FreshNodeFor(s.nodes[y], AdvHash(OwnAdvertise(s.nodes[x], gid))) {
      NextFresh(s.nodes, x, gid, y, bound);
    }
  }

  /** A new announcement is unheard of. */
  lemma NextUnheard(links: Links, s: Air, x: NodeId, gid: GroupId, bound: nat, data: nat)
    requires Numbered(s.nodes, bound) && bound + 1 < U32 && Numbers.Numbered(s.nodes, data) && WellFormed(links, s)
    requires x in s.nodes && gid in s.nodes[x].announce
    requires forall m :: m in Afoot(s) && m.OtaAdv? ==> AdvFlow(m.adv) != FlowKey(gid, x)
    ensures FloodStart.Unheard(links, s, AdvHash(OwnAdvertise(s.nodes[x], gid)))
  {
    var a := OwnAdvertise(s.nodes[x], gid);
    var h := AdvHash(a);
    AdvKeyKind(a);
    FloodRound.AdvKeyFlow(a);
    assert AdvFlow(a) == FlowKey(gid, x);
    Numbers.AllKeyed(s.nodes, data);
    hide OwnAdvertise, Numbered, TreeRound.FreshNodeFor, Afoot, FloodRound.Keyed, FloodRound.TimesSent, AdvHash;
    forall m | m in Afoot(s) ensures FloodRound.Bystander(h, m) && !FloodRound.Carries(m, h) { NotTheKey(m, h); }
    forall y | y in s.nodes ensures h !in s.nodes[y].hash && FloodRound.TimesSent(s.nodes[y].sent, h) == 0 {
      NotSent(s.nodes, x, gid, y, bound);
    }
  }

  lemma NotTheKey(m: OtaMsg, h: HashKey)
    requires h.AdvHashKey? && (m.OtaAdv? ==> AdvFlow(m.adv) != FlowOf(h))
    ensures KeyOf(m) != Some(h)
  {
    if m.OtaAdv? { AdvKeyKind(m.adv); }
    if m.OtaData? { DataKeyKind(m.data); }
  }

  lemma NotSent(net: Net, x: NodeId, gid: GroupId, y: NodeId, bound: nat)
    requires Numbered(net, bound) && bound + 1 < U32 && x in net && y in net && gid in net[x].announce
    ensures var h := AdvHash(OwnAdvertise(net[x], gid)); h !in net[y].hash && FloodRound.TimesSent(net[y].sent, h) == 0
  {
    var a := OwnAdvertise(net[x], gid);
    var h := AdvHash(a);
    AdvKeyKind(a);
    assert NodeNumbered(net, x, net[x], bound) && NodeNumbered(net, y, net[y], bound);
    assert Counter(Ads, net[x], gid) <= bound && a.sequence == Counter(Ads, net[x], gid) + 1
           && AdvFlow(a) == FlowKey(gid, x);
    NextFresh(net, x, gid, y, bound);
    hide AdvHash, DataHash, FloodRound.TimesSent, OwnAdvertise, Counter;
    forall m | m in net[y].sent ensures KeyOf(m) != Some(h) {
      assert MsgReached(net, m);
      if m.OtaAdv? { AdvKeyKind(m.adv); }
      if m.OtaData? { DataKeyKind(m.data); }
    }
    FloodRound.UnsentCount(net[y].sent, h);
  }

  lemma OwnFloods(n: Node, gid: GroupId)
    requires gid in n.announce && n.announce[gid].srcTtl > 0
    ensures var h := AdvHash(OwnAdvertise(n, gid)); h.AdvHashKey? && FloodRound.Floods(h)
  {
  }
}
