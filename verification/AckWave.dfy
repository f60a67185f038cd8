/** One advertisement draws at most one ACK and at most one coin flip from each node. */
module AckWave {
  import opened Types
  import opened NodeSpec
  import opened Network
  import opened Origin
  import Delivery

  predicate Names(a: Ack, id: AdvId) { a.gid == id.gid && a.srcnode == id.src && a.sequence == id.seqNo }

  function Flow(id: AdvId): FlowKey { FlowKey(id.gid, id.src) }

  /** ACKs of one advertisement among what a node has sent. */
  function AckCount(s: seq<OtaMsg>, id: AdvId): nat {
    if s == [] then 0
    else AckCount(s[..|s| - 1], id) + if s[|s| - 1].OtaAck? && Names(s[|s| - 1].ack, id) then 1 else 0
  }

  function PendingAcks(t: map<FlowKey, Ack>, id: AdvId): nat {
    if Flow(id) in t && Names(t[Flow(id)], id) then 1 else 0
  }

  /** ACKs of one advertisement that a node has sent or is about to send. */
  function Acks(n: Node, id: AdvId): nat { AckCount(n.sent, id) + PendingAcks(n.ackTimers, id) }

  ghost predicate NameIn(t: map<HashKey, u32>, id: AdvId) {
    exists h: HashKey :: h in t && h.AdvHashKey? && AdvIdOf(h.adv) == id
  }

  predicate AckedUpTo(t: map<FlowKey, u32>, id: AdvId) { Flow(id) in t && id.seqNo <= t[Flow(id)] }

  /** What keeps a node from acknowledging again: having met the advertisement, for a group
      node; the ack-sent table, for any other. */
  ghost predicate Spent(n: Node, id: AdvId) {
    if IsGroupNode(n, id.gid) then NameIn(n.hash, id) else AckedUpTo(n.ackSent, id)
  }

  ghost predicate Single(n: Node) {
    && (forall k :: k in n.ackTimers ==> AckFlow(n.ackTimers[k]) == k)
    && (forall id :: Acks(n, id) <= 1 && (Acks(n, id) == 1 ==> Spent(n, id)))
  }

  lemma AckCountAppend(s: seq<OtaMsg>, m: OtaMsg, id: AdvId)
    ensures AckCount(s + [m], id) == AckCount(s, id) + if m.OtaAck? && Names(m.ack, id) then 1 else 0
  {
    assert (s + [m])[..|s|] == s;
  }

  /** Membership of a group is settled before its advertisements and ACKs come by. */
  ghost predicate Untraced(n: Node, gid: GroupId) {
    && (forall h: HashKey :: h in n.hash && h.AdvHashKey? ==> h.adv.gid != gid)
    && (forall k :: k in n.ackSent ==> k.gid != gid)
  }

  ghost predicate SettledMember(n: Node, m: Node) {
    forall gid: GroupId :: IsGroupNode(n, gid) == IsGroupNode(m, gid) || Untraced(n, gid)
  }

  /** An event that adds no ACK, keeps what has been spent and leaves membership settled. */
  ghost predicate AddsNoAck(n: Node, m: Node) {
    && SettledMember(n, m)
    && (forall k :: k in m.ackTimers ==> AckFlow(m.ackTimers[k]) == k)
    && (forall id :: Acks(m, id) <= Acks(n, id))
    && (forall h :: h in n.hash ==> h in m.hash) && m.ackSent == n.ackSent
  }

  lemma SpentStays(n: Node, m: Node, id: AdvId)
    requires SettledMember(n, m) && (forall h :: h in n.hash ==> h in m.hash) && m.ackSent == n.ackSent && Spent(n, id)
    ensures Spent(m, id)
  {
    hide IsGroupNode;
  }

  lemma NoAckStaysSingle(n: Node, m: Node)
    requires Single(n) && AddsNoAck(n, m)
    ensures Single(m)
  {
    hide Spent, Acks, SettledMember;
    forall id ensures Acks(m, id) <= 1 && (Acks(m, id) == 1 ==> Spent(m, id)) {
      if Acks(m, id) == 1 {
        assert Acks(n, id) == 1;
        SpentStays(n, m, id);
      }
    }
  }

  // ---- the two events that ask for an ACK ----------------------------------------------

  /** A request that is not dropped concerns an advertisement nobody has spent yet. */
  lemma RequestStaysSingle(n: Node, m: Node, a: Ack)
    requires Single(n) && m.sent == n.sent && m.ackTimers == SetAckTimer(n.ackTimers, a)
    requires forall id :: Spent(n, id) ==> Spent(m, id)
    requires !Spent(n, AdvId(a.gid, a.srcnode, a.sequence)) && Spent(m, AdvId(a.gid, a.srcnode, a.sequence))
    ensures Single(m)
  {
    hide Spent;
    var me := AdvId(a.gid, a.srcnode, a.sequence);
    forall id ensures Acks(m, id) <= 1 && (Acks(m, id) == 1 ==> Spent(m, id)) {
      assert Acks(n, id) <= 1 && (Acks(n, id) == 1 ==> Spent(n, id));
      assert id != me ==> PendingAcks(m.ackTimers, id) <= PendingAcks(n.ackTimers, id);
    }
  }

  lemma AdvertiseTables(n: Node, a: Advertise, from: NodeId, now: int)
    ensures var m := OnAdvertise(n, a, from, now);
            && m.sent == n.sent && m.ackSent == n.ackSent && m.localPull == n.localPull
            && m.announce.Keys == n.announce.Keys
            && m.ackTimers == (if JoinsTree(n, a)
                               then SetAckTimer(n.ackTimers, Ack(a.gid, a.srcnode, a.sequence, from, 0))
                                 else n.ackTimers)
            && m.hash.Keys == n.hash.Keys + {AdvHash(a)}
  {
    hide HashedAt, AdvDistance, AdvForward, Overrides, JoinsTree, LearnPath, AdvHash, SetAckTimer, IsGroupNode;
  }

  lemma AdvertiseSingle(n: Node, a: Advertise, from: NodeId, now: int)
    requires Single(n)
    requires forall h :: h in n.hash && Tracked(Ads, h) && SameName(h, AdvHash(a)) ==> h == AdvHash(a)
    ensures Single(OnAdvertise(n, a, from, now))
  {
    hide OnAdvertise, SetAckTimer, AnyLocal;
    var m := OnAdvertise(n, a, from, now);
    AdvertiseTables(n, a, from, now);
    assert forall g: GroupId :: IsGroupNode(n, g) == IsGroupNode(m, g);
    assert SettledMember(n, m);
    forall id | Spent(n, id) ensures Spent(m, id) { SpentStays(n, m, id); }
    if JoinsTree(n, a) {
      var id := AdvIdOf(a);
      AdvName(n, a);
      assert AdvHash(a) in m.hash && AdvHash(a).AdvHashKey? && AdvIdOf(AdvHash(a).adv) == id;
      RequestStaysSingle(n, m, Ack(a.gid, a.srcnode, a.sequence, from, 0));
    } else {
      assert forall id :: Acks(m, id) == Acks(n, id);
      NoAckStaysSingle(n, m);
    }
  }

  lemma AdvName(n: Node, a: Advertise)
    requires forall h :: h in n.hash && Tracked(Ads, h) && SameName(h, AdvHash(a)) ==> h == AdvHash(a)
    ensures AdvHash(a) !in n.hash ==> !NameIn(n.hash, AdvIdOf(a))
    ensures AdvHash(a).AdvHashKey? && AdvIdOf(AdvHash(a).adv) == AdvIdOf(a)
  {
  }

  lemma AckTables(n: Node, a: Ack, from: NodeId, draw: nat, now: int)
    requires OnAck(n, a, from, draw, now).Running?
    ensures var m := OnAck(n, a, from, draw, now).node;
            && m.sent == n.sent && m.hash == n.hash && m.localPull == n.localPull && m.announce.Keys == n.announce.Keys
            && (PassesAck(n, a, draw) ==> AckFlow(a) in n.revPath)
            && m.ackTimers == (if PassesAck(n, a, draw)
                               then SetAckTimer(n.ackTimers, a.(oblig := n.revPath[AckFlow(a)].next)) else n.ackTimers)
            && m.ackSent == (if PassesAck(n, a, draw) then n.ackSent[AckFlow(a) := a.sequence] else n.ackSent)
  {
    hide Adopts, Flips, Chosen, AddPull, SetAckTimer, IsGroupNode, AlreadyAcked;
  }

  lemma AckSingle(n: Node, a: Ack, from: NodeId, draw: nat, now: int)
    requires Single(n) && OnAck(n, a, from, draw, now).Running?
    ensures Single(OnAck(n, a, from, draw, now).node)
  {
    hide OnAck, SetAckTimer, AnyLocal, Chosen;
    var m := OnAck(n, a, from, draw, now).node;
    AckTables(n, a, from, draw, now);
    assert forall g: GroupId :: IsGroupNode(n, g) == IsGroupNode(m, g);
    if PassesAck(n, a, draw) {
      forall id | Spent(n, id) ensures Spent(m, id) {}
      RequestStaysSingle(n, m, a.(oblig := n.revPath[AckFlow(a)].next));
    } else {
      assert forall id :: Acks(m, id) == Acks(n, id);
      NoAckStaysSingle(n, m);
    }
  }

  // ---- all other events ----------------------------------------------------------------

  lemma AckTimerSingle(n: Node, k: FlowKey)
    requires Single(n) && OnAckTimeout(n, k).Running?
    ensures Single(OnAckTimeout(n, k).node)
  {
    hide AckProb, IsGroupNode;
    var m := OnAckTimeout(n, k).node;
    var o := OtaAck(n.ackTimers[k].(prob := AckProb(n, k).value));
    assert m.sent == n.sent + [o];
    forall id ensures Acks(m, id) <= Acks(n, id) {
      AckCountAppend(n.sent, o, id);
    }
    assert forall g: GroupId :: IsGroupNode(n, g) == IsGroupNode(m, g) by { SameMembers(n, m); }
    NoAckStaysSingle(n, m);
  }

  lemma SameMembers(n: Node, m: Node)
    requires m.localPull == n.localPull && m.announce.Keys == n.announce.Keys
    ensures forall g: GroupId :: IsGroupNode(n, g) == IsGroupNode(m, g)
  {
    hide AnyLocal;
  }

  /** What was sent besides, if anything, was no ACK. */
  ghost predicate Extends(s: seq<OtaMsg>, t: seq<OtaMsg>) { t == s || (exists o: OtaMsg :: !o.OtaAck? && t == s + [o]) }

  lemma PlainSingle(n: Node, m: Node)
    requires Single(n) && m.ackTimers == n.ackTimers && Extends(n.sent, m.sent) && m.ackSent == n.ackSent
    requires SettledMember(n, m) && forall h :: h in n.hash ==> h in m.hash
    ensures Single(m)
  {
    hide SettledMember, Spent;
    forall id ensures Acks(m, id) <= Acks(n, id) {
      if m.sent != n.sent {
        var o: OtaMsg :| !o.OtaAck? && m.sent == n.sent + [o];
        AckCountAppend(n.sent, o, id);
      }
    }
    NoAckStaysSingle(n, m);
  }

  lemma TimerPlain(n: Node, e: Event)
    requires (e.AdvTimer? || e.DataTimer?) && React(n, e).Running?
    ensures var m := React(n, e).node; m.ackTimers == n.ackTimers && Extends(n.sent, m.sent) && m.ackSent == n.ackSent
  {
    match e
    case AdvTimer(k) => var o := OtaAdv(n.advTimers[k].adv.(ttl := Dec32(n.advTimers[k].ttl)));
      assert React(n, e).node.sent == n.sent + [o];
    case DataTimer(h) => var o := OtaData(n.dataTimers[h].data.(ttl := Dec32(n.dataTimers[h].ttl)));
      assert React(n, e).node.sent == n.sent + [o];
  }

  lemma AnnouncePlain(n: Node, gid: GroupId, now: int)
    requires OnAnnounce(n, gid, now).Running?
    ensures var m := OnAnnounce(n, gid, now).node;
            m.ackTimers == n.ackTimers && Extends(n.sent, m.sent) && m.ackSent == n.ackSent
  {
    hide HashedAt, Hashed, OwnDistance, AdvHash;
    var a := OwnAdvertise(n, gid);
    assert OnAnnounce(n, gid, now).node.sent == n.sent + [OtaAdv(a.(ttl := Dec32(a.srcttl)))];
  }

  lemma DataPlain(n: Node, d: Data, from: NodeId, now: int)
    ensures var m := OnData(n, d, from, now); m.ackTimers == n.ackTimers && m.sent == n.sent && m.ackSent == n.ackSent
  {
    hide Hashed, HashedAt, DataDistance, DataForward, DataRaises, Handed, DataHash;
  }

  lemma ClientDataPlain(n: Node, s: Session, d0: Data, now: int)
    requires OnClientData(n, s, d0, now).Running?
    ensures var m := OnClientData(n, s, d0, now).node;
            m.ackTimers == n.ackTimers && Extends(n.sent, m.sent) && m.ackSent == n.ackSent
  {
    hide Hashed, HashedAt, DataDistance, Handed, DataHash, ClientSends, NextSeq;
    var d := Stamped(n, d0);
    var b := PreProcess(n, d, n.id, Some(s), now);
    SendsOneData(b, d);
    assert OnClientData(n, s, d0, now).node.sent == n.sent + ClientSends(b, d);
    if |ClientSends(b, d)| == 1 {
      assert ClientSends(b, d) == [ClientSends(b, d)[0]];
    }
  }

  lemma SendsOneData(m: Node, d: Data)
    ensures ClientSends(m, d) == [] || (|ClientSends(m, d)| == 1 && ClientSends(m, d)[0].OtaData?)
  {
    hide AnyRemote;
  }

  lemma OtherPlain(n: Node, e: Event)
    requires React(n, e).Running? && !e.Receive? && !e.AckTimer?
    ensures var m := React(n, e).node; m.ackTimers == n.ackTimers && Extends(n.sent, m.sent) && m.ackSent == n.ackSent
  {
    if IdleEvent(e) {
      hide React;
      UntouchedReact(n, e);
    } else {
      hide OnAnnounce, OnClientData, OnAdvTimeout, OnDataTimeout;
      match e
      case AdvTimer(_) => TimerPlain(n, e);
      case DataTimer(_) => TimerPlain(n, e);
      case AnnounceTimer(gid, now) => AnnouncePlain(n, gid, now);
      case FromClient(s, ClientData(d), now) => ClientDataPlain(n, s, d, now);
    }
  }

  lemma ReactSingle(net: Net, x: NodeId, e: Event, next: Net, bound: nat)
    requires Step(net, x, e, next) && Single(net[x]) && NetFaithful(Ads, next, bound) && !e.HashTimer?
    requires SettledMember(net[x], next[x])
    ensures Single(next[x])
  {
    hide OnAdvertise, OnAck, OnData, OnAckTimeout, OnAdvTimeout, OnDataTimeout, OnAnnounce, OnHashCleanup,
         OnPullCleanup, OnClient, OnClose, Single, SettledMember, NetFaithful;
    var n := net[x];
    assert React(n, e).Running? && next[x] == React(n, e).node;
    HashGrows(n, e);
    if e.Receive? {
      if e.from != n.id {
        match e.msg
        case OtaAck(a) => AckSingle(n, a, e.from, e.draw, e.now);
        case OtaAdv(a) =>
          HeardNameUnique(net, x, e, next, a, e.from, e.now, bound); AdvertiseSingle(n, a, e.from, e.now);
        case OtaData(d) => DataPlain(n, d, e.from, e.now); PlainSingle(n, next[x]);
      }
    } else if e.AckTimer? {
      AckTimerSingle(n, e.flow);
    } else {
      OtherPlain(n, e);
      PlainSingle(n, next[x]);
    }
  }

  /** No other advertisement with the same name is in the table of a node that hears one. */
  lemma HeardNameUnique(net: Net, x: NodeId, e: Event, next: Net, a: Advertise, from: NodeId, now: int, bound: nat)
    requires x in net && next == net[x := OnAdvertise(net[x], a, from, now)] && NetFaithful(Ads, next, bound)
    ensures forall h :: h in net[x].hash && Tracked(Ads, h) && SameName(h, AdvHash(a)) ==> h == AdvHash(a)
  {
    hide OnAdvertise, NetFaithful, SameName;
    AdvertiseTables(net[x], a, from, now);
    forall h | h in net[x].hash && Tracked(Ads, h) && SameName(h, AdvHash(a)) ensures h == AdvHash(a) {
      Delivery.NamesAreKeys(Ads, next, x, h, AdvHash(a), bound);
    }
  }

  /** Membership is settled at every step of the run. */
  ghost predicate AllSettled(nets: seq<Net>, moves: seq<Move>)
    requires Run(nets, moves)
  {
    forall i | 0 <= i < |moves| && Step(nets[i], moves[i].node, moves[i].event, nets[i + 1]) ::
      SettledMember(nets[i][moves[i].node], nets[i + 1][moves[i].node])
  }

  ghost predicate NetSingle(net: Net) { forall x :: x in net ==> Single(net[x]) }

  lemma StepSingle(net: Net, x: NodeId, e: Event, next: Net, bound: nat)
    requires Step(net, x, e, next) && NetSingle(net) && NetFaithful(Ads, next, bound) && !e.HashTimer?
    requires SettledMember(net[x], next[x])
    ensures NetSingle(next)
  {
    hide Single, NetFaithful, SettledMember, React;
    ReactSingle(net, x, e, next, bound);
  }

  lemma {:induction false} RunSingle(nets: seq<Net>, moves: seq<Move>)
    requires Run(nets, moves) && AllSteady(Ads, moves) && AllSettled(nets, moves) && |moves| < U32
    ensures NetSingle(nets[|moves|])
    decreases |moves|
  {
    hide Step, NetSingle, Start, SettledMember;
    if moves == [] {
      StartSingle(nets[0]);
    } else {
      RunPrefix(nets, moves);
      var last := |moves| - 1;
      assert AllSettled(nets[..|moves|], moves[..last]);
      RunSingle(nets[..|moves|], moves[..last]);
      RunFaithful(Ads, nets, moves);
      assert Steady(Ads, moves[last].event);
      StepSingle(nets[last], moves[last].node, moves[last].event, nets[|moves|], |moves|);
    }
  }

  lemma StartSingle(net: Net)
    requires Start(net)
    ensures NetSingle(net)
  {
  }

  /** In a run without hash expiry or deregistration, with membership settled before a group's
      traffic arrives, no node sends, or has waiting, more than one ACK for one advertisement. */
  lemma OneAckPerAdvertisement(nets: seq<Net>, moves: seq<Move>, x: NodeId, id: AdvId)
    requires Run(nets, moves) && AllSteady(Ads, moves) && AllSettled(nets, moves) && |moves| < U32
    requires x in nets[|moves|]
    ensures AckCount(nets[|moves|][x].sent, id) + PendingAcks(nets[|moves|][x].ackTimers, id) <= 1
  {
    RunSingle(nets, moves);
    assert Single(nets[|moves|][x]);
    assert Acks(nets[|moves|][x], id) <= 1;
  }

  /** What the ack-sent table promises: when a relay passes an ACK on and marks its sequence number as
      acknowledged, an ACK that carries the number is sent or waiting exactly if no other ACK of the
      flow was waiting, or one was sent before. */
  lemma AckCarriedIff(n: Node, a: Ack, from: NodeId, draw: nat, now: int)
    requires OnAck(n, a, from, draw, now).Running? && PassesAck(n, a, draw)
    ensures var m, id, k := OnAck(n, a, from, draw, now).node, AdvId(a.gid, a.srcnode, a.sequence), AckFlow(a);
            && AckedUpTo(m.ackSent, id)
            && (Acks(m, id) > 0 <==> k !in n.ackTimers || Names(n.ackTimers[k], id) || AckCount(n.sent, id) > 0)
  {
    hide OnAck, PassesAck, AckCount;
    AckTables(n, a, from, draw, now);
  }

  /** The probability an ACK carries is the configured one, or that number shared out among the
      neighbours the advertisement was heard from, rounded down. */
  lemma AckProbability(n: Node, k: FlowKey)
    requires NodeOk(n) && k in n.ackTimers
    ensures k in n.revPath && k in n.dist && AckProb(n, k).Some?
    ensures var p, c, heard := AckProb(n, k).value, n.revPath[k].probRelay, |n.dist[k].srcs|;
            if c <= 100 then p == c else heard > 0 && p * heard <= c < p * heard + heard
  {
    hide Noted;
  }

  // ---- the coin ------------------------------------------------------------------------

  ghost predicate CoinsKept(n: Node, m: Node) { forall k :: k in n.coin ==> k in m.coin && n.coin[k] <= m.coin[k] }

  /** The latest advertisement of the flow for which the node flipped; none counts as -1. */
  function LastFlip(n: Node, k: FlowKey): int { if k in n.coin then n.coin[k] else -1 }

  /** An ACK makes the node flip exactly when it raises what is recorded of its flow; it then raises it
      to its own number, and never touches another flow. */
  lemma FlipRaises(n: Node, a: Ack, from: NodeId, draw: nat, now: int)
    requires OnAck(n, a, from, draw, now).Running?
    ensures var m, k := OnAck(n, a, from, draw, now).node, AckFlow(a);
            && (Flips(n, a) <==> LastFlip(n, k) < LastFlip(m, k)) && (Flips(n, a) ==> LastFlip(m, k) == a.sequence)
            && CoinsKept(n, m) && forall j :: j != k ==> LastFlip(m, j) == LastFlip(n, j)
  {
    hide Adopts, PassesAck, Chosen, AddPull;
  }

  lemma CoinsOnlyRise(n: Node, e: Event)
    requires React(n, e).Running?
    ensures CoinsKept(n, React(n, e).node)
  {
    if IdleEvent(e) {
      hide React;
      UntouchedReact(n, e);
    } else if e.Receive? && e.from != n.id && e.msg.OtaAck? {
      hide OnAck;
      FlipRaises(n, e.msg.ack, e.from, e.draw, e.now);
    } else {
      OtherCoins(n, e);
    }
  }

  lemma OtherCoins(n: Node, e: Event)
    requires React(n, e).Running? && !IdleEvent(e) && !(e.Receive? && e.from != n.id && e.msg.OtaAck?)
    ensures React(n, e).node.coin == n.coin
  {
    hide Hashed, HashedAt, AdvDistance, AdvForward, AdvRaises, JoinsTree, Overrides, LearnPath, AdvHash, DataHash,
         DataDistance, DataForward, DataRaises, Handed, OwnDistance, AckProb, ClientSends, NextSeq, OnAck;
    match e
    case Receive(from, o, draw, now) =>
      if from != n.id {
        match o
        case OtaAdv(a) =>
        case OtaData(d) =>
      }
    case AnnounceTimer(gid, now) =>
    case FromClient(s, ClientData(d), now) =>
    case AckTimer(k) =>
    case AdvTimer(k) =>
    case DataTimer(h) =>
  }

  predicate FlippedUpTo(n: Node, k: FlowKey, s: u32) { k in n.coin && s <= n.coin[k] }

  lemma {:induction false} FlipRemembered(nets: seq<Net>, moves: seq<Move>, i: nat, j: nat, x: NodeId, k: FlowKey,
                                          s: u32)
    requires Run(nets, moves) && i <= j <= |moves|
    requires x in nets[i] && FlippedUpTo(nets[i][x], k, s)
    ensures x in nets[j] && FlippedUpTo(nets[j][x], k, s)
    decreases j - i
  {
    if i < j {
      hide React, Start;
      FlipRemembered(nets, moves, i, j - 1, x, k, s);
      var p := moves[j - 1];
      assert Step(nets[j - 1], p.node, p.event, nets[j]);
      CoinsOnlyRise(nets[j - 1][p.node], p.event);
    }
  }

  predicate FlipsAt(net: Net, p: Move) {
    p.node in net && p.event.Receive? && p.event.msg.OtaAck? && p.event.from != net[p.node].id
      && Flips(net[p.node], p.event.msg.ack)
  }

  /** In any run a node flips the coin at most once for one advertisement. */
  lemma OneFlipPerAdvertisement(nets: seq<Net>, moves: seq<Move>, i: nat, j: nat, id: AdvId)
    requires Run(nets, moves) && i < j < |moves| && moves[i].node == moves[j].node
    requires Step(nets[i], moves[i].node, moves[i].event, nets[i + 1])
    requires FlipsAt(nets[i], moves[i]) && Names(moves[i].event.msg.ack, id)
    requires FlipsAt(nets[j], moves[j])
    ensures !Names(moves[j].event.msg.ack, id)
  {
    hide OnAck, Start, OnAdvertise, OnData;
    var x, e := moves[i].node, moves[i].event;
    FlipRaises(nets[i][x], e.msg.ack, e.from, e.draw, e.now);
    assert FlippedUpTo(nets[i + 1][x], Flow(id), id.seqNo);
    hide Run;
    FlipRemembered(nets, moves, i + 1, j, x, Flow(id), id.seqNo);
  }
}
