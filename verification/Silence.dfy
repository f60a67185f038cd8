/** Once clients and announcements pause, the air falls silent: a measure of what nodes may still
    learn, of timers and of copies on the way falls with every delivery, loss and timer. */
module Silence {
  import opened Types
  import opened NodeSpec
  import opened Network
  import opened LoopFreedom
  import opened Origin
  import opened Sums
  import opened Air

  /** What remains to be learned about a message: all of it, or higher TTLs than the stored one. */
  function HashRoom(n: Node, h: HashKey): nat { if h in n.hash then U32 - n.hash[h] else U32 + 1 }

  function AckRoom(n: Node, k: FlowKey): nat { if k in n.ackSent then U32 - n.ackSent[k] else U32 + 1 }

  ghost function Room(n: Node, hs: set<HashKey>, ks: set<FlowKey>): nat {
    Sum(hs, (h: HashKey) => HashRoom(n, h)) + Sum(ks, (k: FlowKey) => AckRoom(n, k))
  }

  function Waiting(n: Node): nat { |n.ackTimers.Keys| + |n.advTimers.Keys| + |n.dataTimers.Keys| }

  /** The message belongs to the floods and flows of the round. */
  predicate Of(hs: set<HashKey>, ks: set<FlowKey>, m: OtaMsg) {
    match m
    case OtaAck(a) => AckFlow(a) in ks
    case OtaAdv(a) => AdvHash(a) in hs && AdvFlow(a) in ks
    case OtaData(d) => DataHash(d) in hs
  }

  ghost predicate Closed(links: Links, hs: set<HashKey>, ks: set<FlowKey>, s: Air) {
    WellFormed(links, s) && forall m :: m in Afoot(s) ==> Of(hs, ks, m)
  }

  lemma OfDescends(hs: set<HashKey>, ks: set<FlowKey>, m: OtaMsg, o: OtaMsg)
    requires Of(hs, ks, m) && Descends(o, m)
    ensures Of(hs, ks, o)
  {
    if m.OtaAdv? && o.OtaAdv? {
      assert AdvFlow(o.adv) == AdvFlow(AdvHash(m.adv).adv);
    }
  }

  lemma StepClosed(links: Links, s: Air, a: Act, t: Air, hs: set<HashKey>, ks: set<FlowKey>)
    requires Closed(links, hs, ks, s) && Goes(links, s, a, t) && Relaying(a)
    ensures Closed(links, hs, ks, t)
  {
    hide Goes, Of, Afoot, Descends;
    assert WellFormed(links, t) by { FlightStays(links, s, a, t); }
    forall o | o in Afoot(t) ensures Of(hs, ks, o) {
      AfootCaused(links, s, a, t, o);
      var m :| m in Afoot(s) && (o == m || Descends(o, m));
      if o != m {
        OfDescends(hs, ks, m, o);
      }
    }
  }

  /** A reception takes room and adds at most two timers, or it adds none. */
  ghost predicate Spends(n: Node, m: Node, hs: set<HashKey>, ks: set<FlowKey>) {
    || (Room(m, hs, ks) < Room(n, hs, ks) && Waiting(m) <= Waiting(n) + 2)
    || (Room(m, hs, ks) == Room(n, hs, ks) && Waiting(m) == Waiting(n))
  }

  lemma HashRoomFalls(n: Node, m: Node, h: HashKey, hs: set<HashKey>, ks: set<FlowKey>)
    requires h in hs && m.ackSent == n.ackSent && HashRoom(m, h) < HashRoom(n, h)
    requires forall g :: g != h ==> HashRoom(m, g) == HashRoom(n, g)
    ensures Room(m, hs, ks) < Room(n, hs, ks)
  {
    SumUpdate(hs, (g: HashKey) => HashRoom(m, g), (g: HashKey) => HashRoom(n, g), h);
    SumSame(ks, (k: FlowKey) => AckRoom(m, k), (k: FlowKey) => AckRoom(n, k));
  }

  lemma AckRoomFalls(n: Node, m: Node, k: FlowKey, hs: set<HashKey>, ks: set<FlowKey>)
    requires k in ks && m.hash == n.hash && AckRoom(m, k) < AckRoom(n, k)
    requires forall j :: j != k ==> AckRoom(m, j) == AckRoom(n, j)
    ensures Room(m, hs, ks) < Room(n, hs, ks)
  {
    SumUpdate(ks, (j: FlowKey) => AckRoom(m, j), (j: FlowKey) => AckRoom(n, j), k);
    SumSame(hs, (h: HashKey) => HashRoom(m, h), (h: HashKey) => HashRoom(n, h));
  }

  lemma SameRoom(n: Node, m: Node, hs: set<HashKey>, ks: set<FlowKey>)
    requires m.hash == n.hash && m.ackSent == n.ackSent
    ensures Room(m, hs, ks) == Room(n, hs, ks)
  {
    SumSame(hs, (h: HashKey) => HashRoom(m, h), (h: HashKey) => HashRoom(n, h));
    SumSame(ks, (k: FlowKey) => AckRoom(m, k), (k: FlowKey) => AckRoom(n, k));
  }

  lemma KeysAdd<K, V>(t: map<K, V>, k: K, v: V)
    ensures |t[k := v].Keys| <= |t.Keys| + 1
  {
    assert t[k := v].Keys == t.Keys + {k};
  }

  lemma KeysTake<K, V>(t: map<K, V>, k: K)
    requires k in t
    ensures |(t - {k}).Keys| == |t.Keys| - 1
  {
    assert (t - {k}).Keys == t.Keys - {k};
  }

  lemma AdvertiseSpends(n: Node, a: Advertise, from: NodeId, now: int, hs: set<HashKey>, ks: set<FlowKey>)
    requires Of(hs, ks, OtaAdv(a))
    ensures var m := OnAdvertise(n, a, from, now); Spends(n, m, hs, ks)
  {
    hide HashedAt, AdvDistance, AdvForward, AdvRaises, JoinsTree, Overrides, LearnPath, AdvHash, PullWrites, Pulled,
         Room;
    var m := OnAdvertise(n, a, from, now);
    var h := AdvHash(a);
    var f := AdvForward(n, a, from);
    if f.Some? {
      KeysAdd(n.advTimers, AdvFlow(a), f.value);
    }
    var ack := Ack(a.gid, a.srcnode, a.sequence, from, 0);
    KeysAdd(n.ackTimers, AckFlow(ack), ack);
    AdvNewness(n, a, from);
    if h !in n.hash || AdvRaises(n, a) {
      HashRoomFalls(n, m, h, hs, ks);
    } else {
      SameRoom(n, m, hs, ks);
    }
  }

  /** Only news is forwarded or joined. */
  lemma AdvNewness(n: Node, a: Advertise, from: NodeId)
    ensures AdvRaises(n, a) ==> AdvHash(a) in n.hash && n.hash[AdvHash(a)] < a.ttl
    ensures AdvHash(a) in n.hash && !AdvRaises(n, a) ==> AdvForward(n, a, from).None? && !JoinsTree(n, a)
  {
    hide AdvDistance, IsGroupNode, AdvHash;
  }

  lemma DataSpends(n: Node, d0: Data, from: NodeId, now: int, hs: set<HashKey>, ks: set<FlowKey>)
    requires Of(hs, ks, OtaData(d0))
    ensures var m := OnData(n, d0, from, now); Spends(n, m, hs, ks)
  {
    hide HashedAt, DataDistance, DataForward, DataRaises, Handed, DataHash, Room;
    var m := OnData(n, d0, from, now);
    var d := HeardData(d0);
    var h := DataHash(d);
    assert h == DataHash(d0) by { CopyKeepsKey(d0, d0.ttl, Inc32(d0.distance), 0); }
    var t := n.dist[DataFlow(d) := DataDistance(n, d, from)];
    var f := DataForward(n, d, t);
    if f.Some? {
      KeysAdd(n.dataTimers, h, f.value);
    }
    DataNewness(n, d, t);
    if h !in n.hash || DataRaises(n, d) {
      HashRoomFalls(n, m, h, hs, ks);
    } else {
      SameRoom(n, m, hs, ks);
    }
  }

  lemma DataNewness(n: Node, d: Data, t: map<FlowKey, Distance>)
    ensures DataRaises(n, d) ==> DataHash(d) in n.hash && n.hash[DataHash(d)] < d.ttl
    ensures DataHash(d) in n.hash && !DataRaises(n, d) ==> DataForward(n, d, t).None?
  {
    hide IsGroupNode, RelaysTree, DataHash, UnicastForward, FloodForward;
  }

  lemma AckSpends(n: Node, a: Ack, from: NodeId, draw: nat, now: int, hs: set<HashKey>, ks: set<FlowKey>)
    requires Of(hs, ks, OtaAck(a)) && OnAck(n, a, from, draw, now).Running?
    ensures var m := OnAck(n, a, from, draw, now).node; Spends(n, m, hs, ks)
  {
    hide Adopts, Flips, Chosen, AddPull, IsGroupNode, PullWrites, Pulled, Room;
    var m := OnAck(n, a, from, draw, now).node;
    if PassesAck(n, a, draw) {
      var ack := a.(oblig := n.revPath[AckFlow(a)].next);
      KeysAdd(n.ackTimers, AckFlow(ack), ack);
      AckRoomFalls(n, m, AckFlow(a), hs, ks);
    } else {
      SameRoom(n, m, hs, ks);
    }
  }

  lemma ReceiveSpends(n: Node, e: Event, hs: set<HashKey>, ks: set<FlowKey>)
    requires e.Receive? && React(n, e).Running? && Of(hs, ks, e.msg)
    ensures Spends(n, React(n, e).node, hs, ks)
  {
    hide OnAdvertise, OnAck, OnData, Of, Room;
    if e.from != n.id {
      match e.msg
      case OtaAck(a) => AckSpends(n, a, e.from, e.draw, e.now, hs, ks);
      case OtaAdv(a) => AdvertiseSpends(n, a, e.from, e.now, hs, ks);
      case OtaData(d) => DataSpends(n, d, e.from, e.now, hs, ks);
    }
  }

  /** A timer takes no room and leaves one timer less. */
  ghost predicate Fires(n: Node, m: Node, hs: set<HashKey>, ks: set<FlowKey>) {
    Room(m, hs, ks) == Room(n, hs, ks) && Waiting(m) == Waiting(n) - 1
  }

  lemma TimerSpends(n: Node, e: Event, hs: set<HashKey>, ks: set<FlowKey>)
    requires TimerEvent(e) && React(n, e).Running?
    ensures Fires(n, React(n, e).node, hs, ks)
  {
    hide Room, TimerMsg, React;
    TimerReact(n, e);
    var m := React(n, e).node;
    SameRoom(n, m, hs, ks);
    match e
    case AckTimer(k) => KeysTake(n.ackTimers, k);
    case AdvTimer(k) => KeysTake(n.advTimers, k);
    case DataTimer(h) => KeysTake(n.dataTimers, h);
  }

  /** The steps that room and timers may still cause when a broadcast makes at most `fan` copies. */
  function Price(room: nat, waiting: nat, fan: nat): nat { (2 * fan + 3) * room + (fan + 1) * waiting }

  lemma Times(c: nat, x: nat, y: nat)
    ensures x <= y ==> c * x <= c * y
  {
  }

  lemma PriceFalls(r: nat, w: nat, r': nat, w': nat, fan: nat)
    ensures r' < r && w' <= w + 2 ==> Price(r', w', fan) <= Price(r, w, fan)
    ensures r' == r && w' == w - 1 ==> Price(r', w', fan) + fan + 1 == Price(r, w, fan)
  {
    if r' < r && w' <= w + 2 {
      Times(2 * fan + 3, r', r - 1);
      Times(fan + 1, w', w + 2);
      assert (2 * fan + 3) * (r - 1) == (2 * fan + 3) * r - (2 * fan + 3);
      assert (fan + 1) * (w + 2) == (fan + 1) * w + 2 * (fan + 1);
    } else if r' == r && w' == w - 1 {
      assert (fan + 1) * (w - 1) == (fan + 1) * w - (fan + 1);
    }
  }

  ghost function Effort(n: Node, hs: set<HashKey>, ks: set<FlowKey>, fan: nat): nat {
    Price(Room(n, hs, ks), Waiting(n), fan)
  }

  ghost function Efforts(nodes: Net, hs: set<HashKey>, ks: set<FlowKey>): nat {
    Sum(nodes.Keys, (x: NodeId) => if x in nodes then Effort(nodes[x], hs, ks, |nodes|) else 0)
  }

  ghost function Budget(s: Air, hs: set<HashKey>, ks: set<FlowKey>): nat { |s.flight| + Efforts(s.nodes, hs, ks) }

  lemma EffortChanges(nodes: Net, next: Net, x: NodeId, hs: set<HashKey>, ks: set<FlowKey>)
    requires x in nodes && x in next && next == nodes[x := next[x]]
    ensures |next| == |nodes|
    ensures Efforts(next, hs, ks) - Effort(next[x], hs, ks, |nodes|) == Efforts(nodes, hs, ks) - Effort(nodes[x], hs,
              ks, |nodes|)
  {
    hide Effort;
    assert next.Keys == nodes.Keys;
    SumUpdate(nodes.Keys, (y: NodeId) => if y in nodes then Effort(nodes[y], hs, ks, |nodes|) else 0,
              (y: NodeId) => if y in next then Effort(next[y], hs, ks, |next|) else 0, x);
  }

  lemma FewCopies(links: Links, nodes: Net, x: NodeId, index: nat)
    ensures |Copies(links, nodes, x, index)| <= |nodes|
  {
    SizeOfImage(nodes.Keys, Copies(links, nodes, x, index), (c: Copy) => c.to);
  }

  lemma DeliverySpends(links: Links, s: Air, a: Act, t: Air, hs: set<HashKey>, ks: set<FlowKey>)
    requires Closed(links, hs, ks, s) && Goes(links, s, a, t) && a.Deliver?
    ensures Budget(t, hs, ks) < Budget(s, hs, ks)
  {
    hide React, Of, Room, Waiting, Price, Efforts;
    var x := Actor(a);
    var n, m := s.nodes[x], t.nodes[x];
    RelayLog(links, s, a, t);
    assert MsgOf(s.nodes, a.copy) in Afoot(s);
    ReceiveSpends(n, EventOf(s, a), hs, ks);
    EffortChanges(s.nodes, t.nodes, x, hs, ks);
    PriceFalls(Room(n, hs, ks), Waiting(n), Room(m, hs, ks), Waiting(m), |s.nodes|);
  }

  lemma FiringSpends(links: Links, s: Air, a: Act, t: Air, hs: set<HashKey>, ks: set<FlowKey>)
    requires Goes(links, s, a, t) && Relaying(a) && a.Occurs?
    ensures Budget(t, hs, ks) < Budget(s, hs, ks)
  {
    hide React, Room, Waiting, Price, TimerMsg, Efforts;
    var x := a.node;
    var n, m := s.nodes[x], t.nodes[x];
    RelayLog(links, s, a, t);
    TimerSpends(n, a.event, hs, ks);
    FewCopies(links, s.nodes, x, |n.sent|);
    EffortChanges(s.nodes, t.nodes, x, hs, ks);
    PriceFalls(Room(n, hs, ks), Waiting(n), Room(m, hs, ks), Waiting(m), |s.nodes|);
    UnionSize(s.flight, Copies(links, s.nodes, x, |n.sent|));
  }

  lemma UnionSize<T>(s: set<T>, t: set<T>)
    ensures |s + t| <= |s| + |t|
  {
    assert |s + t| == |s| + |t| - |s * t|;
  }

  /** Every step uses up some of the budget. */
  lemma StepSpends(links: Links, s: Air, a: Act, t: Air, hs: set<HashKey>, ks: set<FlowKey>)
    requires Closed(links, hs, ks, s) && Goes(links, s, a, t) && Relaying(a)
    ensures Closed(links, hs, ks, t) && Budget(t, hs, ks) < Budget(s, hs, ks)
  {
    hide Goes, Closed, Budget;
    StepClosed(links, s, a, t, hs, ks);
    if a.Deliver? { DeliverySpends(links, s, a, t, hs, ks); } else { FiringSpends(links, s, a, t, hs, ks); }
  }

  lemma LossSpends(links: Links, s: Air, t: Air, hs: set<HashKey>, ks: set<FlowKey>)
    requires Closed(links, hs, ks, s) && Loses(s, t)
    ensures Closed(links, hs, ks, t) && Budget(t, hs, ks) < Budget(s, hs, ks)
  {
    hide Of, Efforts, NodeMsgs;
  }

  ghost predicate Relays(links: Links, s: Air, t: Air) { exists a :: Relaying(a) && Goes(links, s, a, t) }

  /** A round in which copies may also get lost. */
  ghost predicate LossyRound(links: Links, ss: seq<Air>) {
    |ss| > 0 && forall i :: 0 < i < |ss| ==> Loses(ss[i - 1], ss[i]) || Relays(links, ss[i - 1], ss[i])
  }

  lemma {:induction false} RoundSpends(links: Links, ss: seq<Air>, hs: set<HashKey>, ks: set<FlowKey>)
    requires LossyRound(links, ss) && Closed(links, hs, ks, ss[0])
    ensures Closed(links, hs, ks, ss[|ss| - 1]) && |ss| - 1 + Budget(ss[|ss| - 1], hs, ks) <= Budget(ss[0], hs, ks)
    decreases |ss|
  {
    hide Goes, Loses, Budget, Closed;
    if |ss| > 1 {
      var last := |ss| - 2;
      var rs := ss[..last + 1];
      RoundSpends(links, rs, hs, ks);
      if Loses(ss[last], ss[last + 1]) {
        LossSpends(links, ss[last], ss[last + 1], hs, ks);
      } else {
        var a :| Relaying(a) && Goes(links, ss[last], a, ss[last + 1]);
        StepSpends(links, ss[last], a, ss[last + 1], hs, ks);
      }
    }
  }

  ghost function KeysAfoot(s: Air): set<HashKey> { set m | m in Afoot(s) && KeyOf(m).Some? :: KeyOf(m).value }

  ghost function FlowsAfoot(s: Air): set<FlowKey> {
    (set m | m in Afoot(s) && m.OtaAck? :: AckFlow(m.ack)) + set m | m in Afoot(s) && m.OtaAdv? :: AdvFlow(m.adv)
  }

  /** A bound on the steps of any round from `s`. */
  ghost function Longest(s: Air): nat { Budget(s, KeysAfoot(s), FlowsAfoot(s)) }

  lemma StartsClosed(links: Links, s: Air)
    requires WellFormed(links, s)
    ensures Closed(links, KeysAfoot(s), FlowsAfoot(s), s)
  {
    hide Afoot, AdvHash, DataHash;
    forall m | m in Afoot(s) ensures Of(KeysAfoot(s), FlowsAfoot(s), m) {
      assert KeyOf(m).Some? ==> KeyOf(m).value in KeysAfoot(s);
    }
  }

  /** Whatever is waiting or on the way, whatever the order and whatever gets lost, deliveries and
      timers come to an end after a number of steps fixed by the state they start from. */
  lemma EveryRoundEnds(links: Links, ss: seq<Air>)
    requires LossyRound(links, ss) && WellFormed(links, ss[0])
    ensures |ss| - 1 <= Longest(ss[0])
  {
    hide Budget, Closed, WellFormed, KeysAfoot, FlowsAfoot;
    StartsClosed(links, ss[0]);
    RoundSpends(links, ss, KeysAfoot(ss[0]), FlowsAfoot(ss[0]));
  }

  /** A round can always go on until nothing waits and nothing is on the way. */
  lemma NeverStuck(links: Links, s: Air)
    requires WellFormed(links, s) && Inv(s.nodes) && !Quiescent(s)
    ensures exists next :: Relays(links, s, next)
  {
    hide React, Inv, Aired;
    var a: Act;
    if c :| c in s.flight {
      a := Deliver(c, 0, 0);
      assert MsgOf(s.nodes, c) in s.nodes[c.from].sent;
    } else {
      var x :| x in s.nodes && !Idle(s.nodes[x]);
      var n := s.nodes[x];
      if k :| k in n.ackTimers {
        a := Occurs(x, AckTimer(k));
      } else if k :| k in n.advTimers {
        a := Occurs(x, AdvTimer(k));
      } else {
        var h :| h in n.dataTimers;
        a := Occurs(x, DataTimer(h));
      }
    }
    var x, e := Actor(a), EventOf(s, a);
    NeverFatal(s.nodes, x, e);
    var next := s.nodes[x := React(s.nodes[x], e).node];
    var t := Air(next, (if a.Deliver? then s.flight - {a.copy}
                        else s.flight) + Aired(links, s.nodes, x, s.nodes[x], next[x]));
    assert Relaying(a) && Goes(links, s, a, t) && Relays(links, s, t);
  }

  lemma GoesKeepsInv(links: Links, s: Air, a: Act, t: Air)
    requires Inv(s.nodes) && Goes(links, s, a, t)
    ensures Inv(t.nodes)
  {
    hide React, Inv, Aired;
    StepInv(s.nodes, Actor(a), EventOf(s, a), t.nodes);
  }

  lemma {:induction false} RoundKeepsInv(links: Links, ss: seq<Air>, acts: seq<Act>)
    requires Round(links, ss, acts) && Inv(ss[0].nodes)
    ensures Inv(ss[|acts|].nodes)
    decreases |acts|
  {
    hide Goes, Inv;
    if acts != [] {
      RoundPrefix(links, ss, acts);
      var last := |acts| - 1;
      RoundKeepsInv(links, ss[..|acts|], acts[..last]);
      GoesKeepsInv(links, ss[last], acts[last], ss[|acts|]);
    }
  }

  lemma {:induction false} SilenceWithin(links: Links, s: Air, hs: set<HashKey>,
                                         ks: set<FlowKey>) returns (ss: seq<Air>, acts: seq<Act>)
    requires Inv(s.nodes) && Closed(links, hs, ks, s)
    ensures Round(links, ss, acts) && ss[0] == s && Quiescent(ss[|acts|])
    decreases Budget(s, hs, ks)
  {
    hide Goes, Inv, Budget, WellFormed, Of, Quiescent;
    if Quiescent(s) {
      ss, acts := [s], [];
    } else {
      NeverStuck(links, s);
      var t :| Relays(links, s, t);
      var a :| Relaying(a) && Goes(links, s, a, t);
      GoesKeepsInv(links, s, a, t);
      StepSpends(links, s, a, t, hs, ks);
      var rs, bs := SilenceWithin(links, t, hs, ks);
      ss, acts := [s] + rs, [a] + bs;
    }
  }

  /** From every state that can be reached some lossless round ends in silence. */
  lemma SilenceReached(links: Links, s: Air) returns (ss: seq<Air>, acts: seq<Act>)
    requires WellFormed(links, s) && Inv(s.nodes)
    ensures Round(links, ss, acts) && ss[0] == s && Quiescent(ss[|acts|])
  {
    hide Goes, Inv, WellFormed, KeysAfoot, FlowsAfoot;
    StartsClosed(links, s);
    ss, acts := SilenceWithin(links, s, KeysAfoot(s), FlowsAfoot(s));
  }
}
