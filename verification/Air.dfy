/** Broadcasts over fixed links: what a node sends puts one copy on the way to each neighbour.
    The base of everything said about whole rounds. */
module Air {
  import opened Types
  import opened NodeSpec
  import opened Network
  import opened Origin

  /** The copy for `to` of the message `from` logged at position `index`. */
  datatype Copy = Copy(from: NodeId, index: nat, to: NodeId)

  datatype Air = Air(nodes: Net, flight: set<Copy>)

  datatype Act = Deliver(copy: Copy, draw: nat, now: int) | Occurs(node: NodeId, event: Event)

  ghost predicate OnAir(links: Links, nodes: Net, c: Copy) {
    c.from in nodes && c.to in nodes && c.index < |nodes[c.from].sent| && (c.from, c.to) in links && c.from != c.to
  }

  ghost predicate WellFormed(links: Links, s: Air) {
    (forall x :: x in s.nodes ==> s.nodes[x].id == x) && (forall c :: c in s.flight ==> OnAir(links, s.nodes, c))
  }

  function MsgOf(nodes: Net, c: Copy): OtaMsg
    requires c.from in nodes && c.index < |nodes[c.from].sent|
  {
    nodes[c.from].sent[c.index]
  }

  function Actor(a: Act): NodeId { match a case Deliver(c, _, _) => c.to case Occurs(x, _) => x }

  predicate Possible(s: Air, a: Act) {
    match a
    case Deliver(c, _, _) => c in s.flight && c.from in s.nodes && c.index < |s.nodes[c.from].sent|
    case Occurs(_, e) => !e.Receive?
  }

  function EventOf(s: Air, a: Act): Event
    requires Possible(s, a)
  {
    match a
    case Deliver(c, draw, now) => Receive(c.from, MsgOf(s.nodes, c), draw, now)
    case Occurs(_, e) => e
  }

  /** One copy to each neighbour in the network. */
  function Copies(links: Links, nodes: Net, x: NodeId, index: nat): set<Copy> {
    set y | y in nodes && (x, y) in links && x != y :: Copy(x, index, y)
  }

  /** What is on the way when `x` has gone from `n` to `m`: no event sends more than one message. */
  function Aired(links: Links, nodes: Net, x: NodeId, n: Node, m: Node): set<Copy> {
    if |m.sent| > |n.sent| then Copies(links, nodes, x, |n.sent|) else {}
  }

  /** A step in which nothing gets lost. */
  predicate Goes(links: Links, s: Air, a: Act, t: Air) {
    && Possible(s, a)
    && var x := Actor(a);
       Step(s.nodes, x, EventOf(s, a), t.nodes) &&
       t.flight == (if a.Deliver? then s.flight - {a.copy}
                    else s.flight) + Aired(links, s.nodes, x, s.nodes[x], t.nodes[x])
  }

  /** A copy is lost on the way. */
  predicate Loses(s: Air, t: Air) { exists c :: c in s.flight && t == s.(flight := s.flight - {c}) }

  /** Deliveries and protocol timers: what goes on without clients, announcements and cleanup. */
  predicate Relaying(a: Act) { a.Deliver? || a.event.AckTimer? || a.event.AdvTimer? || a.event.DataTimer? }

  predicate Idle(n: Node) { n.ackTimers == map[] && n.advTimers == map[] && n.dataTimers == map[] }

  /** Nothing on the way and nothing waiting. */
  predicate Quiescent(s: Air) { s.flight == {} && forall x :: x in s.nodes ==> Idle(s.nodes[x]) }

  /** A lossless round: deliveries and timers in any order. */
  ghost predicate Round(links: Links, ss: seq<Air>, acts: seq<Act>) {
    |ss| == |acts| + 1 && forall i :: 0 <= i < |acts| ==> Goes(links, ss[i], acts[i], ss[i + 1]) && Relaying(acts[i])
  }

  lemma RoundPrefix(links: Links, ss: seq<Air>, acts: seq<Act>)
    requires Round(links, ss, acts) && |acts| > 0
    ensures Round(links, ss[..|acts|], acts[..|acts| - 1])
    ensures Goes(links, ss[|acts| - 1], acts[|acts| - 1], ss[|acts|]) && Relaying(acts[|acts| - 1])
  {
    hide Goes;
  }

  lemma RoundSnoc(links: Links, ss: seq<Air>, acts: seq<Act>, a: Act, t: Air)
    requires Round(links, ss, acts) && Goes(links, ss[|acts|], a, t) && Relaying(a)
    ensures Round(links, ss + [t], acts + [a])
  {
    hide Goes;
  }

  lemma RoundJoin(links: Links, ss: seq<Air>, acts: seq<Act>, rs: seq<Air>, bs: seq<Act>)
    requires Round(links, ss, acts) && Round(links, rs, bs) && rs[0] == ss[|acts|]
    ensures Round(links, ss + rs[1..], acts + bs) && (ss + rs[1..])[|acts + bs|] == rs[|bs|]
  {
    hide Goes, Relaying;
    var us, cs := ss + rs[1..], acts + bs;
    forall i | 0 <= i < |cs| ensures Goes(links, us[i], cs[i], us[i + 1]) && Relaying(cs[i]) {
      if i >= |acts| {
        var j := i - |acts|;
        assert Goes(links, rs[j], bs[j], rs[j + 1]) && Relaying(bs[j]);
      }
    }
  }

  lemma RoundShape(links: Links, ss: seq<Air>, acts: seq<Act>)
    requires Round(links, ss, acts)
    ensures |ss| == |acts| + 1
  {
  }

  /** A round from `s` after which nothing is left to do. */
  ghost predicate Completes(links: Links, s: Air, ss: seq<Air>, acts: seq<Act>) {
    Round(links, ss, acts) && ss[0] == s && Quiescent(ss[|acts|])
  }

  // ---- the shape of a step -------------------------------------------------------------

  predicate TimerEvent(e: Event) { e.AckTimer? || e.AdvTimer? || e.DataTimer? }

  /** The message a timer event sends. */
  function TimerMsg(n: Node, e: Event): OtaMsg
    requires TimerEvent(e) && React(n, e).Running?
  {
    match e
    case AckTimer(k) => OtaAck(n.ackTimers[k].(prob := AckProb(n, k).value))
    case AdvTimer(k) => OtaAdv(n.advTimers[k].adv.(ttl := Dec32(n.advTimers[k].ttl)))
    case DataTimer(h) => OtaData(n.dataTimers[h].data.(ttl := Dec32(n.dataTimers[h].ttl)))
  }

  /** A timer event sends its message, takes away one timer and does nothing else. */
  lemma TimerReact(n: Node, e: Event)
    requires TimerEvent(e) && React(n, e).Running?
    ensures (e.AckTimer? ==> e.flow in n.ackTimers) && (e.AdvTimer? ==> e.flow in n.advTimers)
            && (e.DataTimer? ==> e.key in n.dataTimers)
    ensures React(n, e).node ==
            n.(sent := n.sent + [TimerMsg(n, e)],
               ackTimers := if e.AckTimer? then n.ackTimers - {e.flow} else n.ackTimers,
               advTimers := if e.AdvTimer? then n.advTimers - {e.flow} else n.advTimers,
               dataTimers := if e.DataTimer? then n.dataTimers - {e.key} else n.dataTimers)
  {
    hide AckProb;
    match e
    case AckTimer(k) =>
    case AdvTimer(k) =>
    case DataTimer(h) =>
  }

  lemma ReceiveLog(n: Node, e: Event)
    requires e.Receive? && React(n, e).Running?
    ensures React(n, e).node.id == n.id && React(n, e).node.sent == n.sent
  {
    hide OnAdvertise, OnAck, OnData;
    if e.from != n.id {
      match e.msg
      case OtaAck(a) => AckLog(n, a, e.from, e.draw, e.now);
      case OtaAdv(a) => AdvertiseLog(n, a, e.from, e.now);
      case OtaData(d) => DataLog(n, d, e.from, e.now);
    }
  }

  lemma AdvertiseLog(n: Node, a: Advertise, from: NodeId, now: int)
    ensures OnAdvertise(n, a, from, now).id == n.id && OnAdvertise(n, a, from, now).sent == n.sent
  {
    hide Hashed, HashedAt, AdvDistance, AdvForward, AdvRaises, JoinsTree, Overrides, LearnPath, AdvHash, SetAckTimer,
         PullWrites, Pulled;
  }

  lemma AckLog(n: Node, a: Ack, from: NodeId, draw: nat, now: int)
    requires OnAck(n, a, from, draw, now).Running?
    ensures OnAck(n, a, from, draw, now).node.id == n.id && OnAck(n, a, from, draw, now).node.sent == n.sent
  {
    hide Adopts, PassesAck, Flips, Chosen, AddPull, SetAckTimer, PullWrites, Pulled;
  }

  lemma DataLog(n: Node, d: Data, from: NodeId, now: int)
    ensures OnData(n, d, from, now).id == n.id && OnData(n, d, from, now).sent == n.sent
  {
    hide Hashed, HashedAt, DataDistance, DataForward, DataRaises, Handed, DataHash;
  }

  /** What DATA does to the tables of its hearer. */
  lemma DataTables(n: Node, d0: Data, from: NodeId, now: int)
    ensures var m, d := OnData(n, d0, from, now), HeardData(d0);
            var t := n.dist[DataFlow(d) := DataDistance(n, d, from)];
            && m.id == n.id && m.sent == n.sent && m.seqByGid == n.seqByGid && m.dist == t
            && m.hash.Keys == n.hash.Keys + {DataHash(d)}
            && m.localPull == n.localPull && m.remotePull == n.remotePull && m.announce == n.announce
            && m.alwaysRebroadcast == n.alwaysRebroadcast
            && m.advTimers == n.advTimers
            && m.dataTimers == if DataForward(n, d, t).Some?
               then n.dataTimers[DataHash(d) := DataForward(n, d, t).value] else n.dataTimers
  {
    hide HashedAt, DataDistance, DataForward, Handed, DataHash;
    DataNews(n, HeardData(d0));
  }

  lemma DataNews(n: Node, d: Data)
    ensures DataRaises(n, d) ==> DataHash(d) in n.hash
  {
  }

  /** The log only grows, by nothing on reception and by the timer's message on a timer. */
  lemma RelayLog(links: Links, s: Air, a: Act, t: Air)
    requires Goes(links, s, a, t) && Relaying(a)
    ensures var x := Actor(a); var n, m := s.nodes[x], t.nodes[x];
            && m.id == n.id
            && (a.Deliver? ==> m.sent == n.sent && t.flight == s.flight - {a.copy})
            && (a.Occurs? ==>
                  TimerEvent(a.event) && React(n, a.event).Running? && m.sent == n.sent + [TimerMsg(n, a.event)])
            && (a.Occurs? ==> t.flight == s.flight + Copies(links, s.nodes, x, |n.sent|))
  {
    hide React;
    if a.Deliver? {
      ReceiveLog(s.nodes[Actor(a)], EventOf(s, a));
    } else {
      TimerReact(s.nodes[Actor(a)], a.event);
    }
  }

  /** Messages on the way stay what they were, and only a timer adds one. */
  lemma FlightStays(links: Links, s: Air, a: Act, t: Air)
    requires WellFormed(links, s) && Goes(links, s, a, t) && Relaying(a)
    ensures WellFormed(links, t) && s.nodes.Keys == t.nodes.Keys && Actor(a) in s.nodes
    ensures forall c :: c in s.flight ==> OnAir(links, t.nodes, c) && MsgOf(t.nodes, c) == MsgOf(s.nodes, c)
    ensures a.Occurs? ==> TimerEvent(a.event) && React(s.nodes[a.node], a.event).Running?
    ensures forall c :: c in t.flight && c !in s.flight ==>
              a.Occurs? && c in Copies(links, s.nodes, a.node, |s.nodes[a.node].sent|)
                && MsgOf(t.nodes, c) == TimerMsg(s.nodes[a.node], a.event)
  {
    hide React, TimerMsg, Aired;
    var x := Actor(a);
    RelayLog(links, s, a, t);
    assert x in t.nodes && t.nodes == s.nodes[x := t.nodes[x]] && t.nodes[x].id == s.nodes[x].id;
    hide Goes;
  }

  // ---- what a step puts afoot ----------------------------------------------------------

  function NodeMsgs(n: Node): set<OtaMsg> {
    (set k | k in n.ackTimers :: OtaAck(n.ackTimers[k])) + (set k | k in n.advTimers :: OtaAdv(n.advTimers[k].adv))
    + (set h | h in n.dataTimers :: OtaData(n.dataTimers[h].data))
  }

  /** Everything waiting or on the way. */
  ghost function Afoot(s: Air): set<OtaMsg> {
    (set x, m | x in s.nodes && m in NodeMsgs(s.nodes[x]) :: m)
    + set c | c in s.flight && c.from in s.nodes && c.index < |s.nodes[c.from].sent| :: MsgOf(s.nodes, c)
  }

  /** What a message may give rise to: copies of itself and ACKs of the same advertisement. */
  predicate Descends(o: OtaMsg, m: OtaMsg) {
    match o
    case OtaAdv(a) => m.OtaAdv? && AdvHash(a) == AdvHash(m.adv)
    case OtaData(d) => m.OtaData? && DataHash(d) == DataHash(m.data)
    case OtaAck(a) =>
      || (m.OtaAck? && AckFlow(a) == AckFlow(m.ack) && a.sequence == m.ack.sequence)
      || (m.OtaAdv? && AckFlow(a) == AdvFlow(m.adv) && a.sequence == m.adv.sequence)
  }

  lemma AdvertiseCauses(n: Node, a: Advertise, from: NodeId, now: int, o: OtaMsg)
    requires o in NodeMsgs(OnAdvertise(n, a, from, now))
    ensures o in NodeMsgs(n) || Descends(o, OtaAdv(a))
  {
    hide Hashed, HashedAt, AdvDistance, AdvForward, AdvRaises, JoinsTree, Overrides, LearnPath, AdvHash, PullWrites,
         Pulled;
    if AdvForward(n, a, from).Some? {
      AdvForwardKey(n, a, from);
    }
  }

  lemma AckCauses(n: Node, a: Ack, from: NodeId, draw: nat, now: int, o: OtaMsg)
    requires OnAck(n, a, from, draw, now).Running? && o in NodeMsgs(OnAck(n, a, from, draw, now).node)
    ensures o in NodeMsgs(n) || Descends(o, OtaAck(a))
  {
    hide Adopts, PassesAck, Flips, Chosen, AddPull, PullWrites, Pulled;
  }

  lemma DataCauses(n: Node, d0: Data, from: NodeId, now: int, o: OtaMsg)
    requires o in NodeMsgs(OnData(n, d0, from, now))
    ensures o in NodeMsgs(n) || Descends(o, OtaData(d0))
  {
    hide Hashed, HashedAt, DataDistance, DataForward, DataRaises, Handed, DataHash;
    var d := HeardData(d0);
    var t := n.dist[DataFlow(d) := DataDistance(n, d, from)];
    assert DataHash(d) == DataHash(d0) by { CopyKeepsKey(d0, d0.ttl, Inc32(d0.distance), 0); }
    if DataForward(n, d, t).Some? {
      DataForwardKey(n, d, t);
    }
  }

  lemma ReceiveCauses(n: Node, e: Event, o: OtaMsg)
    requires e.Receive? && React(n, e).Running? && o in NodeMsgs(React(n, e).node)
    ensures o in NodeMsgs(n) || Descends(o, e.msg)
  {
    hide OnAdvertise, OnAck, OnData, NodeMsgs, Descends;
    if e.from != n.id {
      match e.msg
      case OtaAck(a) => AckCauses(n, a, e.from, e.draw, e.now, o);
      case OtaAdv(a) => AdvertiseCauses(n, a, e.from, e.now, o);
      case OtaData(d) => DataCauses(n, d, e.from, e.now, o);
    }
  }

  /** What the timer had waiting. */
  function Waits(n: Node, e: Event): OtaMsg
    requires TimerEvent(e) && React(n, e).Running?
  {
    match e
    case AckTimer(k) => OtaAck(n.ackTimers[k])
    case AdvTimer(k) => OtaAdv(n.advTimers[k].adv)
    case DataTimer(h) => OtaData(n.dataTimers[h].data)
  }

  lemma TimerCauses(n: Node, e: Event)
    requires TimerEvent(e) && React(n, e).Running?
    ensures NodeMsgs(React(n, e).node) <= NodeMsgs(n)
    ensures Waits(n, e) in NodeMsgs(n) && Descends(TimerMsg(n, e), Waits(n, e))
  {
    hide AckProb, AdvHash, DataHash;
    match e
    case AckTimer(k) =>
    case AdvTimer(k) => AdvCopyKeepsKey(n.advTimers[k].adv, Dec32(n.advTimers[k].ttl), n.advTimers[k].adv.distance);
    case DataTimer(h) => CopyKeepsKey(n.dataTimers[h].data, Dec32(n.dataTimers[h].ttl), n.dataTimers[h].data.distance,
                                      0);
  }

  ghost predicate Caused(s: Air, o: OtaMsg) { exists m :: m in Afoot(s) && (o == m || Descends(o, m)) }

  /** What makes a step is afoot. */
  lemma ActAfoot(links: Links, s: Air, a: Act, t: Air)
    requires Goes(links, s, a, t) && Relaying(a)
    ensures Possible(s, a) && Actor(a) in s.nodes
    ensures a.Deliver? ==> MsgOf(s.nodes, a.copy) in Afoot(s)
    ensures a.Occurs? ==>
              TimerEvent(a.event) && React(s.nodes[a.node], a.event).Running?
                && Waits(s.nodes[a.node], a.event) in Afoot(s)
  {
    hide React, NodeMsgs, Descends, TimerMsg, Waits, Aired;
    if a.Occurs? {
      TimerCauses(s.nodes[a.node], a.event);
    }
  }

  /** A message waiting at a node after a step. */
  lemma WaitingCaused(links: Links, s: Air, a: Act, t: Air, y: NodeId, o: OtaMsg)
    requires WellFormed(links, s) && Goes(links, s, a, t) && Relaying(a) && y in t.nodes && o in NodeMsgs(t.nodes[y])
    ensures Caused(s, o)
  {
    hide React, NodeMsgs, Descends, TimerMsg, Waits, Aired;
    ActAfoot(links, s, a, t);
    if o in NodeMsgs(s.nodes[y]) {
      assert o in Afoot(s);
    } else if a.Deliver? {
      ReceiveCauses(s.nodes[y], EventOf(s, a), o);
    } else {
      TimerCauses(s.nodes[y], a.event);
    }
  }

  /** A copy on the way after a step. */
  lemma FlyingCaused(links: Links, s: Air, a: Act, t: Air, c: Copy)
    requires WellFormed(links, s) && Goes(links, s, a, t) && Relaying(a) && c in t.flight && OnAir(links, t.nodes, c)
    ensures Caused(s, MsgOf(t.nodes, c))
  {
    hide React, NodeMsgs, Descends, TimerMsg, Waits, Goes;
    FlightStays(links, s, a, t);
    if c in s.flight {
      assert MsgOf(s.nodes, c) in Afoot(s);
    } else {
      ActAfoot(links, s, a, t);
      TimerCauses(s.nodes[a.node], a.event);
    }
  }

  /** Whatever is afoot after a step was afoot before or stems from something that was. */
  lemma AfootCaused(links: Links, s: Air, a: Act, t: Air, o: OtaMsg)
    requires WellFormed(links, s) && Goes(links, s, a, t) && Relaying(a) && o in Afoot(t)
    ensures Caused(s, o)
  {
    hide Goes, NodeMsgs, Caused;
    FlightStays(links, s, a, t);
    if y :| y in t.nodes && o in NodeMsgs(t.nodes[y]) {
      WaitingCaused(links, s, a, t, y, o);
    } else {
      var c :| c in t.flight && c.from in t.nodes && c.index < |t.nodes[c.from].sent| && MsgOf(t.nodes, c) == o;
      FlyingCaused(links, s, a, t, c);
    }
  }

  // ---- copies on the way, as seen by an observer ---------------------------------------

  predicate Near(links: Links, nodes: set<NodeId>, x: NodeId, y: NodeId) {
    x in nodes && y in nodes && (x, y) in links && x != y
  }

  ghost predicate OnTheWay<V>(t: map<Copy, V>, x: NodeId, y: NodeId, v: V) {
    exists c :: c in t && c.from == x && c.to == y && t[c] == v
  }

  /** Copies of one transmission by `x` have set out, one to each neighbour. */
  ghost predicate Broadcasts<V>(links: Links, nodes: set<NodeId>, x: NodeId, v: V, s: map<Copy, V>, t: map<Copy, V>) {
    && (forall c :: c in s ==> c in t && t[c] == s[c])
    && (forall c :: c in t && c !in s ==> c.from == x && Near(links, nodes, x, c.to) && t[c] == v)
    && (forall y :: Near(links, nodes, x, y) ==> OnTheWay<V>(t, x, y, v))
  }

  /** What `see` makes of a copy's message. */
  function Sight<V>(s: Air, c: Copy, see: OtaMsg -> Option<V>): Option<V> {
    if c.from in s.nodes && c.index < |s.nodes[c.from].sent| then see(MsgOf(s.nodes, c)) else None
  }

  function Seen<V>(s: Air, see: OtaMsg -> Option<V>): map<Copy, V> {
    map c | c in s.flight && Sight(s, c, see).Some? :: Sight(s, c, see).value
  }

  lemma StillSeen<V>(links: Links, s: Air, a: Act, t: Air, see: OtaMsg -> Option<V>, c: Copy)
    requires WellFormed(links, s) && Goes(links, s, a, t) && Relaying(a) && c in s.flight && c in t.flight
    ensures Sight(t, c, see) == Sight(s, c, see)
  {
    hide React, TimerMsg;
    FlightStays(links, s, a, t);
  }

  /** A delivery takes one copy out of sight. */
  lemma DeliverySeen<V>(links: Links, s: Air, a: Act, t: Air, see: OtaMsg -> Option<V>)
    requires WellFormed(links, s) && Goes(links, s, a, t) && a.Deliver?
    ensures Seen(t, see) == if see(MsgOf(s.nodes, a.copy)).Some? then Seen(s, see) - {a.copy} else Seen(s, see)
    ensures var v := see(MsgOf(s.nodes, a.copy)); v.Some? ==> a.copy in Seen(s, see) && Seen(s, see)[a.copy] == v.value
  {
    hide React;
    assert t.flight == s.flight - {a.copy} by { RelayLog(links, s, a, t); }
    assert Sight(s, a.copy, see) == see(MsgOf(s.nodes, a.copy));
    forall c | c in t.flight ensures Sight(t, c, see) == Sight(s, c, see) {
      StillSeen(links, s, a, t, see, c);
    }
    TakenFromSight(s, t, a.copy, see);
  }

  lemma TakenFromSight<V>(s: Air, t: Air, d: Copy, see: OtaMsg -> Option<V>)
    requires d in s.flight && t.flight == s.flight - {d}
             && forall c :: c in t.flight ==> Sight(t, c, see) == Sight(s, c, see)
    ensures Seen(t, see) == if Sight(s, d, see).Some? then Seen(s, see) - {d} else Seen(s, see)
    ensures Sight(s, d, see).Some? ==> d in Seen(s, see) && Seen(s, see)[d] == Sight(s, d, see).value
  {
    hide Sight;
    if Sight(s, d, see).None? {
      assert forall c :: c in Seen(t, see) <==> c in Seen(s, see);
    }
  }

  /** A transmission brings copies of one message into sight, or none. */
  lemma FreshCopiesSeen<V>(links: Links, s: Air, x: NodeId, index: nat, t: Air, see: OtaMsg -> Option<V>, v: Option<V>)
    requires s.nodes.Keys == t.nodes.Keys && x in s.nodes && t.flight == s.flight + Copies(links, s.nodes, x, index)
    requires forall c :: c in s.flight ==> Sight(t, c, see) == Sight(s, c, see) && !(c.from == x && c.index == index)
    requires forall c :: c in t.flight && c !in s.flight ==> Sight(t, c, see) == v
    ensures v.Some? ==> Broadcasts(links, s.nodes.Keys, x, v.value, Seen(s, see), Seen(t, see))
    ensures v.None? ==> Seen(t, see) == Seen(s, see)
  {
    hide Sight;
    if v.Some? {
      forall y | Near(links, s.nodes.Keys, x, y) ensures OnTheWay(Seen(t, see), x, y, v.value) {
        var c := Copy(x, index, y);
        assert c in Copies(links, s.nodes, x, index);
        assert c in Seen(t, see) && Seen(t, see)[c] == v.value;
      }
    } else {
      assert forall c :: c in Seen(t, see) <==> c in Seen(s, see);
    }
  }

  lemma FiringSeen<V>(links: Links, s: Air, a: Act, t: Air, see: OtaMsg -> Option<V>)
    requires WellFormed(links, s) && Goes(links, s, a, t) && Relaying(a) && a.Occurs? && TimerEvent(a.event)
    requires a.node in s.nodes && React(s.nodes[a.node], a.event).Running?
    ensures var v := see(TimerMsg(s.nodes[a.node], a.event));
            && (v.Some? ==> Broadcasts(links, s.nodes.Keys, a.node, v.value, Seen(s, see), Seen(t, see)))
            && (v.None? ==> Seen(t, see) == Seen(s, see))
  {
    hide React, TimerMsg, Goes;
    var x := a.node;
    RelayLog(links, s, a, t);
    FlightStays(links, s, a, t);
    forall c | c in s.flight ensures Sight(t, c, see) == Sight(s, c, see) {
      StillSeen(links, s, a, t, see, c);
    }
    FreshCopiesSeen(links, s, x, |s.nodes[x].sent|, t, see, see(TimerMsg(s.nodes[x], a.event)));
  }
}
