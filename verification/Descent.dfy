/** Unicast runs downhill: every forwarding lowers the relay distance, so its traffic ends even if
    nodes forget what they have seen and their hop counts change under way. */
module Descent {
  import opened Types
  import opened NodeSpec
  import opened Network
  import opened Air
  import opened Sums
  import Silence

  // ---- one message ---------------------------------------------------------------------

  /** Node `n`, on hearing `d`, schedules and later sends `e`. */
  predicate Forwards(n: Node, d: Data, from: NodeId, e: Data) {
    var g := HeardData(d);
    var f := DataForward(n, g, n.dist[DataFlow(g) := DataDistance(n, g, from)]);
    f.Some? && e == f.value.data.(ttl := Dec32(f.value.ttl))
  }

  /** A forwarding keeps the destination and lowers the relay distance, which was not zero. */
  lemma ForwardingDescends(n: Node, d: Data, from: NodeId, e: Data)
    requires Forwards(n, d, from, e) && d.uheader.Some?
    ensures e.uheader.Some? && e.uheader.value.dest == d.uheader.value.dest
    ensures e.uheader.value.relaydistance < d.uheader.value.relaydistance
  {
    hide RelaysTree, IsGroupNode, DataHash, DataDistance;
  }

  ghost predicate Passes(d: Data, e: Data) { exists n, from :: Forwards(n, d, from, e) }

  /** A chain of forwardings, each by some node in some state. */
  ghost predicate Chain(ds: seq<Data>) { |ds| > 0 && forall i :: 0 < i < |ds| ==> Passes(ds[i - 1], ds[i]) }

  /** No chain is longer than the relay distance it starts with, whatever the nodes' tables say. */
  lemma {:induction false} ChainBounded(ds: seq<Data>)
    requires Chain(ds) && ds[0].uheader.Some?
    ensures ds[|ds| - 1].uheader.Some?
    ensures |ds| - 1 + ds[|ds| - 1].uheader.value.relaydistance <= ds[0].uheader.value.relaydistance
    decreases |ds|
  {
    hide Forwards;
    if |ds| > 1 {
      var last := |ds| - 2;
      var cs := ds[..last + 1];
      assert forall i :: 0 < i < |cs| ==> Passes(cs[i - 1], cs[i]);
      ChainBounded(cs);
      assert Passes(ds[last + 1 - 1], ds[last + 1]);
      var n, from :| Forwards(n, ds[last], from, ds[last + 1]);
      ForwardingDescends(n, ds[last], from, ds[last + 1]);
    }
  }

  // ---- all of it -----------------------------------------------------------------------

  /** The unicast steps that a copy, or a timer, with this relay distance may still cause when a
      broadcast makes at most `fan` copies. */
  function CopyWeight(fan: nat, relay: nat): nat
    decreases relay, 0
  {
    if relay == 0 then 1 else TimerWeight(fan, relay - 1) + 1
  }

  function TimerWeight(fan: nat, relay: nat): nat
    decreases relay, 1
  {
    fan * CopyWeight(fan, relay) + 1
  }

  lemma HeavierCopy(fan: nat, r: nat)
    ensures CopyWeight(fan, r) <= CopyWeight(fan, r + 1)
  {
    if fan > 0 {
      Silence.Times(CopyWeight(fan, r), 1, fan);
    }
  }

  lemma {:induction false} HeavierTimer(fan: nat, r: nat, q: nat)
    requires r <= q
    ensures TimerWeight(fan, r) <= TimerWeight(fan, q)
    decreases q
  {
    if r < q {
      HeavierTimer(fan, r, q - 1);
      HeavierCopy(fan, q - 1);
      Silence.Times(fan, CopyWeight(fan, q - 1), CopyWeight(fan, q));
    }
  }

  function PendingWeight(fan: nat, d: Data): nat {
    if d.uheader.Some? then TimerWeight(fan, d.uheader.value.relaydistance) else 0
  }

  function MsgWeight(fan: nat, m: OtaMsg): nat {
    if m.OtaData? && m.data.uheader.Some? then CopyWeight(fan, m.data.uheader.value.relaydistance) else 0
  }

  function WeightAt(fan: nat, t: map<HashKey, PendingData>, h: HashKey): nat {
    if h in t then PendingWeight(fan, t[h].data) else 0
  }

  ghost function TimerLoad(fan: nat, t: map<HashKey, PendingData>): nat {
    Sum(t.Keys, (h: HashKey) => WeightAt(fan, t, h))
  }

  function WeightOf(fan: nat, nodes: Net, c: Copy): nat {
    if c.from in nodes && c.index < |nodes[c.from].sent| then MsgWeight(fan, MsgOf(nodes, c)) else 0
  }

  ghost function FlightLoad(fan: nat, nodes: Net, flight: set<Copy>): nat {
    Sum(flight, (c: Copy) => WeightOf(fan, nodes, c))
  }

  ghost function LoadAt(fan: nat, nodes: Net, x: NodeId): nat {
    if x in nodes then TimerLoad(fan, nodes[x].dataTimers) else 0
  }

  ghost function NodesLoad(fan: nat, nodes: Net): nat { Sum(nodes.Keys, (x: NodeId) => LoadAt(fan, nodes, x)) }

  /** A bound on the unicast steps still to come. */
  ghost function Load(s: Air): nat { FlightLoad(|s.nodes|, s.nodes, s.flight) + NodesLoad(|s.nodes|, s.nodes) }

  lemma AddTimer(fan: nat, t: map<HashKey, PendingData>, h: HashKey, p: PendingData)
    ensures TimerLoad(fan, t[h := p]) <= TimerLoad(fan, t) + PendingWeight(fan, p.data)
  {
    var r := t[h := p];
    var f, g := (k: HashKey) => WeightAt(fan, r, k), (k: HashKey) => WeightAt(fan, t, k);
    SumTake(r.Keys, f, h);
    assert r.Keys - {h} == t.Keys - {h};
    SumSame(r.Keys - {h}, f, g);
    if h in t {
      SumTake(t.Keys, g, h);
    } else {
      assert t.Keys - {h} == t.Keys;
    }
  }

  lemma TakeTimer(fan: nat, t: map<HashKey, PendingData>, h: HashKey)
    requires h in t
    ensures TimerLoad(fan, t - {h}) + PendingWeight(fan, t[h].data) == TimerLoad(fan, t)
  {
    var r := t - {h};
    var f, g := (k: HashKey) => WeightAt(fan, r, k), (k: HashKey) => WeightAt(fan, t, k);
    SumTake(t.Keys, g, h);
    assert r.Keys == t.Keys - {h};
    SumSame(r.Keys, f, g);
  }

  lemma NodeLoadChanges(fan: nat, nodes: Net, next: Net, x: NodeId)
    requires x in nodes && x in next && next == nodes[x := next[x]]
    ensures |next| == |nodes|
    ensures NodesLoad(fan, next) - TimerLoad(fan, next[x].dataTimers) == NodesLoad(fan, nodes) - TimerLoad(fan,
              nodes[x].dataTimers)
  {
    hide TimerLoad;
    assert next.Keys == nodes.Keys;
    SumUpdate(nodes.Keys, (y: NodeId) => LoadAt(fan, nodes, y), (y: NodeId) => LoadAt(fan, next, y), x);
  }

  // ---- steps ---------------------------------------------------------------------------

  /** A unicast copy arrives, or a timer sends one. */
  predicate UnicastStep(s: Air, a: Act) {
    Possible(s, a) &&
    match EventOf(s, a)
    case Receive(_, OtaData(d), _, _) => d.uheader.Some?
    case DataTimer(h) => Actor(a) in s.nodes && h in s.nodes[Actor(a)].dataTimers
      && s.nodes[Actor(a)].dataTimers[h].data.uheader.Some?
    case _ => false
  }

  /** Anything but new announcements and client DATA: deliveries, timers, cleanup, membership. */
  predicate NoNewTraffic(a: Act) { Relaying(a) || IdleEvent(a.event) }

  /** Hearing DATA schedules nothing heavier than what was heard. */
  lemma HearingFalls(fan: nat, n: Node, d: Data, from: NodeId, now: int)
    ensures TimerLoad(fan, OnData(n, d, from, now).dataTimers) + (if d.uheader.Some? then 1 else 0)
            <= TimerLoad(fan, n.dataTimers) + MsgWeight(fan, OtaData(d))
  {
    hide Hashed, HashedAt, DataDistance, DataForward, DataRaises, Handed, DataHash, TimerLoad;
    var g := HeardData(d);
    var f := DataForward(n, g, n.dist[DataFlow(g) := DataDistance(n, g, from)]);
    if f.Some? {
      AddTimer(fan, n.dataTimers, DataHash(g), f.value);
      var e := f.value.data.(ttl := Dec32(f.value.ttl));
      if d.uheader.Some? {
        ForwardingDescends(n, d, from, e);
        HeavierTimer(fan, e.uheader.value.relaydistance, d.uheader.value.relaydistance - 1);
      } else {
        FloodKeepsNoHeader(n, g, n.dist[DataFlow(g) := DataDistance(n, g, from)]);
      }
    }
  }

  lemma FloodKeepsNoHeader(n: Node, d: Data, t: map<FlowKey, Distance>)
    requires d.uheader.None? && DataForward(n, d, t).Some?
    ensures DataForward(n, d, t).value.data.uheader.None?
  {
    hide RelaysTree, IsGroupNode, DataHash, DataRaises;
  }

  lemma WeightsStay(links: Links, s: Air, a: Act, t: Air, fan: nat)
    requires WellFormed(links, s) && Goes(links, s, a, t) && Relaying(a)
    ensures forall c :: c in s.flight ==> WeightOf(fan, t.nodes, c) == WeightOf(fan, s.nodes, c)
    ensures a.Occurs? ==> TimerEvent(a.event) && a.node in s.nodes && React(s.nodes[a.node], a.event).Running?
    ensures forall c :: c in t.flight && c !in s.flight ==>
              a.Occurs? && WeightOf(fan, t.nodes, c) == MsgWeight(fan, TimerMsg(s.nodes[a.node], a.event))
  {
    hide MsgWeight, React, TimerMsg, Goes, Copies;
    FlightStays(links, s, a, t);
    RelayLog(links, s, a, t);
  }

  lemma DeliveryFalls(links: Links, s: Air, a: Act, t: Air)
    requires WellFormed(links, s) && Goes(links, s, a, t) && a.Deliver?
    ensures Load(t) + (if UnicastStep(s, a) then 1 else 0) <= Load(s)
  {
    hide TimerLoad, MsgWeight, NodesLoad, React, WeightOf;
    var x, fan := a.copy.to, |s.nodes|;
    var n, m, o := s.nodes[x], t.nodes[x], MsgOf(s.nodes, a.copy);
    RelayLog(links, s, a, t);
    WeightsStay(links, s, a, t, fan);
    NodeLoadChanges(fan, s.nodes, t.nodes, x);
    var f, g := (c: Copy) => WeightOf(fan, s.nodes, c), (c: Copy) => WeightOf(fan, t.nodes, c);
    SumTake(s.flight, f, a.copy);
    assert WeightOf(fan, s.nodes, a.copy) == MsgWeight(fan, o) by { WeighsMsg(fan, s.nodes, a.copy); }
    SumSame(t.flight, f, g);
    ReceiveFalls(fan, n, EventOf(s, a));
  }

  lemma WeighsMsg(fan: nat, nodes: Net, c: Copy)
    requires c.from in nodes && c.index < |nodes[c.from].sent|
    ensures WeightOf(fan, nodes, c) == MsgWeight(fan, MsgOf(nodes, c))
  {
  }

  lemma ReceiveFalls(fan: nat, n: Node, e: Event)
    requires e.Receive? && React(n, e).Running? && e.from != n.id
    ensures TimerLoad(fan, React(n, e).node.dataTimers) + (if e.msg.OtaData? && e.msg.data.uheader.Some? then 1 else 0)
            <= TimerLoad(fan, n.dataTimers) + MsgWeight(fan, e.msg)
  {
    hide OnData, TimerLoad, CopyWeight, OnAdvertise, OnAck;
    match e.msg
    case OtaAck(a) => AckKeepsData(n, a, e.from, e.draw, e.now);
    case OtaAdv(a) => AdvertiseKeepsData(n, a, e.from, e.now);
    case OtaData(d) => HearingFalls(fan, n, d, e.from, e.now);
  }

  lemma AdvertiseKeepsData(n: Node, a: Advertise, from: NodeId, now: int)
    ensures OnAdvertise(n, a, from, now).dataTimers == n.dataTimers
  {
    hide Hashed, HashedAt, AdvDistance, AdvForward, AdvRaises, JoinsTree, Overrides, LearnPath, AdvHash;
  }

  lemma AckKeepsData(n: Node, a: Ack, from: NodeId, draw: nat, now: int)
    requires OnAck(n, a, from, draw, now).Running?
    ensures OnAck(n, a, from, draw, now).node.dataTimers == n.dataTimers
  {
    hide Adopts, PassesAck, Flips, Chosen, AddPull;
  }

  function Cost(k: nat, each: nat): nat { k * each }

  lemma OneMore(k: nat, each: nat)
    ensures Cost(k + 1, each) == Cost(k, each) + each
  {
  }

  lemma {:induction false} AddedCopies(s: set<Copy>, r: set<Copy>, f: Copy -> nat, each: nat)
    requires forall c :: c in r ==> f(c) <= each
    ensures Sum(s + r, f) <= Sum(s, f) + Cost(|r|, each)
    decreases |r|
  {
    hide Cost, Sum;
    if r == {} {
      assert s + r == s;
    } else {
      var c :| c in r;
      AddedCopies(s, r - {c}, f, each);
      var u := s + (r - {c});
      if c in u {
        assert s + r == u;
      } else {
        assert s + r == u + {c} && u + {c} - {c} == u;
        SumTake(s + r, f, c);
      }
      assert |r| == |r - {c}| + 1;
      OneMore(|r - {c}|, each);
    }
  }

  /** Firing trades one timer for at most `fan` copies, which weigh one less together. */
  lemma FiringFalls(links: Links, s: Air, a: Act, t: Air)
    requires WellFormed(links, s) && Goes(links, s, a, t) && Relaying(a) && a.Occurs?
    ensures Load(t) + (if UnicastStep(s, a) then 1 else 0) <= Load(s)
  {
    hide TimerLoad, NodesLoad, MsgWeight, React, PendingWeight, WellFormed, TimerMsg, Copies, WeightOf;
    var x, fan := a.node, |s.nodes|;
    var n, m := s.nodes[x], t.nodes[x];
    RelayLog(links, s, a, t);
    WeightsStay(links, s, a, t, fan);
    NodeLoadChanges(fan, s.nodes, t.nodes, x);
    var o := TimerMsg(n, a.event);
    var fresh' := Copies(links, s.nodes, x, |n.sent|);
    var f, g := (c: Copy) => WeightOf(fan, s.nodes, c), (c: Copy) => WeightOf(fan, t.nodes, c);
    SumSame(s.flight, f, g);
    assert forall c :: c in fresh' ==> c in t.flight && c !in s.flight by { FreshOnes(links, s, x); }
    AddedCopies(s.flight, fresh', g, MsgWeight(fan, o));
    TimerFalls(fan, n, a.event);
    Silence.FewCopies(links, s.nodes, x, |n.sent|);
    Silence.Times(MsgWeight(fan, o), |fresh'|, fan);
  }

  lemma FreshOnes(links: Links, s: Air, x: NodeId)
    requires WellFormed(links, s) && x in s.nodes
    ensures forall c :: c in Copies(links, s.nodes, x, |s.nodes[x].sent|) ==> c !in s.flight
  {
  }

  lemma TimerFalls(fan: nat, n: Node, e: Event)
    requires TimerEvent(e) && React(n, e).Running?
    ensures TimerLoad(fan, React(n, e).node.dataTimers) + fan * MsgWeight(fan, TimerMsg(n, e))
            + (if e.DataTimer? && e.key in n.dataTimers && n.dataTimers[e.key].data.uheader.Some? then 1
               else 0) <= TimerLoad(fan, n.dataTimers)
  {
    hide React, TimerLoad, CopyWeight;
    TimerReact(n, e);
    if e.DataTimer? {
      TakeTimer(fan, n.dataTimers, e.key);
    }
  }

  lemma IdleFalls(links: Links, s: Air, a: Act, t: Air)
    requires WellFormed(links, s) && Goes(links, s, a, t) && a.Occurs? && IdleEvent(a.event)
    ensures WellFormed(links, t) && Load(t) == Load(s) && !UnicastStep(s, a)
  {
    hide TimerLoad, NodesLoad, React, WeightOf;
    UntouchedReact(s.nodes[a.node], a.event);
    assert t.flight == s.flight;
    assert WellFormed(links, t);
    assert !UnicastStep(s, a);
    forall c | c in s.flight
      ensures WeightOf(|s.nodes|, s.nodes, c) == WeightOf(|s.nodes|, t.nodes, c)
    {
      SameWeight(|s.nodes|, s.nodes, t.nodes, a.node, c);
    }
    NodeLoadChanges(|s.nodes|, s.nodes, t.nodes, a.node);
    SumSame(s.flight, (c: Copy) => WeightOf(|s.nodes|, s.nodes, c), (c: Copy) => WeightOf(|s.nodes|, t.nodes, c));
  }

  lemma SameWeight(fan: nat, nodes: Net, next: Net, x: NodeId, c: Copy)
    requires x in nodes && x in next && next == nodes[x := next[x]] && next[x].sent == nodes[x].sent
    ensures WeightOf(fan, nodes, c) == WeightOf(fan, next, c)
  {
  }

  ghost predicate Quieting(links: Links, ss: seq<Air>, acts: seq<Act>) {
    |ss| == |acts| + 1 && WellFormed(links, ss[0])
      && forall i :: 0 <= i < |acts| ==> Goes(links, ss[i], acts[i], ss[i + 1]) && NoNewTraffic(acts[i])
  }

  /** How many of the steps concern unicast. */
  ghost function UnicastSteps(ss: seq<Air>, acts: seq<Act>): nat
    requires |ss| == |acts| + 1
  {
    if acts == [] then 0
    else UnicastSteps(ss[..|acts|], acts[..|acts| - 1]) + if UnicastStep(ss[|acts| - 1], acts[|acts| - 1]) then 1 else 0
  }

  /** Unicast traffic ends by itself: whatever else goes on, nodes forgetting hashes, hop counts and
      members changing, only so many unicast steps are left, a number fixed by the state they start from. */
  lemma {:induction false} UnicastEnds(links: Links, ss: seq<Air>, acts: seq<Act>)
    requires Quieting(links, ss, acts)
    ensures WellFormed(links, ss[|acts|]) && UnicastSteps(ss, acts) + Load(ss[|acts|]) <= Load(ss[0])
    decreases |acts|
  {
    hide Goes, WellFormed, Load, UnicastStep;
    if acts != [] {
      var last := |acts| - 1;
      var s, a, t := ss[last], acts[last], ss[|acts|];
      assert Goes(links, ss[last], acts[last], ss[last + 1]);
      UnicastEnds(links, ss[..|acts|], acts[..last]);
      if a.Deliver? {
        FlightStays(links, s, a, t);
        DeliveryFalls(links, s, a, t);
      } else if Relaying(a) {
        FlightStays(links, s, a, t);
        FiringFalls(links, s, a, t);
      } else {
        IdleFalls(links, s, a, t);
      }
    }
  }
}
