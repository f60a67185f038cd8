/** The outcome of a flood in the network does not depend on the order of deliveries exactly when
    group nodes renew the TTL, or all paths to each group node are equally long. */
module FloodOrderRound {
  import opened Types
  import opened NodeSpec
  import opened Network
  import LoopFreedom
  import opened Origin
  import opened Air
  import opened Flood
  import opened FloodOrder
  import opened FloodRound
  import Silence

  // ---- every move of the flood can be made ---------------------------------------------

  /** A copy of the message on the way can be delivered. */
  lemma CanArrive(links: Links, s: Air, c: Copy, h: HashKey) returns (a: Act, t: Air)
    requires Watched(links, s, h) && c in FlightOf(s, h)
    ensures Goes(links, s, a, t) && Relaying(a) && Arrives(WorldOf(links, s.nodes, h), FloodOf(s, h), c, FloodOf(t, h))
  {
    hide OnAdvertise, OnData, OnAck, WorldOf, FloodOf, Watched, Arrives, Aired;
    FlyingCopy(links, s, c, h);
    a := Deliver(c, 0, 0);
    var e := EventOf(s, a);
    var m := React(s.nodes[c.to], e).node;
    t := Air(s.nodes[c.to := m], s.flight - {c} + Aired(links, s.nodes, c.to, s.nodes[c.to], m));
    assert Goes(links, s, a, t);
    DeliveryArrives(links, s, a, t, h);
  }

  lemma FlyingCopy(links: Links, s: Air, c: Copy, h: HashKey)
    requires Watched(links, s, h) && c in FlightOf(s, h)
    ensures c in s.flight && OnAir(links, s.nodes, c) && s.nodes[c.to].id == c.to && Carries(MsgOf(s.nodes, c), h)
    ensures MsgOf(s.nodes, c) in s.nodes[c.from].sent
  {
    hide Afoot, Bystander, Keyed, SourceKnows, Floods, MsgTtl;
  }

  /** A node at which the message waits can send it. */
  lemma CanFire(links: Links, s: Air, x: NodeId, h: HashKey) returns (a: Act, t: Air)
    requires Watched(links, s, h) && x in s.nodes && WaitingTtl(s.nodes[x], h).Some?
             && WaitingTtl(s.nodes[x], h) != Some(0)
    ensures Goes(links, s, a, t) && Relaying(a) && Fires(WorldOf(links, s.nodes, h), FloodOf(s, h), x, FloodOf(t, h))
  {
    hide WorldOf, FloodOf, Watched, Fires, Aired, AdvHash, DataHash;
    var n := s.nodes[x];
    var e := if h.AdvHashKey? then AdvTimer(FlowOf(h)) else DataTimer(h);
    a := Occurs(x, e);
    var m := React(n, e).node;
    t := Air(s.nodes[x := m], s.flight + Aired(links, s.nodes, x, n, m));
    assert Goes(links, s, a, t);
    WatchedNode(links, s, h, x);
    WaitingCarries(n, e, h);
    FiringFires(links, s, a, t, h);
  }

  lemma WaitingCarries(n: Node, e: Event, h: HashKey)
    requires Keyed(n) && WaitingTtl(n, h).Some? && e == if h.AdvHashKey? then AdvTimer(FlowOf(h)) else DataTimer(h)
    ensures React(n, e).Running? && Carries(TimerMsg(n, e), h)
  {
    hide AdvHash, DataHash;
    if h.AdvHashKey? {
      var p := n.advTimers[FlowOf(h)];
      AdvCopyKeepsKey(p.adv, Dec32(p.ttl), p.adv.distance);
    } else {
      var p := n.dataTimers[h];
      CopyKeepsKey(p.data, Dec32(p.ttl), p.data.distance, 0);
    }
  }

  // ---- what any round keeps ------------------------------------------------------------

  lemma {:induction false} RoundTraced(links: Links, ss: seq<Air>, acts: seq<Act>, h: HashKey, w: World)
    requires Round(links, ss, acts) && Watched(links, ss[0], h) && w == WorldOf(links, ss[0].nodes, h)
    requires FloodInv(w, FloodOf(ss[0], h)) && Renewless(w) && Traced(w, FloodOf(ss[0], h))
    ensures var s := ss[|acts|];
            Watched(links, s, h) && w == WorldOf(links, s.nodes, h) && FloodInv(w, FloodOf(s, h))
              && Traced(w, FloodOf(s, h))
    decreases |acts|
  {
    hide Goes, Watched, WorldOf, FloodOf, Traced, Renewless, Sound, Complete, Modest, Sensible, Moves;
    if acts != [] {
      RoundPrefix(links, ss, acts);
      var last := |acts| - 1;
      RoundTraced(links, ss[..|acts|], acts[..last], h, w);
      StepMoves(links, ss[last], acts[last], ss[|acts|], h, w);
      MovesTraced(w, FloodOf(ss[last], h), FloodOf(ss[|acts|], h));
      MovesInv(w, FloodOf(ss[last], h), FloodOf(ss[|acts|], h));
    }
  }

  /** A node bound to its first copy keeps the TTL it stored. */
  lemma {:induction false} RoundFirstStays(links: Links, ss: seq<Air>, acts: seq<Act>, h: HashKey, w: World, y: NodeId)
    requires Round(links, ss, acts) && Watched(links, ss[0], h) && w == WorldOf(links, ss[0].nodes, h)
             && FloodInv(w, FloodOf(ss[0], h))
    requires y in FloodOf(ss[0], h).got && RoleOf(w, y).PassesFirst?
    ensures var f := FloodOf(ss[|acts|], h); y in f.got && f.got[y] == FloodOf(ss[0], h).got[y]
    decreases |acts|
  {
    hide Goes, Watched, WorldOf, FloodOf, Moves, Sound, Complete, Modest, Sensible, RoleOf;
    if acts != [] {
      RoundPrefix(links, ss, acts);
      var last := |acts| - 1;
      RoundFirstStays(links, ss[..|acts|], acts[..last], h, w, y);
      RoundFloods(links, ss[..|acts|], acts[..last], h, w);
      StepMoves(links, ss[last], acts[last], ss[|acts|], h, w);
      FirstStays(w, FloodOf(ss[last], h), FloodOf(ss[|acts|], h), y);
    }
  }

  // ---- a round driven along a path -----------------------------------------------------

  /** A round that has brought the message along `p`, and nowhere else. */
  ghost predicate Drives(links: Links, s: Air, h: HashKey, w: World, p: seq<NodeId>, sent: bool, ss: seq<Air>,
                         acts: seq<Act>) {
    && Round(links, ss, acts) && ss[0] == s && Watched(links, ss[|acts|], h) && w == WorldOf(links, ss[|acts|].nodes, h)
    && Front(w, FloodOf(ss[|acts|], h), p, sent)
  }

  lemma {:induction false} DriveTo(links: Links, s: Air, h: HashKey, w: World, p: seq<NodeId>,
                                   y: NodeId) returns (ss: seq<Air>, acts: seq<Act>)
    requires FloodStarts(links, s, h) && w == WorldOf(links, s.nodes, h) && Renewless(w) && Path(w, p, y)
             && 1 < |p| <= w.full + 1
    ensures Drives(links, s, h, w, p, false, ss, acts)
    decreases |p|, 0
  {
    hide Goes, Watched, WorldOf, FloodOf, Arrives, FloodStarts, Front;
    var k := |p| - 1;
    var q, x := p[..k], p[k - 1];
    assert p == q + [y] && Path(w, q, x) && Linked(w, x, y) && y !in q;
    ss, acts := DriveOn(links, s, h, w, q, x);
    var r := ss[|acts|];
    var c := NextCopy(w, FloodOf(r, h), q, x, y);
    assert c in FlightOf(r, h) by { SeeFlight(r, h); }
    var a, t := CanArrive(links, r, c, h);
    FrontArrives(w, FloodOf(r, h), q, x, y, c, FloodOf(t, h));
    StepWatched(links, r, a, t, h);
    RoundSnoc(links, ss, acts, a, t);
    RoundShape(links, ss, acts);
    ss, acts := ss + [t], acts + [a];
  }

  lemma SeeFlight(s: Air, h: HashKey)
    ensures FloodOf(s, h).flight == FlightOf(s, h) && FloodOf(s, h).waiting == WaitingOf(s.nodes, h)
  {
  }

  lemma NextCopy(w: World, f: Flood, q: seq<NodeId>, x: NodeId, y: NodeId) returns (c: Copy)
    requires Front(w, f, q, true) && Path(w, q, x) && Linked(w, x, y)
    ensures c in f.flight && c.to == y && f.flight[c] == w.full - |q|
  {
    assert OnTheWay<u32>(f.flight, x, y, w.full - |q|);
    c :| c in f.flight && c.from == x && c.to == y && f.flight[c] == w.full - |q|;
  }

  lemma {:induction false} DriveOn(links: Links, s: Air, h: HashKey, w: World, p: seq<NodeId>,
                                   y: NodeId) returns (ss: seq<Air>, acts: seq<Act>)
    requires FloodStarts(links, s, h) && w == WorldOf(links, s.nodes, h) && Renewless(w) && Path(w, p, y)
             && |p| <= w.full
    ensures Drives(links, s, h, w, p, true, ss, acts)
    decreases |p|, 1
  {
    hide Goes, Watched, WorldOf, FloodOf, Fires, Front, Launched;
    if |p| == 1 {
      ss, acts := [s], [];
      assert p == [w.src];
      FrontLaunched(w, FloodOf(s, h));
    } else {
      ss, acts := DriveTo(links, s, h, w, p, y);
      var r := ss[|acts|];
      WaitsAt(r, h, w, p, y);
      var a, t := CanFire(links, r, y, h);
      FrontFires(w, FloodOf(r, h), p, y, FloodOf(t, h));
      StepWatched(links, r, a, t, h);
      RoundSnoc(links, ss, acts, a, t);
      RoundShape(links, ss, acts);
      ss, acts := ss + [t], acts + [a];
    }
  }

  lemma WaitsAt(s: Air, h: HashKey, w: World, p: seq<NodeId>, y: NodeId)
    requires Front(w, FloodOf(s, h), p, false) && |p| <= w.full && y == p[|p| - 1]
    ensures y in s.nodes && WaitingTtl(s.nodes[y], h).Some? && WaitingTtl(s.nodes[y], h) != Some(0)
  {
    hide WaitingTtl;
    assert y in FloodOf(s, h).waiting;
  }

  /** For each path that the TTL lasts for some complete round brings its end the message along it first. */
  lemma PathRealised(links: Links, s: Air, h: HashKey, w: World, p: seq<NodeId>, y: NodeId) returns (ss: seq<Air>,
      acts: seq<Act>)
    requires FloodStarts(links, s, h) && LoopFreedom.Inv(s.nodes) && w == WorldOf(links, s.nodes, h) && Renewless(w)
    requires Path(w, p, y) && 1 < |p| <= w.full + 1 && RoleOf(w, y).PassesFirst?
    ensures Round(links, ss, acts) && ss[0] == s && Quiescent(ss[|acts|])
    ensures y in ss[|acts|].nodes && h in ss[|acts|].nodes[y].hash && ss[|acts|].nodes[y].hash[h] + |p| - 1 == w.full
  {
    hide Goes, Watched, WorldOf, FloodOf, Launched, LoopFreedom.Inv, Quiescent, FloodInv;
    var us, bs := DriveTo(links, s, h, w, p, y);
    var r := us[|bs|];
    assert y in FloodOf(r, h).got && FloodOf(r, h).got[y] + |p| - 1 == w.full;
    StartInv(links, s, h);
    RoundFloods(links, us, bs, h, w);
    Silence.RoundKeepsInv(links, us, bs);
    assert WellFormed(links, r) by { IsWellFormed(links, r, h); }
    var vs, cs := Silence.SilenceReached(links, r);
    RoundFirstStays(links, vs, cs, h, w, y);
    SeeGot(vs[|cs|], h, y);
    RoundJoin(links, us, bs, vs, cs);
    ss, acts := us + vs[1..], bs + cs;
  }

  lemma IsWellFormed(links: Links, s: Air, h: HashKey)
    requires Watched(links, s, h)
    ensures WellFormed(links, s)
  {
  }

  lemma SeeGot(s: Air, h: HashKey, y: NodeId)
    ensures y in FloodOf(s, h).got <==> y in s.nodes && h in s.nodes[y].hash
    ensures y in FloodOf(s, h).got ==> FloodOf(s, h).got[y] == s.nodes[y].hash[h]
  {
  }

  // ---- the condition -------------------------------------------------------------------

  /** Who has the message, and the TTL stored wherever it is passed on. */
  ghost predicate SameOutcome(w: World, m: Net, n: Net, h: HashKey) {
    forall x :: x in m && x in n ==>
      && (h in m[x].hash <==> h in n[x].hash)
      && (h in m[x].hash && (RoleOf(w, x).PassesOn? || RoleOf(w, x).PassesFirst?) ==> m[x].hash[h] == n[x].hash[h])
  }

  /** Every two complete rounds from `s` have the same outcome. */
  ghost predicate OrderFree(links: Links, s: Air, h: HashKey) {
    forall ss: seq<Air>, acts: seq<Act>, rs: seq<Air>, bs: seq<Act> ::
      Completes(links, s, ss, acts) && Completes(links, s, rs, bs) ==>
      SameOutcome(WorldOf(links, s.nodes, h), ss[|acts|].nodes, rs[|bs|].nodes, h)
  }

  lemma RenewlessWorld(links: Links, s: Air, h: HashKey)
    requires FloodStarts(links, s, h) && !Renews(h)
    ensures Renewless(WorldOf(links, s.nodes, h))
  {
    hide Afoot, Bystander, Keyed, Broadcasts, RelaysTree, IsGroupNode, FloodOf;
    var w := WorldOf(links, s.nodes, h);
    forall x | x in w.role && x != w.src ensures w.role[x].PassesFirst? || w.role[x].PassesOn? {
      assert s.nodes[x].id == x;
    }
  }

  /** With renewal the outcome is that of walks. */
  lemma RenewedOutcome(links: Links, s: Air, h: HashKey, ss: seq<Air>, acts: seq<Act>, rs: seq<Air>, bs: seq<Act>)
    requires FloodStarts(links, s, h) && Orderless(WorldOf(links, s.nodes, h)) && Completes(links, s, ss, acts)
             && Completes(links, s, rs, bs)
    ensures SameOutcome(WorldOf(links, s.nodes, h), ss[|acts|].nodes, rs[|bs|].nodes, h)
  {
    hide Goes, FloodStarts, Reachable, Audible, Quiescent, WorldOf;
    var w, m, n := WorldOf(links, s.nodes, h), ss[|acts|].nodes, rs[|bs|].nodes;
    forall x | x in m && x in n
      ensures (h in m[x].hash <==> h in n[x].hash)
      ensures h in m[x].hash && (RoleOf(w, x).PassesOn? || RoleOf(w, x).PassesFirst?) ==> m[x].hash[h] == n[x].hash[h]
    {
      FloodOutcome(links, ss, acts, h, x);
      FloodOutcome(links, rs, bs, h, x);
      assert !RoleOf(w, x).PassesFirst?;
    }
  }

  lemma EndTraced(links: Links, s: Air, h: HashKey, w: World, ss: seq<Air>, acts: seq<Act>)
    requires FloodStarts(links, s, h) && Completes(links, s, ss, acts) && w == WorldOf(links, s.nodes, h)
             && Renewless(w)
    ensures var f := FloodOf(ss[|acts|], h); FloodInv(w, f) && Traced(w, f) && Over(f) && RoleOf(w, w.src).Regenerates?
    ensures w == WorldOf(links, ss[|acts|].nodes, h)
  {
    hide Goes, WorldOf, FloodOf, FloodInv, Traced, Renewless, Quiescent, Launched, Watched, Over;
    StartInv(links, s, h);
    LaunchedTraced(w, FloodOf(s, h));
    RoundTraced(links, ss, acts, h, w);
    QuietOver(ss[|acts|], h);
    SourceRenews(w, FloodOf(s, h));
  }

  /** Without, but with paths of one length, the outcome is that of paths. */
  lemma PathOutcome(links: Links, s: Air, h: HashKey, ss: seq<Air>, acts: seq<Act>, rs: seq<Air>, bs: seq<Act>)
    requires FloodStarts(links, s, h) && Completes(links, s, ss, acts) && Completes(links, s, rs, bs)
    requires Renewless(WorldOf(links, s.nodes, h)) && OneLength(WorldOf(links, s.nodes, h))
    ensures SameOutcome(WorldOf(links, s.nodes, h), ss[|acts|].nodes, rs[|bs|].nodes, h)
  {
    hide Goes, WorldOf, FloodOf, FloodInv, Traced, Renewless, OneLength, Quiescent, FloodStarts, Over;
    var w, m, n := WorldOf(links, s.nodes, h), ss[|acts|], rs[|bs|];
    EndTraced(links, s, h, w, ss, acts);
    EndTraced(links, s, h, w, rs, bs);
    SameFlood(w, m, n, h);
  }

  lemma SameFlood(w: World, m: Air, n: Air, h: HashKey)
    requires Renewless(w) && OneLength(w) && RoleOf(w, w.src).Regenerates?
    requires var f := FloodOf(m, h); FloodInv(w, f) && Traced(w, f) && Over(f)
    requires var g := FloodOf(n, h); FloodInv(w, g) && Traced(w, g) && Over(g)
    ensures SameOutcome(w, m.nodes, n.nodes, h)
  {
    hide FloodOf, FloodInv, Traced, Renewless, OneLength, Over;
    forall x | x in m.nodes && x in n.nodes
      ensures (h in m.nodes[x].hash <==> h in n.nodes[x].hash)
      ensures h in m.nodes[x].hash && x != w.src ==> m.nodes[x].hash[h] == n.nodes[x].hash[h]
    {
      Determined(w, FloodOf(m, h), FloodOf(n, h), x);
      SeeGot(m, h, x);
      SeeGot(n, h, x);
    }
  }

  lemma SourceRenews(w: World, s: Flood)
    requires FloodInv(w, s)
    ensures RoleOf(w, w.src).Regenerates?
  {
    hide Sound, Complete, Modest;
  }

  lemma QuietOver(s: Air, h: HashKey)
    requires Quiescent(s)
    ensures Over(FloodOf(s, h))
  {
    assert FlightOf(s, h) == map[] && WaitingOf(s.nodes, h) == map[];
  }

  /** Two paths of different lengths to a node bound to its first copy lead to two outcomes. */
  lemma TwoOutcomes(links: Links, s: Air, h: HashKey, p: seq<NodeId>, q: seq<NodeId>, y: NodeId)
    requires FloodStarts(links, s, h) && LoopFreedom.Inv(s.nodes) && Renewless(WorldOf(links, s.nodes, h))
    requires var w := WorldOf(links, s.nodes, h);
             Path(w, p, y) && Path(w, q, y) && RoleOf(w, y).PassesFirst? && |p| <= w.full + 1 && |q| <= w.full + 1
               && |p| != |q|
    ensures !OrderFree(links, s, h)
  {
    var w := WorldOf(links, s.nodes, h);
    hide Goes, WorldOf, FloodStarts, LoopFreedom.Inv, Quiescent;
    assert y != w.src;
    var ss, acts := PathRealised(links, s, h, w, p, y);
    var rs, bs := PathRealised(links, s, h, w, q, y);
    assert Completes(links, s, ss, acts) && Completes(links, s, rs, bs);
    assert !SameOutcome(w, ss[|acts|].nodes, rs[|bs|].nodes, h);
  }

  /** The outcome of a flood, who has the message and the TTLs stored where it is passed on, is the
      same for every order of deliveries and timers if and only if group nodes renew the TTL or, to
      each group node, all paths that the TTL lasts for are equally long. */
  lemma OrderFreeIff(links: Links, s: Air, h: HashKey)
    requires FloodStarts(links, s, h) && LoopFreedom.Inv(s.nodes)
    ensures OrderFree(links, s, h) <==> Renews(h) || OneLength(WorldOf(links, s.nodes, h))
  {
    hide Goes, FloodStarts, LoopFreedom.Inv, Quiescent, WorldOf, Path, Renewless, SameOutcome, Renews;
    var w := WorldOf(links, s.nodes, h);
    if Renews(h) || OneLength(w) {
      forall ss: seq<Air>, acts: seq<Act>, rs: seq<Air>, bs: seq<Act> |
        Completes(links, s, ss, acts) && Completes(links, s, rs, bs)
        ensures SameOutcome(w, ss[|acts|].nodes, rs[|bs|].nodes, h)
      {
        if Renews(h) {
          RenewsOrderless(links, s.nodes, h);
          RenewedOutcome(links, s, h, ss, acts, rs, bs);
        } else {
          RenewlessWorld(links, s, h);
          PathOutcome(links, s, h, ss, acts, rs, bs);
        }
      }
    } else {
      RenewlessWorld(links, s, h);
      var p: seq<NodeId>, q: seq<NodeId>, y: NodeId :|
        Path(w, p, y) && Path(w, q, y) && RoleOf(w, y).PassesFirst? && |p| <= w.full + 1 && |q| <= w.full + 1
          && |p| != |q|;
      TwoOutcomes(links, s, h, p, q, y);
    }
  }
}
