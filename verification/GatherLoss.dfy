/** In the network: unicast arrives in every complete round exactly when no set of relays blocks it. */
module GatherLoss {
  import opened Types
  import opened NodeSpec
  import opened Network
  import opened Origin
  import opened Air
  import opened Gather
  import opened GatherBlock
  import opened GatherRound
  import FloodRound
  import LoopFreedom
  import Silence

  // ---- every move of the message can be made -------------------------------------------

  lemma CanArrive(links: Links, s: Air, c: Copy, u: HashKey) returns (a: Act, t: Air)
    requires Watched(links, s, u) && c in GatherOf(s, u).flight
    ensures Goes(links, s, a, t) && Relaying(a) && Arrives(WorldOf(links, s.nodes, u), GatherOf(s, u), c,
                                                           GatherOf(t, u))
    ensures WorldOf(links, t.nodes, u) == WorldOf(links, s.nodes, u) && Watched(links, t, u)
  {
    hide OnData, WorldOf, GatherOf, Watched, Arrives, Aired, Unicast, FloodRound.Keyed;
    FlyingCopy(links, s, c, u);
    a := Deliver(c, 0, 0);
    var m := React(s.nodes[c.to], EventOf(s, a)).node;
    t := Air(s.nodes[c.to := m], s.flight - {c} + Aired(links, s.nodes, c.to, s.nodes[c.to], m));
    assert Goes(links, s, a, t);
    CopyArrives(links, s, a, t, u);
    StepWatched(links, s, a, t, u);
  }

  lemma FlyingCopy(links: Links, s: Air, c: Copy, u: HashKey)
    requires Watched(links, s, u) && c in GatherOf(s, u).flight
    ensures c in s.flight && OnAir(links, s.nodes, c) && s.nodes[c.to].id == c.to && Carries(MsgOf(s.nodes, c), u)
    ensures MsgOf(s.nodes, c) in s.nodes[c.from].sent
  {
    hide Afoot, Bystander, FloodRound.Keyed, DataHash;
  }

  lemma CanFire(links: Links, s: Air, x: NodeId, u: HashKey) returns (a: Act, t: Air)
    requires Watched(links, s, u) && x in GatherOf(s, u).waiting
    ensures Goes(links, s, a, t) && Relaying(a) && Fires(WorldOf(links, s.nodes, u), GatherOf(s, u), x, GatherOf(t, u))
    ensures WorldOf(links, t.nodes, u) == WorldOf(links, s.nodes, u) && Watched(links, t, u)
  {
    hide WorldOf, Watched, Fires, Aired, DataHash, Unicast, FloodRound.Keyed;
    var n, e := s.nodes[x], DataTimer(u);
    a := Occurs(x, e);
    var m := React(n, e).node;
    t := Air(s.nodes[x := m], s.flight + Aired(links, s.nodes, x, n, m));
    assert Goes(links, s, a, t);
    WatchedNode(links, s, u, x);
    WaitingCarries(n, u);
    RelayFires(links, s, a, t, u);
    StepWatched(links, s, a, t, u);
  }

  lemma WaitingCarries(n: Node, u: HashKey)
    requires FloodRound.Keyed(n) && u in n.dataTimers
    ensures React(n, DataTimer(u)).Running? && Carries(TimerMsg(n, DataTimer(u)), u)
  {
    hide DataHash;
    var p := n.dataTimers[u];
    CopyKeepsKey(p.data, Dec32(p.ttl), p.data.distance, 0);
  }

  // ---- a round that loses the message --------------------------------------------------

  /** The members of the set pass the message on, the farthest first, and hear nothing else. */
  lemma {:induction false} Stage(links: Links, s: Air, u: HashKey, w: World, first: Offer, had: set<NodeId>,
                                 fs: map<NodeId, u32>)
    returns (ss: seq<Air>, acts: seq<Act>)
    requires Unicast(u) && Watched(links, s, u) && w == WorldOf(links, s.nodes, u) && Blocks(w, first, had, fs)
             && Staged(w, first, had, fs, GatherOf(s, u))
    ensures Round(links, ss, acts) && ss[0] == s && Watched(links, ss[|acts|], u)
            && w == WorldOf(links, ss[|acts|].nodes, u)
    ensures Staged(w, first, had, fs, GatherOf(ss[|acts|], u)) && GatherOf(ss[|acts|], u).forwarded == fs
    decreases |fs.Keys - GatherOf(s, u).forwarded.Keys|
  {
    hide Goes, Watched, WorldOf, GatherOf, Staged, Blocks, Arrives, Fires, PassesOn, Taken;
    if GatherOf(s, u).forwarded == fs {
      ss, acts := [s], [];
    } else {
      var a, t, b, v := StageOne(links, s, u, w, first, had, fs);
      var rs, bs := Stage(links, v, u, w, first, had, fs);
      TwoSteps(links, s, a, t, b, v);
      RoundJoin(links, [s, t, v], [a, b], rs, bs);
      ss, acts := [s, t, v] + rs[1..], [a, b] + bs;
    }
  }

  /** The next member hears a copy and passes it on. */
  lemma StageOne(links: Links, s: Air, u: HashKey, w: World, first: Offer, had: set<NodeId>, fs: map<NodeId, u32>)
    returns (a: Act, t: Air, b: Act, v: Air)
    requires Unicast(u) && Watched(links, s, u) && w == WorldOf(links, s.nodes, u) && Blocks(w, first, had, fs)
             && Staged(w, first, had, fs, GatherOf(s, u)) && GatherOf(s, u).forwarded != fs
    ensures Goes(links, s, a, t) && Relaying(a) && Goes(links, t, b, v) && Relaying(b)
    ensures Watched(links, v, u) && w == WorldOf(links, v.nodes, u) && Staged(w, first, had, fs, GatherOf(v, u))
    ensures |fs.Keys - GatherOf(v, u).forwarded.Keys| < |fs.Keys - GatherOf(s, u).forwarded.Keys|
  {
    hide Goes, Watched, WorldOf, GatherOf, Staged, Blocks, Arrives, Fires, PassesOn, Taken, Relaying;
    var y, c := NextMember(w, first, had, fs, GatherOf(s, u));
    a, t := CanArrive(links, s, c, u);
    assert y in GatherOf(t, u).waiting by { NowWaits(w, GatherOf(s, u), c, GatherOf(t, u)); }
    b, v := CanFire(links, t, y, u);
    StageMember(w, first, had, fs, GatherOf(s, u), y, c, GatherOf(t, u), GatherOf(v, u));
    OneLess(w, first, had, fs, GatherOf(s, u), y);
  }

  lemma NowWaits(w: World, s: Gather, c: Copy, t: Gather)
    requires c in s.flight && Arrives(w, s, c, t) && c.to !in s.has && PassesOn(w, c.to, s.flight[c])
    ensures c.to in t.waiting
  {
  }

  lemma OneLess(w: World, first: Offer, had: set<NodeId>, fs: map<NodeId, u32>, s: Gather, y: NodeId)
    requires Staged(w, first, had, fs, s) && y in fs && y !in s.has
    ensures |fs.Keys - (s.forwarded.Keys + {y})| < |fs.Keys - s.forwarded.Keys|
  {
    hide Accounts;
    assert fs.Keys - s.forwarded.Keys == (fs.Keys - (s.forwarded.Keys + {y})) + {y};
  }

  lemma TwoSteps(links: Links, s: Air, a: Act, t: Air, b: Act, v: Air)
    requires Goes(links, s, a, t) && Relaying(a) && Goes(links, t, b, v) && Relaying(b)
    ensures Round(links, [s, t, v], [a, b])
  {
    hide Goes, Relaying;
  }

  /** The copies still on the way are delivered without any effect. */
  lemma {:induction false} Drain(links: Links, s: Air, u: HashKey, w: World, first: Offer, had: set<NodeId>,
                                 fs: map<NodeId, u32>)
    returns (ss: seq<Air>, acts: seq<Act>)
    requires Unicast(u) && Watched(links, s, u) && w == WorldOf(links, s.nodes, u) && Blocks(w, first, had, fs)
             && Draining(w, first, had, fs, GatherOf(s, u))
    ensures Round(links, ss, acts) && ss[0] == s && Watched(links, ss[|acts|], u)
            && w == WorldOf(links, ss[|acts|].nodes, u)
    ensures Over(GatherOf(ss[|acts|], u)) && w.dest !in GatherOf(ss[|acts|], u).has
    decreases |GatherOf(s, u).flight.Keys|
  {
    hide Goes, Watched, WorldOf, GatherOf, Blocks, Arrives, Accounts;
    if GatherOf(s, u).flight.Keys == {} {
      ss, acts := [s], [];
    } else {
      var c := Harmless(w, first, had, fs, GatherOf(s, u));
      var a, t := CanArrive(links, s, c, u);
      DrainArrives(w, first, had, fs, GatherOf(s, u), c, GatherOf(t, u));
      var rs, bs := Drain(links, t, u, w, first, had, fs);
      OneStep(links, s, a, t);
      RoundJoin(links, [s, t], [a], rs, bs);
      ss, acts := [s, t] + rs[1..], [a] + bs;
    }
  }

  lemma OneStep(links: Links, s: Air, a: Act, t: Air)
    requires Goes(links, s, a, t) && Relaying(a)
    ensures Round(links, [s, t], [a])
  {
    hide Goes, Relaying;
  }

  /** A message that has died out stays as it is. */
  lemma {:induction false} StaysOver(links: Links, ss: seq<Air>, acts: seq<Act>, u: HashKey)
    requires Unicast(u) && Round(links, ss, acts) && Watched(links, ss[0], u) && Over(GatherOf(ss[0], u))
    ensures Watched(links, ss[|acts|], u) && GatherOf(ss[|acts|], u) == GatherOf(ss[0], u)
    decreases |acts|
  {
    hide Goes, Watched, WorldOf, GatherOf, Moves, Kept;
    if acts != [] {
      RoundPrefix(links, ss, acts);
      var last := |acts| - 1;
      StaysOver(links, ss[..|acts|], acts[..last], u);
      StepMoves(links, ss[last], acts[last], ss[|acts|], u);
      StepWatched(links, ss[last], acts[last], ss[|acts|], u);
      NoMove(WorldOf(links, ss[last].nodes, u), GatherOf(ss[last], u), GatherOf(ss[|acts|], u));
    }
  }

  lemma NoMove(w: World, s: Gather, t: Gather)
    requires Over(s) && Moves(w, s, t)
    ensures t == s
  {
  }

  /** With a blocking set some complete round leaves the destination without the message. */
  lemma BlockedRound(links: Links, s: Air, u: HashKey, first: Offer, fs: map<NodeId, u32>) returns (ss: seq<Air>,
      acts: seq<Act>)
    requires Unicast(u) && GatherStarts(links, s, u, first) && LoopFreedom.Inv(s.nodes)
    requires Blocks(WorldOf(links, s.nodes, u), first, GatherOf(s, u).has, fs) && Dest(u) in s.nodes
    ensures Completes(links, s, ss, acts) && Dest(u) in ss[|acts|].nodes && u !in ss[|acts|].nodes[Dest(u)].hash
  {
    hide Goes, Watched, WorldOf, GatherOf, Accounts, Blocks, LoopFreedom.Inv, Quiescent, Moves, Departed;
    var w, had := WorldOf(links, s.nodes, u), GatherOf(s, u).has;
    DepartedAccounts(w, GatherOf(s, u), first);
    DepartedStaged(w, first, fs, GatherOf(s, u));
    var rs, bs := Stage(links, s, u, w, first, had, fs);
    NowDrains(links, s, u, w, first, fs, GatherOf(rs[|bs|], u));
    var vs, cs := Drain(links, rs[|bs|], u, w, first, had, fs);
    RoundJoin(links, rs, bs, vs, cs);
    var ws, ds := rs + vs[1..], bs + cs;
    var r := vs[|cs|];
    Silence.RoundKeepsInv(links, ws, ds);
    assert WellFormed(links, r) by { IsWellFormed(links, r, u); }
    var es, fa := Silence.SilenceReached(links, r);
    StaysOver(links, es, fa, u);
    RoundJoin(links, ws, ds, es, fa);
    ss, acts := ws + es[1..], ds + fa;
    SeeDest(links, r, u, w);
    SeeHas(es[|fa|], u, Dest(u));
    KeepsNodes(links, ss, acts);
  }

  lemma DepartedStaged(w: World, first: Offer, fs: map<NodeId, u32>, s: Gather)
    requires Departed(w, s, first) && Accounts(w, first, s.has, s)
    ensures Staged(w, first, s.has, fs, s)
  {
    hide Accounts;
  }

  lemma NowDrains(links: Links, s0: Air, u: HashKey, w: World, first: Offer, fs: map<NodeId, u32>, s: Gather)
    requires Unicast(u) && w == WorldOf(links, s0.nodes, u) && Departed(w, GatherOf(s0, u), first)
             && Blocks(w, first, GatherOf(s0, u).has, fs)
    requires Staged(w, first, GatherOf(s0, u).has, fs, s) && s.forwarded == fs
    ensures Draining(w, first, GatherOf(s0, u).has, fs, s)
  {
    hide Accounts, GatherOf, WorldOf, Offers, HearsEnough, HearsInVain, Broadcasts;
    SeeDest(links, s0, u, w);
    assert w.dest != w.origin;
  }

  lemma IsWellFormed(links: Links, s: Air, u: HashKey)
    requires Watched(links, s, u)
    ensures WellFormed(links, s) && Unicast(u)
  {
  }

  lemma SeeDest(links: Links, s: Air, u: HashKey, w: World)
    requires Unicast(u) && w == WorldOf(links, s.nodes, u)
    ensures w.dest == Dest(u) && w.origin == Src(u)
  {
  }

  lemma {:induction false} KeepsNodes(links: Links, ss: seq<Air>, acts: seq<Act>)
    requires Round(links, ss, acts)
    ensures ss[|acts|].nodes.Keys == ss[0].nodes.Keys
    decreases |acts|
  {
    hide React, Aired;
    if acts != [] {
      RoundPrefix(links, ss, acts);
      KeepsNodes(links, ss[..|acts|], acts[..|acts| - 1]);
    }
  }

  // ---- the condition -------------------------------------------------------------------

  lemma {:induction false} RoundAccounts(links: Links, ss: seq<Air>, acts: seq<Act>, u: HashKey, w: World, first: Offer,
                                         had: set<NodeId>)
    requires Unicast(u) && Round(links, ss, acts) && Watched(links, ss[0], u) && w == WorldOf(links, ss[0].nodes, u)
             && Accounts(w, first, had, GatherOf(ss[0], u))
    ensures var s := ss[|acts|];
            Watched(links, s, u) && w == WorldOf(links, s.nodes, u) && Accounts(w, first, had, GatherOf(s, u))
    decreases |acts|
  {
    hide Goes, Watched, WorldOf, GatherOf, Moves, Accounts, Kept;
    if acts != [] {
      RoundPrefix(links, ss, acts);
      var last := |acts| - 1;
      RoundAccounts(links, ss[..|acts|], acts[..last], u, w, first, had);
      StepMoves(links, ss[last], acts[last], ss[|acts|], u);
      StepWatched(links, ss[last], acts[last], ss[|acts|], u);
      MovesAccounts(w, first, had, GatherOf(ss[last], u), GatherOf(ss[|acts|], u));
    }
  }

  lemma LostIsBlocked(links: Links, s: Air, u: HashKey, first: Offer, ss: seq<Air>, acts: seq<Act>)
    requires Unicast(u) && GatherStarts(links, s, u, first) && Completes(links, s, ss, acts)
    requires Dest(u) in ss[|acts|].nodes && u !in ss[|acts|].nodes[Dest(u)].hash
    ensures exists fs: map<NodeId, u32> :: Blocks(WorldOf(links, s.nodes, u), first, GatherOf(s, u).has, fs)
  {
    hide Goes, Watched, WorldOf, GatherOf, Accounts, Blocks, Quiescent, Departed, Over;
    var w, had, r := WorldOf(links, s.nodes, u), GatherOf(s, u).has, ss[|acts|];
    DepartedAccounts(w, GatherOf(s, u), first);
    RoundAccounts(links, ss, acts, u, w, first, had);
    QuietOver(r, u);
    IsWellFormed(links, r, u);
    SeeHas(r, u, Dest(u));
    WorldAt(links, r.nodes, u, Dest(u));
    LostBlocks(w, first, had, GatherOf(r, u));
  }

  /** When the round has come to rest the destination has the message, if at the start every node
      that may have to send it had a nearer one next to it that is the destination or takes it up. */
  lemma DestinationReached(links: Links, ss: seq<Air>, acts: seq<Act>, u: HashKey, first: Offer)
    requires Unicast(u) && Round(links, ss, acts) && GatherStarts(links, ss[0], u, first) && Quiescent(ss[|acts|])
    requires Downhill(WorldOf(links, ss[0].nodes, u), first) && Dest(u) in ss[|acts|].nodes
    ensures u in ss[|acts|].nodes[Dest(u)].hash
  {
    hide Goes, Watched, WorldOf, GatherOf, Accounts, Quiescent, Over, Downhill;
    var w, s, had := WorldOf(links, ss[0].nodes, u), ss[|acts|], GatherOf(ss[0], u).has;
    DepartedAccounts(w, GatherOf(ss[0], u), first);
    RoundAccounts(links, ss, acts, u, w, first, had);
    QuietOver(s, u);
    SeeHas(s, u, Dest(u));
    WorldAt(links, s.nodes, u, Dest(u));
    Arrived(w, first, had, GatherOf(s, u));
  }

  ghost predicate AlwaysArrives(links: Links, s: Air, u: HashKey)
    requires Unicast(u)
  {
    forall ss: seq<Air>, acts: seq<Act> ::
      Completes(links, s, ss, acts) && Dest(u) in ss[|acts|].nodes ==> u in ss[|acts|].nodes[Dest(u)].hash
  }

  /** Unicast arrives whatever the order of deliveries and timers if and only if no set of relays
      blocks it. */
  lemma ArrivesIff(links: Links, s: Air, u: HashKey, first: Offer)
    requires Unicast(u) && GatherStarts(links, s, u, first) && LoopFreedom.Inv(s.nodes) && Dest(u) in s.nodes
    ensures AlwaysArrives(links, s, u) <==> !exists fs: map<NodeId,
            u32> :: Blocks(WorldOf(links, s.nodes, u), first, GatherOf(s, u).has,
                                                                 fs)
  {
    hide Goes, Quiescent, WorldOf, GatherOf, Blocks, LoopFreedom.Inv, GatherStarts;
    if fs: map<NodeId, u32> :| Blocks(WorldOf(links, s.nodes, u), first, GatherOf(s, u).has, fs) {
      var ss, acts := BlockedRound(links, s, u, first, fs);
      assert Completes(links, s, ss, acts);
    } else {
      forall ss: seq<Air>, acts: seq<Act> | Completes(links, s, ss, acts) && Dest(u) in ss[|acts|].nodes
        ensures u in ss[|acts|].nodes[Dest(u)].hash
      {
        if u !in ss[|acts|].nodes[Dest(u)].hash {
          LostIsBlocked(links, s, u, first, ss, acts);
        }
      }
    }
  }
}
