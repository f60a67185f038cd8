/** The unicast message that the leftover relay misleads. */
module LostScene {
  import opened Types
  import opened NodeSpec
  import opened Network
  import opened Origin
  import opened Air
  import opened Traffic
  import opened Scenes
  import opened LeftoverScene
  import Gather
  import GatherBlock
  import GatherRound
  import GatherLoss
  import UnicastSend
  import Numbers
  import LoopFreedom
  import TreeRound

  /** Who hears whom when the message is sent: the older relay no longer hears the source. */
  function Ring(): Links { {(0, 1), (1, 0), (1, 2), (2, 1), (2, 3), (3, 2), (1, 3), (3, 1)} }

  /** Unicast to the source at low resilience. */
  function Message(): Data { Data(GROUP, None, 0, 0, 0, false, Some(UnicastHeader(0, 0, None)), 0, []) }

  function Sending(): Event { FromClient(CLIENT, ClientData(Message()), 20) }

  // ---- the network before --------------------------------------------------------------

  /** What two rounds have left of the four nodes. */
  predicate Left(net: Net) {
    && net.Keys == {0, 1, 2, 3} && Source(net[0], 2, true) && net[0].remotePull == [RemotePull(GROUP, 1, 10)]
    && Settled(net[1], 1, 2, 10) && Resting(net[2], 2, 1, Sent(4)) && Settled(net[3], 3, 1, 0)
  }

  lemma TwoRounds() returns (t: Trail)
    ensures IsRun(t) && Forgetless(t) && Left(Now(t)) && |t.moves| == 19
  {
    hide React, Then, Newcomer, SourceLife, RelayLife, SubscriberLife, IsRun, Forgetless, Now, Source, Settled, Resting;
    t := SecondRound();
    SourceLives();
    RelayLives(1, 2, 10);
    RelayLives(3, 1, 0);
    SubscriberLivesOn();
  }

  lemma AtRest(net: Net)
    requires Left(net)
    ensures Quiescent(Air(net, {})) && WellFormed(Ring(), Air(net, {})) && Afoot(Air(net, {})) == {}
  {
    hide Afoot;
    forall x | x in net ensures Idle(net[x]) && net[x].id == x {}
    NothingAfoot(net);
  }

  lemma NothingAfoot(net: Net)
    requires forall x :: x in net ==> Idle(net[x])
    ensures Afoot(Air(net, {})) == {}
  {
  }

  lemma OneChild(n: Node, c: NodeId, now: int)
    requires n.remotePull == [RemotePull(GROUP, c, now)]
    ensures TreeRound.HasChild(n, GROUP, c) && RelaysTree(n, GROUP)
  {
    assert RemotePull(GROUP, c, now) in n.remotePull;
  }

  /** The subscriber is joined to the source. */
  lemma IsJoined(net: Net)
    requires Left(net)
    ensures TreeRound.RelayChain(Ring(), net, Flow(), 2, 2)
  {
    hide TreeRound.HasChild, RelaysTree;
    OneChild(net[0], 1, 10);
    OneChild(net[1], 2, 10);
    assert TreeRound.RelayChain(Ring(), net, Flow(), 0, 0);
    assert TreeRound.RelayChain(Ring(), net, Flow(), 1, 1);
  }

  lemma MayLeave(net: Net)
    requires Left(net)
    ensures UnicastSend.Sendable(net[2], Message()) && React(net[2], Sending()).Running?
            && WellBehaved(net[2], Sending().cmd)
    ensures UnicastSend.First(net[2], Message()) == Gather.Offer(1, 0)
  {
    hide PreProcess, ClientSends;
  }

  // ---- the relay that is in the way ----------------------------------------------------

  /** What the message meets. */
  predicate Meets(w: Gather.World) {
    && w.links == Ring() && w.level == map[0 := 0, 1 := 1, 2 := 2, 3 := 1] && w.full == 1
    && w.duty == map[0 := Gather.Renews, 1 := Gather.Renews, 2 := Gather.Rests, 3 := Gather.Renews] && w.dest == 0
    && w.origin == 2
  }

  lemma InTheWay(w: Gather.World, had: set<NodeId>)
    requires Meets(w) && had <= {2}
    ensures GatherBlock.Blocks(w, Gather.Offer(1, 0), had, map[3 := 0])
  {
    var first, fs: map<NodeId, u32> := Gather.Offer(1, 0), map[3 := 0];
    assert GatherBlock.Offers(w, first, fs, 3, first) && GatherBlock.HearsEnough(w, first, fs, 3, 0);
    assert GatherBlock.Offers(w, first, fs, 1, Gather.Offer(0, 0)) && GatherBlock.HearsInVain(w, first, fs, 1);
    assert GatherBlock.Offers(w, first, fs, 2, Gather.Offer(0, 0)) && GatherBlock.HearsInVain(w, first, fs, 2);
  }

  lemma LevelsMet(net: Net, u: HashKey)
    requires Left(net) && GatherRound.Unicast(u) && GatherRound.Guide(u) == Flow()
    ensures GatherRound.LevelsOf(net, u) == map[0 := 0, 1 := 1, 2 := 2, 3 := 1]
  {
  }

  lemma DutiesMet(net: Net, u: HashKey)
    requires Left(net) && GatherRound.AlongTree(u) && Gid(u) == GROUP
    ensures GatherRound.DutiesOf(net, u)
            == map[0 := Gather.Renews, 1 := Gather.Renews, 2 := Gather.Rests, 3 := Gather.Renews]
  {
    OneChild(net[0], 1, 10);
    OneChild(net[1], 2, 10);
    OneChild(net[3], 2, 0);
    hide RelaysTree;
    assert !RelaysTree(net[2], GROUP) by { NoRelay(net[2]); }
  }

  lemma WhatItMeets(net: Net, u: HashKey)
    requires Left(net) && GatherRound.Unicast(u) && GatherRound.AlongTree(u) && GatherRound.Guide(u) == Flow()
    requires Src(u) == 2
    ensures Meets(GatherRound.WorldOf(Ring(), net, u))
  {
    LevelsMet(net, u);
    DutiesMet(net, u);
    hide GatherRound.LevelsOf, GatherRound.DutiesOf, Left;
  }

  lemma NoRelay(n: Node)
    requires n.remotePull == [] && !n.alwaysRebroadcast
    ensures !RelaysTree(n, GROUP)
  {
  }

  // ---- sending -------------------------------------------------------------------------

  function Key(net: Net): HashKey
    requires Left(net)
  {
    MayLeave(net);
    DataHash(UnicastSend.Outgoing(net[2], Message()))
  }

  lemma KeyFacts(net: Net)
    requires Left(net)
    ensures var u := Key(net);
            GatherRound.Unicast(u) && GatherRound.Guide(u) == Flow() && GatherRound.Dest(u) == 0 && Src(u) == 2
    ensures GatherRound.AlongTree(Key(net))
    ensures FlowOf(Key(net)) == FlowKey(GROUP, 2) && SeqNo(Key(net)) == NextSeq(net[2], GROUP)
  {
    hide NextSeq, Left;
    MayLeave(net);
    assert net[2].id == 2 by { WhoIsWho(net); }
    UnicastSend.OutgoingKey(net[2], Message());
    UnicastSend.OutgoingNumber(net[2], Message());
  }

  lemma WhoIsWho(net: Net)
    requires Left(net)
    ensures net.Keys == {0, 1, 2, 3} && net[2].id == 2
  {
  }

  lemma Departs(t: Trail) returns (r: Trail)
    requires IsRun(t) && Forgetless(t) && Left(Now(t))
    ensures Grows(t, 2, Sending(), r)
    ensures Goes(Ring(), Air(Now(t), {}), Occurs(2, Sending()),
                 Air(Now(r), Aired(Ring(), Now(t), 2, Now(t)[2], Then(Now(t)[2], Sending()))))
  {
    hide React, IsRun, Forgetless, Aired, Left, Now;
    WhoIsWho(Now(t));
    MayLeave(Now(t));
    r := Grow(t, 2, Sending());
    StepThen(Now(t), 2, Sending());
  }

  /** The state in which the message has just left starts a gathering. */
  lemma Started(t: Trail, r: Trail, s: Air)
    requires IsRun(t) && |t.moves| + 1 < U64 && Left(Now(t)) && Goes(Ring(), Air(Now(t), {}), Occurs(2, Sending()), s)
    ensures var u := Key(Now(t));
            && GatherRound.Unicast(u) && GatherRound.GatherStarts(Ring(), s, u, Gather.Offer(1, 0))
            && GatherRound.WorldOf(Ring(), s.nodes, u) == GatherRound.WorldOf(Ring(), Now(t), u)
  {
    hide Goes, Left, GatherRound.GatherStarts, GatherRound.WorldOf, UnicastSend.Sendable, UnicastSend.Sends, Key,
         Numbers.Numbered, Numbers.Unnamed;
    var net, links := Now(t), Ring();
    var s0 := Air(net, {});
    AtRest(net);
    MayLeave(net);
    KeyFacts(net);
    WhoIsWho(net);
    assert Numbers.Numbered(net, |t.moves|) by { Counts(t); }
    assert Key(net) == DataHash(UnicastSend.Outgoing(net[2], Message())) by { KeyIs(net); }
    Numbers.NextUnnamed(net, 2, Message(), Key(net), |t.moves|);
    Numbers.AllKeyed(net, |t.moves|);
    UnicastSend.ClientSendsUnicast(links, s0, Occurs(2, Sending()), s);
    UnicastSend.SentStarts(links, s0, 2, Message(), s);
  }

  lemma KeyIs(net: Net)
    requires Left(net)
    ensures UnicastSend.Sendable(net[2], Message()) && Key(net) == DataHash(UnicastSend.Outgoing(net[2], Message()))
  {
    hide Left;
    MayLeave(net);
  }

  lemma Counts(t: Trail)
    requires IsRun(t) && |t.moves| < U64
    ensures Numbers.Numbered(Now(t), |t.moves|)
  {
    hide Run, Numbers.Numbered;
    Shape(t.nets, t.moves);
    Numbers.RunNumbered(t.nets, t.moves);
  }

  lemma HadIs(s: Air, u: HashKey)
    requires GatherRound.Unicast(u) && GatherRound.GatherStarts(Ring(), s, u, Gather.Offer(1, 0)) && Src(u) == 2
    ensures GatherRound.GatherOf(s, u).has <= {2}
  {
    hide GatherRound.Watched, GatherRound.GatherOf, Broadcasts;
  }

  /** With the relay in the way the message may get lost. */
  lemma GetsLost(t: Trail, r: Trail, s: Air) returns (ss: seq<Air>, acts: seq<Act>)
    requires IsRun(t) && |t.moves| + 1 < U64 && Left(Now(t)) && Goes(Ring(), Air(Now(t), {}), Occurs(2, Sending()), s)
    requires IsRun(r) && s.nodes == Now(r)
    ensures Completes(Ring(), s, ss, acts) && 0 in ss[|acts|].nodes && Key(Now(t)) !in ss[|acts|].nodes[0].hash
  {
    hide Goes, Left, GatherRound.GatherStarts, GatherRound.WorldOf, GatherBlock.Blocks, Key, Run, Quiescent, Sending,
         LoopFreedom.Inv, GatherRound.GatherOf, Meets, Ring;
    var u := Key(Now(t));
    KeyFacts(Now(t));
    Started(t, r, s);
    WhatItMeets(Now(t), u);
    HadIs(s, u);
    InTheWay(GatherRound.WorldOf(Ring(), s.nodes, u), GatherRound.GatherOf(s, u).has);
    Shape(r.nets, r.moves);
    LoopFreedom.RunInv(r.nets, r.moves);
    SameNodes0(Now(t), s);
    ss, acts := GatherLoss.BlockedRound(Ring(), s, u, Gather.Offer(1, 0), map[3 := 0]);
  }

  lemma SameNodes0(net: Net, s: Air)
    requires Left(net) && Goes(Ring(), Air(net, {}), Occurs(2, Sending()), s)
    ensures 0 in s.nodes
  {
    hide React, Aired;
  }

  lemma BothWays()
    ensures forall y, z :: (y, z) in Ring() ==> (z, y) in Ring()
  {
  }

  /** A reachable network at rest, over links that go both ways, in which the subscriber is joined to
      the source; and a complete round after which the unicast it sent has not arrived. */
  lemma LeftoverMisleads() returns (nets: seq<Net>, moves: seq<Move>, ss: seq<Air>, acts: seq<Act>)
    ensures Run(nets, moves) && |moves| > 0 && (forall y, z :: (y, z) in Ring() ==> (z, y) in Ring())
    ensures var net, a := nets[|moves| - 1], Occurs(2, Sending());
            && moves[|moves| - 1] == Move(2, Sending()) && Quiescent(Air(net, {}))
            && TreeRound.RelayChain(Ring(), net, Flow(), 2, 2)
            && Left(net) && |ss| > 0 && Goes(Ring(), Air(net, {}), a, ss[0]) && ss[0].nodes == nets[|moves|]
            && Completes(Ring(), ss[0], ss, acts) && 0 in ss[|acts|].nodes && Key(net) !in ss[|acts|].nodes[0].hash
  {
    BothWays();
    hide Ring, Goes, Left, Key, TreeRound.RelayChain, Run, Quiescent, Sending, React, Then, Aired;
    var t := TwoRounds();
    var r := Departs(t);
    var net := Now(t);
    AtRest(net);
    IsJoined(net);
    Shape(t.nets, t.moves);
    Shape(r.nets, r.moves);
    var s := Air(Now(r), Aired(Ring(), net, 2, net[2], Then(net[2], Sending())));
    ss, acts := GetsLost(t, r, s);
    nets, moves := r.nets, r.moves;
    assert r.nets[|t.moves|] == t.nets[|t.moves|];
  }
}
