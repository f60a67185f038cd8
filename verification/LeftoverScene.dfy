/** A run after which unicast from a node that is joined to the source gets lost in a complete round:
    a relay left over from an earlier advertisement, with an outdated hop count, misleads it. */
module LeftoverScene {
  import opened Types
  import opened NodeSpec
  import opened Network
  import opened Scenes

  const CLIENT: Session := 5
  const GROUP: GroupId := 7

  function Flow(): FlowKey { FlowKey(GROUP, 0) }

  function Registering(): ClientCmd { ClientRegister(GROUP, 2, Some(10), 0, false) }

  /** Advertisement `s` as the source sends it, and as a relay does. */
  function First(s: u32): Advertise { Advertise(GROUP, 2, 0, 1, 0, s, 0, false) }

  function Second(s: u32): Advertise { Advertise(GROUP, 2, 0, 0, 1, s, 0, false) }

  /** Its ACK from the subscriber, by way of a relay, and as that relay passes it on. */
  function Reply(s: u32, relay: NodeId): Ack { Ack(GROUP, 0, s, relay, 0) }

  // ---- what matters of each node -------------------------------------------------------

  predicate Common(n: Node, x: NodeId) { n.id == x && !n.alwaysRebroadcast && n.dataTimers == map[] }

  predicate Source(n: Node, s: u32, pulled: bool) {
    && Common(n, 0) && n.localPull == [] && n.ackTimers == map[] && n.advTimers == map[] && Hops(n.dist, Flow()) == 0
    && n.announce == map[GROUP := Announce(CLIENT, true, 10, 0, 2, s, pulled, false)]
    && n.hash.Keys == if s == 0 then {} else if s == 1 then {AdvHash(First(1))}
       else {AdvHash(First(1)), AdvHash(First(2))}
  }

  /** A relay that heard of the group from the source itself. */
  predicate Relay(n: Node, x: NodeId) {
    && Common(n, x) && n.localPull == [] && n.announce == map[] && Hops(n.dist, Flow()) == 1
    && Flow() in n.revPath && n.revPath[Flow()].next == 0 && n.revPath[Flow()].probRelay == 0
  }

  predicate Subscriber(n: Node, s: u32, relay: NodeId) {
    && Common(n, 2) && n.localPull == [LocalPull(GROUP, CLIENT)] && n.announce == map[] && n.remotePull == []
    && Hops(n.dist, Flow()) == 2
    && Flow() in n.revPath && n.revPath[Flow()].next == relay && n.revPath[Flow()].seqNo == s
    && n.revPath[Flow()].probRelay == 0
    && n.hash.Keys == if s == 1 then {AdvHash(First(1))} else {AdvHash(First(1)), AdvHash(First(2))}
  }

  // ---- a relay -------------------------------------------------------------------------

  function RelayLife(x: NodeId, s: u32, now: int, i: nat): Node {
    if i == 0 then Newcomer(x)
    else if i == 1 then Then(RelayLife(x, s, now, 0), Receive(0, OtaAdv(First(s)), 0, now))
    else if i == 2 then Then(RelayLife(x, s, now, 1), AdvTimer(Flow()))
    else if i == 3 then Then(RelayLife(x, s, now, 2), Receive(2, OtaAck(Reply(s, x)), 0, now))
    else Then(RelayLife(x, s, now, 3), AckTimer(Flow()))
  }

  lemma RelaySteps(x: NodeId, s: u32, now: int)
    ensures RelayLife(x, s, now, 0) == Newcomer(x)
    ensures RelayLife(x, s, now, 1) == Then(RelayLife(x, s, now, 0), Receive(0, OtaAdv(First(s)), 0, now))
    ensures RelayLife(x, s, now, 2) == Then(RelayLife(x, s, now, 1), AdvTimer(Flow()))
    ensures RelayLife(x, s, now, 3) == Then(RelayLife(x, s, now, 2), Receive(2, OtaAck(Reply(s, x)), 0, now))
    ensures RelayLife(x, s, now, 4) == Then(RelayLife(x, s, now, 3), AckTimer(Flow()))
  {
    hide Then, Newcomer;
  }

  predicate Hearing(n: Node, x: NodeId, s: u32) {
    && Relay(n, x) && n.advTimers == map[Flow() := PendingAdv(First(s).(distance := 1), 1)] && n.ackTimers == map[]
    && n.ackSent == map[] && n.sent == [] && n.remotePull == []
  }

  predicate Passing(n: Node, x: NodeId, s: u32) {
    && Relay(n, x) && n.advTimers == map[] && n.ackTimers == map[]
    && n.ackSent == map[] && n.sent == [OtaAdv(Second(s))] && n.remotePull == []
  }

  predicate Acking(n: Node, x: NodeId, s: u32, now: int) {
    && Relay(n, x) && n.advTimers == map[] && n.ackTimers == map[Flow() := Reply(s, 0)]
    && n.sent == [OtaAdv(Second(s))] && n.remotePull == [RemotePull(GROUP, 2, now)]
  }

  predicate Settled(n: Node, x: NodeId, s: u32, now: int) {
    && Relay(n, x) && n.advTimers == map[] && n.ackTimers == map[]
    && n.sent == [OtaAdv(Second(s)), OtaAck(Reply(s, 0))] && n.remotePull == [RemotePull(GROUP, 2, now)]
  }

  lemma RelayHears(x: NodeId, s: u32, now: int)
    requires x != 0
    ensures var n, e := Newcomer(x), Receive(0, OtaAdv(First(s)), 0, now);
            React(n, e).Running? && Hearing(Then(n, e), x, s)
  {
    hide AdvHash;
  }

  lemma RelayPasses(n: Node, x: NodeId, s: u32)
    requires Hearing(n, x, s)
    ensures React(n, AdvTimer(Flow())).Running? && Passing(Then(n, AdvTimer(Flow())), x, s)
  {
    assert n.sent + [OtaAdv(Second(s))] == [OtaAdv(Second(s))];
  }

  lemma RelayAdopts(n: Node, x: NodeId, s: u32, now: int)
    requires Passing(n, x, s) && x != 0 && x != 2
    ensures var e := Receive(2, OtaAck(Reply(s, x)), 0, now); React(n, e).Running? && Acking(Then(n, e), x, s, now)
  {
  }

  lemma RelayAcks(n: Node, x: NodeId, s: u32, now: int)
    requires Acking(n, x, s, now)
    ensures React(n, AckTimer(Flow())).Running? && Settled(Then(n, AckTimer(Flow())), x, s, now)
  {
    assert n.sent + [OtaAck(Reply(s, 0))] == [OtaAdv(Second(s)), OtaAck(Reply(s, 0))];
  }

  lemma RelayLives(x: NodeId, s: u32, now: int)
    requires x != 0 && x != 2
    ensures Hearing(RelayLife(x, s, now, 1), x, s) && Passing(RelayLife(x, s, now, 2), x, s)
    ensures Acking(RelayLife(x, s, now, 3), x, s, now) && Settled(RelayLife(x, s, now, 4), x, s, now)
    ensures React(RelayLife(x, s, now, 0), Receive(0, OtaAdv(First(s)), 0, now)).Running?
            && React(RelayLife(x, s, now, 1), AdvTimer(Flow())).Running?
    ensures React(RelayLife(x, s, now, 2), Receive(2, OtaAck(Reply(s, x)), 0, now)).Running?
    ensures React(RelayLife(x, s, now, 3), AckTimer(Flow())).Running?
  {
    hide React, Then, Newcomer, Hearing, Passing, Acking, Settled, First, Reply, RelayLife;
    RelaySteps(x, s, now);
    RelayHears(x, s, now);
    RelayPasses(RelayLife(x, s, now, 1), x, s);
    RelayAdopts(RelayLife(x, s, now, 2), x, s, now);
    RelayAcks(RelayLife(x, s, now, 3), x, s, now);
  }

  // ---- the subscriber ------------------------------------------------------------------

  /** Advertisement `s` as the subscriber passes it on. */
  function Third(s: u32): Advertise { Advertise(GROUP, 2, 0, 1, 2, s, 0, false) }

  function SubscriberLife(i: nat): Node {
    if i == 0 then Newcomer(2)
    else if i == 1 then Then(SubscriberLife(0), FromClient(CLIENT, ClientPull(GROUP), 0))
    else if i == 2 then Then(SubscriberLife(1), Receive(3, OtaAdv(Second(1)), 0, 0))
    else if i == 3 then Then(SubscriberLife(2), AckTimer(Flow()))
    else if i == 4 then Then(SubscriberLife(3), AdvTimer(Flow()))
    else if i == 5 then Then(SubscriberLife(4), Receive(1, OtaAdv(Second(2)), 0, 10))
    else if i == 6 then Then(SubscriberLife(5), AckTimer(Flow()))
    else Then(SubscriberLife(6), AdvTimer(Flow()))
  }

  lemma SubscriberBegins()
    ensures SubscriberLife(0) == Newcomer(2) && SubscriberLife(1) == Then(SubscriberLife(0),
              FromClient(CLIENT, ClientPull(GROUP), 0))
    ensures SubscriberLife(2) == Then(SubscriberLife(1), Receive(3, OtaAdv(Second(1)), 0, 0))
    ensures SubscriberLife(3) == Then(SubscriberLife(2), AckTimer(Flow()))
  {
    hide Then, Newcomer;
  }

  lemma SubscriberGoesOn()
    ensures SubscriberLife(4) == Then(SubscriberLife(3), AdvTimer(Flow()))
    ensures SubscriberLife(5) == Then(SubscriberLife(4), Receive(1, OtaAdv(Second(2)), 0, 10))
    ensures SubscriberLife(6) == Then(SubscriberLife(5), AckTimer(Flow()))
            && SubscriberLife(7) == Then(SubscriberLife(6), AdvTimer(Flow()))
  {
    hide Then, Newcomer;
  }

  predicate Wanting(n: Node) {
    && Common(n, 2) && n.localPull == [LocalPull(GROUP, CLIENT)] && n.announce == map[] && n.remotePull == []
    && n.dist == map[] && n.revPath == map[] && n.hash == map[] && n.ackTimers == map[] && n.advTimers == map[]
    && n.sent == []
  }

  predicate Replying(n: Node, s: u32, relay: NodeId, sent: seq<OtaMsg>) {
    && Subscriber(n, s, relay) && n.ackTimers == map[Flow() := Reply(s, relay)] && n.sent == sent
    && n.advTimers == map[Flow() := PendingAdv(Second(s).(distance := 2), 2)]
  }

  predicate Spreading(n: Node, s: u32, relay: NodeId, sent: seq<OtaMsg>) {
    && Subscriber(n, s, relay) && n.ackTimers == map[] && n.sent == sent
    && n.advTimers == map[Flow() := PendingAdv(Second(s).(distance := 2), 2)]
  }

  predicate Resting(n: Node, s: u32, relay: NodeId, sent: seq<OtaMsg>) {
    Subscriber(n, s, relay) && n.ackTimers == map[] && n.advTimers == map[] && n.sent == sent
  }

  lemma SubscriberJoins()
    ensures var n, c := Newcomer(2), ClientPull(GROUP);
            var e := FromClient(CLIENT, c, 0); WellBehaved(n, c) && React(n, e).Running? && Wanting(Then(n, e))
  {
  }

  lemma SubscriberHears(n: Node)
    requires Wanting(n)
    ensures var e := Receive(3, OtaAdv(Second(1)), 0, 0); React(n, e).Running? && Replying(Then(n, e), 1, 3, [])
  {
    assert n.localPull[0] in n.localPull;
    assert AdvHash(Second(1)) == AdvHash(First(1));
  }

  lemma SubscriberHearsAgain(n: Node, sent: seq<OtaMsg>)
    requires Resting(n, 1, 3, sent)
    ensures var e := Receive(1, OtaAdv(Second(2)), 0, 10); React(n, e).Running? && Replying(Then(n, e), 2, 1, sent)
  {
    assert n.localPull[0] in n.localPull;
    assert AdvHash(Second(2)) == AdvHash(First(2)) && AdvHash(First(2)) != AdvHash(First(1));
  }

  lemma SubscriberReplies(n: Node, s: u32, relay: NodeId, sent: seq<OtaMsg>)
    requires Replying(n, s, relay, sent)
    ensures React(n, AckTimer(Flow())).Running? && Spreading(Then(n, AckTimer(Flow())), s, relay,
                                                             sent + [OtaAck(Reply(s, relay))])
  {
  }

  lemma SubscriberSpreads(n: Node, s: u32, relay: NodeId, sent: seq<OtaMsg>)
    requires Spreading(n, s, relay, sent)
    ensures React(n, AdvTimer(Flow())).Running? && Resting(Then(n, AdvTimer(Flow())), s, relay,
                                                           sent + [OtaAdv(Third(s))])
  {
  }

  function Sent(i: nat): seq<OtaMsg> {
    if i == 0 then []
    else if i == 1 then Sent(0) + [OtaAck(Reply(1, 3))]
    else if i == 2 then Sent(1) + [OtaAdv(Third(1))]
    else if i == 3 then Sent(2) + [OtaAck(Reply(2, 1))]
    else Sent(3) + [OtaAdv(Third(2))]
  }

  lemma SubscriberLives()
    ensures WellBehaved(SubscriberLife(0), ClientPull(GROUP))
            && React(SubscriberLife(0), FromClient(CLIENT, ClientPull(GROUP), 0)).Running?
    ensures Wanting(SubscriberLife(1)) && React(SubscriberLife(1), Receive(3, OtaAdv(Second(1)), 0, 0)).Running?
    ensures Replying(SubscriberLife(2), 1, 3, Sent(0)) && React(SubscriberLife(2), AckTimer(Flow())).Running?
    ensures Spreading(SubscriberLife(3), 1, 3, Sent(1)) && React(SubscriberLife(3), AdvTimer(Flow())).Running?
    ensures Resting(SubscriberLife(4), 1, 3, Sent(2))
  {
    hide React, Then, Newcomer, Wanting, Replying, Spreading, Resting, Second, Reply, Third, SubscriberLife;
    SubscriberBegins();
    SubscriberGoesOn();
    SubscriberJoins();
    SubscriberHears(SubscriberLife(1));
    SubscriberReplies(SubscriberLife(2), 1, 3, Sent(0));
    SubscriberSpreads(SubscriberLife(3), 1, 3, Sent(1));
  }

  lemma SubscriberLivesOn()
    ensures React(SubscriberLife(4), Receive(1, OtaAdv(Second(2)), 0, 10)).Running?
    ensures Replying(SubscriberLife(5), 2, 1, Sent(2)) && React(SubscriberLife(5), AckTimer(Flow())).Running?
    ensures Spreading(SubscriberLife(6), 2, 1, Sent(3)) && React(SubscriberLife(6), AdvTimer(Flow())).Running?
    ensures Resting(SubscriberLife(7), 2, 1, Sent(4))
  {
    hide React, Then, Newcomer, Wanting, Replying, Spreading, Resting, Second, Reply, Third, SubscriberLife;
    SubscriberLives();
    SubscriberGoesOn();
    SubscriberHearsAgain(SubscriberLife(4), Sent(2));
    SubscriberReplies(SubscriberLife(5), 2, 1, Sent(2));
    SubscriberSpreads(SubscriberLife(6), 2, 1, Sent(3));
  }

  // ---- the source ----------------------------------------------------------------------

  function SourceLife(i: nat): Node {
    if i == 0 then Newcomer(0)
    else if i == 1 then Then(SourceLife(0), FromClient(CLIENT, Registering(), 0))
    else if i == 2 then Then(SourceLife(1), AnnounceTimer(GROUP, 0))
    else if i == 3 then Then(SourceLife(2), AnnounceTimer(GROUP, 10))
    else Then(SourceLife(3), Receive(1, OtaAck(Reply(2, 0)), 0, 10))
  }

  lemma SourceSteps()
    ensures SourceLife(0) == Newcomer(0) && SourceLife(1) == Then(SourceLife(0), FromClient(CLIENT, Registering(), 0))
    ensures SourceLife(2) == Then(SourceLife(1), AnnounceTimer(GROUP, 0))
            && SourceLife(3) == Then(SourceLife(2), AnnounceTimer(GROUP, 10))
    ensures SourceLife(4) == Then(SourceLife(3), Receive(1, OtaAck(Reply(2, 0)), 0, 10))
  {
    hide Then, Newcomer;
  }

  lemma SourceRegisters()
    ensures var n, c := Newcomer(0), Registering();
            var e := FromClient(CLIENT, c, 0); var m := Then(n, e);
            WellBehaved(n, c) && React(n, e).Running? && Source(m, 0, false) && m.sent == [] && m.remotePull == []
  {
  }

  lemma SourceAnnounces(n: Node, s: u32, now: int)
    requires 1 <= s <= 2 && Source(n, s - 1, false)
    ensures var e := AnnounceTimer(GROUP, now); var m := Then(n, e);
            React(n, e).Running? && Source(m, s, false) && m.sent == n.sent + [OtaAdv(First(s))]
              && m.remotePull == n.remotePull
  {
    assert AdvHash(First(2)) != AdvHash(First(1));
    assert AdvHash(OwnAdvertise(n, GROUP)) == AdvHash(First(s));
  }

  lemma SourceTold(n: Node)
    requires Source(n, 2, false) && n.remotePull == []
    ensures var e := Receive(1, OtaAck(Reply(2, 0)), 0, 10); var m := Then(n, e);
            React(n, e).Running? && Source(m, 2, true) && m.sent == n.sent && m.remotePull == [RemotePull(GROUP, 1, 10)]
  {
  }

  lemma SourceLives()
    ensures WellBehaved(SourceLife(0), Registering())
            && React(SourceLife(0), FromClient(CLIENT, Registering(), 0)).Running?
    ensures Source(SourceLife(1), 0, false) && React(SourceLife(1), AnnounceTimer(GROUP, 0)).Running?
    ensures Source(SourceLife(2), 1, false) && SourceLife(2).sent == [OtaAdv(First(1))]
            && React(SourceLife(2), AnnounceTimer(GROUP, 10)).Running?
    ensures Source(SourceLife(3), 2, false) && SourceLife(3).sent == [OtaAdv(First(1)), OtaAdv(First(2))]
    ensures React(SourceLife(3), Receive(1, OtaAck(Reply(2, 0)), 0, 10)).Running?
    ensures Source(SourceLife(4), 2, true) && SourceLife(4).remotePull == [RemotePull(GROUP, 1, 10)]
  {
    hide React, Then, Newcomer, Source, First, Reply, SourceLife, Registering;
    SourceSteps();
    SourceRegisters();
    SourceAnnounces(SourceLife(1), 1, 0);
    SourceAnnounces(SourceLife(2), 2, 10);
    SourceTold(SourceLife(3));
  }

  // ---- the run -------------------------------------------------------------------------

  /** How far the source, the nearer relay, the subscriber and the older relay have come. */
  ghost predicate Stage(t: Trail, i: nat, j: nat, k: nat, l: nat) {
    && IsRun(t) && Forgetless(t) && |t.moves| == i + j + k + l
    && Now(t).Keys == {0, 1, 2, 3} && Now(t)[0] == SourceLife(i) && Now(t)[1] == RelayLife(1, 2, 10, j)
    && Now(t)[2] == SubscriberLife(k) && Now(t)[3] == RelayLife(3, 1, 0, l)
  }

  lemma FirstAnnounced() returns (t: Trail)
    ensures Stage(t, 2, 0, 1, 0)
  {
    hide React, Then, Newcomer, Source, First, Reply, SourceLife, RelayLife, SubscriberLife, Registering, IsRun,
         Forgetless, Now, WellBehaved, Wanting, Replying, Spreading, Resting;
    SourceLives();
    SourceSteps();
    SubscriberLives();
    SubscriberBegins();
    RelaySteps(1, 2, 10);
    RelaySteps(3, 1, 0);
    t := Begin({0, 1, 2, 3});
    t := Ask(t, 0, CLIENT, Registering());
    t := Ask(t, 2, CLIENT, ClientPull(GROUP));
    t := Wait(t, 0, AnnounceTimer(GROUP, 0));
  }

  lemma FirstHeard() returns (t: Trail)
    ensures Stage(t, 2, 0, 1, 2)
  {
    hide React, Then, Newcomer, Source, First, Reply, SourceLife, RelayLife, SubscriberLife, IsRun, Forgetless, Now,
         WellBehaved, Registering, Hearing, Passing, Acking, Settled;
    SourceLives();
    RelayLives(3, 1, 0);
    RelaySteps(3, 1, 0);
    t := FirstAnnounced();
    t := Hear(t, 3, 0, OtaAdv(First(1)), 0);
    t := Wait(t, 3, AdvTimer(Flow()));
  }

  lemma SentBy(n: Node, x: NodeId, s: u32, now: int)
    ensures Passing(n, x, s) ==> OtaAdv(Second(s)) in n.sent
    ensures Settled(n, x, s, now) ==> OtaAck(Reply(s, 0)) in n.sent
  {
  }

  lemma SentByMember(n: Node, s: u32, relay: NodeId, i: nat)
    requires Resting(n, s, relay, Sent(i))
    ensures i == 2 ==> OtaAck(Reply(1, 3)) in n.sent
    ensures i == 4 ==> OtaAck(Reply(2, 1)) in n.sent
  {
  }

  lemma FirstReplied() returns (t: Trail)
    ensures Stage(t, 2, 0, 4, 2)
  {
    hide React, Then, Newcomer, Source, Second, Reply, SourceLife, RelayLife, SubscriberLife, IsRun, Forgetless, Now,
         WellBehaved, Wanting, Replying, Spreading, Resting, Passing;
    RelayLives(3, 1, 0);
    SentBy(RelayLife(3, 1, 0, 2), 3, 1, 0);
    SubscriberLives();
    SubscriberBegins();
    SubscriberGoesOn();
    t := FirstHeard();
    t := Hear(t, 2, 3, OtaAdv(Second(1)), 0);
    t := Wait(t, 2, AckTimer(Flow()));
    t := Wait(t, 2, AdvTimer(Flow()));
  }

  lemma FirstRound() returns (t: Trail)
    ensures Stage(t, 2, 0, 4, 4)
  {
    hide React, Then, Newcomer, Source, Second, Reply, SourceLife, RelayLife, SubscriberLife, IsRun, Forgetless, Now,
         WellBehaved, Wanting, Replying, Spreading, Resting, Passing, Acking, Hearing, Settled;
    RelayLives(3, 1, 0);
    RelaySteps(3, 1, 0);
    SubscriberLives();
    SentByMember(SubscriberLife(4), 1, 3, 2);
    t := FirstReplied();
    t := Hear(t, 3, 2, OtaAck(Reply(1, 3)), 0);
    t := Wait(t, 3, AckTimer(Flow()));
  }

  lemma SecondHeard() returns (t: Trail)
    ensures Stage(t, 3, 2, 4, 4)
  {
    hide React, Then, Newcomer, Source, First, Reply, SourceLife, RelayLife, SubscriberLife, IsRun, Forgetless, Now,
         WellBehaved, Registering, Hearing, Passing, Acking, Settled;
    SourceLives();
    SourceSteps();
    RelayLives(1, 2, 10);
    RelaySteps(1, 2, 10);
    t := FirstRound();
    t := Wait(t, 0, AnnounceTimer(GROUP, 10));
    t := Hear(t, 1, 0, OtaAdv(First(2)), 10);
    t := Wait(t, 1, AdvTimer(Flow()));
  }

  lemma SecondReplied() returns (t: Trail)
    ensures Stage(t, 3, 2, 7, 4)
  {
    hide React, Then, Newcomer, Source, Second, Reply, SourceLife, RelayLife, SubscriberLife, IsRun, Forgetless, Now,
         WellBehaved, Wanting, Replying, Spreading, Resting, Passing;
    RelayLives(1, 2, 10);
    SentBy(RelayLife(1, 2, 10, 2), 1, 2, 10);
    SubscriberLivesOn();
    SubscriberGoesOn();
    t := SecondHeard();
    t := Hear(t, 2, 1, OtaAdv(Second(2)), 10);
    t := Wait(t, 2, AckTimer(Flow()));
    t := Wait(t, 2, AdvTimer(Flow()));
  }

  /** Both rounds are over. */
  lemma SecondRound() returns (t: Trail)
    ensures Stage(t, 4, 4, 7, 4)
  {
    hide React, Then, Newcomer, Source, Second, Reply, SourceLife, RelayLife, SubscriberLife, IsRun, Forgetless, Now,
         WellBehaved, Registering, Wanting, Replying, Spreading, Resting, Passing, Acking, Hearing, Settled;
    RelayLives(1, 2, 10);
    RelaySteps(1, 2, 10);
    SubscriberLivesOn();
    SentByMember(SubscriberLife(7), 2, 1, 4);
    SourceLives();
    SourceSteps();
    SentBy(RelayLife(1, 2, 10, 4), 1, 2, 10);
    t := SecondReplied();
    t := Hear(t, 1, 2, OtaAck(Reply(2, 1)), 10);
    t := Wait(t, 1, AckTimer(Flow()));
    t := Hear(t, 0, 1, OtaAck(Reply(2, 0)), 10);
  }
}
