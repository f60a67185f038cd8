/** A run in which a relay marks an advertisement as acknowledged that none of its ACKs carries. */
module SwallowScene {
  import opened Types
  import opened NodeSpec
  import opened Network
  import opened Scenes
  import AckWave

  const CLIENT: Session := 5
  const GROUP: GroupId := 7

  function Flow(): FlowKey { FlowKey(GROUP, 0) }

  function Registering(): ClientCmd { ClientRegister(GROUP, 3, Some(10), 0, false) }

  /** The advertisement as the source sends it, and as the relay does. */
  function First(seqNo: u32): Advertise { Advertise(GROUP, 3, 0, 2, 0, seqNo, 0, false) }

  function Second(seqNo: u32): Advertise { Advertise(GROUP, 3, 0, 1, 1, seqNo, 0, false) }

  function Reply(seqNo: u32): Ack { Ack(GROUP, 0, seqNo, 1, 0) }

  function Source(i: nat): Node {
    if i == 0 then Newcomer(0)
    else if i == 1 then Then(Source(0), FromClient(CLIENT, Registering(), 0))
    else if i == 2 then Then(Source(1), AnnounceTimer(GROUP, 0))
    else Then(Source(2), AnnounceTimer(GROUP, 10))
  }

  function Relay(i: nat): Node {
    if i == 0 then Newcomer(1)
    else if i == 1 then Then(Relay(0), Receive(0, OtaAdv(First(1)), 0, 0))
    else if i == 2 then Then(Relay(1), AdvTimer(Flow()))
    else if i == 3 then Then(Relay(2), Receive(2, OtaAck(Reply(1)), 0, 0))
    else if i == 4 then Then(Relay(3), Receive(0, OtaAdv(First(2)), 0, 10))
    else if i == 5 then Then(Relay(4), AdvTimer(Flow()))
    else Then(Relay(5), Receive(2, OtaAck(Reply(2)), 0, 10))
  }

  function Member(i: nat): Node {
    if i == 0 then Newcomer(2)
    else if i == 1 then Then(Member(0), FromClient(CLIENT, ClientPull(GROUP), 0))
    else if i == 2 then Then(Member(1), Receive(1, OtaAdv(Second(1)), 0, 0))
    else if i == 3 then Then(Member(2), AckTimer(Flow()))
    else if i == 4 then Then(Member(3), Receive(1, OtaAdv(Second(2)), 0, 10))
    else Then(Member(4), AckTimer(Flow()))
  }

  lemma SourceLife()
    ensures Source(0) == Newcomer(0) && Source(1) == Then(Source(0), FromClient(CLIENT, Registering(), 0))
    ensures Source(2) == Then(Source(1), AnnounceTimer(GROUP, 0))
            && Source(3) == Then(Source(2), AnnounceTimer(GROUP, 10))
  {
    hide Then, Newcomer;
  }

  lemma RelayStart()
    ensures Relay(0) == Newcomer(1) && Relay(1) == Then(Relay(0), Receive(0, OtaAdv(First(1)), 0, 0))
    ensures Relay(2) == Then(Relay(1), AdvTimer(Flow()))
  {
    hide Then, Newcomer;
  }

  lemma RelayRest()
    ensures Relay(3) == Then(Relay(2), Receive(2, OtaAck(Reply(1)), 0, 0))
    ensures Relay(4) == Then(Relay(3), Receive(0, OtaAdv(First(2)), 0, 10))
            && Relay(5) == Then(Relay(4), AdvTimer(Flow()))
    ensures Relay(6) == Then(Relay(5), Receive(2, OtaAck(Reply(2)), 0, 10))
  {
    hide Then, Newcomer;
  }

  lemma MemberLife()
    ensures Member(0) == Newcomer(2) && Member(1) == Then(Member(0), FromClient(CLIENT, ClientPull(GROUP), 0))
    ensures Member(2) == Then(Member(1), Receive(1, OtaAdv(Second(1)), 0, 0))
            && Member(3) == Then(Member(2), AckTimer(Flow()))
    ensures Member(4) == Then(Member(3), Receive(1, OtaAdv(Second(2)), 0, 10))
            && Member(5) == Then(Member(4), AckTimer(Flow()))
  {
    hide Then, Newcomer;
  }

  // ---- what matters of each node -------------------------------------------------------

  predicate Announced(n: Node) {
    && n.id == 0 && GROUP in n.announce && n.announce[GROUP].seqNo == 1 && n.announce[GROUP].srcTtl == 3
    && n.announce[GROUP].probRelay == 0 && !n.announce[GROUP].noTtlRegen && n.sent == [OtaAdv(First(1))]
  }

  predicate Outside(n: Node) { n.id == 1 && n.localPull == [] && n.announce == map[] && Flow() in n.revPath }

  predicate Forwarded(n: Node) {
    && Outside(n) && n.sent == [OtaAdv(Second(1))] && n.revPath[Flow()].seqNo == 1 && n.revPath[Flow()].next == 0
    && n.ackTimers == map[] && n.ackSent == map[] && n.hash.Keys == {AdvHash(First(1))}
  }

  /** The relay has an ACK of the first advertisement waiting. */
  predicate Waiting(n: Node) {
    Outside(n) && n.ackTimers == map[Flow() := Ack(GROUP, 0, 1, 0, 0)] && n.ackSent == map[Flow() := 1]
  }

  predicate Replied(n: Node) {
    && n.id == 2 && n.localPull == [LocalPull(GROUP, CLIENT)] && n.announce == map[] && n.sent == [OtaAck(Reply(1))]
    && n.ackTimers == map[] && n.hash.Keys == {AdvHash(Second(1))} && n.revPath.Keys == {Flow()}
    && n.revPath[Flow()].seqNo == 1
  }

  // ---- step by step --------------------------------------------------------------------

  lemma SourceFirst()
    ensures WellBehaved(Source(0), Registering()) && React(Source(0), FromClient(CLIENT, Registering(), 0)).Running?
    ensures GROUP in Source(1).announce && React(Source(1), AnnounceTimer(GROUP, 0)).Running? && Announced(Source(2))
  {
  }

  lemma SourceSecond(n: Node)
    requires Announced(n)
    ensures React(n, AnnounceTimer(GROUP, 10)).Running?
    ensures Then(n, AnnounceTimer(GROUP, 10)).sent == [OtaAdv(First(1)), OtaAdv(First(2))]
  {
    hide Hashed, HashedAt, OwnDistance, AdvHash;
    assert Then(n, AnnounceTimer(GROUP, 10)).sent == n.sent + [OtaAdv(First(2))];
  }

  lemma RelayFirst()
    ensures React(Relay(0), Receive(0, OtaAdv(First(1)), 0, 0)).Running? && Flow() in Relay(1).advTimers
    ensures React(Relay(1), AdvTimer(Flow())).Running? && Forwarded(Relay(2))
  {
  }

  lemma RelayAcks(n: Node)
    requires Forwarded(n)
    ensures var e := Receive(2, OtaAck(Reply(1)), 0, 0); var m := Then(n, e);
            React(n, e).Running? && Waiting(m) && m.sent == n.sent && m.hash == n.hash && m.revPath == n.revPath
  {
    hide AddPull, AdvHash;
  }

  lemma RelaySecond(n: Node)
    requires Waiting(n) && n.hash.Keys == {AdvHash(First(1))} && n.revPath[Flow()].seqNo == 1
    ensures var e := Receive(0, OtaAdv(First(2)), 0, 10); var m := Then(n, e);
            React(n, e).Running? && Waiting(m) && m.sent == n.sent && Flow() in m.advTimers
              && m.advTimers[Flow()].ttl == 2 &&
            m.advTimers[Flow()].adv == Second(2).(ttl := 2)
  {
    hide AdvDistance, Hashed, HashedAt;
    assert AdvHash(First(2)) != AdvHash(First(1));
  }

  lemma RelaySends(n: Node)
    requires Waiting(n) && n.sent == [OtaAdv(Second(1))] && Flow() in n.advTimers
             && n.advTimers[Flow()] == PendingAdv(Second(2).(ttl := 2), 2)
    ensures var m := Then(n, AdvTimer(Flow()));
            React(n, AdvTimer(Flow())).Running? && Waiting(m) && m.sent == [OtaAdv(Second(1)), OtaAdv(Second(2))]
  {
    assert Then(n, AdvTimer(Flow())).sent == n.sent + [OtaAdv(Second(2))];
  }

  lemma RelaySwallows(n: Node)
    requires Waiting(n) && n.sent == [OtaAdv(Second(1)), OtaAdv(Second(2))]
    ensures var e := Receive(2, OtaAck(Reply(2)), 0, 10);
            React(n, e).Running? && AckWave.AckedUpTo(Then(n, e).ackSent, AdvId(GROUP, 0, 2))
              && AckWave.Acks(Then(n, e), AdvId(GROUP, 0, 2)) == 0
  {
    hide AddPull, AckWave.AckCount;
    var a, id := Reply(2), AdvId(GROUP, 0, 2);
    assert PassesAck(n, a, 0);
    AckWave.AckCarriedIff(n, a, 2, 0, 10);
    assert n.sent == [OtaAdv(Second(1))] + [OtaAdv(Second(2))] && [OtaAdv(Second(1))] == [] + [OtaAdv(Second(1))];
    AckWave.AckCountAppend([OtaAdv(Second(1))], OtaAdv(Second(2)), id);
    AckWave.AckCountAppend([], OtaAdv(Second(1)), id);
    assert AckWave.AckCount([], id) == 0 by { NoneSent(id); }
  }

  lemma NoneSent(id: AdvId)
    ensures AckWave.AckCount([], id) == 0
  {
  }

  lemma MemberFirst()
    ensures WellBehaved(Member(0), ClientPull(GROUP))
            && React(Member(0), FromClient(CLIENT, ClientPull(GROUP), 0)).Running?
    ensures React(Member(1), Receive(1, OtaAdv(Second(1)), 0, 0)).Running? && Flow() in Member(2).ackTimers
    ensures React(Member(2), AckTimer(Flow())).Running? && Replied(Member(3))
  {
  }

  lemma MemberHears(n: Node)
    requires Replied(n)
    ensures var e := Receive(1, OtaAdv(Second(2)), 0, 10); var m := Then(n, e);
            && React(n, e).Running? && m.ackTimers == map[Flow() := Ack(GROUP, 0, 2, 1, 0)] && m.sent == n.sent
            && Flow() in m.revPath && m.revPath[Flow()].probRelay == 0
  {
    hide AdvDistance, Hashed, HashedAt;
    assert n.localPull[0] in n.localPull;
    assert AdvHash(Second(2)) != AdvHash(Second(1));
  }

  lemma MemberSends(n: Node)
    requires n.ackTimers == map[Flow() := Ack(GROUP, 0, 2, 1, 0)] && n.sent == [OtaAck(Reply(1))]
    requires Flow() in n.revPath && n.revPath[Flow()].probRelay == 0
    ensures React(n, AckTimer(Flow())).Running? && Then(n, AckTimer(Flow())).sent == [OtaAck(Reply(1)),
              OtaAck(Reply(2))]
  {
    assert Then(n, AckTimer(Flow())).sent == n.sent + [OtaAck(Reply(2))];
  }

  // ---- the run -------------------------------------------------------------------------

  lemma Announcing() returns (t: Trail)
    ensures IsRun(t) && Now(t).Keys == {0, 1, 2} && Now(t)[0] == Source(2) && Now(t)[1] == Relay(0)
            && Now(t)[2] == Member(1)
  {
    hide React, Source, Relay, Member, Then, IsRun, WellBehaved, Newcomer, Now, Announced, Replied, First, Second;
    SourceFirst();
    MemberFirst();
    SourceLife();
    RelayStart();
    MemberLife();
    t := Begin({0, 1, 2});
    t := Ask(t, 0, CLIENT, Registering());
    t := Ask(t, 2, CLIENT, ClientPull(GROUP));
    t := Wait(t, 0, AnnounceTimer(GROUP, 0));
  }

  lemma FirstPassedOn() returns (t: Trail)
    ensures IsRun(t) && Now(t).Keys == {0, 1, 2} && Now(t)[0] == Source(2) && Now(t)[1] == Relay(2)
            && Now(t)[2] == Member(1)
  {
    hide React, Source, Relay, Member, Then, IsRun, Now, Newcomer, WellBehaved, Outside, Waiting, First, Second, Reply,
         Announced, Forwarded;
    SourceFirst();
    RelayFirst();
    RelayStart();
    assert OtaAdv(First(1)) in Source(2).sent by { SeeAnnounced(Source(2)); }
    t := Announcing();
    t := Hear(t, 1, 0, OtaAdv(First(1)), 0);
    t := Wait(t, 1, AdvTimer(Flow()));
  }

  lemma SeeAnnounced(n: Node)
    requires Announced(n)
    ensures OtaAdv(First(1)) in n.sent && GROUP in n.announce
  {
  }

  lemma FirstAcked() returns (t: Trail)
    ensures IsRun(t) && Now(t).Keys == {0, 1, 2} && Now(t)[0] == Source(2) && Now(t)[1] == Relay(2)
            && Now(t)[2] == Member(3)
  {
    hide React, Source, Relay, Member, Then, IsRun, Now, Newcomer, WellBehaved, Outside, Waiting, First, Second, Reply,
         Forwarded, Replied;
    RelayFirst();
    MemberFirst();
    MemberLife();
    assert OtaAdv(Second(1)) in Relay(2).sent by { SeeForwarded(Relay(2)); }
    t := FirstPassedOn();
    t := Hear(t, 2, 1, OtaAdv(Second(1)), 0);
    t := Wait(t, 2, AckTimer(Flow()));
  }

  lemma SeeForwarded(n: Node)
    requires Forwarded(n)
    ensures OtaAdv(Second(1)) in n.sent
  {
  }

  lemma RelayLife()
    ensures React(Relay(2), Receive(2, OtaAck(Reply(1)), 0, 0)).Running?
            && React(Relay(3), Receive(0, OtaAdv(First(2)), 0, 10)).Running?
    ensures Flow() in Relay(4).advTimers && React(Relay(4), AdvTimer(Flow())).Running?
    ensures Waiting(Relay(5)) && Relay(5).sent == [OtaAdv(Second(1)), OtaAdv(Second(2))]
  {
    hide React, Source, Relay, Member, Then, First, Second, Reply;
    RelayRest();
    RelayFirst();
    RelayAcks(Relay(2));
    RelaySecond(Relay(3));
    RelaySends(Relay(4));
  }

  lemma SecondAdvertised() returns (t: Trail)
    ensures IsRun(t) && Now(t).Keys == {0, 1, 2} && Now(t)[1] == Relay(5) && Now(t)[2] == Member(3)
  {
    hide React, Source, Relay, Member, Then, IsRun, Now, Newcomer, WellBehaved, Outside, Waiting, First, Second, Reply,
         Replied, Announced, Forwarded;
    SourceFirst();
    MemberFirst();
    assert GROUP in Source(2).announce && OtaAck(Reply(1)) in Member(3).sent by {
      SeeAnnounced(Source(2)); SeeReplied(Member(3));
    }
    SourceLife();
    RelayRest();
    SourceSecond(Source(2));
    RelayLife();
    t := FirstAcked();
    t := Hear(t, 1, 2, OtaAck(Reply(1)), 0);
    t := Wait(t, 0, AnnounceTimer(GROUP, 10));
    t := Hear(t, 1, 0, OtaAdv(First(2)), 10);
    t := Wait(t, 1, AdvTimer(Flow()));
  }

  lemma SeeReplied(n: Node)
    requires Replied(n)
    ensures OtaAck(Reply(1)) in n.sent
  {
  }

  /** Such a run: at its end node 1 has marked the second advertisement as acknowledged, and no ACK
      it has sent or has waiting carries it. */
  lemma Swallowed() returns (nets: seq<Net>, moves: seq<Move>, id: AdvId)
    ensures Run(nets, moves) && 1 in nets[|moves|]
    ensures AckWave.AckedUpTo(nets[|moves|][1].ackSent, id) && AckWave.Acks(nets[|moves|][1], id) == 0
  {
    hide React, Source, Relay, Member, Then, First, Second, Reply, AckWave.Acks, AckWave.AckedUpTo, Outside, Run;
    var t := SecondAdvertised();
    RelayRest();
    MemberLife();
    RelayLife();
    MemberFirst();
    MemberHears(Member(3));
    MemberSends(Member(4));
    RelaySwallows(Relay(5));
    t := Hear(t, 2, 1, OtaAdv(Second(2)), 10);
    t := Wait(t, 2, AckTimer(Flow()));
    t := Hear(t, 1, 2, OtaAck(Reply(2)), 10);
    nets, moves, id := t.nets, t.moves, AdvId(GROUP, 0, 2);
    assert |nets| == |moves| + 1 by { Shape(nets, moves); }
  }
}
