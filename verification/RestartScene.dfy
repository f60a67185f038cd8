/** A run in which a node acknowledges one advertisement number twice: the source gives its
    registration up, registers again with another source TTL and starts counting anew. */
module RestartScene {
  import opened Types
  import opened NodeSpec
  import opened Network
  import opened Scenes
  import AckWave

  const CLIENT: Session := 5
  const GROUP: GroupId := 7

  function Flow(): FlowKey { FlowKey(GROUP, 0) }

  function Registering(ttl: u32): ClientCmd { ClientRegister(GROUP, ttl, Some(10), 0, false) }

  /** The advertisement with number one that a source TTL leads to. */
  function Advert(ttl: u32): Advertise
    requires ttl > 0
  {
    Advertise(GROUP, ttl, 0, ttl - 1, 0, 1, 0, false)
  }

  function Reply(): Ack { Ack(GROUP, 0, 1, 0, 0) }

  function Source(i: nat): Node {
    if i == 0 then Newcomer(0)
    else if i == 1 then Then(Source(0), FromClient(CLIENT, Registering(1), 0))
    else if i == 2 then Then(Source(1), AnnounceTimer(GROUP, 0))
    else if i == 3 then Then(Source(2), FromClient(CLIENT, ClientDeregister(GROUP), 0))
    else if i == 4 then Then(Source(3), FromClient(CLIENT, Registering(2), 0))
    else Then(Source(4), AnnounceTimer(GROUP, 10))
  }

  function Member(i: nat): Node {
    if i == 0 then Newcomer(1)
    else if i == 1 then Then(Member(0), FromClient(CLIENT, ClientPull(GROUP), 0))
    else if i == 2 then Then(Member(1), Receive(0, OtaAdv(Advert(1)), 0, 0))
    else if i == 3 then Then(Member(2), AckTimer(Flow()))
    else if i == 4 then Then(Member(3), Receive(0, OtaAdv(Advert(2)), 0, 10))
    else Then(Member(4), AckTimer(Flow()))
  }

  lemma SourceLife()
    ensures Source(0) == Newcomer(0) && Source(1) == Then(Source(0), FromClient(CLIENT, Registering(1), 0))
    ensures Source(2) == Then(Source(1), AnnounceTimer(GROUP, 0))
    ensures Source(3) == Then(Source(2), FromClient(CLIENT, ClientDeregister(GROUP), 0))
    ensures Source(4) == Then(Source(3), FromClient(CLIENT, Registering(2), 0))
            && Source(5) == Then(Source(4), AnnounceTimer(GROUP, 10))
  {
    hide Then, Newcomer;
  }

  lemma MemberLife()
    ensures Member(0) == Newcomer(1) && Member(1) == Then(Member(0), FromClient(CLIENT, ClientPull(GROUP), 0))
    ensures Member(2) == Then(Member(1), Receive(0, OtaAdv(Advert(1)), 0, 0))
            && Member(3) == Then(Member(2), AckTimer(Flow()))
    ensures Member(4) == Then(Member(3), Receive(0, OtaAdv(Advert(2)), 0, 10))
            && Member(5) == Then(Member(4), AckTimer(Flow()))
  {
    hide Then, Newcomer;
  }

  // ---- step by step --------------------------------------------------------------------

  predicate Announced(n: Node) {
    n.id == 0 && GROUP in n.announce && n.sent == [OtaAdv(Advert(1))] && n.pullExpire == 60.0
  }

  predicate Replied(n: Node) {
    && n.id == 1 && n.localPull == [LocalPull(GROUP, CLIENT)] && n.announce == map[] && n.sent == [OtaAck(Reply())]
    && n.ackTimers == map[] && n.hash.Keys == {AdvHash(Advert(1))} && n.revPath.Keys == {Flow()}
    && n.revPath[Flow()].probRelay == 0
  }

  lemma SourceFirst()
    ensures WellBehaved(Source(0), Registering(1)) && React(Source(0), FromClient(CLIENT, Registering(1), 0)).Running?
    ensures GROUP in Source(1).announce && React(Source(1), AnnounceTimer(GROUP, 0)).Running? && Announced(Source(2))
  {
  }

  lemma SourceLeaves(n: Node)
    requires Announced(n)
    ensures var e := FromClient(CLIENT, ClientDeregister(GROUP), 0);
            && WellBehaved(n, e.cmd) && React(n, e).Running?
            && Then(n, e) == n.(announce := n.announce - {GROUP})
  {
  }

  lemma SourceReturns(n: Node)
    requires n.id == 0 && GROUP !in n.announce && n.sent == [OtaAdv(Advert(1))] && n.pullExpire == 60.0
    ensures var e := FromClient(CLIENT, Registering(2), 0); var m := Then(n, e);
            && WellBehaved(n, e.cmd) && React(n, e).Running? && GROUP in m.announce && m.id == 0 && m.sent == n.sent
            && m.announce[GROUP] == Announce(CLIENT, true, 10, 0, 2, 0, false, false)
  {
  }

  lemma SourceSecond(n: Node)
    requires n.id == 0 && GROUP in n.announce && n.announce[GROUP] == Announce(CLIENT, true, 10, 0, 2, 0, false, false)
    requires n.sent == [OtaAdv(Advert(1))]
    ensures React(n, AnnounceTimer(GROUP, 10)).Running?
    ensures Then(n, AnnounceTimer(GROUP, 10)).sent == [OtaAdv(Advert(1)), OtaAdv(Advert(2))]
  {
    hide Hashed, HashedAt, OwnDistance, AdvHash;
    assert Then(n, AnnounceTimer(GROUP, 10)).sent == n.sent + [OtaAdv(Advert(2))];
  }

  lemma MemberFirst()
    ensures WellBehaved(Member(0), ClientPull(GROUP))
            && React(Member(0), FromClient(CLIENT, ClientPull(GROUP), 0)).Running?
    ensures React(Member(1), Receive(0, OtaAdv(Advert(1)), 0, 0)).Running? && Flow() in Member(2).ackTimers
    ensures React(Member(2), AckTimer(Flow())).Running? && Replied(Member(3))
  {
  }

  /** The second advertisement is another message, though its number is the same. */
  lemma MemberHears(n: Node)
    requires Replied(n)
    ensures var e := Receive(0, OtaAdv(Advert(2)), 0, 10); var m := Then(n, e);
            && React(n, e).Running? && m.ackTimers == map[Flow() := Reply()] && m.sent == n.sent
            && Flow() in m.revPath && m.revPath[Flow()].probRelay == 0
  {
    hide AdvDistance, Hashed, HashedAt;
    assert n.localPull[0] in n.localPull;
    assert AdvHash(Advert(2)) != AdvHash(Advert(1));
  }

  lemma MemberSends(n: Node)
    requires n.ackTimers == map[Flow() := Reply()] && n.sent == [OtaAck(Reply())]
    requires Flow() in n.revPath && n.revPath[Flow()].probRelay == 0
    ensures React(n, AckTimer(Flow())).Running? && Then(n, AckTimer(Flow())).sent == [OtaAck(Reply()), OtaAck(Reply())]
  {
    assert Then(n, AckTimer(Flow())).sent == n.sent + [OtaAck(Reply())];
  }

  lemma TwoAcks()
    ensures AckWave.AckCount([OtaAck(Reply()), OtaAck(Reply())], AdvId(GROUP, 0, 1)) == 2
  {
    var one: seq<OtaMsg>, id := [OtaAck(Reply())], AdvId(GROUP, 0, 1);
    assert one + [OtaAck(Reply())] == [OtaAck(Reply()), OtaAck(Reply())] && [] + [OtaAck(Reply())] == one;
    AckWave.AckCountAppend(one, OtaAck(Reply()), id);
    AckWave.AckCountAppend([], OtaAck(Reply()), id);
  }

  // ---- the run -------------------------------------------------------------------------

  lemma Announcing() returns (t: Trail)
    ensures IsRun(t) && Forgetless(t) && Now(t).Keys == {0, 1} && Now(t)[0] == Source(2) && Now(t)[1] == Member(1)
  {
    hide React, Source, Member, Then, IsRun, Forgetless, WellBehaved, Newcomer, Now, Announced, Replied, Advert, Reply;
    SourceFirst();
    MemberFirst();
    SourceLife();
    MemberLife();
    t := Begin({0, 1});
    t := Ask(t, 0, CLIENT, Registering(1));
    t := Ask(t, 1, CLIENT, ClientPull(GROUP));
    t := Wait(t, 0, AnnounceTimer(GROUP, 0));
  }

  lemma FirstReplied() returns (t: Trail)
    ensures IsRun(t) && Forgetless(t) && Now(t).Keys == {0, 1} && Now(t)[0] == Source(2) && Now(t)[1] == Member(3)
  {
    hide React, Source, Member, Then, IsRun, Forgetless, Now, Replied, Advert, Reply;
    SourceFirst();
    MemberFirst();
    MemberLife();
    t := Announcing();
    t := Hear(t, 1, 0, OtaAdv(Advert(1)), 0);
    t := Wait(t, 1, AckTimer(Flow()));
  }

  lemma Returned() returns (t: Trail)
    ensures IsRun(t) && Forgetless(t) && Now(t).Keys == {0, 1} && Now(t)[1] == Member(3)
    ensures Now(t)[0].sent == [OtaAdv(Advert(1)), OtaAdv(Advert(2))]
  {
    hide React, Source, Member, Then, IsRun, Forgetless, WellBehaved, Now, Advert, Reply, Registering;
    SourceFirst();
    SourceLife();
    SourceLeaves(Source(2));
    SourceReturns(Source(3));
    SourceSecond(Source(4));
    t := FirstReplied();
    t := Ask(t, 0, CLIENT, ClientDeregister(GROUP));
    t := Ask(t, 0, CLIENT, Registering(2));
    t := Wait(t, 0, AnnounceTimer(GROUP, 10));
  }

  /** Such a run, without hash expiry: a node outlives a registration and acknowledges its number twice. */
  lemma AcknowledgedTwice() returns (nets: seq<Net>, moves: seq<Move>, id: AdvId)
    ensures Run(nets, moves) && (forall i :: 0 <= i < |moves| ==> !moves[i].event.HashTimer?)
    ensures 1 in nets[|moves|] && AckWave.AckCount(nets[|moves|][1].sent, id) == 2
  {
    hide React, Source, Member, Then, Advert, Reply, AckWave.AckCount, Run, Replied;
    MemberFirst();
    MemberLife();
    MemberHears(Member(3));
    assert Member(3).sent == [OtaAck(Reply())] by { SeeReplied(Member(3)); }
    MemberSends(Member(4));
    TwoAcks();
    var t := Returned();
    t := Hear(t, 1, 0, OtaAdv(Advert(2)), 10);
    t := Wait(t, 1, AckTimer(Flow()));
    nets, moves, id := t.nets, t.moves, AdvId(GROUP, 0, 1);
    assert |nets| == |moves| + 1 by { Shape(nets, moves); }
  }

  lemma SeeReplied(n: Node)
    requires Replied(n)
    ensures n.sent == [OtaAck(Reply())]
  {
  }
}
