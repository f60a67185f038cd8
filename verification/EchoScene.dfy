/** A run in which a session is handed its own group DATA: the node forgets the key before the copy
    that its neighbour passed on comes back. */
module EchoScene {
  import opened Types
  import opened NodeSpec
  import opened Network
  import opened Origin
  import opened Scenes
  import Delivery

  const CLIENT: Session := 5
  const GROUP: GroupId := 7

  function Registering(): Event { FromClient(CLIENT, ClientRegister(GROUP, 2, None, 0, false), 0) }

  function Subscribing(): Event { FromClient(CLIENT, ClientPull(GROUP), 0) }

  function Given(): Data { Data(GROUP, Some(2), 0, 0, 0, false, None, 0, []) }

  function Sending(): Event { FromClient(CLIENT, ClientData(Given()), 0) }

  /** The message as the source hashes it, as it is sent, and as the neighbour sends it on. */
  function Message(): Data { Given().(sequence := 1) }

  function Copy(): Data { Message().(ttl := 1) }

  function Echo(): Data { Message().(distance := 1) }

  function Source(i: nat): Node {
    if i == 0 then Newcomer(0)
    else if i == 1 then Then(Source(0), Registering())
    else if i == 2 then Then(Source(1), Subscribing())
    else if i == 3 then Then(Source(2), Sending())
    else if i == 4 then Then(Source(3), HashTimer(100))
    else Then(Source(4), Receive(1, OtaData(Echo()), 0, 100))
  }

  function Neighbour(i: nat): Node {
    if i == 0 then Newcomer(1)
    else if i == 1 then Then(Neighbour(0), Receive(0, OtaData(Copy()), 0, 0))
    else Then(Neighbour(1), DataTimer(DataHash(Message())))
  }

  lemma SourceSends()
    ensures React(Source(0), Registering()).Running? && WellBehaved(Source(0), Registering().cmd)
    ensures React(Source(1), Subscribing()).Running?
    ensures React(Source(2), Sending()).Running? && WellBehaved(Source(2), Sending().cmd)
    ensures DataHash(Stamped(Source(2), Given())) == DataHash(Message())
    ensures var n := Source(3);
            && n.sent == [OtaData(Copy())] && n.localPull == [LocalPull(GROUP, CLIENT)] && n.id == 0
            && n.hashTime == [HashTime(0, DataHash(Message()))] && n.hash.Keys == {DataHash(Message())}
            && n.hashExpire == 50.0
  {
  }

  lemma SourceForgets()
    ensures DataHash(Message()) !in Source(4).hash && Source(4).localPull == [LocalPull(GROUP, CLIENT)]
            && Source(4).id == 0
    ensures Delivery.Writes(Source(4), Receive(1, OtaData(Echo()), 0, 100),
                            AppWrite(CLIENT, AppData(HeardData(Echo()))))
    ensures DataHash(HeardData(Echo())) == DataHash(Message())
  {
    SourceSends();
    hide Source, DataHash;
    var e := HashTime(0, DataHash(Message()));
    assert Source(4) == OnHashCleanup(Source(3), 100) by { SourceFour(); }
    assert e in Source(3).hashTime && Expired(100, e.time, 50.0);
    Delivery.EchoHandedIff(Source(4), Echo(), 1, 0, 100, CLIENT);
    assert DataHash(Echo()) == DataHash(Message()) by { CopyKeepsKey(Message(), 0, 1, 0); }
    assert DataHash(HeardData(Echo())) == DataHash(Message()) by { CopyKeepsKey(Message(), 0, 2, 0); }
  }

  lemma SourceFour()
    ensures Source(4) == OnHashCleanup(Source(3), 100)
  {
    hide OnHashCleanup, OnClient;
  }

  lemma NeighbourPassesOn()
    ensures DataHash(Message()) in Neighbour(1).dataTimers && Neighbour(2).sent == [OtaData(Echo())]
    ensures React(Neighbour(0), Receive(0, OtaData(Copy()), 0, 0)).Running?
            && React(Neighbour(1), DataTimer(DataHash(Message()))).Running?
  {
  }

  lemma SourceLife()
    ensures Source(1) == Then(Source(0), Registering()) && Source(2) == Then(Source(1), Subscribing())
    ensures Source(3) == Then(Source(2), Sending()) && Source(4) == Then(Source(3), HashTimer(100))
    ensures Source(5) == Then(Source(4), Receive(1, OtaData(Echo()), 0, 100))
    ensures React(Source(3), HashTimer(100)).Running? && React(Source(4), Receive(1, OtaData(Echo()), 0, 100)).Running?
  {
    hide OnData, OnHashCleanup, OnClient;
  }

  lemma NeighbourLife()
    ensures Neighbour(1) == Then(Neighbour(0), Receive(0, OtaData(Copy()), 0, 0))
    ensures Neighbour(2) == Then(Neighbour(1), DataTimer(DataHash(Message())))
  {
    hide React;
  }

  lemma FirstHalf() returns (sending: Trail, t: Trail)
    ensures IsRun(t) && IsRun(sending) && Before(sending, t) && |sending.moves| == 2 && |t.moves| == 3
            && Now(t).Keys == {0, 1}
    ensures t.moves[2] == Move(0, Sending()) && 0 in Now(sending) && Now(sending)[0] == Source(2)
    ensures Now(t)[0] == Source(3) && Now(t)[1] == Neighbour(0)
  {
    SourceSends();
    SourceLife();
    assert Source(0) == Newcomer(0) && Neighbour(0) == Newcomer(1);
    hide React, Source, Neighbour, Then, IsRun, WellBehaved, Newcomer, Now;
    t := Begin({0, 1});
    t := Ask(t, 0, CLIENT, Registering().cmd);
    sending := Ask(t, 0, CLIENT, Subscribing().cmd);
    t := Ask(sending, 0, CLIENT, Sending().cmd);
  }

  lemma SceneRuns() returns (sending: Trail, hearing: Trail, t: Trail)
    ensures IsRun(t) && IsRun(sending) && IsRun(hearing) && Before(sending, t) && Before(hearing, t)
            && |sending.moves| == 2 && |hearing.moves| == 6 && |t.moves| == 7
    ensures t.moves[2] == Move(0, Sending()) && 0 in Now(sending) && Now(sending)[0] == Source(2)
    ensures t.moves[6] == Move(0, Receive(1, OtaData(Echo()), 0, 100)) && 0 in Now(hearing)
            && Now(hearing)[0] == Source(4)
  {
    SourceSends();
    SourceLife();
    NeighbourPassesOn();
    NeighbourLife();
    hide React, Source, Neighbour, Then, Copy, Echo, Message, DataHash, IsRun, Now;
    sending, t := FirstHalf();
    t := Hear(t, 1, 0, OtaData(Copy()), 0);
    t := Wait(t, 1, DataTimer(DataHash(Message())));
    hearing := Wait(t, 0, HashTimer(100));
    t := Hear(hearing, 0, 1, OtaData(Echo()), 100);
  }

  /** With hash expiry a session can be handed the group DATA it sent. */
  lemma ExpiryEchoes() returns (nets: seq<Net>, moves: seq<Move>, i: nat, j: nat, s: Session, d: Data, w: AppWrite)
    ensures Run(nets, moves) && i < j < |moves| && moves[i] == Move(0, FromClient(s, ClientData(d), 0))
            && moves[j].node == 0
    ensures d.uheader.None? && 0 in nets[i] && 0 in nets[j] && Delivery.Writes(nets[j][0], moves[j].event, w)
    ensures w.session == s && w.msg.AppData? && DataHash(w.msg.data) == DataHash(Stamped(nets[i][0], d))
  {
    var sending, hearing, t := SceneRuns();
    assert |sending.nets| == 3 && |hearing.nets| == 7;
    SourceSends();
    SourceForgets();
    hide Run, Source, Neighbour, Delivery.Writes, DataHash, Stamped, Echo;
    nets, moves, i, j, s, d, w := t.nets, t.moves, 2, 6, CLIENT, Given(), AppWrite(CLIENT, AppData(HeardData(Echo())));
  }
}
