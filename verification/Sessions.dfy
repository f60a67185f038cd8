/** Client sessions: after a session has closed no table names it, and an announcement timer runs
    exactly for the groups that have a positive interval. */
module Sessions {
  import opened Types
  import opened NodeSpec
  import opened Network
  import HashIndex

  /** Some table names the session. */
  predicate Names(n: Node, s: Session) {
    (exists e :: e in n.localPull && e.session == s) || (exists g :: g in n.announce && n.announce[g].session == s)
  }

  /** Closing removes exactly the entries of the session from both tables. */
  lemma CloseFilters(n: Node, s: Session)
    ensures var m := OnClose(n, s);
            && !Names(m, s)
            && (forall e :: e in m.localPull <==> e in n.localPull && e.session != s)
            && (forall g :: g in m.announce <==> g in n.announce && n.announce[g].session != s)
            && (forall g :: g in m.announce ==> m.announce[g] == n.announce[g])
  {
    forall e ensures e in OnClose(n, s).localPull <==> e in n.localPull && e.session != s {
      HashIndex.FilterMembers(n.localPull, (x: LocalPull) => x.session != s, e);
    }
  }

  /** Who subscribes is left alone, and all of a registration but its number and its mark. */
  predicate SameNames(n: Node, m: Node) {
    && m.localPull == n.localPull && m.announce.Keys == n.announce.Keys
    && forall g :: g in n.announce ==>
         m.announce[g] == n.announce[g].(seqNo := m.announce[g].seqNo, pullSent := m.announce[g].pullSent)
  }

  lemma AdvertiseNames(n: Node, a: Advertise, from: NodeId, now: int)
    ensures SameNames(n, OnAdvertise(n, a, from, now))
  {
    hide Hashed, HashedAt, AdvDistance, AdvForward, AdvRaises, JoinsTree, Overrides, LearnPath, AdvHash, SetAckTimer,
         PullWrites;
  }

  lemma AckNames(n: Node, a: Ack, from: NodeId, draw: nat, now: int)
    requires OnAck(n, a, from, draw, now).Running?
    ensures SameNames(n, OnAck(n, a, from, draw, now).node)
  {
    hide Adopts, PassesAck, Flips, Chosen, AddPull, SetAckTimer, PullWrites;
  }

  lemma DataNames(n: Node, d: Data, from: NodeId, now: int)
    ensures SameNames(n, OnData(n, d, from, now))
  {
    hide Hashed, HashedAt, DataDistance, DataForward, DataRaises, Handed, DataHash;
  }

  lemma ClientDataNames(n: Node, s: Session, d: Data, now: int)
    requires OnClientData(n, s, d, now).Running?
    ensures SameNames(n, OnClientData(n, s, d, now).node)
  {
    hide Hashed, HashedAt, DataDistance, Handed, ClientSends, NextSeq, DataHash;
  }

  lemma CleanupNames(n: Node, now: int)
    ensures SameNames(n, OnPullCleanup(n, now))
  {
    hide FilterSeq, UnpullWrites, Orphaned, Orphans;
  }

  /** Membership commands. */
  predicate Managing(e: Event) { e.ClientGone? || (e.FromClient? && !e.cmd.ClientData?) }

  lemma OtherNames(n: Node, e: Event)
    requires React(n, e).Running? && !Managing(e)
    ensures SameNames(n, React(n, e).node)
  {
    hide OnAdvertise, OnAck, OnData, OnClientData, OnPullCleanup, AckProb, HashedAt, Hashed, OwnDistance, ExpiredKeys,
         Fresh, AdvHash;
    match e
    case Receive(from, m, draw, now) =>
      if from != n.id {
        match m
        case OtaAck(a) => AckNames(n, a, from, draw, now);
        case OtaAdv(a) => AdvertiseNames(n, a, from, now);
        case OtaData(d) => DataNames(n, d, from, now);
      }
    case AckTimer(k) =>
    case AdvTimer(k) =>
    case DataTimer(h) =>
    case AnnounceTimer(gid, now) =>
    case HashTimer(now) =>
    case PullTimer(now) => CleanupNames(n, now);
    case FromClient(s, ClientData(d), now) => ClientDataNames(n, s, d, now);
  }

  /** Only a session's own commands bring its name into the tables. */
  lemma NewNames(n: Node, e: Event, s: Session)
    requires React(n, e).Running? && Names(React(n, e).node, s) && !Names(n, s)
    ensures e.FromClient? && e.session == s
  {
    if e.ClientGone? {
      hide FilterSeq;
      CloseFilters(n, e.session);
    } else if Managing(e) {
      hide OnClientData;
      ManagingNames(n, e.session, e.cmd, e.now, s);
    } else {
      hide React;
      OtherNames(n, e);
    }
  }

  lemma ManagingNames(n: Node, from: Session, c: ClientCmd, now: int, s: Session)
    requires !c.ClientData? && OnClient(n, from, c, now).Running? && Names(OnClient(n, from, c, now).node, s)
             && !Names(n, s)
    ensures from == s
  {
    hide OnClientData;
    var m := OnClient(n, from, c, now).node;
    match c
    case ClientPull(g) =>
    case ClientUnpull(g) =>
      forall e | e in RemoveFirst(n.localPull, LocalPull(g, from))
        ensures e in n.localPull
      {
        RemovedIsIn(n.localPull, LocalPull(g, from), e);
      }
    case ClientRegister(_, _, _, _, _) =>
    case ClientDeregister(g) =>
  }

  lemma {:induction false} RemovedIsIn(s: seq<LocalPull>, x: LocalPull, e: LocalPull)
    requires e in RemoveFirst(s, x)
    ensures e in s
  {
    if s != [] && s[0] != x && e != s[0] {
      RemovedIsIn(s[1..], x, e);
    }
  }

  /** In every run, from the moment a session closes until it is heard of again, no table names it. */
  lemma {:induction false} ClosedIsForgotten(nets: seq<Net>, moves: seq<Move>, j: nat, x: NodeId, s: Session)
    requires Run(nets, moves) && j < |moves| && moves[j] == Move(x, ClientGone(s)) && x in nets[|moves|]
    requires forall i :: j < i < |moves| ==> !(moves[i].node == x && moves[i].event.FromClient?
                                               && moves[i].event.session == s)
    ensures !Names(nets[|moves|][x], s)
    decreases |moves|
  {
    hide Names, Start, OnClose, OnReceive, OnAckTimeout, OnAdvTimeout, OnDataTimeout, OnAnnounce, OnClient,
         OnHashCleanup, OnPullCleanup;
    RunPrefix(nets, moves);
    var last := |moves| - 1;
    assert Step(nets[last], moves[last].node, moves[last].event, nets[last + 1]);
    if j == last {
      CloseFilters(nets[last][x], s);
    } else {
      ClosedIsForgotten(nets[..|moves|], moves[..last], j, x, s);
      if moves[last].node == x && Names(nets[|moves|][x], s) {
        NewNames(nets[last][x], moves[last].event, s);
      }
    }
  }

  // ---- announcement timers -------------------------------------------------------------

  ghost predicate Timed(n: Node) {
    forall g :: g in n.announce ==> (n.announce[g].timer <==> n.announce[g].interval > 0)
  }

  lemma ManagingTimed(n: Node, from: Session, c: ClientCmd, now: int)
    requires Timed(n) && !c.ClientData? && OnClient(n, from, c, now).Running?
    ensures Timed(OnClient(n, from, c, now).node)
  {
    hide OnClientData, RemoveFirst;
    match c
    case ClientPull(_) =>
    case ClientUnpull(_) =>
    case ClientRegister(_, _, _, _, _) =>
    case ClientDeregister(_) =>
  }

  lemma ReactTimed(n: Node, e: Event)
    requires Timed(n) && React(n, e).Running?
    ensures Timed(React(n, e).node)
  {
    if e.ClientGone? {
      hide FilterSeq;
    } else if Managing(e) {
      hide OnClient;
      ManagingTimed(n, e.session, e.cmd, e.now);
    } else {
      hide React;
      OtherNames(n, e);
    }
  }

  /** In every run the announcement timer of a group runs exactly while its interval is positive. */
  lemma {:induction false} TimerIffInterval(nets: seq<Net>, moves: seq<Move>, x: NodeId)
    requires Run(nets, moves) && x in nets[|moves|]
    ensures Timed(nets[|moves|][x])
    decreases |moves|
  {
    hide React, Timed, Enabled;
    if moves == [] {
      StartTimed(nets[0], x);
    } else {
      RunPrefix(nets, moves);
      var last := |moves| - 1;
      assert Step(nets[last], moves[last].node, moves[last].event, nets[last + 1]);
      assert x in nets[last] by { SameNodes(nets[last], moves[last].node, moves[last].event, nets[last + 1]); }
      TimerIffInterval(nets[..|moves|], moves[..last], x);
      if moves[last].node == x {
        ReactTimed(nets[last][x], moves[last].event);
      }
    }
  }

  lemma StartTimed(net: Net, x: NodeId)
    requires Start(net) && x in net
    ensures Timed(net[x])
  {
  }
}
