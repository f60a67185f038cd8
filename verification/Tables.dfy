/** What holds of the tables of every node in every reachable network. */
module Tables {
  import opened Types
  import opened NodeSpec
  import opened Network
  import opened HashIndex
  import LoopFreedom
  import PullTable

  /** In every run the time index lists exactly the keys of the hash table, each once and in order
      of time; so a cleanup keeps exactly the keys that have not expired. */
  lemma IndexAgrees(nets: seq<Net>, moves: seq<Move>, x: NodeId, now: int)
    requires Run(nets, moves) && x in nets[|moves|]
    ensures var n := nets[|moves|][x];
            && Indexed(n.hash, n.hashTime)
            && forall i :: 0 <= i < |n.hashTime| ==>
                 (n.hashTime[i].key in OnHashCleanup(n, now).hash <==>
                    (now - n.hashTime[i].time) as real <= n.hashExpire)
  {
    hide Step, Start, Indexed, OnHashCleanup, Expired;
    LoopFreedom.RunInv(nets, moves);
    assert LoopFreedom.NodeBacked(nets[|moves|], x, nets[|moves|][x]);
    LoopFreedom.IdAndOk(nets[|moves|], x);
    OkIsIndexed(nets[|moves|][x]);
    CleanupExact(nets[|moves|][x], now);
  }

  lemma OkIsIndexed(n: Node)
    requires NodeOk(n)
    ensures NodeIndexed(n) && Indexed(n.hash, n.hashTime)
  {
  }

  // ---- remote pulls --------------------------------------------------------------------

  lemma HeardPulls(n: Node, e: Event)
    requires e.Receive? && React(n, e).Running? && !(e.from != n.id && e.msg.OtaAck?)
    ensures React(n, e).node.remotePull == n.remotePull
  {
    hide Hashed, HashedAt, AdvDistance, AdvForward, AdvRaises, JoinsTree, Overrides, LearnPath, AdvHash, DataHash,
         DataDistance, DataForward, DataRaises, Handed, OnAck, SetAckTimer;
    if e.from != n.id {
      match e.msg
      case OtaAdv(a) =>
      case OtaData(d) =>
    }
  }

  lemma ClientPulls(n: Node, s: Session, c: ClientCmd, now: int)
    requires OnClient(n, s, c, now).Running?
    ensures OnClient(n, s, c, now).node.remotePull == n.remotePull
  {
    hide HashedAt, Hashed, DataDistance, DataHash, Handed, ClientSends, NextSeq, RemoveFirst, Registered;
    match c
    case ClientData(d) =>
    case ClientPull(g) =>
    case ClientUnpull(g) =>
    case ClientRegister(_, _, _, _, _) =>
    case ClientDeregister(g) =>
  }

  lemma SamePulls(n: Node, e: Event)
    requires React(n, e).Running? && !e.PullTimer? && !(e.Receive? && e.from != n.id && e.msg.OtaAck?)
    ensures React(n, e).node.remotePull == n.remotePull
  {
    hide HashedAt, Hashed, OwnDistance, AdvHash, AckProb, ExpiredKeys, Fresh, FilterSeq, OnClient, OnReceive;
    match e
    case Receive(from, o, draw, now) => HeardPulls(n, e);
    case AckTimer(k) =>
    case AdvTimer(k) =>
    case DataTimer(h) =>
    case AnnounceTimer(gid, now) =>
    case HashTimer(now) =>
    case ClientGone(s) =>
    case FromClient(s, c, now) => ClientPulls(n, s, c, now);
  }

  lemma AckPulls(n: Node, a: Ack, from: NodeId, draw: nat, now: int)
    requires OnAck(n, a, from, draw, now).Running?
    ensures OnAck(n, a, from, draw, now).node.remotePull ==
            if Adopts(n, a, draw) then AddPull(n.remotePull, RemotePull(a.gid, from, now)) else n.remotePull
  {
    hide Adopts, PassesAck, Flips, Chosen, AddPull, SetAckTimer;
  }

  lemma ReactOnePull(n: Node, e: Event)
    requires PullTable.Single(n.remotePull) && React(n, e).Running?
    ensures PullTable.Single(React(n, e).node.remotePull)
  {
    hide PullTable.Single, AddPull, Adopts, OnAck, OnPullCleanup;
    if e.PullTimer? {
      PullTable.DropStaleExact(n, e.now, RemotePull(0, 0, 0));
    } else if e.Receive? && e.from != n.id && e.msg.OtaAck? {
      AckPulls(n, e.msg.ack, e.from, e.draw, e.now);
      PullTable.AddPullRefines(n.remotePull, RemotePull(e.msg.ack.gid, e.from, e.now));
    } else {
      hide React;
      SamePulls(n, e);
    }
  }

  /** In every run the remote-pull multimap holds at most one entry for a group and a child. */
  lemma {:induction false} OnePullPerChild(nets: seq<Net>, moves: seq<Move>, x: NodeId)
    requires Run(nets, moves) && x in nets[|moves|]
    ensures PullTable.Single(nets[|moves|][x].remotePull)
    decreases |moves|
  {
    hide React, Enabled;
    if moves != [] {
      RunPrefix(nets, moves);
      var last := |moves| - 1;
      assert Step(nets[last], moves[last].node, moves[last].event, nets[last + 1]);
      assert x in nets[last] by { SameNodes(nets[last], moves[last].node, moves[last].event, nets[last + 1]); }
      OnePullPerChild(nets[..|moves|], moves[..last], x);
      if moves[last].node == x {
        ReactOnePull(nets[last][x], moves[last].event);
      }
    }
  }
}
