/** What a node knows of a flow, told from the messages it received: how far the source is, which
    message is the latest, who sent it copies, the way back, and the ACKs that follow from it. */
module Hearing {
  import opened Types
  import opened NodeSpec
  import opened Network
  import opened Origin
  import opened Air
  import Traffic

  // ---- one event -----------------------------------------------------------------------

  function DistanceOf(m: OtaMsg): u32 {
    match m case OtaAdv(a) => a.distance case OtaData(d) => d.distance case OtaAck(_) => 0
  }

  /** The event brings node `x` a copy of an ADVERTISE or DATA message of the flow from another node. */
  predicate Hears(x: NodeId, e: Event, k: FlowKey) {
    e.Receive? && e.from != x && !e.msg.OtaAck? && FlowOf(KeyOf(e.msg).value) == k
  }

  /** The copy is the first of its flow, or news other than a repetition of the latest message. */
  predicate Measures(n: Node, e: Event, k: FlowKey) {
    && Hears(n.id, e, k)
    && (k !in n.dist || (KeyOf(e.msg).value !in n.hash && n.dist[k].latest != KeyOf(e.msg).value))
  }

  /** It becomes the latest message: the first of any kind, after that advertisements only. */
  predicate Renews(n: Node, e: Event, k: FlowKey) { Measures(n, e, k) && (k !in n.dist || e.msg.OtaAdv?) }

  /** It repeats the latest message. */
  predicate Repeats(n: Node, e: Event, k: FlowKey) {
    Hears(n.id, e, k) && k in n.dist && n.dist[k].latest == KeyOf(e.msg).value
  }

  /** What a copy does to the entry of its flow. */
  ghost predicate EntryMoves(n: Node, e: Event, m: Node, k: FlowKey) {
    && (Hears(n.id, e, k) || k in n.dist <==> k in m.dist)
    && (Measures(n, e, k) ==> m.dist[k].hops == (DistanceOf(e.msg) + 1) % U32)
    && (Renews(n, e, k) ==> m.dist[k].latest == KeyOf(e.msg).value && m.dist[k].srcs == {e.from})
    && (k in n.dist && !Measures(n, e, k) ==> m.dist[k].hops == n.dist[k].hops)
    && (k in n.dist && !Renews(n, e, k) ==> m.dist[k].latest == n.dist[k].latest)
    && (k in n.dist && !Renews(n, e, k) ==>
          m.dist[k].srcs == if Repeats(n, e, k) then n.dist[k].srcs + {e.from} else n.dist[k].srcs)
  }

  lemma AdvertiseEntry(n: Node, e: Event, k: FlowKey)
    requires e.Receive? && e.from != n.id && e.msg.OtaAdv? && k.src != n.id
    ensures EntryMoves(n, e, OnAdvertise(n, e.msg.adv, e.from, e.now), k)
  {
    var a := e.msg.adv;
    AdvKeyKind(a);
    assert FlowOf(AdvHash(a)) == AdvFlow(a);
    hide HashedAt, AdvForward, AdvRaises, JoinsTree, Overrides, LearnPath, AdvHash, PullWrites, Pulled, SetAckTimer;
  }

  lemma DataEntry(n: Node, e: Event, k: FlowKey)
    requires e.Receive? && e.from != n.id && e.msg.OtaData? && k.src != n.id
    ensures EntryMoves(n, e, OnData(n, e.msg.data, e.from, e.now), k)
  {
    var d0 := e.msg.data;
    DataKeyKind(d0);
    CopyKeepsKey(d0, d0.ttl, Inc32(d0.distance), 0);
    assert FlowOf(DataHash(d0)) == DataFlow(d0);
    hide OnData, DataForward, DataHash;
    DataTables(n, d0, e.from, e.now);
  }

  /** Hearing its own latest message back counts for nothing. */
  lemma OwnNotCounted(n: Node, e: Event, k: FlowKey)
    requires React(n, e).Running? && k.src == n.id && Repeats(n, e, k)
    ensures k in React(n, e).node.dist && React(n, e).node.dist[k] == n.dist[k]
  {
    hide HashedAt, AdvForward, AdvRaises, JoinsTree, Overrides, LearnPath, PullWrites, Pulled, SetAckTimer, DataForward,
         DataRaises, Handed, AdvHash, DataHash;
    match e.msg
    case OtaAdv(a) =>
      AdvKeyKind(a);
    case OtaData(d0) =>
      DataKeyKind(d0);
      CopyKeepsKey(d0, d0.ttl, Inc32(d0.distance), 0);
  }

  lemma SameEntry(n: Node, e: Event, m: Node, k: FlowKey)
    requires !Hears(n.id, e, k) && (k in m.dist <==> k in n.dist) && (k in n.dist ==> m.dist[k] == n.dist[k])
    ensures EntryMoves(n, e, m, k)
  {
  }

  lemma ReactEntry(n: Node, e: Event, k: FlowKey)
    requires React(n, e).Running? && k.src != n.id
    ensures EntryMoves(n, e, React(n, e).node, k)
  {
    hide EntryMoves;
    if e.Receive? && e.from != n.id {
      ReceiveEntry(n, e, k);
    } else if e.FromClient? && e.cmd.ClientData? {
      hide OnClientData;
      Traffic.ClientTalk(n, e.session, e.cmd.data, e.now);
      SameEntry(n, e, React(n, e).node, k);
    } else {
      if e.AnnounceTimer? { AnnounceEntry(n, e, k); } else if !e.Receive? { QuietOrClean(n, e); }
      SameEntry(n, e, React(n, e).node, k);
    }
  }

  lemma ReceiveEntry(n: Node, e: Event, k: FlowKey)
    requires e.Receive? && e.from != n.id && React(n, e).Running? && k.src != n.id
    ensures EntryMoves(n, e, React(n, e).node, k)
  {
    hide EntryMoves, OnAdvertise, OnData;
    match e.msg
    case OtaAdv(_) => AdvertiseEntry(n, e, k);
    case OtaData(_) => DataEntry(n, e, k);
    case OtaAck(a) =>
      hide Adopts, PassesAck, Flips, Chosen, AddPull, PullWrites, Pulled, SetAckTimer;
      SameEntry(n, e, React(n, e).node, k);
  }

  lemma AnnounceEntry(n: Node, e: Event, k: FlowKey)
    requires e.AnnounceTimer? && React(n, e).Running? && k.src != n.id
    ensures var m := React(n, e).node; (k in m.dist <==> k in n.dist) && (k in n.dist ==> m.dist[k] == n.dist[k])
  {
    hide HashedAt, AdvHash;
  }

  lemma QuietOrClean(n: Node, e: Event)
    requires QuietEvent(e) || e.HashTimer?
    requires React(n, e).Running?
    ensures React(n, e).node.dist == n.dist
  {
    hide React;
    if e.HashTimer? { UntouchedReact(n, e); } else { QuietReact(n, e); }
  }

  // ---- runs ----------------------------------------------------------------------------

  lemma {:induction false} NodesStay(nets: seq<Net>, moves: seq<Move>, i: nat)
    requires Run(nets, moves) && i <= |moves|
    ensures nets[i].Keys == nets[0].Keys && forall x :: x in nets[i] ==> nets[i][x].id == x
    decreases i
  {
    hide React;
    if i > 0 {
      NodesStay(nets, moves, i - 1);
      assert Step(nets[i - 1], moves[i - 1].node, moves[i - 1].event, nets[i - 1 + 1]);
      IdStays(nets[i - 1][moves[i - 1].node], moves[i - 1].event);
    }
  }

  lemma IdStays(n: Node, e: Event)
    requires React(n, e).Running?
    ensures React(n, e).node.id == n.id
  {
    hide OnAdvertise, OnAck, OnData, OnAckTimeout, OnClientData, OnPullCleanup, OnHashCleanup, OnClose, OnRegister,
         RemoveFirst, OnAnnounce, AckProb;
    if IdleEvent(e) {
      hide React;
      UntouchedReact(n, e);
    } else if e.Receive? {
      ReceiveLog(n, e);
    } else if TimerEvent(e) {
      TimerReact(n, e);
    } else if e.FromClient? {
      Traffic.ClientTalk(n, e.session, e.cmd.data, e.now);
    } else {
      AnnounceId(n, e.gid, e.now);
    }
  }

  lemma AnnounceId(n: Node, gid: GroupId, now: int)
    requires OnAnnounce(n, gid, now).Running?
    ensures OnAnnounce(n, gid, now).node.id == n.id
  {
  }

  lemma RunShape(nets: seq<Net>, moves: seq<Move>)
    requires Run(nets, moves)
    ensures |nets| == |moves| + 1
  {
  }

  /** Event `i` happened at `x`. */
  ghost predicate At(nets: seq<Net>, moves: seq<Move>, i: nat, x: NodeId) {
    i < |moves| && |nets| == |moves| + 1 && moves[i].node == x && x in nets[i]
  }

  /** One step of a run, seen at one node. */
  lemma StepEntry(nets: seq<Net>, moves: seq<Move>, i: nat, x: NodeId, k: FlowKey)
    requires Run(nets, moves) && i < |moves| && x in nets[0] && k.src != x
    ensures x in nets[i] && x in nets[i + 1] && nets[i][x].id == x
    ensures if At(nets, moves, i, x) then EntryMoves(nets[i][x], moves[i].event, nets[i + 1][x], k)
            else nets[i + 1][x] == nets[i][x]
  {
    hide React, EntryMoves;
    NodesStay(nets, moves, i);
    assert Step(nets[i], moves[i].node, moves[i].event, nets[i + 1]);
    if moves[i].node == x {
      ReactEntry(nets[i][x], moves[i].event, k);
    }
  }

  ghost predicate MeasuredAt(nets: seq<Net>, moves: seq<Move>, i: nat, x: NodeId, k: FlowKey) {
    At(nets, moves, i, x) && Measures(nets[i][x], moves[i].event, k)
  }

  ghost predicate RenewedAt(nets: seq<Net>, moves: seq<Move>, i: nat, x: NodeId, k: FlowKey) {
    At(nets, moves, i, x) && Renews(nets[i][x], moves[i].event, k)
  }

  /** The last time before `i` that the flow was measured. */
  ghost predicate LastMeasured(nets: seq<Net>, moves: seq<Move>, i: nat, j: nat, x: NodeId, k: FlowKey) {
    j < i && MeasuredAt(nets, moves, j, x, k) && forall l :: j < l < i ==> !MeasuredAt(nets, moves, l, x, k)
  }

  ghost predicate LastRenewed(nets: seq<Net>, moves: seq<Move>, i: nat, j: nat, x: NodeId, k: FlowKey) {
    j < i && RenewedAt(nets, moves, j, x, k) && forall l :: j < l < i ==> !RenewedAt(nets, moves, l, x, k)
  }

  /** The hop count of a flow is one more than the distance in the last copy that measured it. */
  lemma {:induction false} HopsTold(nets: seq<Net>, moves: seq<Move>, i: nat, x: NodeId, k: FlowKey) returns (j: nat)
    requires Run(nets, moves) && i <= |moves| && x in nets[0] && k.src != x && x in nets[i] && k in nets[i][x].dist
    ensures LastMeasured(nets, moves, i, j, x, k) && moves[j].event.Receive?
    ensures nets[i][x].dist[k].hops == (DistanceOf(moves[j].event.msg) + 1) % U32
    decreases i
  {
    hide React, Measures, Run;
    if i == 0 {
      NothingKnown(nets, moves, x);
    } else {
      RunShape(nets, moves);
      StepEntry(nets, moves, i - 1, x, k);
      if MeasuredAt(nets, moves, i - 1, x, k) {
        j := i - 1;
        MeasuresReceives(nets[j][x], moves[j].event, k);
      } else {
        StillEntry(nets, moves, i - 1, x, k);
        j := HopsTold(nets, moves, i - 1, x, k);
      }
    }
  }

  lemma NothingKnown(nets: seq<Net>, moves: seq<Move>, x: NodeId)
    requires Run(nets, moves) && x in nets[0]
    ensures nets[0][x].dist == map[] && nets[0][x].revPath == map[] && nets[0][x].advSeen == {}
            && nets[0][x].hash == map[]
  {
  }

  lemma MeasuresReceives(n: Node, e: Event, k: FlowKey)
    requires Measures(n, e, k)
    ensures e.Receive?
  {
  }

  /** Where the flow is not measured, its entry was there before. */
  lemma StillEntry(nets: seq<Net>, moves: seq<Move>, i: nat, x: NodeId, k: FlowKey)
    requires i < |moves| && |nets| == |moves| + 1 && x in nets[i] && x in nets[i + 1] && nets[i][x].id == x
    requires if At(nets, moves, i, x) then EntryMoves(nets[i][x], moves[i].event, nets[i + 1][x], k)
             else nets[i + 1][x] == nets[i][x]
    requires !MeasuredAt(nets, moves, i, x, k) && k in nets[i + 1][x].dist
    ensures k in nets[i][x].dist && nets[i + 1][x].dist[k].hops == nets[i][x].dist[k].hops
    ensures nets[i + 1][x].dist[k].latest == nets[i][x].dist[k].latest
  {
  }

  /** The latest message of a flow is the last that renewed it, and is of the flow. */
  lemma {:induction false} LatestTold(nets: seq<Net>, moves: seq<Move>, i: nat, x: NodeId, k: FlowKey) returns (j: nat)
    requires Run(nets, moves) && i <= |moves| && x in nets[0] && k.src != x && x in nets[i] && k in nets[i][x].dist
    ensures LastRenewed(nets, moves, i, j, x, k) && moves[j].event.Receive? && !moves[j].event.msg.OtaAck?
    ensures nets[i][x].dist[k].latest == KeyOf(moves[j].event.msg).value && FlowOf(nets[i][x].dist[k].latest) == k
    decreases i
  {
    hide React, Run;
    if i == 0 {
      NothingKnown(nets, moves, x);
    } else {
      StepEntry(nets, moves, i - 1, x, k);
      if RenewedAt(nets, moves, i - 1, x, k) {
        j := i - 1;
      } else {
        j := LatestTold(nets, moves, i - 1, x, k);
      }
    }
  }

  /** `x` received a copy of the latest message from `y`, and it has been the latest since. */
  ghost predicate HeardFrom(nets: seq<Net>, moves: seq<Move>, i: nat, x: NodeId, k: FlowKey, y: NodeId, j: nat) {
    && j < i && i < |nets| && At(nets, moves, j, x) && x in nets[i] && k in nets[i][x].dist
    && moves[j].event.Receive? && moves[j].event.from == y && y != x
    && KeyOf(moves[j].event.msg) == Some(nets[i][x].dist[k].latest)
    && forall l :: j < l <= i ==>
         x in nets[l] && k in nets[l][x].dist && nets[l][x].dist[k].latest == nets[i][x].dist[k].latest
  }

  ghost predicate IsHeard(nets: seq<Net>, moves: seq<Move>, i: nat, x: NodeId, k: FlowKey, y: NodeId) {
    exists j: nat :: HeardFrom(nets, moves, i, x, k, y, j)
  }

  /** The neighbours counted for a flow are exactly those that sent the node its latest message since it
      became the latest. */
  lemma {:induction false} SourcesTold(nets: seq<Net>, moves: seq<Move>, i: nat, x: NodeId, k: FlowKey, y: NodeId)
    requires Run(nets, moves) && i <= |moves| && x in nets[0] && k.src != x && x in nets[i] && k in nets[i][x].dist
    ensures y in nets[i][x].dist[k].srcs <==> IsHeard(nets, moves, i, x, k, y)
    decreases i
  {
    hide React, Run, EntryMoves;
    if i == 0 {
      NothingKnown(nets, moves, x);
    } else {
      StepEntry(nets, moves, i - 1, x, k);
      var f := LatestTold(nets, moves, i, x, k);
      if k in nets[i - 1][x].dist && nets[i - 1][x].dist[k].latest == nets[i][x].dist[k].latest {
        SourcesTold(nets, moves, i - 1, x, k, y);
        SourcesGrow(nets, moves, i - 1, x, k, y);
      } else {
        SourcesBegin(nets, moves, i - 1, x, k, y);
      }
    }
  }

  /** While the latest message stays, whoever sends a copy is added. */
  lemma SourcesGrow(nets: seq<Net>, moves: seq<Move>, i: nat, x: NodeId, k: FlowKey, y: NodeId)
    requires i < |moves| && |nets| == |moves| + 1 && x in nets[i] && x in nets[i + 1] && nets[i][x].id == x
    requires if At(nets, moves, i, x) then EntryMoves(nets[i][x], moves[i].event, nets[i + 1][x], k)
             else nets[i + 1][x] == nets[i][x]
    requires k in nets[i][x].dist && k in nets[i + 1][x].dist
    requires nets[i][x].dist[k].latest == nets[i + 1][x].dist[k].latest && FlowOf(nets[i][x].dist[k].latest) == k
    requires y in nets[i][x].dist[k].srcs <==> IsHeard(nets, moves, i, x, k, y)
    ensures y in nets[i + 1][x].dist[k].srcs <==> IsHeard(nets, moves, i + 1, x, k, y)
  {
    if IsHeard(nets, moves, i, x, k, y) {
      var j: nat :| HeardFrom(nets, moves, i, x, k, y, j);
      assert HeardFrom(nets, moves, i + 1, x, k, y, j);
    }
    if IsHeard(nets, moves, i + 1, x, k, y) {
      var j: nat :| HeardFrom(nets, moves, i + 1, x, k, y, j);
      if j < i {
        assert HeardFrom(nets, moves, i, x, k, y, j);
      }
    }
    if At(nets, moves, i, x) && Repeats(nets[i][x], moves[i].event, k) {
      assert HeardFrom(nets, moves, i + 1, x, k, moves[i].event.from, i);
    }
  }

  /** A new latest message has been heard from the neighbour that brought it. */
  lemma SourcesBegin(nets: seq<Net>, moves: seq<Move>, i: nat, x: NodeId, k: FlowKey, y: NodeId)
    requires i < |moves| && |nets| == |moves| + 1 && x in nets[i] && x in nets[i + 1] && nets[i][x].id == x
    requires if At(nets, moves, i, x) then EntryMoves(nets[i][x], moves[i].event, nets[i + 1][x], k)
             else nets[i + 1][x] == nets[i][x]
    requires k in nets[i + 1][x].dist
    requires !(k in nets[i][x].dist && nets[i][x].dist[k].latest == nets[i + 1][x].dist[k].latest)
    ensures y in nets[i + 1][x].dist[k].srcs <==> IsHeard(nets, moves, i + 1, x, k, y)
  {
    assert At(nets, moves, i, x) && Renews(nets[i][x], moves[i].event, k);
    assert HeardFrom(nets, moves, i + 1, x, k, moves[i].event.from, i);
    if IsHeard(nets, moves, i + 1, x, k, y) {
      var j: nat :| HeardFrom(nets, moves, i + 1, x, k, y, j);
      assert j == i;
    }
  }

  /** A flow is known exactly if a copy of it has been received from another node. */
  lemma {:induction false} KnownIff(nets: seq<Net>, moves: seq<Move>, i: nat, x: NodeId, k: FlowKey)
    requires Run(nets, moves) && i <= |moves| && x in nets[0] && k.src != x && x in nets[i]
    ensures k in nets[i][x].dist <==> exists j: nat :: j < i && At(nets, moves, j, x) && Hears(x, moves[j].event, k)
    decreases i
  {
    hide React, Run, Hears;
    if i == 0 {
      NothingKnown(nets, moves, x);
    } else {
      StepEntry(nets, moves, i - 1, x, k);
      KnownIff(nets, moves, i - 1, x, k);
    }
  }

  // ---- the way back --------------------------------------------------------------------

  /** The event brings an advertisement of the flow that is news, and newer than what the path is from. */
  predicate Leads(n: Node, e: Event, k: FlowKey) {
    && e.Receive? && e.from != n.id && e.msg.OtaAdv? && AdvFlow(e.msg.adv) == k && AdvHash(e.msg.adv) !in n.hash
    && (k in n.revPath ==> n.revPath[k].seqNo < e.msg.adv.sequence)
  }

  ghost predicate PathMoves(n: Node, e: Event, m: Node, k: FlowKey) {
    && (Leads(n, e, k) ==>
          && k in m.revPath && m.revPath[k].next == e.from && m.revPath[k].seqNo == e.msg.adv.sequence
          && m.revPath[k].probRelay == e.msg.adv.probrelay && m.revPath[k].time == e.now)
    && (!Leads(n, e, k) ==> (k in m.revPath <==> k in n.revPath) && (k in n.revPath ==> m.revPath[k] == n.revPath[k]))
  }

  /** The event brings the advertisement to a group node, or with some TTL left. */
  predicate Sees(n: Node, e: Event, id: AdvId) {
    && e.Receive? && e.from != n.id && e.msg.OtaAdv? && AdvIdOf(e.msg.adv) == id
    && (IsGroupNode(n, e.msg.adv.gid) || e.msg.adv.ttl > 0)
  }

  lemma AdvertisePath(n: Node, e: Event, k: FlowKey, id: AdvId)
    requires e.Receive? && e.from != n.id && e.msg.OtaAdv?
    ensures var m := OnAdvertise(n, e.msg.adv, e.from, e.now);
            PathMoves(n, e, m, k) && (id in m.advSeen <==> id in n.advSeen || Sees(n, e, id))
  {
    hide AdvHash, IsGroupNode, HashedAt, NextDistance, AdvForward, AdvRaises, JoinsTree, Overrides, PullWrites, Pulled,
         SetAckTimer;
  }

  lemma SamePath(n: Node, e: Event, m: Node, k: FlowKey, id: AdvId)
    requires m.revPath == n.revPath && m.advSeen == n.advSeen && !(e.Receive? && e.from != n.id && e.msg.OtaAdv?)
    ensures PathMoves(n, e, m, k) && (id in m.advSeen <==> id in n.advSeen || Sees(n, e, id))
  {
  }

  lemma DataPath(n: Node, d: Data, from: NodeId, now: int)
    ensures OnData(n, d, from, now).revPath == n.revPath && OnData(n, d, from, now).advSeen == n.advSeen
  {
    hide HashedAt, DataDistance, DataForward, DataRaises, Handed, DataHash;
  }

  lemma AckPath(n: Node, a: Ack, from: NodeId, draw: nat, now: int)
    requires OnAck(n, a, from, draw, now).Running?
    ensures var m := OnAck(n, a, from, draw, now).node; m.revPath == n.revPath && m.advSeen == n.advSeen
  {
    hide Adopts, PassesAck, Flips, Chosen, AddPull, PullWrites, Pulled, SetAckTimer;
  }

  lemma ReactPath(n: Node, e: Event, k: FlowKey, id: AdvId)
    requires React(n, e).Running?
    ensures PathMoves(n, e, React(n, e).node, k)
    ensures id in React(n, e).node.advSeen <==> id in n.advSeen || Sees(n, e, id)
  {
    hide PathMoves, Sees, OnAdvertise, OnData, OnAck, OnClientData;
    if e.Receive? && e.from != n.id && e.msg.OtaAdv? {
      AdvertisePath(n, e, k, id);
    } else {
      if e.Receive? && e.from != n.id {
        if e.msg.OtaData? {
          DataPath(n, e.msg.data, e.from, e.now);
        } else {
          AckPath(n, e.msg.ack, e.from, e.draw, e.now);
        }
      } else if !e.Receive? {
        OwnPath(n, e);
      }
      SamePath(n, e, React(n, e).node, k, id);
    }
  }

  lemma OwnPath(n: Node, e: Event)
    requires !e.Receive? && React(n, e).Running?
    ensures React(n, e).node.revPath == n.revPath && React(n, e).node.advSeen == n.advSeen
  {
    if e.FromClient? && e.cmd.ClientData? {
      hide OnClientData;
      Traffic.ClientTalk(n, e.session, e.cmd.data, e.now);
    } else if e.AnnounceTimer? {
      hide HashedAt, OwnDistance, AdvHash;
    } else {
      QuietPath(n, e);
    }
  }

  lemma QuietPath(n: Node, e: Event)
    requires QuietEvent(e) || e.HashTimer?
    requires React(n, e).Running?
    ensures React(n, e).node.revPath == n.revPath && React(n, e).node.advSeen == n.advSeen
  {
    hide React;
    if e.HashTimer? { UntouchedReact(n, e); } else { QuietReact(n, e); }
  }

  ghost predicate LedAt(nets: seq<Net>, moves: seq<Move>, i: nat, x: NodeId, k: FlowKey) {
    At(nets, moves, i, x) && Leads(nets[i][x], moves[i].event, k)
  }

  lemma StepPath(nets: seq<Net>, moves: seq<Move>, i: nat, x: NodeId, k: FlowKey, id: AdvId)
    requires Run(nets, moves) && i < |moves| && x in nets[0]
    ensures x in nets[i] && x in nets[i + 1] && nets[i][x].id == x
    ensures if At(nets, moves, i, x) then
              && PathMoves(nets[i][x], moves[i].event, nets[i + 1][x], k)
              && (id in nets[i + 1][x].advSeen <==> id in nets[i][x].advSeen || Sees(nets[i][x], moves[i].event, id))
            else nets[i + 1][x] == nets[i][x]
  {
    hide React, PathMoves, Sees;
    NodesStay(nets, moves, i);
    assert Step(nets[i], moves[i].node, moves[i].event, nets[i + 1]);
    if moves[i].node == x {
      ReactPath(nets[i][x], moves[i].event, k, id);
    }
  }

  /** The way back leads to the neighbour that brought the last advertisement that was news and newer
      than all before it, and has that advertisement's number and relay probability. */
  lemma {:induction false} PathTold(nets: seq<Net>, moves: seq<Move>, i: nat, x: NodeId, k: FlowKey) returns (j: nat)
    requires Run(nets, moves) && i <= |moves| && x in nets[0] && x in nets[i] && k in nets[i][x].revPath
    ensures j < i && LedAt(nets, moves, j, x, k) && forall l :: j < l < i ==> !LedAt(nets, moves, l, x, k)
    ensures moves[j].event.Receive? && moves[j].event.msg.OtaAdv?
    ensures var p, a := nets[i][x].revPath[k], moves[j].event.msg.adv;
            p.next == moves[j].event.from && p.seqNo == a.sequence && p.probRelay == a.probrelay
  {
    hide React, Run;
    RunShape(nets, moves);
    if i == 0 {
      NothingKnown(nets, moves, x);
    } else {
      StepPath(nets, moves, i - 1, x, k, AdvId(0, 0, 0));
      if LedAt(nets, moves, i - 1, x, k) {
        j := i - 1;
      } else {
        j := PathTold(nets, moves, i - 1, x, k);
      }
    }
  }

  /** A node has seen an advertisement, and may flip for it, exactly if it once received it from another
      node while in the group or with some TTL left. */
  lemma {:induction false} SeenIff(nets: seq<Net>, moves: seq<Move>, i: nat, x: NodeId, id: AdvId)
    requires Run(nets, moves) && i <= |moves| && x in nets[0] && x in nets[i]
    ensures id in nets[i][x].advSeen <==>
              exists j: nat :: j < i && At(nets, moves, j, x) && Sees(nets[j][x], moves[j].event, id)
    decreases i
  {
    hide React, Run, Sees, PathMoves;
    RunShape(nets, moves);
    if i == 0 {
      NothingKnown(nets, moves, x);
    } else {
      StepPath(nets, moves, i - 1, x, FlowKey(0, 0), id);
      SeenIff(nets, moves, i - 1, x, id);
    }
  }

  // ---- the ACK that follows ------------------------------------------------------------

  /** The neighbours from which the node has heard the latest message of the flow. */
  ghost function Neighbours(nets: seq<Net>, moves: seq<Move>, i: nat, x: NodeId, k: FlowKey): set<NodeId>
    requires i < |nets|
  {
    set y | y in nets[i] && IsHeard(nets, moves, i, x, k, y)
  }

  lemma NeighboursCounted(nets: seq<Net>, moves: seq<Move>, i: nat, x: NodeId, k: FlowKey)
    requires Run(nets, moves) && i <= |moves| && x in nets[0] && k.src != x && x in nets[i] && k in nets[i][x].dist
    ensures nets[i][x].dist[k].srcs == Neighbours(nets, moves, i, x, k)
  {
    hide IsHeard, Run;
    RunShape(nets, moves);
    forall y ensures y in nets[i][x].dist[k].srcs <==> y in Neighbours(nets, moves, i, x, k) {
      SourcesTold(nets, moves, i, x, k, y);
      if IsHeard(nets, moves, i, x, k, y) {
        HeardInside(nets, moves, i, x, k, y);
      }
    }
  }

  lemma HeardInside(nets: seq<Net>, moves: seq<Move>, i: nat, x: NodeId, k: FlowKey, y: NodeId)
    requires Run(nets, moves) && i <= |moves| && IsHeard(nets, moves, i, x, k, y)
    ensures y in nets[i]
  {
    hide React;
    var j: nat :| HeardFrom(nets, moves, i, x, k, y, j);
    assert Step(nets[j], moves[j].node, moves[j].event, nets[j + 1]);
    NodesStay(nets, moves, i);
    NodesStay(nets, moves, j);
  }

  /** When an ACK leaves, it carries the probability of the way back up to 100, and above that its share
      among the neighbours that sent the node the latest message of the flow, of whom there are some. */
  lemma AckSays(nets: seq<Net>, moves: seq<Move>, i: nat, k: FlowKey)
    requires Run(nets, moves) && i < |moves| && moves[i].event == AckTimer(k) && k.src != moves[i].node
    ensures moves[i].node in nets[i] && moves[i].node in nets[i + 1]
    ensures var x := moves[i].node; var n, m := nets[i][x], nets[i + 1][x];
            && k in n.ackTimers && k in n.revPath && |m.sent| == |n.sent| + 1 && n.sent <= m.sent
            && m.sent[|n.sent|].OtaAck? && m.sent[|n.sent|].ack == n.ackTimers[k].(prob := m.sent[|n.sent|].ack.prob)
            && var p, c, heard := m.sent[|n.sent|].ack.prob, n.revPath[k].probRelay, Neighbours(nets, moves, i, x, k);
               if c <= 100 then p == c else |heard| > 0 && p == c / |heard|
  {
    hide Neighbours, IsHeard;
    var x := moves[i].node;
    NodesStay(nets, moves, i);
    assert Step(nets[i], moves[i].node, moves[i].event, nets[i + 1]);
    var n, m := nets[i][x], nets[i + 1][x];
    assert m.sent == n.sent + [OtaAck(n.ackTimers[k].(prob := AckProb(n, k).value))];
    if n.revPath[k].probRelay > 100 {
      NeighboursCounted(nets, moves, i, x, k);
    }
  }
}
