/** A network of services under an adversarial medium: any message ever sent may reach any
    node, any number of times, in any order, or never. Reverse paths do not expire. */
module Network {
  import opened Types
  import opened NodeSpec
  import opened HashIndex

  type Net = map<NodeId, Node>

  datatype Event =
    | Receive(from: NodeId, msg: OtaMsg, draw: nat, now: int)
    | AckTimer(flow: FlowKey)
    | AdvTimer(flow: FlowKey)
    | DataTimer(key: HashKey)
    | AnnounceTimer(gid: GroupId, now: int)
    | HashTimer(now: int)
    | PullTimer(now: int)
    | FromClient(session: Session, cmd: ClientCmd, now: int)
    | ClientGone(session: Session)

  function React(n: Node, e: Event): Outcome {
    match e
    case Receive(from, m, draw, now) => OnReceive(n, m, from, draw, now)
    case AckTimer(k) => OnAckTimeout(n, k)
    case AdvTimer(k) => OnAdvTimeout(n, k)
    case DataTimer(h) => OnDataTimeout(n, h)
    case AnnounceTimer(gid, now) => OnAnnounce(n, gid, now)
    case HashTimer(now) => Running(OnHashCleanup(n, now))
    case PullTimer(now) => Running(OnPullCleanup(n, now))
    case FromClient(s, c, now) => OnClient(n, s, c, now)
    case ClientGone(s) => Running(OnClose(n, s))
  }

  /** A client sends group DATA and DEREGISTER only for groups it has registered, and asks for
      an announcement interval below the pull expiry; the service exits on any other. */
  predicate WellBehaved(n: Node, c: ClientCmd) {
    match c
    case ClientData(d) => d.uheader.None? ==> d.gid in n.announce
    case ClientDeregister(gid) => gid in n.announce
    case ClientRegister(_, _, interval, _, _) => ClientInterval(interval) as real < n.pullExpire
      || ClientInterval(interval) <= 0
    case _ => true
  }

  predicate Enabled(net: Net, x: NodeId, e: Event) {
    && x in net
    && match e
       case Receive(from, m, draw, _) => from in net && m in net[from].sent && draw < 100
       case AckTimer(k) => k in net[x].ackTimers
       case AdvTimer(k) => k in net[x].advTimers
       case DataTimer(h) => h in net[x].dataTimers
       case AnnounceTimer(gid, _) => gid in net[x].announce
       case FromClient(_, c, _) => WellBehaved(net[x], c)
       case _ => true
  }

  predicate Step(net: Net, x: NodeId, e: Event, next: Net) {
    Enabled(net, x, e) && React(net[x], e).Running? && next == net[x := React(net[x], e).node]
  }

  datatype Move = Move(node: NodeId, event: Event)

  predicate Start(net: Net) {
    forall x :: x in net ==>
      net[x] == FreshNode(x, net[x].alwaysRebroadcast, net[x].hashExpire, net[x].pullExpire)
  }

  /** `nets` is a run: every network follows from the one before it by the move between them. */
  ghost predicate Run(nets: seq<Net>, moves: seq<Move>) {
    && |nets| == |moves| + 1 && Start(nets[0])
    && forall i :: 0 <= i < |moves| ==> Step(nets[i], moves[i].node, moves[i].event, nets[i + 1])
  }

  lemma RunPrefix(nets: seq<Net>, moves: seq<Move>)
    requires Run(nets, moves) && |moves| > 0
    ensures Run(nets[..|moves|], moves[..|moves| - 1])
    ensures Step(nets[|moves| - 1], moves[|moves| - 1].node, moves[|moves| - 1].event, nets[|moves|])
  {
  }

  lemma SameNodes(net: Net, x: NodeId, e: Event, next: Net)
    requires Step(net, x, e, next)
    ensures net.Keys == next.Keys
  {
    hide React;
  }

  // ---- what holds of one node ----------------------------------------------------------

  /** A node that is not the source of the flow has a reverse path at least as recent as `s`. */
  ghost predicate KnownSince(n: Node, k: FlowKey, s: u32) {
    k.src == n.id || (k in n.revPath && s <= n.revPath[k].seqNo)
  }

  /** An advertisement a node has noted, by hash or by the adv-seen set, left a reverse path. */
  ghost predicate Noted(n: Node) {
    && (forall v :: v in n.advSeen ==> KnownSince(n, FlowKey(v.gid, v.src), 0))
    && (forall h: HashKey :: h in n.hash && h.AdvHashKey? ==> KnownSince(n, AdvFlow(h.adv), h.adv.sequence))
  }

  /** The packet count is the number of distinct senders heard, and there is at least one. */
  ghost predicate Counted(t: map<FlowKey, Distance>) {
    forall k :: k in t ==> |t[k].srcs| >= 1 && t[k].count == |t[k].srcs| % U16
  }

  ghost predicate NodeOk(n: Node) {
    && n.revPath.Keys <= n.dist.Keys
    && n.ackTimers.Keys <= n.revPath.Keys
    && Counted(n.dist) && Noted(n) && NodeIndexed(n)
  }

  lemma NextCounted(n: Node, k: FlowKey, h: HashKey, hops: u32, from: NodeId, isNew: bool, isAdv: bool)
    requires Counted(n.dist)
    ensures Counted(n.dist[k := NextDistance(n.dist, n.id, k, h, hops, from, isNew, isAdv)])
  {
  }

  lemma NextIndexed(n: Node, h: HashKey, ttl: u32, now: int)
    requires NodeIndexed(n)
    ensures Indexed(Hashed(n.hash, h, ttl), HashedAt(n.hash, n.hashTime, h, now))
  {
    hide Indexed;
    if h !in n.hash {
      AddKeepsIndex(n.hash, n.hashTime, h, ttl, now);
    }
  }

  lemma RaiseIndexed(hash: map<HashKey, u32>, s: seq<HashTime>, h: HashKey, ttl: u32)
    requires Indexed(hash, s) && h in hash
    ensures Indexed(hash[h := ttl], s)
  {
  }

  lemma AdvertiseIndexed(n: Node, a: Advertise, from: NodeId, now: int)
    requires NodeIndexed(n)
    ensures NodeIndexed(OnAdvertise(n, a, from, now))
  {
    hide Indexed, HashedAt;
    NextIndexed(n, AdvHash(a), a.ttl, now);
    if AdvRaises(n, a) {
      RaiseIndexed(n.hash, n.hashTime, AdvHash(a), a.ttl);
      assert HashedAt(n.hash, n.hashTime, AdvHash(a), now) == n.hashTime by { KnownTime(n, AdvHash(a), now); }
    }
  }

  lemma KnownTime(n: Node, h: HashKey, now: int)
    requires h in n.hash
    ensures HashedAt(n.hash, n.hashTime, h, now) == n.hashTime
  {
  }

  lemma AdvertiseOk(n: Node, a: Advertise, from: NodeId, now: int)
    requires NodeOk(n)
    ensures NodeOk(OnAdvertise(n, a, from, now))
  {
    hide Indexed, Counted, AdvForward, Overrides, PullWrites, Pulled, HashedAt, NextDistance;
    var m := OnAdvertise(n, a, from, now);
    AdvertiseIndexed(n, a, from, now);
    NextCounted(n, AdvFlow(a), AdvHash(a), Inc32(a.distance), from, AdvHash(a) !in n.hash, true);
    assert AdvFlow(AdvHash(a).adv) == AdvFlow(a);
    assert KnownSince(m, AdvFlow(a), a.sequence);
    assert forall k: FlowKey, s: u32 :: KnownSince(n, k, s) ==> KnownSince(m, k, s);
    assert Noted(m);
  }

  lemma DataIndexed(n: Node, d: Data, from: NodeId, now: int)
    requires NodeIndexed(n)
    ensures NodeIndexed(OnData(n, d, from, now))
  {
    hide Indexed, HashedAt, DataForward, DataDistance, Handed;
    var h := DataHash(HeardData(d));
    NextIndexed(n, h, d.ttl, now);
    if DataRaises(n, HeardData(d)) {
      RaiseIndexed(n.hash, n.hashTime, h, d.ttl);
      KnownTime(n, h, now);
    }
  }

  lemma DataOk(n: Node, d: Data, from: NodeId, now: int)
    requires NodeOk(n)
    ensures NodeOk(OnData(n, d, from, now))
  {
    hide Indexed, Counted, HashedAt, DataForward, NextDistance, Handed;
    DataIndexed(n, d, from, now);
    var e := HeardData(d);
    NextCounted(n, DataFlow(e), DataHash(e), e.distance, from, DataHash(e) !in n.hash, false);
    assert forall h: HashKey :: h.AdvHashKey? && h in OnData(n, d, from, now).hash ==> h in n.hash;
  }

  lemma AckOk(n: Node, a: Ack, from: NodeId, draw: nat, now: int)
    requires NodeOk(n) && OnAck(n, a, from, draw, now).Running?
    ensures NodeOk(OnAck(n, a, from, draw, now).node)
  {
    hide Indexed, Counted, Adopts, AddPull, Flips, PullWrites, Pulled, Chosen;
  }

  lemma PreProcessIndexed(n: Node, d: Data, from: NodeId, s: Option<Session>, now: int)
    requires NodeIndexed(n)
    ensures NodeIndexed(PreProcess(n, d, from, s, now))
  {
    hide Indexed;
    NextIndexed(n, DataHash(d), d.ttl, now);
  }

  lemma ClientDataOk(n: Node, s: Session, d: Data, now: int)
    requires NodeOk(n) && OnClientData(n, s, d, now).Running?
    ensures NodeOk(OnClientData(n, s, d, now).node)
  {
    hide Indexed, Counted, HashedAt, NextDistance, Handed, ClientSends, NextSeq;
    var e := Stamped(n, d);
    PreProcessIndexed(n, e, n.id, Some(s), now);
    NextCounted(n, DataFlow(e), DataHash(e), e.distance, n.id, DataHash(e) !in n.hash, false);
    assert forall h: HashKey :: h.AdvHashKey? && h in OnClientData(n, s, d, now).node.hash ==> h in n.hash;
  }

  lemma AnnounceOk(n: Node, gid: GroupId, now: int)
    requires NodeOk(n) && OnAnnounce(n, gid, now).Running?
    ensures NodeOk(OnAnnounce(n, gid, now).node)
  {
    hide Indexed, Counted, HashedAt, NextDistance;
    var a := OwnAdvertise(n, gid);
    NextIndexed(n, AdvHash(a), a.ttl, now);
    NextCounted(n, AdvFlow(a), AdvHash(a), 0, n.id, true, true);
    assert KnownSince(n, AdvFlow(a), a.sequence);
  }

  lemma CleanupOk(n: Node, now: int)
    requires NodeOk(n)
    ensures NodeOk(OnHashCleanup(n, now))
  {
    hide Indexed, Counted, ExpiredKeys, Fresh;
    CleanupExact(n, now);
  }

  /** Every event keeps every node's own invariant. */
  lemma ReactOk(n: Node, e: Event)
    requires NodeOk(n) && React(n, e).Running?
    ensures NodeOk(React(n, e).node)
  {
    hide NodeOk, OnAdvertise, OnData, OnAck, OnHashCleanup, OnAnnounce, OnClientData;
    match e
    case Receive(from, m, draw, now) =>
      if from != n.id {
        match m
        case OtaAck(a) => AckOk(n, a, from, draw, now);
        case OtaAdv(a) => AdvertiseOk(n, a, from, now);
        case OtaData(d) => DataOk(n, d, from, now);
      }
    case AnnounceTimer(gid, now) => AnnounceOk(n, gid, now);
    case HashTimer(now) => CleanupOk(n, now);
    case FromClient(s, ClientData(d), now) => ClientDataOk(n, s, d, now);
    case _ => OtherOk(n, e);
  }

  /** An event that touches neither hash, distance nor path tables. */
  predicate Quiet(n: Node, m: Node) {
    && m.id == n.id && m.hash == n.hash && m.hashTime == n.hashTime && m.advSeen == n.advSeen
    && m.dist == n.dist && m.revPath == n.revPath && m.ackTimers.Keys <= n.ackTimers.Keys
  }

  predicate QuietEvent(e: Event) {
    e.AckTimer? || e.AdvTimer? || e.DataTimer? || e.PullTimer? || e.ClientGone? || (e.FromClient? && !e.cmd.ClientData?)
  }

  lemma QuietTimer(n: Node, e: Event)
    requires (e.AckTimer? || e.AdvTimer? || e.DataTimer?) && React(n, e).Running?
    ensures Quiet(n, React(n, e).node)
  {
    hide AckProb;
    match e
    case AckTimer(k) =>
    case AdvTimer(k) =>
    case DataTimer(h) =>
  }

  /** Housekeeping and membership events leave protocol tables, timers and the log alone. */
  predicate Untouched(n: Node, m: Node) {
    && m.id == n.id && m.alwaysRebroadcast == n.alwaysRebroadcast && m.revPath == n.revPath && m.dist == n.dist
    && m.coin == n.coin && m.ackSent == n.ackSent && m.ackTimers == n.ackTimers && m.advTimers == n.advTimers
    && m.dataTimers == n.dataTimers && m.advSeen == n.advSeen && m.seqByGid == n.seqByGid && m.sent == n.sent
  }

  predicate KeepsHash(n: Node, m: Node) { m.hash == n.hash && m.hashTime == n.hashTime }

  lemma UntouchedPullTimer(n: Node, now: int)
    ensures Untouched(n, OnPullCleanup(n, now)) && KeepsHash(n, OnPullCleanup(n, now))
  {
    hide FilterSeq, UnpullWrites, Orphaned, Orphans;
  }

  lemma UntouchedClose(n: Node, s: Session)
    ensures Untouched(n, OnClose(n, s)) && KeepsHash(n, OnClose(n, s))
  {
    hide FilterSeq;
  }

  lemma UntouchedHashTimer(n: Node, now: int)
    ensures Untouched(n, OnHashCleanup(n, now))
  {
    hide ExpiredKeys, Fresh;
  }

  lemma UntouchedClient(n: Node, s: Session, c: ClientCmd, now: int)
    requires !c.ClientData? && OnClient(n, s, c, now).Running?
    ensures Untouched(n, OnClient(n, s, c, now).node) && KeepsHash(n, OnClient(n, s, c, now).node)
  {
    hide OnClientData, RemoveFirst, Registered;
    match c
    case ClientPull(g) =>
    case ClientUnpull(g) =>
    case ClientRegister(_, _, _, _, _) =>
    case ClientDeregister(g) =>
  }

  predicate IdleEvent(e: Event) {
    e.HashTimer? || e.PullTimer? || e.ClientGone? || (e.FromClient? && !e.cmd.ClientData?)
  }

  lemma UntouchedReact(n: Node, e: Event)
    requires IdleEvent(e) && React(n, e).Running?
    ensures Untouched(n, React(n, e).node)
    ensures e.HashTimer? || KeepsHash(n, React(n, e).node)
  {
    hide Untouched, KeepsHash, OnHashCleanup, OnPullCleanup, OnClose, OnClient;
    match e
    case HashTimer(now) => UntouchedHashTimer(n, now);
    case PullTimer(now) => UntouchedPullTimer(n, now);
    case ClientGone(s) => UntouchedClose(n, s);
    case FromClient(s, c, now) => UntouchedClient(n, s, c, now);
  }

  lemma QuietReact(n: Node, e: Event)
    requires QuietEvent(e) && React(n, e).Running?
    ensures Quiet(n, React(n, e).node)
  {
    hide React;
    if IdleEvent(e) {
      UntouchedReact(n, e);
    } else {
      QuietTimer(n, e);
    }
  }

  lemma OtherOk(n: Node, e: Event)
    requires NodeOk(n) && QuietEvent(e) && React(n, e).Running?
    ensures NodeOk(React(n, e).node)
  {
    hide Indexed, Counted, Noted, React;
    QuietReact(n, e);
    SameNoted(n, React(n, e).node);
  }

  lemma SameNoted(n: Node, m: Node)
    requires Noted(n) && m.hash == n.hash && m.advSeen == n.advSeen && m.id == n.id && m.revPath == n.revPath
    ensures Noted(m)
  {
  }
}
