/** The state of one GCN service and, handler by handler, what becomes of each table.
    `sent` logs what went over the air, `written` what went to client sessions.
    Fatal stands for the process exit of a failed LOG_ASSERT or LOG_FATAL. */
module NodeSpec {
  import opened Types

  datatype Node = Node(
    id: NodeId, alwaysRebroadcast: bool, hashExpire: real, pullExpire: real,
    localPull: seq<LocalPull>, remotePull: seq<RemotePull>,
    announce: map<GroupId, Announce>, revPath: map<FlowKey, RevPath>,
    coin: map<FlowKey, u32>, ackSent: map<FlowKey, u32>, dist: map<FlowKey, Distance>,
    ackTimers: map<FlowKey, Ack>, advTimers: map<FlowKey, PendingAdv>, dataTimers: map<HashKey, PendingData>,
    advSeen: set<AdvId>, hash: map<HashKey, u32>, hashTime: seq<HashTime>,
    seqByGid: map<GroupId, nat>, sent: seq<OtaMsg>, written: seq<AppWrite>)

  datatype Outcome = Running(node: Node) | Fatal

  /** A service that has just been constructed. */
  function FreshNode(id: NodeId, alwaysRebroadcast: bool, hashExpire: real, pullExpire: real): Node {
    Node(id, alwaysRebroadcast, hashExpire, pullExpire, [], [], map[], map[], map[], map[], map[],
         map[], map[], map[], {}, map[], [], map[], [], [])
  }

  // ---- table lookups -------------------------------------------------------------------

  predicate AnyLocal(s: seq<LocalPull>, gid: GroupId) { exists e :: e in s && e.gid == gid }

  predicate AnyRemote(s: seq<RemotePull>, gid: GroupId) { exists e :: e in s && e.gid == gid }

  /** A participant of the group: a local subscriber or a local producer. */
  predicate IsGroupNode(n: Node, gid: GroupId) { AnyLocal(n.localPull, gid) || gid in n.announce }

  /** Whether this node relays DATA of an ADVERTISE/ACK group. */
  predicate RelaysTree(n: Node, gid: GroupId) {
    (IsGroupNode(n, gid) && n.alwaysRebroadcast) || AnyRemote(n.remotePull, gid)
  }

  /** The hop count known for a flow; zero, as in the source, when there is none. */
  function Hops(t: map<FlowKey, Distance>, k: FlowKey): u32 { if k in t then t[k].hops else 0 }

  // ---- hash ----------------------------------------------------------------------------

  /** Insertion into a multimap ordered by time: after all entries that are not later. */
  function InsertTime(s: seq<HashTime>, e: HashTime): (r: seq<HashTime>)
  {
    if s == [] || e.time < s[0].time then [e] + s else [s[0]] + InsertTime(s[1..], e)
  }

  function Hashed(t: map<HashKey, u32>, h: HashKey, ttl: u32): map<HashKey, u32> { if h in t then t else t[h := ttl] }

  function HashedAt(t: map<HashKey, u32>, s: seq<HashTime>, h: HashKey, now: int): seq<HashTime> {
    if h in t then s else InsertTime(s, HashTime(now, h))
  }

  predicate Expired(now: int, t: int, limit: real) { (now - t) as real > limit }

  function Fresh(s: seq<HashTime>, now: int, limit: real): seq<HashTime> {
    FilterSeq(s, (e: HashTime) => !Expired(now, e.time, limit))
  }

  function ExpiredKeys(s: seq<HashTime>, now: int, limit: real): set<HashKey> {
    set e | e in s && Expired(now, e.time, limit) :: e.key
  }

  function FilterSeq<T>(s: seq<T>, keep: T -> bool): seq<T> {
    if s == [] then [] else (if keep(s[0]) then [s[0]] else []) + FilterSeq(s[1..], keep)
  }

  function OnHashCleanup(n: Node, now: int): Node {
    n.(hash := n.hash - ExpiredKeys(n.hashTime, now, n.hashExpire), hashTime := Fresh(n.hashTime, now, n.hashExpire))
  }

  // ---- distance ------------------------------------------------------------------------

  /** The entry of a flow at node `me` after meeting message `h` of it, `hops` away, sent by `from`. */
  function NextDistance(t: map<FlowKey, Distance>, me: NodeId, k: FlowKey, h: HashKey, hops: u32, from: NodeId,
                        isNew: bool, isAdv: bool): Distance
  {
    if k !in t then Distance(hops, h, 1, {from})
    else
      var e := t[k];
      if e.latest == h then
        if from !in e.srcs && k.src != me then e.(count := (e.count + 1) % U16, srcs := e.srcs + {from}) else e
      else if isNew then
        if isAdv then Distance(hops, h, 1, {from}) else e.(hops := hops)
      else e
  }

  // ---- timers --------------------------------------------------------------------------

  /** A pending ACK of the flow wins over a new request. */
  function SetAckTimer(t: map<FlowKey, Ack>, a: Ack): map<FlowKey, Ack> {
    if AckFlow(a) in t then t else t[AckFlow(a) := a]
  }

  /** Above 100 the configured value is shared among the neighbours heard; without an entry, or
      with nobody heard, the source asserts or divides by zero. */
  function AckProb(n: Node, k: FlowKey): Option<u32>
    requires k in n.revPath
  {
    if n.revPath[k].probRelay <= 100 then Some(n.revPath[k].probRelay)
    else if k !in n.dist || |n.dist[k].srcs| == 0 then None
    else Some(n.revPath[k].probRelay / |n.dist[k].srcs|)
  }

  function OnAckTimeout(n: Node, k: FlowKey): Outcome {
    if k !in n.ackTimers || k !in n.revPath || AckProb(n, k).None? then Fatal
    else Running(SendAck(n, k, AckProb(n, k).value))
  }

  function SendAck(n: Node, k: FlowKey, p: u32): Node
    requires k in n.ackTimers
  {
    n.(sent := n.sent + [OtaAck(n.ackTimers[k].(prob := p))], ackTimers := n.ackTimers - {k})
  }

  function OnAdvTimeout(n: Node, k: FlowKey): Outcome {
    if k !in n.advTimers then Fatal
    else
      Running(n.(sent := n.sent + [OtaAdv(n.advTimers[k].adv.(ttl := Dec32(n.advTimers[k].ttl)))],
                 advTimers := n.advTimers - {k}))
  }

  function OnDataTimeout(n: Node, h: HashKey): Outcome {
    if h !in n.dataTimers then Fatal
    else
      Running(n.(sent := n.sent + [OtaData(n.dataTimers[h].data.(ttl := Dec32(n.dataTimers[h].ttl)))],
                 dataTimers := n.dataTimers - {h}))
  }

  // ---- ADVERTISE -----------------------------------------------------------------------

  function Heard(a: Advertise): Advertise { a.(distance := Inc32(a.distance)) }

  /** Tell the announcing client of the group that there is a subscriber, once. */
  function Pulled(t: map<GroupId, Announce>, gid: GroupId): map<GroupId, Announce> {
    if gid in t && !t[gid].pullSent then t[gid := t[gid].(pullSent := true)] else t
  }

  function PullWrites(t: map<GroupId, Announce>, gid: GroupId): seq<AppWrite> {
    if gid in t && !t[gid].pullSent then [AppWrite(t[gid].session, AppPull(gid))] else []
  }

  function LearnPath(t: map<FlowKey, RevPath>, k: FlowKey, p: RevPath): map<FlowKey, RevPath> {
    if k in t && p.seqNo <= t[k].seqNo then t else t[k := p]
  }

  function AdvDistance(n: Node, a: Advertise, from: NodeId): Distance {
    NextDistance(n.dist, n.id, AdvFlow(a), AdvHash(a), Inc32(a.distance), from, AdvHash(a) !in n.hash, true)
  }

  /** Repeats matter to nodes outside the group only, and only when they carry a higher TTL. */
  predicate AdvRaises(n: Node, a: Advertise) {
    AdvHash(a) in n.hash && !IsGroupNode(n, a.gid) && a.ttl > n.hash[AdvHash(a)]
  }

  /** The copy a node schedules for forwarding, if it does, and with which TTL. */
  function AdvForward(n: Node, a: Advertise, from: NodeId): Option<PendingAdv> {
    if AdvHash(a) !in n.hash then
      if IsGroupNode(n, a.gid) && !a.nottlregen then Some(PendingAdv(Heard(a), a.srcttl))
      else if a.ttl > 0 then Some(PendingAdv(Heard(a), a.ttl))
      else None
    else if AdvRaises(n, a) then Some(PendingAdv(a.(distance := AdvDistance(n, a, from).hops), a.ttl))
    else None
  }

  predicate JoinsTree(n: Node, a: Advertise) { AdvHash(a) !in n.hash && IsGroupNode(n, a.gid) }

  /** With an announcement interval of zero the advertisement itself stands for the ACK. */
  predicate Overrides(n: Node, a: Advertise) {
    JoinsTree(n, a) && a.gid in n.announce && n.announce[a.gid].interval == 0
  }

  function OnAdvertise(n: Node, a: Advertise, from: NodeId, now: int): Node {
    var h := AdvHash(a);
    var k := AdvFlow(a);
    var f := AdvForward(n, a, from);
    n.(hash := if AdvRaises(n, a) then n.hash[h := a.ttl] else Hashed(n.hash, h, a.ttl),
       hashTime := HashedAt(n.hash, n.hashTime, h, now),
       advSeen := if IsGroupNode(n, a.gid) || a.ttl > 0 then n.advSeen + {AdvIdOf(a)} else n.advSeen,
       dist := n.dist[k := AdvDistance(n, a, from)],
       revPath := if h in n.hash then n.revPath else LearnPath(n.revPath, k,
                                                               RevPath(from, a.sequence, now, a.probrelay)),
       advTimers := if f.Some? then n.advTimers[k := f.value] else n.advTimers,
       ackTimers := if JoinsTree(n, a) then SetAckTimer(n.ackTimers, Ack(a.gid, a.srcnode, a.sequence, from, 0))
         else n.ackTimers,
       announce := if Overrides(n, a) then Pulled(n.announce, a.gid) else n.announce,
       written := if Overrides(n, a) then n.written + PullWrites(n.announce, a.gid) else n.written)
  }

  // ---- ACK -----------------------------------------------------------------------------

  /** Refresh the first entry of this child for the group, or append one. */
  function AddPull(s: seq<RemotePull>, e: RemotePull): seq<RemotePull> {
    if s == [] then [e]
    else if s[0].gid == e.gid && s[0].node == e.node then [s[0].(time := e.time)] + s[1..]
    else [s[0]] + AddPull(s[1..], e)
  }

  predicate AlreadyAcked(n: Node, a: Ack) { AckFlow(a) in n.ackSent && a.sequence <= n.ackSent[AckFlow(a)] }

  predicate AlreadyFlipped(n: Node, a: Ack) { AckFlow(a) in n.coin && a.sequence <= n.coin[AckFlow(a)] }

  /** A node that is neither source nor obligatory relay flips a coin, once per advertisement it saw. */
  predicate Flips(n: Node, a: Ack) {
    && a.srcnode != n.id && a.oblig != n.id
    && AdvId(a.gid, a.srcnode, a.sequence) in n.advSeen && !AlreadyFlipped(n, a)
  }

  /** Chosen as a relay, by name or by the coin; `draw` is rand() % 100. */
  predicate Chosen(n: Node, a: Ack, draw: nat) {
    a.srcnode != n.id && (a.oblig == n.id || (Flips(n, a) && draw < a.prob))
  }

  /** The sender becomes a child of the source and of every chosen relay. */
  predicate Adopts(n: Node, a: Ack, draw: nat) {
    (a.srcnode == n.id && a.gid in n.announce) || Chosen(n, a, draw)
  }

  /** A relay outside the group passes the ACK to its own next hop, once per sequence number. */
  predicate PassesAck(n: Node, a: Ack, draw: nat) {
    Chosen(n, a, draw) && !IsGroupNode(n, a.gid) && !AlreadyAcked(n, a)
  }

  function OnAck(n: Node, a: Ack, from: NodeId, draw: nat, now: int): Outcome {
    var k := AckFlow(a);
    if Chosen(n, a, draw) && k !in n.revPath then Fatal
    else
      Running(n.(remotePull := if Adopts(n, a, draw) then AddPull(n.remotePull, RemotePull(a.gid, from, now))
                 else n.remotePull,
                 ackTimers := if PassesAck(n, a, draw) then SetAckTimer(n.ackTimers, a.(oblig := n.revPath[k].next))
                   else n.ackTimers,
                 ackSent := if PassesAck(n, a, draw) then n.ackSent[k := a.sequence] else n.ackSent,
                 coin := if Flips(n, a) then n.coin[k := a.sequence] else n.coin,
                 announce := if a.srcnode == n.id then Pulled(n.announce, a.gid) else n.announce,
                 written := if a.srcnode == n.id then n.written + PullWrites(n.announce, a.gid) else n.written))
  }

  // ---- DATA ----------------------------------------------------------------------------

  function HeardData(d: Data): Data { d.(distance := Inc32(d.distance)) }

  /** One write per local subscriber of the group, except the session the data came from. */
  function Deliveries(s: seq<LocalPull>, gid: GroupId, except: Option<Session>, m: AppMsg): seq<AppWrite> {
    if s == [] then []
    else (if s[0].gid == gid && except != Some(s[0].session) then [AppWrite(s[0].session, m)] else [])
         + Deliveries(s[1..], gid, except, m)
  }

  /** What is handed to clients when `d` is new. */
  function Handed(n: Node, d: Data, from: Option<Session>): seq<AppWrite> {
    if d.uheader.None? then Deliveries(n.localPull, d.gid, from, AppData(d))
    else if d.uheader.value.dest != n.id then []
    else (if d.gid in n.announce then [AppWrite(n.announce[d.gid].session, AppData(d))] else [])
         + Deliveries(n.localPull, d.gid, None, AppData(d))
  }

  function DataDistance(n: Node, d: Data, from: NodeId): Distance {
    NextDistance(n.dist, n.id, DataFlow(d), DataHash(d), d.distance, from, DataHash(d) !in n.hash, false)
  }

  /** preProcessData: hash, distance table and local delivery. */
  function PreProcess(n: Node, d: Data, from: NodeId, sess: Option<Session>, now: int): Node {
    var h := DataHash(d);
    n.(hash := Hashed(n.hash, h, d.ttl), hashTime := HashedAt(n.hash, n.hashTime, h, now),
       dist := n.dist[DataFlow(d) := DataDistance(n, d, from)],
       written := if h in n.hash then n.written else n.written + Handed(n, d, sess))
  }

  function Lowered(d: Data, hops: u32): Data
    requires d.uheader.Some? && hops > 0
  {
    d.(uheader := Some(d.uheader.value.(relaydistance := hops - 1)))
  }

  /** The TTL with which a unicast copy is passed on, if it is. */
  function UnicastTtl(n: Node, d: Data): Option<u32> {
    if d.srcttl.None? then (if RelaysTree(n, d.gid) then Some(1) else None)
    else if d.ttl > 0 && (!IsGroupNode(n, d.gid) || d.nottlregen) then Some(d.ttl)
    else if IsGroupNode(n, d.gid) then Some(d.srcttl.value)
    else None
  }

  /** A unicast copy is passed on by nodes at most as far from the destination as it allows. */
  function UnicastForward(n: Node, d: Data, hops: u32): Option<PendingData>
    requires d.uheader.Some?
  {
    if 0 < hops <= d.uheader.value.relaydistance && UnicastTtl(n, d).Some?
    then Some(PendingData(Lowered(d, hops), UnicastTtl(n, d).value)) else None
  }

  /** Flooded DATA raises the stored maximum TTL of a node outside the group. */
  predicate DataRaises(n: Node, d: Data) {
    && d.uheader.None? && d.srcnode != n.id && d.srcttl.Some? && !IsGroupNode(n, d.gid)
    && DataHash(d) in n.hash && d.ttl > n.hash[DataHash(d)]
  }

  /** Flooding of new DATA: a group node normally regenerates the TTL. */
  function FloodForward(n: Node, d: Data): Option<PendingData>
    requires d.srcttl.Some?
  {
    if IsGroupNode(n, d.gid) && !d.nottlregen then Some(PendingData(d, d.srcttl.value))
    else if d.ttl > 0 then Some(PendingData(d, d.ttl))
    else None
  }

  /** The copy a node schedules for forwarding, if it does; `t` is the updated distance table. */
  function DataForward(n: Node, d: Data, t: map<FlowKey, Distance>): Option<PendingData> {
    if DataHash(d) in n.hash then
      if DataRaises(n, d) then Some(PendingData(d.(distance := Hops(t, DataFlow(d))), d.ttl)) else None
    else if d.uheader.Some? then
      if d.uheader.value.dest != n.id then UnicastForward(n, d, Hops(t, FlowKey(d.gid, d.uheader.value.dest))) else None
    else if d.srcnode == n.id then None
    else if d.srcttl.None? then (if RelaysTree(n, d.gid) then Some(PendingData(d, 1)) else None)
    else FloodForward(n, d)
  }

  function OnData(n: Node, d0: Data, from: NodeId, now: int): Node {
    var d := HeardData(d0);
    var h := DataHash(d);
    var t := n.dist[DataFlow(d) := DataDistance(n, d, from)];
    var f := DataForward(n, d, t);
    n.(hash := if DataRaises(n, d) then n.hash[h := d.ttl] else Hashed(n.hash, h, d.ttl),
       hashTime := HashedAt(n.hash, n.hashTime, h, now),
       dist := t,
       written := if h in n.hash then n.written else n.written + Handed(n, d, None),
       dataTimers := if f.Some? then n.dataTimers[h := f.value] else n.dataTimers)
  }

  /** Messages that carry this node's own id in their header are dropped. */
  function OnReceive(n: Node, m: OtaMsg, from: NodeId, draw: nat, now: int): Outcome {
    if from == n.id then Running(n)
    else
      match m
      case OtaAck(a) => OnAck(n, a, from, draw, now)
      case OtaAdv(a) => Running(OnAdvertise(n, a, from, now))
      case OtaData(d) => Running(OnData(n, d, from, now))
  }

  // ---- clients -------------------------------------------------------------------------

  function RemoveFirst<T(==)>(s: seq<T>, x: T): seq<T> {
    if s == [] then [] else if s[0] == x then s[1..] else [s[0]] + RemoveFirst(s[1..], x)
  }

  function NextSeq(n: Node, gid: GroupId): nat { ((if gid in n.seqByGid then n.seqByGid[gid] else 0) + 1) % U64 }

  /** The fields the service fills in on client DATA before anything else looks at it. */
  function Stamped(n: Node, d: Data): Data {
    d.(distance := 0, srcnode := n.id, sequence := NextSeq(n, d.gid))
  }

  /** Initial relay distance: one less, as much, or one more than the known distance. */
  function RelayStart(hops: u32, r: Option<Resilience>): u32 {
    match r
    case Some(Medium) => hops
    case Some(High) => Inc32(hops)
    case _ => Dec32(hops)
  }

  /** What client DATA puts on the air; `m` is the state after preProcessData. */
  function ClientSends(m: Node, d: Data): seq<OtaMsg> {
    if d.uheader.Some? then
      var u := d.uheader.value;
      var hops := Hops(m.dist, FlowKey(d.gid, u.dest));
      if hops == 0 then []
      else [OtaData(d.(uheader := Some(UnicastHeader(u.dest, RelayStart(hops, u.resilience), None)),
                       ttl := if d.srcttl.Some? then Dec32(d.srcttl.value) else 0))]
    else if d.srcttl.Some? then [OtaData(d.(ttl := Dec32(d.srcttl.value)))]
    else if AnyRemote(m.remotePull, d.gid) || (d.gid in m.announce && m.announce[d.gid].interval <= 0)
    then [OtaData(d.(ttl := 0))]
    else []
  }

  function OnClientData(n: Node, s: Session, d0: Data, now: int): Outcome {
    var d := Stamped(n, d0);
    var m := PreProcess(n, d, n.id, Some(s), now);
    if d.uheader.None? && d.gid !in n.announce then Fatal
    else Running(m.(seqByGid := n.seqByGid[d.gid := d.sequence], sent := n.sent + ClientSends(m, d)))
  }

  function ClientInterval(interval: Option<u32>): int { if interval.Some? then ToInt32(interval.value) else -1 }

  /** REGISTER makes an entry, or changes the parameters of one and keeps its history. */
  function Registered(n: Node, s: Session, c: ClientCmd): Announce
    requires c.ClientRegister?
  {
    var v := ClientInterval(c.interval);
    if c.gid !in n.announce then
      Announce(s, v > 0, v, if c.interval.Some? then c.probrelay else 0, c.srcttl, 0, false, v > 0 && c.nottlregen)
    else
      var i := n.announce[c.gid];
      i.(timer := if i.interval == v then i.timer else v > 0 || (i.interval <= 0 && i.timer),
         interval := v, srcTtl := c.srcttl, probRelay := c.probrelay, noTtlRegen := c.nottlregen)
  }

  function OnRegister(n: Node, s: Session, c: ClientCmd): Outcome
    requires c.ClientRegister?
  {
    var v := ClientInterval(c.interval);
    if c.gid !in n.announce && v > 0 && v as real >= n.pullExpire then Fatal
    else Running(n.(announce := n.announce[c.gid := Registered(n, s, c)]))
  }

  function OnClient(n: Node, s: Session, c: ClientCmd, now: int): Outcome {
    match c
    case ClientPull(gid) => Running(n.(localPull := n.localPull + [LocalPull(gid, s)]))
    case ClientUnpull(gid) => Running(n.(localPull := RemoveFirst(n.localPull, LocalPull(gid, s))))
    case ClientData(d) => OnClientData(n, s, d, now)
    case ClientRegister(_, _, _, _, _) => OnRegister(n, s, c)
    case ClientDeregister(gid) => if gid !in n.announce then Fatal else Running(n.(announce := n.announce - {gid}))
  }

  function OnClose(n: Node, s: Session): Node {
    n.(localPull := FilterSeq(n.localPull, (e: LocalPull) => e.session != s),
       announce := map g | g in n.announce && n.announce[g].session != s :: n.announce[g])
  }

  // ---- periodic work -------------------------------------------------------------------

  function OwnAdvertise(n: Node, gid: GroupId): Advertise
    requires gid in n.announce
  {
    var i := n.announce[gid];
    Advertise(gid, i.srcTtl, n.id, i.srcTtl, 0, Inc32(i.seqNo), i.probRelay, i.noTtlRegen)
  }

  /** The source's own entry: a message it sends counts as new and as heard from itself. */
  function OwnDistance(t: map<FlowKey, Distance>, me: NodeId, k: FlowKey, h: HashKey): Distance {
    NextDistance(t, me, k, h, 0, me, true, true)
  }

  function OnAnnounce(n: Node, gid: GroupId, now: int): Outcome {
    if gid !in n.announce then Fatal
    else
      var a := OwnAdvertise(n, gid);
      var h := AdvHash(a);
      Running(n.(announce := n.announce[gid := n.announce[gid].(seqNo := a.sequence)],
                 hash := Hashed(n.hash, h, a.ttl), hashTime := HashedAt(n.hash, n.hashTime, h, now),
                 dist := n.dist[AdvFlow(a) := OwnDistance(n.dist, n.id, AdvFlow(a), h)],
                 sent := n.sent + [OtaAdv(a.(ttl := Dec32(a.srcttl)))]))
  }

  /** The announcers that lost their last subscriber. */
  predicate Orphaned(n: Node, gid: GroupId) {
    gid in n.announce && n.announce[gid].pullSent && n.announce[gid].interval > 0 &&
    !AnyRemote(n.remotePull, gid) && !AnyLocal(n.localPull, gid)
  }

  function Orphans(n: Node): set<GroupId> { set g | g in n.announce && Orphaned(n, g) }

  function MinOf(s: set<GroupId>): (m: GroupId)
    requires s != {}
    ensures m in s && forall x :: x in s ==> m <= x
  {
    MinExists(s);
    var m :| m in s && forall x :: x in s ==> m <= x;
    m
  }

  lemma MinExists(s: set<GroupId>)
    requires s != {}
    ensures exists m :: m in s && forall x :: x in s ==> m <= x
  {
    var y :| y in s;
    MinBelow(s, y);
  }

  lemma {:induction false} MinBelow(s: set<GroupId>, y: GroupId)
    requires y in s
    ensures exists m :: m in s && forall x :: x in s ==> m <= x
    decreases y
  {
    if x :| x in s && x < y {
      MinBelow(s, x);
    }
  }

  /** One UNPULL per group, in the order of the announce table. */
  function UnpullWrites(announce: map<GroupId, Announce>, gs: set<GroupId>): seq<AppWrite>
    requires gs <= announce.Keys
  {
    if gs == {} then []
    else
      var g := MinOf(gs);
      [AppWrite(announce[g].session, AppUnpull(g))] + UnpullWrites(announce, gs - {g})
  }

  function DropStalePulls(n: Node, now: int): Node {
    n.(remotePull := FilterSeq(n.remotePull, (e: RemotePull) => !Expired(now, e.time, n.pullExpire)))
  }

  function UnpullOrphans(n: Node): Node {
    n.(announce := map g | g in n.announce :: n.announce[g].(pullSent := n.announce[g].pullSent && !Orphaned(n, g)),
       written := n.written + UnpullWrites(n.announce, Orphans(n)))
  }

  function OnPullCleanup(n: Node, now: int): Node { UnpullOrphans(DropStalePulls(n, now)) }
}
