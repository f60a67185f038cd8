/** Identifiers, messages and table entries shared by the whole model. */
module Types {

  const U16: nat := 0x1_0000
  const U32: nat := 0x1_0000_0000
  const U64: nat := 0x1_0000_0000_0000_0000

  type u32 = x: nat | x < U32

  type NodeId = u32
  type GroupId = u32
  type Session = nat
  type Payload = seq<nat>

  /** Who hears whom. */
  type Links = set<(NodeId, NodeId)>

  /** `++x` and `x + 1` on a uint32_t. */
  function Inc32(x: u32): u32 { (x + 1) % U32 }

  /** `x - 1` on a uint32_t: zero wraps to the largest value. */
  function Dec32(x: u32): u32 { if x == 0 then U32 - 1 else x - 1 }

  /** The implementation's conversion of a uint32_t to an int32_t. */
  function ToInt32(x: u32): int { if x < 0x8000_0000 then x else x - U32 }

  datatype Option<+T> = None | Some(value: T)

  /** GIDKey: one traffic flow, a group and the node that sources it. */
  datatype FlowKey = FlowKey(gid: GroupId, src: NodeId)

  /** AdvKey: one advertisement of a flow. */
  datatype AdvId = AdvId(gid: GroupId, src: NodeId, seqNo: u32)

  /** ADVERTISE as sent over the air; `nottlregen` is the presence of that field. */
  datatype Advertise = Advertise(
    gid: GroupId, srcttl: u32, srcnode: NodeId, ttl: u32, distance: u32,
    sequence: u32, probrelay: u32, nottlregen: bool)

  datatype Ack = Ack(gid: GroupId, srcnode: NodeId, sequence: u32, oblig: NodeId, prob: u32)

  datatype Resilience = Low | Medium | High

  datatype UnicastHeader = UnicastHeader(dest: NodeId, relaydistance: u32, resilience: Option<Resilience>)

  /** DATA; `nottlregen` is the presence of that field. */
  datatype Data = Data(
    gid: GroupId, srcttl: Option<u32>, srcnode: NodeId, ttl: u32, distance: u32,
    nottlregen: bool, uheader: Option<UnicastHeader>, sequence: nat, payload: Payload)

  /** The body of an OTAMessage; its header source is the node that logged it as sent. */
  datatype OtaMsg = OtaAdv(adv: Advertise) | OtaAck(ack: Ack) | OtaData(data: Data)

  /** What the service writes to a client session. */
  datatype AppMsg = AppPull(gid: GroupId) | AppUnpull(gid: GroupId) | AppData(data: Data)

  datatype AppWrite = AppWrite(session: Session, msg: AppMsg)

  function AdvFlow(a: Advertise): FlowKey { FlowKey(a.gid, a.srcnode) }
  function AckFlow(a: Ack): FlowKey { FlowKey(a.gid, a.srcnode) }
  function DataFlow(d: Data): FlowKey { FlowKey(d.gid, d.srcnode) }
  function AdvIdOf(a: Advertise): AdvId { AdvId(a.gid, a.srcnode, a.sequence) }

  /** The canonical message that stands for its hash value. */
  datatype HashKey = AdvHashKey(adv: Advertise) | DataHashKey(data: Data)

  /** addToHash leaves out exactly the ttl and the distance of an ADVERTISE ... */
  function AdvHash(a: Advertise): HashKey { AdvHashKey(a.(ttl := 0, distance := 0)) }

  /** ... and for DATA also the relay distance of a unicast header. */
  function DataHash(d: Data): HashKey {
    DataHashKey(d.(ttl := 0, distance := 0,
                   uheader := if d.uheader.Some? then Some(d.uheader.value.(relaydistance := 0)) else None))
  }

  datatype RemotePull = RemotePull(gid: GroupId, node: NodeId, time: int)

  datatype RevPath = RevPath(next: NodeId, seqNo: u32, time: int, probRelay: u32)

  datatype Distance = Distance(hops: u32, latest: HashKey, count: nat, srcs: set<NodeId>)

  datatype Announce = Announce(
    session: Session, timer: bool, interval: int, probRelay: u32,
    srcTtl: u32, seqNo: u32, pullSent: bool, noTtlRegen: bool)

  datatype PendingAdv = PendingAdv(adv: Advertise, ttl: u32)
  datatype PendingData = PendingData(data: Data, ttl: u32)

  datatype LocalPull = LocalPull(gid: GroupId, session: Session)

  datatype HashTime = HashTime(time: int, key: HashKey)

  /** What a client asks of the service (the fields of an AppMessage it fills in). */
  datatype ClientCmd =
    | ClientPull(gid: GroupId)
    | ClientUnpull(gid: GroupId)
    | ClientData(data: Data)
    | ClientRegister(gid: GroupId, srcttl: u32, interval: Option<u32>, probrelay: u32, nottlregen: bool)
    | ClientDeregister(gid: GroupId)
}
