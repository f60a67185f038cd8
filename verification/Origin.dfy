/** Without hash expiry every copy on the air keeps the hash key its origin gave it, and a
    sequence number names one message: what makes duplicate suppression sound. */
module Origin {
  import opened Types
  import opened NodeSpec
  import opened Network

  /** The two kinds of flooded message: advertisements and group DATA. */
  datatype Kind = Ads | Group

  predicate Tracked(q: Kind, h: HashKey) {
    match q
    case Ads => h.AdvHashKey?
    case Group => h.DataHashKey? && h.data.uheader.None?
  }

  function Src(h: HashKey): NodeId { match h case AdvHashKey(a) => a.srcnode case DataHashKey(d) => d.srcnode }
  function Gid(h: HashKey): GroupId { match h case AdvHashKey(a) => a.gid case DataHashKey(d) => d.gid }
  function SeqNo(h: HashKey): nat { match h case AdvHashKey(a) => a.sequence case DataHashKey(d) => d.sequence }

  function FlowOf(h: HashKey): FlowKey { FlowKey(Gid(h), Src(h)) }

  predicate SameName(g: HashKey, h: HashKey) { Src(g) == Src(h) && Gid(g) == Gid(h) && SeqNo(g) == SeqNo(h) }

  /** The counter from which a source takes the sequence numbers of a group. */
  function Counter(q: Kind, n: Node, gid: GroupId): nat {
    match q
    case Ads => if gid in n.announce then n.announce[gid].seqNo else 0
    case Group => if gid in n.seqByGid then n.seqByGid[gid] else 0
  }

  function Limit(q: Kind): nat { if q.Ads? then U32 else U64 }

  function KeyOf(m: OtaMsg): Option<HashKey> {
    match m
    case OtaAdv(a) => Some(AdvHash(a))
    case OtaData(d) => Some(DataHash(d))
    case OtaAck(_) => None
  }

  /** No hash expiry; and a registration that counts advertisements is not given up. */
  predicate Steady(q: Kind, e: Event) {
    !e.HashTimer? && (q.Ads? ==> !e.ClientGone? && !(e.FromClient? && e.cmd.ClientDeregister?))
  }

  ghost predicate AllSteady(q: Kind, moves: seq<Move>) { forall i :: 0 <= i < |moves| ==> Steady(q, moves[i].event) }

  /** The source of the message has its key in its own hash table. */
  ghost predicate Issued(net: Net, h: HashKey) { Src(h) in net && h in net[Src(h)].hash }

  ghost predicate Carried(q: Kind, net: Net, m: OtaMsg) {
    KeyOf(m).Some? && Tracked(q, KeyOf(m).value) ==> Issued(net, KeyOf(m).value)
  }

  ghost predicate HashIssued(q: Kind, net: Net, n: Node) { forall h :: h in n.hash && Tracked(q, h) ==> Issued(net, h) }

  ghost predicate LogIssued(q: Kind, net: Net, n: Node) {
    && (forall m :: m in n.sent ==> Carried(q, net, m))
    && (forall k :: k in n.advTimers ==> Carried(q, net, OtaAdv(n.advTimers[k].adv)))
    && (forall k :: k in n.dataTimers ==> Carried(q, net, OtaData(n.dataTimers[k].data)))
  }

  /** Own keys carry counted sequence numbers, each once. */
  ghost predicate OwnNames(q: Kind, n: Node, bound: nat) {
    && (forall g :: Counter(q, n, g) <= bound)
    && (forall h :: h in n.hash && Tracked(q, h) && Src(h) == n.id ==> SeqNo(h) <= Counter(q, n, Gid(h)))
    && (forall g, h ::
          g in n.hash && h in n.hash && Tracked(q, g) && Tracked(q, h) && Src(g) == n.id && SameName(g, h) ==> g == h)
  }

  ghost predicate Faithful(q: Kind, net: Net, x: NodeId, n: Node, bound: nat) {
    n.id == x && HashIssued(q, net, n) && LogIssued(q, net, n) && OwnNames(q, n, bound)
  }

  ghost predicate NetFaithful(q: Kind, net: Net, bound: nat) {
    forall x :: x in net ==> Faithful(q, net, x, net[x], bound)
  }

  // ---- keys survive the air ------------------------------------------------------------

  /** Neither the TTL, nor the distance, nor lowering the relay distance changes the key. */
  lemma CopyKeepsKey(d: Data, ttl: u32, hops: u32, relay: u32)
    ensures DataHash(d.(ttl := ttl, distance := hops)) == DataHash(d)
    ensures d.uheader.Some? ==> DataHash(d.(uheader := Some(d.uheader.value.(relaydistance := relay)))) == DataHash(d)
  {
  }

  lemma AdvCopyKeepsKey(a: Advertise, ttl: u32, hops: u32)
    ensures AdvHash(a.(ttl := ttl, distance := hops)) == AdvHash(a)
  {
  }

  /** Two advertisements have the same key exactly if they agree in all fields but TTL and distance. */
  lemma SameAdvertiseKey(a: Advertise, b: Advertise)
    ensures AdvHash(a) == AdvHash(b) <==>
              && a.gid == b.gid && a.srcttl == b.srcttl && a.srcnode == b.srcnode && a.sequence == b.sequence
              && a.probrelay == b.probrelay && a.nottlregen == b.nottlregen
  {
  }

  /** And two DATA messages, if they agree in all but these and the relay distance of a header. */
  lemma SameDataKey(a: Data, b: Data)
    ensures DataHash(a) == DataHash(b) <==>
              && a.gid == b.gid && a.srcttl == b.srcttl && a.srcnode == b.srcnode && a.sequence == b.sequence
              && a.payload == b.payload && a.nottlregen == b.nottlregen && (a.uheader.Some? <==> b.uheader.Some?)
              && (a.uheader.Some? && b.uheader.Some? ==>
                    && a.uheader.value.dest == b.uheader.value.dest
                    && a.uheader.value.resilience == b.uheader.value.resilience)
  {
  }

  /** No advertisement has the key of DATA. */
  lemma KindsApart(a: Advertise, d: Data)
    ensures AdvHash(a) != DataHash(d)
  {
  }

  lemma AdvForwardKey(n: Node, a: Advertise, from: NodeId)
    requires AdvForward(n, a, from).Some?
    ensures AdvHash(AdvForward(n, a, from).value.adv) == AdvHash(a)
  {
    hide AdvDistance, IsGroupNode, AdvRaises;
  }

  lemma DataForwardKey(n: Node, d: Data, t: map<FlowKey, Distance>)
    requires DataForward(n, d, t).Some?
    ensures DataHash(DataForward(n, d, t).value.data) == DataHash(d)
  {
    hide IsGroupNode, RelaysTree, DataRaises, UnicastTtl;
  }

  lemma ClientSendsKey(m: Node, d: Data)
    requires d.uheader.None?
    ensures forall o :: o in ClientSends(m, d) ==> KeyOf(o) == Some(DataHash(d))
  {
    hide AnyRemote;
  }

  /** Unicast goes out without its resilience field: a key that is not tracked. */
  lemma UnicastUntracked(m: Node, d: Data)
    requires d.uheader.Some?
    ensures forall o :: o in ClientSends(m, d) ==> o.OtaData? && o.data.uheader.Some?
  {
  }

  // ---- growth --------------------------------------------------------------------------

  lemma IssuedStays(net: Net, x: NodeId, m: Node)
    requires x in net && forall h :: h in net[x].hash ==> h in m.hash
    ensures forall h :: Issued(net, h) ==> Issued(net[x := m], h)
  {
  }

  lemma FaithfulStays(q: Kind, net: Net, next: Net, y: NodeId, n: Node, bound: nat)
    requires Faithful(q, net, y, n, bound) && forall h :: Issued(net, h) ==> Issued(next, h)
    ensures Faithful(q, next, y, n, bound + 1)
  {
    hide Issued, Tracked, KeyOf;
    assert HashIssued(q, next, n);
    forall m | Carried(q, net, m) ensures Carried(q, next, m) {}
  }

  /** An event after which every new key of this kind was issued elsewhere, and the counters stand. */
  ghost predicate OnlyForeign(q: Kind, net: Net, n: Node, m: Node) {
    && m.id == n.id && (forall g :: Counter(q, m, g) == Counter(q, n, g))
    && (forall h :: h in n.hash ==> h in m.hash)
    && (forall h :: h in m.hash && Tracked(q, h) && h !in n.hash ==> Src(h) != n.id && Issued(net, h))
  }

  /** Every message the event logs or schedules carries an issued key. */
  ghost predicate NewCarried(q: Kind, net: Net, n: Node, m: Node) {
    && (forall o :: o in m.sent && o !in n.sent ==> Carried(q, net, o))
    && (forall k :: k in m.advTimers && !(k in n.advTimers && m.advTimers[k] == n.advTimers[k]) ==>
          Carried(q, net, OtaAdv(m.advTimers[k].adv)))
    && (forall k :: k in m.dataTimers && !(k in n.dataTimers && m.dataTimers[k] == n.dataTimers[k]) ==>
          Carried(q, net, OtaData(m.dataTimers[k].data)))
  }

  lemma LogStays(q: Kind, next: Net, n: Node, m: Node)
    requires LogIssued(q, next, n) && NewCarried(q, next, n, m)
    ensures LogIssued(q, next, m)
  {
    hide Carried;
  }

  lemma ForeignKeepsNames(q: Kind, net: Net, next: Net, n: Node, m: Node, bound: nat)
    requires OwnNames(q, n, bound) && HashIssued(q, next, n) && OnlyForeign(q, net, n, m)
    requires forall h :: Issued(net, h) ==> Issued(next, h)
    ensures OwnNames(q, m, bound) && HashIssued(q, next, m)
  {
    hide Tracked, Counter, Issued;
  }

  /** The node stays faithful in the next network if its new keys are foreign and its new messages carry issued ones. */
  lemma ForeignFaithful(q: Kind, net: Net, x: NodeId, m: Node, bound: nat)
    requires x in net && Faithful(q, net, x, net[x], bound) && OnlyForeign(q, net, net[x], m)
    requires NewCarried(q, net[x := m], net[x], m)
    ensures Faithful(q, net[x := m], x, m, bound + 1)
  {
    hide NewCarried, OnlyForeign, OwnNames, HashIssued, LogIssued, Issued;
    var next := net[x := m];
    assert m.id == net[x].id && forall h :: h in net[x].hash ==> h in m.hash by { ForeignBasics(q, net, net[x], m); }
    IssuedStays(net, x, m);
    FaithfulStays(q, net, next, x, net[x], bound);
    ForeignKeepsNames(q, net, next, net[x], m, bound + 1);
    LogStays(q, next, net[x], m);
  }

  lemma ForeignBasics(q: Kind, net: Net, n: Node, m: Node)
    requires OnlyForeign(q, net, n, m)
    ensures m.id == n.id && forall h :: h in n.hash ==> h in m.hash
  {
  }

  // ---- events that issue nothing -------------------------------------------------------

  lemma AdvertiseForeign(q: Kind, net: Net, x: NodeId, a: Advertise, from: NodeId, now: int)
    requires x in net && net[x].id == x && Carried(q, net, OtaAdv(a))
    ensures OnlyForeign(q, net, net[x], OnAdvertise(net[x], a, from, now))
  {
    hide HashedAt, AdvDistance, AdvForward, AdvRaises, JoinsTree, Overrides, LearnPath, AdvHash;
    var n := net[x];
    var m := OnAdvertise(n, a, from, now);
    assert forall h :: h in m.hash ==> h in n.hash || h == AdvHash(a);
  }

  lemma AdvertiseCarried(q: Kind, net: Net, x: NodeId, a: Advertise, from: NodeId, now: int)
    requires x in net && Carried(q, net, OtaAdv(a))
    ensures NewCarried(q, net, net[x], OnAdvertise(net[x], a, from, now))
  {
    hide HashedAt, Hashed, AdvDistance, AdvForward, AdvRaises, JoinsTree, Overrides, LearnPath, AdvHash, Issued,
         Tracked;
    if AdvForward(net[x], a, from).Some? {
      AdvForwardKey(net[x], a, from);
    }
  }

  lemma DataForeign(q: Kind, net: Net, x: NodeId, d0: Data, from: NodeId, now: int)
    requires x in net && net[x].id == x && Carried(q, net, OtaData(d0))
    ensures OnlyForeign(q, net, net[x], OnData(net[x], d0, from, now))
  {
    hide HashedAt, DataDistance, DataForward, DataRaises, Handed, DataHash;
    var n := net[x];
    var m := OnData(n, d0, from, now);
    assert DataHash(HeardData(d0)) == DataHash(d0) by { CopyKeepsKey(d0, d0.ttl, Inc32(d0.distance), 0); }
    assert forall h :: h in m.hash ==> h in n.hash || h == DataHash(d0);
  }

  lemma DataCarried(q: Kind, net: Net, x: NodeId, d0: Data, from: NodeId, now: int)
    requires x in net && Carried(q, net, OtaData(d0))
    ensures NewCarried(q, net, net[x], OnData(net[x], d0, from, now))
  {
    hide HashedAt, Hashed, DataDistance, DataForward, DataRaises, Handed, DataHash, Issued, Tracked;
    var n := net[x];
    var d := HeardData(d0);
    var t := n.dist[DataFlow(d) := DataDistance(n, d, from)];
    assert DataHash(d) == DataHash(d0) by { CopyKeepsKey(d0, d0.ttl, Inc32(d0.distance), 0); }
    if DataForward(n, d, t).Some? {
      DataForwardKey(n, d, t);
    }
  }

  lemma AckForeign(q: Kind, net: Net, x: NodeId, a: Ack, from: NodeId, draw: nat, now: int)
    requires x in net && OnAck(net[x], a, from, draw, now).Running?
    ensures var m := OnAck(net[x], a, from, draw, now).node;
            OnlyForeign(q, net, net[x], m) && NewCarried(q, net, net[x], m)
  {
    hide Adopts, PassesAck, Flips, Chosen, AddPull, Issued, Tracked;
  }

  lemma TimerForeign(q: Kind, net: Net, x: NodeId, e: Event)
    requires x in net && (e.AckTimer? || e.AdvTimer? || e.DataTimer?) && React(net[x], e).Running?
    ensures OnlyForeign(q, net, net[x], React(net[x], e).node)
  {
    hide Issued, Tracked, AckProb;
    match e
    case AckTimer(k) =>
    case AdvTimer(k) =>
    case DataTimer(h) =>
  }

  lemma AdvTimerCarried(q: Kind, net: Net, n: Node, k: FlowKey)
    requires LogIssued(q, net, n) && OnAdvTimeout(n, k).Running?
    ensures NewCarried(q, net, n, OnAdvTimeout(n, k).node)
  {
    hide Issued, Tracked, AdvHash;
    var p := n.advTimers[k];
    AdvCopyKeepsKey(p.adv, Dec32(p.ttl), p.adv.distance);
    assert Carried(q, net, OtaAdv(p.adv));
  }

  lemma DataTimerCarried(q: Kind, net: Net, n: Node, h: HashKey)
    requires LogIssued(q, net, n) && OnDataTimeout(n, h).Running?
    ensures NewCarried(q, net, n, OnDataTimeout(n, h).node)
  {
    hide Issued, Tracked, DataHash;
    var p := n.dataTimers[h];
    CopyKeepsKey(p.data, Dec32(p.ttl), p.data.distance, 0);
    assert Carried(q, net, OtaData(p.data));
  }

  lemma AckTimerCarried(q: Kind, net: Net, n: Node, k: FlowKey)
    requires OnAckTimeout(n, k).Running?
    ensures NewCarried(q, net, n, OnAckTimeout(n, k).node)
  {
    hide Issued, Tracked, AckProb;
  }

  lemma IdleForeign(q: Kind, net: Net, x: NodeId, e: Event)
    requires x in net && IdleEvent(e) && Steady(q, e) && React(net[x], e).Running?
    ensures var m := React(net[x], e).node; OnlyForeign(q, net, net[x], m) && NewCarried(q, net, net[x], m)
  {
    var n := net[x];
    var m := React(n, e).node;
    assert Untouched(n, m) && KeepsHash(n, m) by { hide React; UntouchedReact(n, e); }
    assert forall g :: Counter(q, m, g) == Counter(q, n, g) by { if q.Ads? { IdleCounter(n, e); } }
    hide React, Issued, Tracked;
  }

  lemma IdleCounter(n: Node, e: Event)
    requires IdleEvent(e) && Steady(Ads, e) && React(n, e).Running?
    ensures forall g :: Counter(Ads, React(n, e).node, g) == Counter(Ads, n, g)
  {
    hide OnPullCleanup, OnClient;
    match e
    case PullTimer(now) => CleanupCounter(n, now);
    case FromClient(s, c, now) => ClientCounter(n, s, c, now);
  }

  lemma CleanupCounter(n: Node, now: int)
    ensures forall g :: Counter(Ads, OnPullCleanup(n, now), g) == Counter(Ads, n, g)
  {
    hide FilterSeq, UnpullWrites, Orphaned, Orphans;
  }

  lemma ClientCounter(n: Node, s: Session, c: ClientCmd, now: int)
    requires !c.ClientData? && !c.ClientDeregister? && OnClient(n, s, c, now).Running?
    ensures forall g :: Counter(Ads, OnClient(n, s, c, now).node, g) == Counter(Ads, n, g)
  {
    hide RemoveFirst, OnClientData;
    match c
    case ClientPull(g) =>
    case ClientUnpull(g) =>
    case ClientRegister(_, _, _, _, _) => assert Registered(n, s, c).seqNo == Counter(Ads, n, c.gid);
  }

  // ---- the two events that issue -------------------------------------------------------

  /** A new own key with the next sequence number keeps names unique. */
  ghost predicate IssuesNext(q: Kind, n: Node, m: Node, h: HashKey) {
    && m.id == n.id && Src(h) == n.id && Tracked(q, h)
    && (forall g :: Counter(q, m, g) == if g == Gid(h) then SeqNo(h) else Counter(q, n, g))
    && SeqNo(h) == Counter(q, n, Gid(h)) + 1
    && m.hash.Keys == n.hash.Keys + {h}
  }

  lemma NextKeepsNames(q: Kind, n: Node, m: Node, h: HashKey, bound: nat)
    requires OwnNames(q, n, bound) && IssuesNext(q, n, m, h)
    ensures OwnNames(q, m, bound + 1)
  {
    hide Tracked, Counter, Gid, SeqNo, Src;
    assert forall g :: g in n.hash && Tracked(q, g) && Src(g) == n.id ==> SeqNo(g) <= Counter(q, n, Gid(g));
  }

  lemma NextFaithful(q: Kind, net: Net, x: NodeId, m: Node, h: HashKey, bound: nat)
    requires x in net && Faithful(q, net, x, net[x], bound) && IssuesNext(q, net[x], m, h)
    requires NewCarried(q, net[x := m], net[x], m)
    ensures Faithful(q, net[x := m], x, m, bound + 1)
  {
    hide NewCarried, OwnNames, LogIssued, Tracked, Counter, Gid, SeqNo, Src;
    var n := net[x];
    var next := net[x := m];
    IssuedStays(net, x, m);
    FaithfulStays(q, net, next, x, n, bound);
    NextKeepsNames(q, n, m, h, bound);
    LogStays(q, next, n, m);
    assert HashIssued(q, next, m);
  }

  lemma AnnounceFaithful(q: Kind, net: Net, x: NodeId, gid: GroupId, now: int, bound: nat)
    requires x in net && Faithful(q, net, x, net[x], bound) && OnAnnounce(net[x], gid, now).Running?
             && bound + 1 < Limit(q)
    ensures var m := OnAnnounce(net[x], gid, now).node; Faithful(q, net[x := m], x, m, bound + 1)
  {
    hide Faithful, HashedAt, OwnDistance, Issued, AdvHash;
    var n := net[x];
    var m := OnAnnounce(n, gid, now).node;
    var h := AdvHash(OwnAdvertise(n, gid));
    assert n.id == x && OwnNames(q, n, bound) by { FaithfulBasics(q, net, x, n, bound); }
    AnnounceLog(q, net, x, gid, now);
    if q.Ads? {
      assert IssuesNext(q, n, m, h) by { AnnounceIssues(n, gid, now, bound); }
      NextFaithful(q, net, x, m, h, bound);
    } else {
      assert h.AdvHashKey? by { AdvKeyKind(OwnAdvertise(n, gid)); }
      assert OnlyForeign(q, net, n, m);
      ForeignFaithful(q, net, x, m, bound);
    }
  }

  lemma AdvKeyKind(a: Advertise)
    ensures AdvHash(a).AdvHashKey? && Src(AdvHash(a)) == a.srcnode && Gid(AdvHash(a)) == a.gid
            && SeqNo(AdvHash(a)) == a.sequence
  {
  }

  lemma FaithfulBasics(q: Kind, net: Net, x: NodeId, n: Node, bound: nat)
    requires Faithful(q, net, x, n, bound)
    ensures n.id == x && OwnNames(q, n, bound) && HashIssued(q, net, n) && LogIssued(q, net, n)
  {
  }

  lemma AnnounceIssues(n: Node, gid: GroupId, now: int, bound: nat)
    requires OwnNames(Ads, n, bound) && bound + 1 < U32 && OnAnnounce(n, gid, now).Running?
    ensures IssuesNext(Ads, n, OnAnnounce(n, gid, now).node, AdvHash(OwnAdvertise(n, gid)))
  {
    hide HashedAt, OwnDistance, AdvHash;
    AdvKeyKind(OwnAdvertise(n, gid));
    assert Counter(Ads, n, gid) <= bound;
  }

  lemma AnnounceLog(q: Kind, net: Net, x: NodeId, gid: GroupId, now: int)
    requires x in net && net[x].id == x && OnAnnounce(net[x], gid, now).Running?
    ensures var m := OnAnnounce(net[x], gid, now).node; NewCarried(q, net[x := m], net[x], m)
  {
    hide HashedAt, OwnDistance, AdvHash, Tracked;
    var n := net[x];
    var m := OnAnnounce(n, gid, now).node;
    var a := OwnAdvertise(n, gid);
    var o := OtaAdv(a.(ttl := Dec32(a.srcttl)));
    AdvCopyKeepsKey(a, Dec32(a.srcttl), a.distance);
    AdvKeyKind(a);
    assert KeyOf(o) == Some(AdvHash(a));
    assert Issued(net[x := m], AdvHash(a));
    assert forall p :: p in m.sent && p !in n.sent ==> p == o;
  }

  lemma ClientDataFaithful(q: Kind, net: Net, x: NodeId, s: Session, d0: Data, now: int, bound: nat)
    requires x in net && Faithful(q, net, x, net[x], bound) && OnClientData(net[x], s, d0, now).Running?
             && bound + 1 < Limit(q)
    ensures var m := OnClientData(net[x], s, d0, now).node; Faithful(q, net[x := m], x, m, bound + 1)
  {
    hide Faithful, HashedAt, DataDistance, Issued, DataHash, Handed, ClientSends, NextSeq;
    var n := net[x];
    var m := OnClientData(n, s, d0, now).node;
    var d := Stamped(n, d0);
    assert n.id == x && OwnNames(q, n, bound) by { FaithfulBasics(q, net, x, n, bound); }
    ClientDataLog(q, net, x, s, d0, now);
    DataKeyKind(d);
    if q.Group? && d.uheader.None? {
      assert IssuesNext(q, n, m, DataHash(d)) by { ClientDataIssues(n, s, d0, now, bound); }
      NextFaithful(q, net, x, m, DataHash(d), bound);
    } else if q.Group? {
      UnicastFaithful(net, x, s, d0, now, bound);
    } else {
      assert OnlyForeign(q, net, n, m);
      ForeignFaithful(q, net, x, m, bound);
    }
  }

  lemma DataKeyKind(d: Data)
    ensures var h := DataHash(d);
            h.DataHashKey? && Src(h) == d.srcnode && Gid(h) == d.gid && SeqNo(h) == d.sequence
              && (h.data.uheader.None? <==> d.uheader.None?)
  {
  }

  lemma ClientDataIssues(n: Node, s: Session, d0: Data, now: int, bound: nat)
    requires OwnNames(Group, n, bound) && bound + 1 < U64 && d0.uheader.None? && OnClientData(n, s, d0, now).Running?
    ensures IssuesNext(Group, n, OnClientData(n, s, d0, now).node, DataHash(Stamped(n, d0)))
  {
    hide HashedAt, DataDistance, DataHash, Handed, ClientSends;
    DataKeyKind(Stamped(n, d0));
    assert Counter(Group, n, d0.gid) <= bound;
    assert NextSeq(n, d0.gid) == Counter(Group, n, d0.gid) + 1 by { CountUp(n, d0.gid, bound); }
  }

  lemma CountUp(n: Node, gid: GroupId, bound: nat)
    requires Counter(Group, n, gid) <= bound && bound + 1 < U64
    ensures NextSeq(n, gid) == Counter(Group, n, gid) + 1
  {
  }

  /** Unicast DATA takes a number too, but its key is not tracked. */
  lemma UnicastFaithful(net: Net, x: NodeId, s: Session, d0: Data, now: int, bound: nat)
    requires x in net && Faithful(Group, net, x, net[x], bound) && bound + 1 < U64
    requires d0.uheader.Some? && OnClientData(net[x], s, d0, now).Running?
    requires var m := OnClientData(net[x], s, d0, now).node; NewCarried(Group, net[x := m], net[x], m)
    ensures var m := OnClientData(net[x], s, d0, now).node; Faithful(Group, net[x := m], x, m, bound + 1)
  {
    hide HashedAt, DataDistance, Issued, DataHash, Handed, ClientSends, NextSeq, LogIssued;
    var n := net[x];
    var m := OnClientData(n, s, d0, now).node;
    DataKeyKind(Stamped(n, d0));
    assert Counter(Group, n, d0.gid) <= bound;
    CountUp(n, d0.gid, bound);
    IssuedStays(net, x, m);
    FaithfulStays(Group, net, net[x := m], x, n, bound);
    LogStays(Group, net[x := m], n, m);
    assert forall h :: h in m.hash && Tracked(Group, h) ==> h in n.hash;
    assert m.seqByGid == n.seqByGid[d0.gid := Counter(Group, n, d0.gid) + 1];
    assert forall g :: Counter(Group, m, g) == if g == d0.gid then Counter(Group, n, g) + 1 else Counter(Group, n, g);
    CounterMayRise(n, m, bound);
    assert HashIssued(Group, net[x := m], m) by { SameHashIssued(net[x := m], n, m); }
  }

  lemma SameHashIssued(next: Net, n: Node, m: Node)
    requires HashIssued(Group, next, n) && forall h :: h in m.hash && Tracked(Group, h) ==> h in n.hash
    ensures HashIssued(Group, next, m)
  {
    hide Issued, Tracked;
  }

  lemma CounterMayRise(n: Node, m: Node, bound: nat)
    requires OwnNames(Group, n, bound) && m.id == n.id
    requires forall g :: Counter(Group, n, g) <= Counter(Group, m, g) <= bound + 1
    requires forall h :: h in m.hash && Tracked(Group, h) ==> h in n.hash
    ensures OwnNames(Group, m, bound + 1)
  {
    hide Counter, Tracked;
  }

  lemma ClientDataLog(q: Kind, net: Net, x: NodeId, s: Session, d0: Data, now: int)
    requires x in net && net[x].id == x && OnClientData(net[x], s, d0, now).Running?
    ensures var m := OnClientData(net[x], s, d0, now).node; NewCarried(q, net[x := m], net[x], m)
  {
    hide HashedAt, DataDistance, DataHash, Handed, ClientSends, NextSeq;
    var n := net[x];
    var m := OnClientData(n, s, d0, now).node;
    var d := Stamped(n, d0);
    var b := PreProcess(n, d, n.id, Some(s), now);
    DataKeyKind(d);
    assert Issued(net[x := m], DataHash(d));
    forall o | o in ClientSends(b, d) ensures Carried(q, net[x := m], o) {
      if d.uheader.None? {
        ClientSendsKey(b, d);
      } else {
        UnicastUntracked(b, d);
        DataKeyKind(o.data);
      }
    }
  }

  // ---- runs ----------------------------------------------------------------------------

  lemma ReactFaithful(q: Kind, net: Net, x: NodeId, e: Event, bound: nat)
    requires NetFaithful(q, net, bound) && Enabled(net, x, e) && React(net[x], e).Running? && Steady(q, e)
             && bound + 1 < Limit(q)
    ensures var m := React(net[x], e).node; Faithful(q, net[x := m], x, m, bound + 1)
  {
    hide OnAdvertise, OnAck, OnData, OnAckTimeout, OnAdvTimeout, OnDataTimeout, OnAnnounce, Faithful, Issued, Tracked,
         OnHashCleanup, OnPullCleanup, OnClientData, OnRegister, OnClose, RemoveFirst, NewCarried, OnlyForeign, Carried;
    var n := net[x];
    var m := React(n, e).node;
    assert Faithful(q, net, x, n, bound);
    FaithfulBasics(q, net, x, n, bound);
    match e
    case AnnounceTimer(gid, now) => AnnounceFaithful(q, net, x, gid, now, bound);
    case FromClient(s, c, now) =>
      if c.ClientData? {
        ClientDataFaithful(q, net, x, s, c.data, now, bound);
      } else {
        IdleForeign(q, net, x, e);
        ForeignCarried(q, net, x, m, bound);
      }
    case Receive(from, o, draw, now) =>
      assert Faithful(q, net, from, net[from], bound);
      FaithfulBasics(q, net, from, net[from], bound);
      assert Carried(q, net, o);
      if from == x {
        SelfForeign(q, net, x);
      } else {
        match o
        case OtaAck(a) => AckForeign(q, net, x, a, from, draw, now);
        case OtaAdv(a) => AdvertiseForeign(q, net, x, a, from, now); AdvertiseCarried(q, net, x, a, from, now);
        case OtaData(d) => DataForeign(q, net, x, d, from, now); DataCarried(q, net, x, d, from, now);
      }
      ForeignCarried(q, net, x, m, bound);
    case AckTimer(k) =>
      TimerForeign(q, net, x, e); AckTimerCarried(q, net, n, k); ForeignCarried(q, net, x, m, bound);
    case AdvTimer(k) =>
      TimerForeign(q, net, x, e); AdvTimerCarried(q, net, n, k); ForeignCarried(q, net, x, m, bound);
    case DataTimer(h) =>
      TimerForeign(q, net, x, e); DataTimerCarried(q, net, n, h); ForeignCarried(q, net, x, m, bound);
    case PullTimer(now) => IdleForeign(q, net, x, e); ForeignCarried(q, net, x, m, bound);
    case ClientGone(s) => IdleForeign(q, net, x, e); ForeignCarried(q, net, x, m, bound);
  }

  lemma SelfForeign(q: Kind, net: Net, x: NodeId)
    requires x in net
    ensures OnlyForeign(q, net, net[x], net[x]) && NewCarried(q, net, net[x], net[x])
  {
    hide Issued, Tracked, Carried;
  }

  lemma ForeignCarried(q: Kind, net: Net, x: NodeId, m: Node, bound: nat)
    requires x in net && Faithful(q, net, x, net[x], bound) && OnlyForeign(q, net, net[x], m)
             && NewCarried(q, net, net[x], m)
    ensures Faithful(q, net[x := m], x, m, bound + 1)
  {
    hide Issued, Tracked, Faithful;
    ForeignBasics(q, net, net[x], m);
    IssuedStays(net, x, m);
    assert NewCarried(q, net[x := m], net[x], m);
    ForeignFaithful(q, net, x, m, bound);
  }

  /** Names only grow: keys issued stay issued in a run without hash expiry. */
  lemma HashGrows(n: Node, e: Event)
    requires React(n, e).Running? && !e.HashTimer?
    ensures forall h :: h in n.hash ==> h in React(n, e).node.hash
  {
    if IdleEvent(e) {
      hide React;
      UntouchedReact(n, e);
    } else {
      BusyHashGrows(n, e);
    }
  }

  lemma BusyHashGrows(n: Node, e: Event)
    requires React(n, e).Running? && !IdleEvent(e)
    ensures forall h :: h in n.hash ==> h in React(n, e).node.hash
  {
    hide HashedAt, AdvDistance, AdvForward, AdvRaises, JoinsTree, Overrides, LearnPath, AdvHash, DataHash, DataDistance,
         DataForward, DataRaises, Handed, Adopts, PassesAck, Flips, Chosen, AddPull, OwnDistance, AckProb, ClientSends,
         NextSeq;
    match e
    case Receive(from, o, draw, now) =>
      if from != n.id {
        match o
        case OtaAck(a) =>
        case OtaAdv(a) =>
        case OtaData(d) =>
      }
    case AnnounceTimer(gid, now) =>
    case FromClient(s, ClientData(d), now) =>
    case AckTimer(k) =>
    case AdvTimer(k) =>
    case DataTimer(h) =>
  }

  lemma StepFaithful(q: Kind, net: Net, x: NodeId, e: Event, next: Net, bound: nat)
    requires NetFaithful(q, net, bound) && Step(net, x, e, next) && Steady(q, e) && bound + 1 < Limit(q)
    ensures NetFaithful(q, next, bound + 1)
    ensures forall h :: Issued(net, h) ==> Issued(next, h)
  {
    hide React, Faithful, Issued;
    HashGrows(net[x], e);
    IssuedStays(net, x, next[x]);
    forall y | y in next ensures Faithful(q, next, y, next[y], bound + 1) {
      if y == x {
        ReactFaithful(q, net, x, e, bound);
      } else {
        FaithfulStays(q, net, next, y, net[y], bound);
      }
    }
  }

  lemma {:induction false} RunFaithful(q: Kind, nets: seq<Net>, moves: seq<Move>)
    requires Run(nets, moves) && AllSteady(q, moves) && |moves| < Limit(q)
    ensures NetFaithful(q, nets[|moves|], |moves|)
    decreases |moves|
  {
    hide Step, NetFaithful, Start, Steady;
    if moves == [] {
      StartFaithful(q, nets[0]);
    } else {
      RunPrefix(nets, moves);
      var last := |moves| - 1;
      RunFaithful(q, nets[..|moves|], moves[..last]);
      StepFaithful(q, nets[last], moves[last].node, moves[last].event, nets[|moves|], last);
    }
  }

  lemma StartFaithful(q: Kind, net: Net)
    requires Start(net)
    ensures NetFaithful(q, net, 0)
  {
  }
}
