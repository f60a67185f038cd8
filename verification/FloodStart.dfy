/** How floods start: with an announcement, or with group DATA that a client hands over. */
module FloodStart {
  import opened Types
  import opened NodeSpec
  import opened Network
  import opened Origin
  import opened Air
  import opened Flood
  import opened FloodRound

  /** Nobody knows the message yet. */
  ghost predicate Unheard(links: Links, s: Air, h: HashKey) {
    && WellFormed(links, s) && (forall m :: m in Afoot(s) ==> Bystander(h, m) && !Carries(m, h))
    && forall x :: x in s.nodes ==> Keyed(s.nodes[x]) && h !in s.nodes[x].hash && TimesSent(s.nodes[x].sent, h) == 0
  }

  /** The source stores the key of the message and sends it. */
  ghost predicate Originates(n: Node, m: Node, h: HashKey, o: OtaMsg) {
    && m.id == n.id && n.id == Src(h) && m.hash.Keys == n.hash.Keys + {h} && m.sent == n.sent + [o]
    && Carries(o, h) && MsgTtl(o) == Full(h) - 1
    && m.ackTimers == n.ackTimers && m.advTimers == n.advTimers && m.dataTimers == n.dataTimers
    && (AlongTree(h) || IsGroupNode(m, Gid(h)))
  }

  lemma AnnouncementOriginates(n: Node, gid: GroupId, now: int)
    requires gid in n.announce && Floods(AdvHash(OwnAdvertise(n, gid)))
    ensures OnAnnounce(n, gid, now).Running?
    ensures var a := OwnAdvertise(n, gid); Originates(n, OnAnnounce(n, gid, now).node, AdvHash(a),
                                                      OtaAdv(a.(ttl := Dec32(a.srcttl))))
  {
    hide HashedAt, OwnDistance, AnyLocal;
  }

  /** The message that client DATA without a unicast header puts on the air. */
  function Broadcast(n: Node, d0: Data): OtaMsg {
    var d := Stamped(n, d0);
    OtaData(d.(ttl := if d.srcttl.Some? then Dec32(d.srcttl.value) else 0))
  }

  /** Without a TTL, group DATA leaves the source only if someone subscribed or no ACKs are awaited. */
  predicate MayLeave(n: Node, d: Data) {
    d.srcttl.Some? || AnyRemote(n.remotePull, d.gid) || (d.gid in n.announce && n.announce[d.gid].interval <= 0)
  }

  lemma ClientDataOriginates(n: Node, s: Session, d0: Data, now: int)
    requires d0.gid in n.announce && Floods(DataHash(Stamped(n, d0))) && MayLeave(n, d0)
    ensures OnClientData(n, s, d0, now).Running?
    ensures Originates(n, OnClientData(n, s, d0, now).node, DataHash(Stamped(n, d0)), Broadcast(n, d0))
  {
    hide HashedAt, DataDistance, AnyLocal, Handed, NextSeq, AnyRemote;
  }

  lemma OwnBystander(h: HashKey, o: OtaMsg)
    requires Carries(o, h)
    ensures Bystander(h, o)
  {
  }

  /** `x` adds one message to its log, and a copy of it sets out to every neighbour. */
  ghost predicate SetsOut(links: Links, s: Air, x: NodeId, t: Air, h: HashKey, o: OtaMsg) {
    && x in s.nodes && x in t.nodes && t.nodes == s.nodes[x := t.nodes[x]] && Originates(s.nodes[x], t.nodes[x], h, o)
    && t.flight == s.flight + Copies(links, s.nodes, x, |s.nodes[x].sent|)
  }

  lemma OriginAir(links: Links, s: Air, x: NodeId, t: Air, h: HashKey, o: OtaMsg)
    requires WellFormed(links, s) && SetsOut(links, s, x, t, h, o)
    ensures WellFormed(links, t)
    ensures forall c :: c in s.flight ==> OnAir(links, t.nodes, c) && MsgOf(t.nodes, c) == MsgOf(s.nodes, c)
    ensures forall c :: c in t.flight && c !in s.flight ==>
              OnAir(links, t.nodes, c) && MsgOf(t.nodes, c) == o && c.from == x && c.index == |s.nodes[x].sent|
  {
    hide AlongTree, IsGroupNode, Carries, MsgTtl, Full;
  }

  lemma OriginAfoot(links: Links, s: Air, x: NodeId, t: Air, h: HashKey, o: OtaMsg, m: OtaMsg)
    requires WellFormed(links, s) && SetsOut(links, s, x, t, h, o) && m in Afoot(t)
    ensures m == o || m in Afoot(s)
  {
    OriginAir(links, s, x, t, h, o);
    assert NodeMsgs(t.nodes[x]) == NodeMsgs(s.nodes[x]);
    hide Carries, MsgTtl, Full, AlongTree, IsGroupNode, WellFormed, NodeMsgs;
    if c :| c in t.flight && c.from in t.nodes && c.index < |t.nodes[c.from].sent| && MsgOf(t.nodes, c) == m {
      assert c in s.flight ==> m == MsgOf(s.nodes, c);
    }
  }

  lemma OriginWatched(links: Links, s: Air, x: NodeId, t: Air, h: HashKey, o: OtaMsg)
    requires Unheard(links, s, h) && Floods(h) && SetsOut(links, s, x, t, h, o)
    ensures Watched(links, t, h)
  {
    assert WellFormed(links, t) by { OriginAir(links, s, x, t, h, o); }
    assert forall y :: y in t.nodes ==> Keyed(t.nodes[y]) && SourceKnows(t.nodes[y], h) by {
      hide Afoot, AlongTree, IsGroupNode;
    }
    hide Bystander, Carries, Originates, Afoot, SourceKnows, Floods;
    forall m | m in Afoot(t) ensures Bystander(h, m) {
      OriginAfoot(links, s, x, t, h, o, m);
      assert m == o ==> Bystander(h, m) by { OriginCarries(s.nodes[x], t.nodes[x], h, o); OwnBystander(h, o); }
    }
  }

  lemma OriginCarries(n: Node, m: Node, h: HashKey, o: OtaMsg)
    requires Originates(n, m, h, o)
    ensures Carries(o, h) && m.sent == n.sent + [o] && n.id == Src(h) && MsgTtl(o) == Full(h) - 1
  {
  }

  lemma WaitingIsAfoot(s: Air, y: NodeId, h: HashKey)
    requires y in s.nodes && Keyed(s.nodes[y]) && WaitingTtl(s.nodes[y], h).Some?
    ensures exists m :: m in Afoot(s) && Carries(m, h)
  {
    hide AdvHash, DataHash;
    var n := s.nodes[y];
    var m := if h.AdvHashKey? then OtaAdv(n.advTimers[FlowOf(h)].adv) else OtaData(n.dataTimers[h].data);
    assert m in NodeMsgs(n) && Carries(m, h);
  }

  lemma OriginSight(links: Links, s: Air, x: NodeId, t: Air, h: HashKey, o: OtaMsg, c: Copy)
    requires Unheard(links, s, h) && SetsOut(links, s, x, t, h, o) && Full(h) > 0 && c in t.flight
    ensures c in s.flight ==>
              Sight(t, c, TtlSeen(h)) == None && Sight(s, c, TtlSeen(h)) == None
                && !(c.from == x && c.index == |s.nodes[x].sent|)
    ensures c !in s.flight ==> Sight(t, c, TtlSeen(h)) == Some(Full(h) - 1)
  {
    hide Afoot, Full, Originates, Bystander, Carries, MsgTtl;
    OriginAir(links, s, x, t, h, o);
    OriginCarries(s.nodes[x], t.nodes[x], h, o);
    if c in s.flight {
      FlightAfoot(links, s, c);
    }
  }

  lemma OriginFlight(links: Links, s: Air, x: NodeId, t: Air, h: HashKey, o: OtaMsg)
    requires Unheard(links, s, h) && SetsOut(links, s, x, t, h, o) && Full(h) > 0
    ensures var w := WorldOf(links, t.nodes, h); Broadcasts<u32>(w.links, w.role.Keys, x, Full(h) - 1, map[],
                                                                 FlightOf(t, h))
  {
    hide Afoot, Full, Originates, Unheard, Sight, TtlSeen, Copies, Broadcasts, RoleIn;
    forall c | c in t.flight
      ensures c in s.flight ==>
                Sight(t, c, TtlSeen(h)) == None && Sight(s, c, TtlSeen(h)) == None
                  && !(c.from == x && c.index == |s.nodes[x].sent|)
      ensures c !in s.flight ==> Sight(t, c, TtlSeen(h)) == Some(Full(h) - 1)
    {
      OriginSight(links, s, x, t, h, o, c);
    }
    assert Seen(s, TtlSeen(h)) == map[];
    FreshCopiesSeen<u32>(links, s, x, |s.nodes[x].sent|, t, TtlSeen(h), Some(Full(h) - 1));
    assert WorldOf(links, t.nodes, h).role.Keys == s.nodes.Keys;
  }

  lemma FlightAfoot(links: Links, s: Air, c: Copy)
    requires WellFormed(links, s) && c in s.flight
    ensures MsgOf(s.nodes, c) in Afoot(s)
  {
    hide NodeMsgs;
  }

  lemma OriginWaiting(links: Links, s: Air, x: NodeId, t: Air, h: HashKey, o: OtaMsg)
    requires Unheard(links, s, h) && SetsOut(links, s, x, t, h, o)
    ensures WaitingOf(t.nodes, h) == map[]
  {
    hide Bystander, Carries, WaitingTtl, Afoot, WellFormed;
    forall y | y in t.nodes ensures WaitingTtl(t.nodes[y], h).None? {
      SameTimers(s.nodes[y], t.nodes[y], h);
      if WaitingTtl(s.nodes[y], h).Some? {
        WaitingIsAfoot(s, y, h);
      }
    }
  }

  lemma SameTimers(n: Node, m: Node, h: HashKey)
    requires m.advTimers == n.advTimers && m.dataTimers == n.dataTimers
    ensures WaitingTtl(m, h) == WaitingTtl(n, h)
  {
  }

  lemma OriginNodes(links: Links, s: Air, x: NodeId, t: Air, h: HashKey, o: OtaMsg)
    requires Unheard(links, s, h) && SetsOut(links, s, x, t, h, o)
    ensures x == Src(h) && GotOf(t.nodes, h).Keys == {x} && SendsOf(t.nodes, h) == map y | y in t.nodes :: if y == x
            then 1 else 0
  {
    hide Bystander, Carries, TimesSent, Afoot, IsGroupNode, Full, MsgTtl, Keyed;
    TimesSentAppend(s.nodes[x].sent, o, h);
    forall y | y in t.nodes ensures TimesSent(t.nodes[y].sent, h) == if y == x then 1 else 0 {}
  }

  /** A message its source sends for the first time starts a flood. */
  lemma OriginStartsFlood(links: Links, s: Air, x: NodeId, t: Air, h: HashKey, o: OtaMsg)
    requires Unheard(links, s, h) && Floods(h) && SetsOut(links, s, x, t, h, o)
    ensures FloodStarts(links, t, h)
  {
    hide Unheard, Watched, Broadcasts, GotOf, WaitingOf, SendsOf, FlightOf, WorldOf;
    OriginWatched(links, s, x, t, h, o);
    assert Full(h) > 0;
    OriginFlight(links, s, x, t, h, o);
    OriginNodes(links, s, x, t, h, o);
    OriginWaiting(links, s, x, t, h, o);
    OriginSensible(links, t, x, h);
  }

  lemma OriginSensible(links: Links, t: Air, x: NodeId, h: HashKey)
    requires Watched(links, t, h) && x in t.nodes && x == Src(h)
    ensures Sensible(WorldOf(links, t.nodes, h)) && WorldOf(links, t.nodes, h).src == x
            && WorldOf(links, t.nodes, h).full == Full(h)
  {
    hide Afoot, Bystander, Keyed, RelaysTree, IsGroupNode;
    assert t.nodes[x].id == x && SourceKnows(t.nodes[x], h);
  }

  /** A new announcement floods. */
  lemma AnnouncementFloods(links: Links, s: Air, x: NodeId, gid: GroupId, now: int, t: Air)
    requires Goes(links, s, Occurs(x, AnnounceTimer(gid, now)), t)
    requires var h := AdvHash(OwnAdvertise(s.nodes[x], gid)); Floods(h) && Unheard(links, s, h)
    ensures FloodStarts(links, t, AdvHash(OwnAdvertise(s.nodes[x], gid)))
  {
    hide OnAnnounce, Originates, Floods, Unheard, AdvHash, Copies;
    var a := OwnAdvertise(s.nodes[x], gid);
    AnnouncementOriginates(s.nodes[x], gid, now);
    OriginCarries(s.nodes[x], t.nodes[x], AdvHash(a), OtaAdv(a.(ttl := Dec32(a.srcttl))));
    OriginStartsFlood(links, s, x, t, AdvHash(a), OtaAdv(a.(ttl := Dec32(a.srcttl))));
  }

  /** So does group DATA that a client hands over. */
  lemma ClientDataFloods(links: Links, s: Air, x: NodeId, from: Session, d: Data, now: int, t: Air)
    requires Goes(links, s, Occurs(x, FromClient(from, ClientData(d), now)), t) && MayLeave(s.nodes[x], d)
    requires var h := DataHash(Stamped(s.nodes[x], d)); Floods(h) && Unheard(links, s, h)
    ensures FloodStarts(links, t, DataHash(Stamped(s.nodes[x], d)))
  {
    hide OnClientData, Originates, Floods, Unheard, DataHash, Copies, MayLeave, Stamped, Broadcast;
    var n := s.nodes[x];
    FloodsNoHeader(n, d);
    ClientDataOriginates(n, from, d, now);
    OriginCarries(n, t.nodes[x], DataHash(Stamped(n, d)), Broadcast(n, d));
    OriginStartsFlood(links, s, x, t, DataHash(Stamped(n, d)), Broadcast(n, d));
  }

  lemma FloodsNoHeader(n: Node, d: Data)
    requires Floods(DataHash(Stamped(n, d)))
    ensures d.uheader.None?
  {
  }

  /** The TTL on the air is below the source TTL exactly when that is positive: a source TTL of zero
      wraps to the largest TTL there is. */
  lemma SourceTtlWraps(n: Node, gid: GroupId, now: int)
    requires gid in n.announce
    ensures OnAnnounce(n, gid, now).Running?
    ensures var m := OnAnnounce(n, gid, now).node;
            |m.sent| == |n.sent| + 1 && m.sent[|n.sent|].OtaAdv? &&
            (m.sent[|n.sent|].adv.ttl < n.announce[gid].srcTtl <==> n.announce[gid].srcTtl > 0) &&
            (n.announce[gid].srcTtl == 0 ==> m.sent[|n.sent|].adv.ttl == U32 - 1)
  {
    hide HashedAt, OwnDistance, AdvHash;
  }

  /** Group DATA of a client goes on the air exactly if it has a TTL, someone subscribed, or no ACKs are
      awaited; it is kept and handed over in any case. */
  lemma LeavesIff(n: Node, s: Session, d0: Data, now: int)
    requires d0.uheader.None? && d0.gid in n.announce
    ensures OnClientData(n, s, d0, now).Running?
    ensures var m := OnClientData(n, s, d0, now).node;
            && (MayLeave(n, d0) ==> m.sent == n.sent + [Broadcast(n, d0)]) && (!MayLeave(n, d0) ==> m.sent == n.sent)
            && DataHash(Stamped(n, d0)) in m.hash
            && (DataHash(Stamped(n, d0)) !in n.hash ==> m.hash[DataHash(Stamped(n, d0))] == d0.ttl)
  {
    hide HashedAt, DataDistance, Handed, NextSeq, AnyRemote, DataHash;
  }
}
