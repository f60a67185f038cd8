/** The service as its source is written: tables updated in place, handler by handler.
    Every method is tied to the specification function of the same handler; a result of
    false means that the process has exited on a failed assertion. */
module GcnService {
  import opened Types
  import opened NodeSpec
  import opened HashIndex
  import opened PullTable

  class GcnService {
    const id: NodeId
    const alwaysRebroadcast: bool
    const hashExpire: real
    const pullExpire: real

    var localPull: seq<LocalPull>
    var remotePull: seq<RemotePull>
    var announce: map<GroupId, Announce>
    var revPath: map<FlowKey, RevPath>
    var coin: map<FlowKey, u32>
    var ackSent: map<FlowKey, u32>
    var dist: map<FlowKey, Distance>
    var ackTimers: map<FlowKey, Ack>
    var advTimers: map<FlowKey, PendingAdv>
    var dataTimers: map<HashKey, PendingData>
    var advSeen: set<AdvId>
    var hash: map<HashKey, u32>
    var hashTime: seq<HashTime>
    var seqByGid: map<GroupId, nat>
    var sent: seq<OtaMsg>
    var written: seq<AppWrite>

    function View(): Node
      reads this
    {
      Node(id, alwaysRebroadcast, hashExpire, pullExpire, localPull, remotePull, announce, revPath, coin, ackSent,
           dist, ackTimers, advTimers, dataTimers, advSeen, hash, hashTime, seqByGid, sent, written)
    }

    /** The hash table and its time index agree. */
    ghost predicate Valid()
      reads this`hash, this`hashTime
    {
      Indexed(hash, hashTime)
    }

    constructor (id: NodeId, alwaysRebroadcast: bool, hashExpire: real, pullExpire: real)
      ensures Valid() && View() == FreshNode(id, alwaysRebroadcast, hashExpire, pullExpire)
    {
      this.id, this.alwaysRebroadcast, this.hashExpire, this.pullExpire := id, alwaysRebroadcast, hashExpire,
        pullExpire;
      localPull, remotePull, announce, revPath := [], [], map[], map[];
      coin, ackSent, dist := map[], map[], map[];
      ackTimers, advTimers, dataTimers := map[], map[], map[];
      advSeen, hash, hashTime, seqByGid := {}, map[], [], map[];
      sent, written := [], [];
    }

    // ---- hash and distance tables ------------------------------------------------------

    method AddHash(h: HashKey, ttl: u32, now: int) returns (isNew: bool)
      requires Valid()
      modifies this`hash, this`hashTime
      ensures Valid() && isNew == (h !in old(hash))
      ensures hash == Hashed(old(hash), h, ttl) && hashTime == HashedAt(old(hash), old(hashTime), h, now)
    {
      if h in hash {
        return false;
      }
      AddKeepsIndex(hash, hashTime, h, ttl, now);
      hash := hash[h := ttl];
      hashTime := InsertTime(hashTime, HashTime(now, h));
      return true;
    }

    method ChangeMaxTtl(h: HashKey, ttl: u32)
      requires Valid() && h in hash
      modifies this`hash
      ensures Valid() && hash == old(hash)[h := ttl]
    {
      hash := hash[h := ttl];
    }

    method UpdateDistanceTable(k: FlowKey, h: HashKey, hops: u32, from: NodeId, isNew: bool, isAdv: bool)
      modifies this`dist
      ensures dist == old(dist)[k := NextDistance(old(dist), id, k, h, hops, from, isNew, isAdv)]
    {
      if k in dist {
        var e := dist[k];
        if e.latest == h {
          if from !in e.srcs && k.src != id {
            e := e.(count := (e.count + 1) % U16);
            e := e.(srcs := e.srcs + {from});
          }
        } else if isNew {
          if isAdv {
            e := e.(hops := hops, latest := h, count := 1, srcs := {});
            e := e.(srcs := e.srcs + {from});
            assert e == Distance(hops, h, 1, {from});
          } else {
            e := e.(hops := hops);
          }
        }
        dist := dist[k := e];
      } else {
        dist := dist[k := Distance(hops, h, 1, {from})];
      }
    }

    method HashCleanup(now: int) returns (ok: bool)
      requires Valid()
      modifies this`hash, this`hashTime
      ensures Valid() && ok && View() == OnHashCleanup(old(View()), now)
    {
      hide Indexed, Remaining, Fresh, ExpiredKeys;
      ghost var s, m := hashTime, hash;
      ghost var p: nat := 0;
      CleanupStarts(m, s);
      while |hashTime| > 0 && Expired(now, hashTime[0].time, hashExpire)
        invariant p <= |s| && hashTime == s[p..] && hash == Remaining(m, s, p)
        invariant forall i :: 0 <= i < p ==> Expired(now, s[i].time, hashExpire)
        decreases |hashTime|
      {
        CleanupStep(m, s, p);
        var key := hashTime[0].key;
        if key !in hash {
          return false;
        }
        hash := hash - {key};
        hashTime := hashTime[1..];
        p := p + 1;
      }
      CleanupEnds(m, s, now, hashExpire, p);
      return true;
    }

    // ---- timers ------------------------------------------------------------------------

    method ScheduleAck(a: Ack)
      modifies this`ackTimers
      ensures ackTimers == SetAckTimer(old(ackTimers), a)
    {
      if AckFlow(a) !in ackTimers {
        ackTimers := ackTimers[AckFlow(a) := a];
      }
    }

    method ScheduleAdv(a: Advertise, ttl: u32)
      modifies this`advTimers
      ensures advTimers == old(advTimers)[AdvFlow(a) := PendingAdv(a, ttl)]
    {
      var k := AdvFlow(a);
      if k in advTimers {
        advTimers := advTimers - {k};
      }
      advTimers := advTimers[k := PendingAdv(a, ttl)];
      assert advTimers == old(advTimers)[k := PendingAdv(a, ttl)];
    }

    method ScheduleData(d: Data, ttl: u32, h: HashKey)
      modifies this`dataTimers
      ensures dataTimers == old(dataTimers)[h := PendingData(d, ttl)]
    {
      if h in dataTimers {
        dataTimers := dataTimers - {h};
      }
      dataTimers := dataTimers[h := PendingData(d, ttl)];
      assert dataTimers == old(dataTimers)[h := PendingData(d, ttl)];
    }

    method AckTimeout(k: FlowKey) returns (ok: bool)
      modifies this`ackTimers, this`sent
      ensures ok == OnAckTimeout(old(View()), k).Running?
      ensures ok ==> View() == OnAckTimeout(old(View()), k).node
    {
      if k !in ackTimers || k !in revPath {
        return false;
      }
      var ack := ackTimers[k];
      var p := revPath[k].probRelay;
      if p > 100 {
        if k !in dist {
          return false;
        }
        var numNodes := |dist[k].srcs|;
        if numNodes == 0 {
          return false;
        }
        ack := ack.(prob := p / numNodes);
      } else {
        ack := ack.(prob := p);
      }
      sent := sent + [OtaAck(ack)];
      ackTimers := ackTimers - {k};
      return true;
    }

    method AdvTimeout(k: FlowKey) returns (ok: bool)
      modifies this`advTimers, this`sent
      ensures ok == OnAdvTimeout(old(View()), k).Running?
      ensures ok ==> View() == OnAdvTimeout(old(View()), k).node
    {
      if k !in advTimers {
        return false;
      }
      ForwardAdv(advTimers[k].adv, advTimers[k].ttl);
      advTimers := advTimers - {k};
      return true;
    }

    method DataTimeout(h: HashKey) returns (ok: bool)
      modifies this`dataTimers, this`sent
      ensures ok == OnDataTimeout(old(View()), h).Running?
      ensures ok ==> View() == OnDataTimeout(old(View()), h).node
    {
      if h !in dataTimers {
        return false;
      }
      ForwardData(dataTimers[h].data, dataTimers[h].ttl);
      dataTimers := dataTimers - {h};
      return true;
    }

    /** A transmission keeps the key of the message and lowers the TTL it is given, unless that is zero. */
    method ForwardAdv(a: Advertise, ttl: u32)
      modifies this`sent
      ensures sent == old(sent) + [OtaAdv(a.(ttl := Dec32(ttl)))]
      ensures var o := sent[|old(sent)|]; o.OtaAdv? && AdvHash(o.adv) == AdvHash(a) && (o.adv.ttl < ttl <==> ttl > 0)
    {
      sent := sent + [OtaAdv(a.(ttl := Dec32(ttl)))];
    }

    method ForwardData(d: Data, ttl: u32)
      modifies this`sent
      ensures sent == old(sent) + [OtaData(d.(ttl := Dec32(ttl)))]
      ensures var o := sent[|old(sent)|];
              o.OtaData? && DataHash(o.data) == DataHash(d) && (o.data.ttl < ttl <==> ttl > 0)
    {
      sent := sent + [OtaData(d.(ttl := Dec32(ttl)))];
    }

    method ForwardToApp(s: Session, m: AppMsg)
      modifies this`written
      ensures written == old(written) + [AppWrite(s, m)]
    {
      written := written + [AppWrite(s, m)];
    }

    // ---- ADVERTISE ---------------------------------------------------------------------

    /** PULL the announcing client once. */
    method SendPull(gid: GroupId)
      requires gid in announce
      modifies this`announce, this`written
      ensures announce == Pulled(old(announce), gid) && written == old(written) + PullWrites(old(announce), gid)
    {
      if !announce[gid].pullSent {
        ForwardToApp(announce[gid].session, AppPull(gid));
        announce := announce[gid := announce[gid].(pullSent := true)];
      }
    }

    method UpdateReversePath(k: FlowKey, from: NodeId, seqNo: u32, probRelay: u32, now: int)
      modifies this`revPath
      ensures revPath == LearnPath(old(revPath), k, RevPath(from, seqNo, now, probRelay))
    {
      if k in revPath {
        if seqNo > revPath[k].seqNo {
          var e := revPath[k];
          e := e.(next := from);
          e := e.(seqNo := seqNo);
          e := e.(time := now);
          e := e.(probRelay := probRelay);
          revPath := revPath[k := e];
        }
      } else {
        revPath := revPath[k := RevPath(from, seqNo, now, probRelay)];
      }
    }

    method RecordAdvertise(a: Advertise, from: NodeId, now: int) returns (isNew: bool)
      requires Valid()
      modifies this`hash, this`hashTime, this`advSeen, this`dist
      ensures Valid() && isNew == (AdvHash(a) !in old(hash))
      ensures hash == Hashed(old(hash), AdvHash(a), a.ttl)
              && hashTime == HashedAt(old(hash), old(hashTime), AdvHash(a), now)
      ensures dist == old(dist)[AdvFlow(a) := NextDistance(old(dist), id, AdvFlow(a), AdvHash(a), a.distance, from,
                                                           isNew, true)]
      ensures advSeen == if IsGroupNode(old(View()), a.gid) || a.ttl > 0 then old(advSeen) + {AdvIdOf(a)}
              else old(advSeen)
    {
      hide Indexed, AnyLocal, NextDistance;
      isNew := AddHash(AdvHash(a), a.ttl, now);
      if !IsGroupNode(View(), a.gid) {
        if a.ttl > 0 {
          advSeen := advSeen + {AdvIdOf(a)};
        }
      } else {
        advSeen := advSeen + {AdvIdOf(a)};
      }
      UpdateDistanceTable(AdvFlow(a), AdvHash(a), a.distance, from, isNew, true);
    }

    method JoinGroupTree(a: Advertise, from: NodeId)
      modifies this`advTimers, this`ackTimers, this`announce, this`written
      ensures advTimers == if !a.nottlregen then old(advTimers)[AdvFlow(a) := PendingAdv(a, a.srcttl)]
                           else if a.ttl > 0 then old(advTimers)[AdvFlow(a) := PendingAdv(a, a.ttl)] else old(advTimers)
      ensures ackTimers == SetAckTimer(old(ackTimers), Ack(a.gid, a.srcnode, a.sequence, from, 0))
      ensures if a.gid in old(announce) && old(announce)[a.gid].interval == 0
              then announce == Pulled(old(announce), a.gid)
                && written == old(written) + PullWrites(old(announce), a.gid)
              else announce == old(announce) && written == old(written)
    {
      if !a.nottlregen {
        ScheduleAdv(a, a.srcttl);
      } else if a.ttl > 0 {
        ScheduleAdv(a, a.ttl);
      }
      ScheduleAck(Ack(a.gid, a.srcnode, a.sequence, from, 0));
      if a.gid in announce && announce[a.gid].interval == 0 {
        SendPull(a.gid);
      }
    }

    /** The handler itself, table by table. */
    method HandleAdvertise(a0: Advertise, from: NodeId, now: int)
      requires Valid()
      modifies this`hash, this`hashTime, this`advSeen, this`dist, this`revPath, this`advTimers, this`ackTimers,
               this`announce, this`written
      ensures Valid()
      ensures hash == if AdvRaises(old(View()), a0) then old(hash)[AdvHash(a0) := a0.ttl]
              else Hashed(old(hash), AdvHash(a0), a0.ttl)
      ensures hashTime == HashedAt(old(hash), old(hashTime), AdvHash(a0), now)
      ensures dist == old(dist)[AdvFlow(a0) := AdvDistance(old(View()), a0, from)]
      ensures advSeen == if IsGroupNode(old(View()), a0.gid) || a0.ttl > 0 then old(advSeen) + {AdvIdOf(a0)}
              else old(advSeen)
      ensures revPath == if AdvHash(a0) in old(hash) then old(revPath)
                         else LearnPath(old(revPath), AdvFlow(a0), RevPath(from, a0.sequence, now, a0.probrelay))
      ensures advTimers == var f := AdvForward(old(View()), a0, from);
              if f.Some? then old(advTimers)[AdvFlow(a0) := f.value] else old(advTimers)
      ensures ackTimers == if JoinsTree(old(View()), a0)
                           then SetAckTimer(old(ackTimers), Ack(a0.gid, a0.srcnode, a0.sequence, from, 0))
                             else old(ackTimers)
      ensures announce == if Overrides(old(View()), a0) then Pulled(old(announce), a0.gid) else old(announce)
      ensures written == if Overrides(old(View()), a0) then old(written) + PullWrites(old(announce), a0.gid)
              else old(written)
    {
      hide Indexed, AnyLocal, NextDistance, LearnPath, SetAckTimer, Pulled, PullWrites, HashedAt;
      var a := a0.(distance := Inc32(a0.distance));
      var groupNode := IsGroupNode(View(), a.gid);
      var isNew := RecordAdvertise(a, from, now);
      if isNew {
        UpdateReversePath(AdvFlow(a), from, a.sequence, a.probrelay, now);
      }
      if groupNode {
        if isNew {
          JoinGroupTree(a, from);
        }
      } else if a.ttl > 0 {
        if isNew {
          ScheduleAdv(a, a.ttl);
        } else {
          ForwardHigher(a);
        }
      }
    }

    /** A repeat is forwarded when it carries a higher TTL; the distance entry asserted by the source is there. */
    method ForwardHigher(a: Advertise)
      requires Valid() && AdvHash(a) in hash && AdvFlow(a) in dist
      modifies this`hash, this`advTimers
      ensures Valid()
      ensures if a.ttl > old(hash)[AdvHash(a)]
              then hash == old(hash)[AdvHash(a) := a.ttl]
                   && advTimers == old(advTimers)[AdvFlow(a) := PendingAdv(a.(distance := dist[AdvFlow(a)].hops),
                        a.ttl)]
              else hash == old(hash) && advTimers == old(advTimers)
    {
      hide Indexed, AdvHash;
      var maxTtl := hash[AdvHash(a)];
      if a.ttl > maxTtl {
        ChangeMaxTtl(AdvHash(a), a.ttl);
        ScheduleAdv(a.(distance := dist[AdvFlow(a)].hops), a.ttl);
      }
    }

    method ProcessNetworkAdvertise(a: Advertise, from: NodeId, now: int)
      requires Valid()
      modifies this
      ensures Valid() && View() == OnAdvertise(old(View()), a, from, now)
    {
      hide Indexed, IsGroupNode, AdvDistance, AdvForward, AdvRaises, JoinsTree, Overrides, Hashed, HashedAt, LearnPath,
           SetAckTimer, Pulled, PullWrites;
      HandleAdvertise(a, from, now);
    }

    // ---- ACK ---------------------------------------------------------------------------

    method AddRemotePull(gid: GroupId, child: NodeId, now: int)
      modifies this`remotePull
      ensures remotePull == AddPull(old(remotePull), RemotePull(gid, child, now))
    {
      var i := 0;
      while i < |remotePull| && !SamePull(remotePull[i], gid, child)
        invariant 0 <= i <= |remotePull| && NoMatch(remotePull, gid, child, i)
      {
        i := i + 1;
      }
      AddPullAt(remotePull, RemotePull(gid, child, now), i);
      if i < |remotePull| {
        remotePull := remotePull[i := remotePull[i].(time := now)];
      } else {
        remotePull := remotePull + [RemotePull(gid, child, now)];
      }
    }

    /** The part shared by obligatory relays and winners of the coin flip. */
    method RelayAckUpstream(a: Ack, groupNode: bool, acked: bool)
      requires AckFlow(a) in revPath
      modifies this`ackTimers, this`ackSent
      ensures if groupNode || acked then ackTimers == old(ackTimers) && ackSent == old(ackSent)
              else ackTimers == SetAckTimer(old(ackTimers), a.(oblig := revPath[AckFlow(a)].next))
                   && ackSent == old(ackSent)[AckFlow(a) := a.sequence]
    {
      if !groupNode && !acked {
        ScheduleAck(a.(oblig := revPath[AckFlow(a)].next));
        ackSent := ackSent[AckFlow(a) := a.sequence];
      }
    }

    /** The handler itself, table by table. */
    method HandleAck(a: Ack, from: NodeId, draw: nat, now: int) returns (ok: bool)
      requires draw < 100
      modifies this`ackTimers, this`ackSent, this`coin, this`remotePull, this`announce, this`written
      ensures ok == !(Chosen(old(View()), a, draw) && AckFlow(a) !in old(revPath))
      ensures ok ==> remotePull == if Adopts(old(View()), a, draw)
              then AddPull(old(remotePull), RemotePull(a.gid, from, now)) else old(remotePull)
      ensures ok ==> ackTimers == if PassesAck(old(View()), a, draw)
              then SetAckTimer(old(ackTimers), a.(oblig := revPath[AckFlow(a)].next)) else old(ackTimers)
      ensures ok ==> ackSent == if PassesAck(old(View()), a, draw) then old(ackSent)[AckFlow(a) := a.sequence]
              else old(ackSent)
      ensures ok ==> coin == if Flips(old(View()), a) then old(coin)[AckFlow(a) := a.sequence] else old(coin)
      ensures ok ==> announce == if a.srcnode == id then Pulled(old(announce), a.gid) else old(announce)
      ensures ok ==> written == if a.srcnode == id then old(written) + PullWrites(old(announce), a.gid)
              else old(written)
    {
      hide AnyLocal, AddPull, SetAckTimer;
      var k := AckFlow(a);
      var groupNode := IsGroupNode(View(), a.gid);
      var seenAdv := AdvId(a.gid, a.srcnode, a.sequence) in advSeen;
      var coinFlipped := k in coin && a.sequence <= coin[k];
      var acked := k in ackSent && a.sequence <= ackSent[k];
      var addRemotePull := false;
      if a.srcnode == id {
        if a.gid in announce {
          addRemotePull := true;
          SendPull(a.gid);
        }
      } else if a.oblig == id {
        if k !in revPath {
          return false;
        }
        RelayAckUpstream(a, groupNode, acked);
        addRemotePull := true;
      } else if seenAdv && !coinFlipped && a.prob > 0 && draw < a.prob {
        if k !in revPath {
          return false;
        }
        RelayAckUpstream(a, groupNode, acked);
        addRemotePull := true;
        coin := coin[k := a.sequence];
      } else if seenAdv && !coinFlipped {
        coin := coin[k := a.sequence];
      }
      if addRemotePull {
        AddRemotePull(a.gid, from, now);
      }
      return true;
    }

    method ProcessNetworkAck(a: Ack, from: NodeId, draw: nat, now: int) returns (ok: bool)
      requires draw < 100
      modifies this`ackTimers, this`ackSent, this`coin, this`remotePull, this`announce, this`written
      ensures ok == OnAck(old(View()), a, from, draw, now).Running?
      ensures ok ==> View() == OnAck(old(View()), a, from, draw, now).node
    {
      hide IsGroupNode, Flips, Chosen, Adopts, PassesAck, AddPull, SetAckTimer, PullWrites, Pulled;
      ok := HandleAck(a, from, draw, now);
    }

    // ---- DATA --------------------------------------------------------------------------

    /** Hand a message to every local subscriber of the group but the one it came from. */
    method DeliverLocal(gid: GroupId, except: Option<Session>, m: AppMsg)
      modifies this`written
      ensures written == old(written) + Deliveries(localPull, gid, except, m)
    {
      var i := 0;
      while i < |localPull|
        invariant 0 <= i <= |localPull|
        invariant old(written) + Deliveries(localPull, gid, except, m) == written + Deliveries(localPull[i..], gid,
                    except, m)
      {
        var e := localPull[i];
        assert localPull[i..][0] == e && localPull[i..][1..] == localPull[i + 1..];
        if e.gid == gid && (except.None? || except.value != e.session) {
          ForwardToApp(e.session, m);
        }
        i := i + 1;
      }
    }

    method RecordData(d: Data, from: NodeId, now: int) returns (isNew: bool)
      requires Valid()
      modifies this`hash, this`hashTime, this`dist
      ensures Valid() && isNew == (DataHash(d) !in old(hash))
      ensures hash == Hashed(old(hash), DataHash(d), d.ttl)
              && hashTime == HashedAt(old(hash), old(hashTime), DataHash(d), now)
      ensures dist == old(dist)[DataFlow(d) := DataDistance(old(View()), d, from)]
    {
      hide Indexed, NextDistance;
      isNew := AddHash(DataHash(d), d.ttl, now);
      UpdateDistanceTable(DataFlow(d), DataHash(d), d.distance, from, isNew, false);
    }

    method HandOver(d: Data, sess: Option<Session>)
      modifies this`written
      ensures written == old(written) + Handed(old(View()), d, sess)
    {
      if d.uheader.Some? {
        if d.uheader.value.dest == id {
          if d.gid in announce {
            ForwardToApp(announce[d.gid].session, AppData(d));
          }
          DeliverLocal(d.gid, None, AppData(d));
        }
      } else {
        DeliverLocal(d.gid, sess, AppData(d));
      }
    }

    method PreProcessData(d: Data, from: NodeId, sess: Option<Session>, now: int) returns (isNew: bool)
      requires Valid()
      modifies this`hash, this`hashTime, this`dist, this`written
      ensures Valid() && View() == PreProcess(old(View()), d, from, sess, now)
      ensures isNew == (DataHash(d) !in old(hash))
    {
      hide Indexed, NextDistance, Deliveries;
      isNew := RecordData(d, from, now);
      if isNew {
        HandOver(d, sess);
      }
    }

    method RelayUnicast(d: Data)
      requires d.uheader.Some?
      modifies this`dataTimers
      ensures var f := UnicastForward(View(), d, Hops(dist, FlowKey(d.gid, d.uheader.value.dest)));
              dataTimers == if f.Some? then old(dataTimers)[DataHash(d) := f.value] else old(dataTimers)
    {
      hide AnyLocal, AnyRemote, DataHash;
      var k := FlowKey(d.gid, d.uheader.value.dest);
      var groupNode := IsGroupNode(View(), d.gid);
      var myDistance: u32 := 0;
      if k in dist {
        myDistance := dist[k].hops;
      }
      if myDistance > 0 && myDistance <= d.uheader.value.relaydistance {
        if d.srcttl.None? && ((groupNode && alwaysRebroadcast) || AnyRemote(remotePull, d.gid)) {
          ScheduleData(Lowered(d, myDistance), 1, DataHash(d));
        } else if d.srcttl.Some? {
          if d.ttl > 0 && (!groupNode || d.nottlregen) {
            ScheduleData(Lowered(d, myDistance), d.ttl, DataHash(d));
          } else if groupNode {
            ScheduleData(Lowered(d, myDistance), d.srcttl.value, DataHash(d));
          }
        }
      }
    }

    method RelayFlood(d: Data, isNew: bool)
      requires Valid() && DataHash(d) in hash && DataFlow(d) in dist && d.srcttl.Some?
      modifies this`dataTimers, this`hash
      ensures Valid()
      ensures isNew ==> hash == old(hash) && dataTimers == if FloodForward(old(View()), d).Some?
                then old(dataTimers)[DataHash(d) := FloodForward(old(View()), d).value] else old(dataTimers)
      ensures !isNew ==> if !IsGroupNode(old(View()), d.gid) && d.ttl > old(hash)[DataHash(d)]
                then hash == old(hash)[DataHash(d) := d.ttl] &&
                     dataTimers == old(dataTimers)[DataHash(d) := PendingData(d.(distance := dist[DataFlow(d)].hops),
                         d.ttl)]
                else hash == old(hash) && dataTimers == old(dataTimers)
    {
      hide Indexed, AnyLocal, DataHash;
      if IsGroupNode(View(), d.gid) {
        if isNew {
          if !d.nottlregen {
            ScheduleData(d, d.srcttl.value, DataHash(d));
          } else if d.ttl > 0 {
            ScheduleData(d, d.ttl, DataHash(d));
          }
        }
      } else if d.ttl > 0 {
        if isNew {
          ScheduleData(d, d.ttl, DataHash(d));
        } else {
          var maxTtl := hash[DataHash(d)];
          if d.ttl > maxTtl {
            ChangeMaxTtl(DataHash(d), d.ttl);
            ScheduleData(d.(distance := dist[DataFlow(d)].hops), d.ttl, DataHash(d));
          }
        }
      }
    }

    /** The handler itself, table by table. */
    method HandleData(d0: Data, from: NodeId, now: int)
      requires Valid()
      modifies this`hash, this`hashTime, this`dist, this`dataTimers, this`written
      ensures Valid()
      ensures var d := HeardData(d0);
              hash == if DataRaises(old(View()), d) then old(hash)[DataHash(d) := d.ttl]
                else Hashed(old(hash), DataHash(d), d.ttl)
      ensures hashTime == HashedAt(old(hash), old(hashTime), DataHash(HeardData(d0)), now)
      ensures var d := HeardData(d0); dist == old(dist)[DataFlow(d) := DataDistance(old(View()), d, from)]
      ensures var d := HeardData(d0);
              written == if DataHash(d) in old(hash) then old(written) else old(written) + Handed(old(View()), d, None)
      ensures var d := HeardData(d0); var f := DataForward(old(View()), d, dist);
              dataTimers == if f.Some? then old(dataTimers)[DataHash(d) := f.value] else old(dataTimers)
    {
      hide Indexed, AnyLocal, AnyRemote, Deliveries, NextDistance, DataHash, HashedAt, Handed;
      var d := d0.(distance := Inc32(d0.distance));
      var isNew := PreProcessData(d, from, None, now);
      if d.uheader.Some? {
        if isNew && d.uheader.value.dest != id {
          RelayUnicast(d);
        }
      } else if d.srcnode != id {
        if d.srcttl.None? {
          if isNew && ((IsGroupNode(View(), d.gid) && alwaysRebroadcast) || AnyRemote(remotePull, d.gid)) {
            ScheduleData(d, 1, DataHash(d));
          }
        } else {
          RelayFlood(d, isNew);
        }
      }
    }

    method ProcessNetworkData(d: Data, from: NodeId, now: int)
      requires Valid()
      modifies this
      ensures Valid() && View() == OnData(old(View()), d, from, now)
    {
      hide Indexed, DataRaises, Hashed, HashedAt, DataDistance, Handed, DataForward, DataHash;
      HandleData(d, from, now);
    }

    /** Messages that carry this node's own id in their header are dropped. */
    method OnNetworkReceive(m: OtaMsg, from: NodeId, draw: nat, now: int) returns (ok: bool)
      requires Valid() && draw < 100
      modifies this
      ensures ok == OnReceive(old(View()), m, from, draw, now).Running?
      ensures ok ==> Valid() && View() == OnReceive(old(View()), m, from, draw, now).node
    {
      hide OnAck, OnAdvertise, OnData, Indexed;
      if from == id {
        return true;
      }
      match m
      case OtaAck(a) =>
        ok := ProcessNetworkAck(a, from, draw, now);
      case OtaAdv(a) =>
        ProcessNetworkAdvertise(a, from, now);
        ok := true;
      case OtaData(d) =>
        ProcessNetworkData(d, from, now);
        ok := true;
    }

    // ---- clients -----------------------------------------------------------------------

    method Unsubscribe(s: Session, gid: GroupId)
      modifies this`localPull
      ensures localPull == RemoveFirst(old(localPull), LocalPull(gid, s))
    {
      ghost var l, e := localPull, LocalPull(gid, s);
      var i := 0;
      while i < |localPull|
        invariant 0 <= i <= |localPull| && localPull == l
        invariant RemoveFirst(l, e) == l[..i] + RemoveFirst(l[i..], e)
      {
        assert l[i..][0] == l[i] && l[i..][1..] == l[i + 1..];
        if localPull[i].gid == gid && localPull[i].session == s {
          localPull := localPull[..i] + localPull[i + 1..];
          return;
        }
        assert l[..i + 1] == l[..i] + [l[i]];
        i := i + 1;
      }
      assert l[..i] + [] == l;
    }

    method OriginateUnicast(d: Data)
      requires d.uheader.Some?
      modifies this`sent
      ensures sent == old(sent) + ClientSends(old(View()), d)
    {
      var u := d.uheader.value;
      var k := FlowKey(d.gid, u.dest);
      if k !in dist {
        return;
      }
      if dist[k].hops > 0 {
        var start: u32;
        match u.resilience {
          case Some(Medium) => start := dist[k].hops;
          case Some(High) => start := Inc32(dist[k].hops);
          case _ => start := dist[k].hops - 1;
        }
        var out := d.(uheader := Some(UnicastHeader(u.dest, start, None)));
        if d.srcttl.Some? {
          ForwardData(out, d.srcttl.value);
        } else {
          ForwardData(out, 1);
        }
      }
    }

    /** The source node, and a sequence number counted per group, go in before hashing. */
    method StampData(d0: Data) returns (d: Data)
      modifies this`seqByGid
      ensures d == Stamped(old(View()), d0)
      ensures seqByGid == old(seqByGid)[d.gid := d.sequence]
    {
      d := d0.(distance := 0, srcnode := id);
      ghost var q := seqByGid;
      if d.gid !in seqByGid {
        seqByGid := seqByGid[d.gid := 0];
      }
      seqByGid := seqByGid[d.gid := (seqByGid[d.gid] + 1) % U64];
      d := d.(sequence := seqByGid[d.gid]);
      assert seqByGid == q[d.gid := d.sequence];
    }

    method AcceptData(s: Session, d0: Data, now: int) returns (ok: bool)
      requires Valid()
      modifies this
      ensures ok == OnClientData(old(View()), s, d0, now).Running?
      ensures ok ==> Valid() && View() == OnClientData(old(View()), s, d0, now).node
    {
      hide Indexed, ClientSends, NextDistance, Deliveries, DataHash, HashedAt, NextSeq;
      ghost var n := View();
      var d := StampData(d0);
      var isNew := PreProcessData(d, id, Some(s), now);
      ghost var m := PreProcess(n, d, id, Some(s), now);
      assert View() == m.(seqByGid := seqByGid);
      ok := OriginateData(d);
      assert ClientSends(m, d) == ClientSends(m.(seqByGid := seqByGid), d) by { SendsIgnoreCounter(m, d, seqByGid); }
    }

    method OriginateData(d: Data) returns (ok: bool)
      modifies this`sent
      ensures ok == (d.uheader.Some? || d.gid in announce)
      ensures ok ==> sent == old(sent) + ClientSends(old(View()), d)
    {
      if d.uheader.Some? {
        OriginateUnicast(d);
        return true;
      }
      if d.gid !in announce {
        return false;
      }
      var advertiseOverride := !(announce[d.gid].interval > 0);
      if d.srcttl.Some? {
        ForwardData(d, d.srcttl.value);
      } else if AnyRemote(remotePull, d.gid) || advertiseOverride {
        ForwardData(d, 1);
      }
      return true;
    }

    static lemma SendsIgnoreCounter(m: Node, d: Data, c: map<GroupId, nat>)
      ensures ClientSends(m.(seqByGid := c), d) == ClientSends(m, d)
    {
    }

    method Register(s: Session, c: ClientCmd) returns (ok: bool)
      requires c.ClientRegister?
      modifies this`announce
      ensures ok == OnRegister(old(View()), s, c).Running?
      ensures ok ==> View() == OnRegister(old(View()), s, c).node
    {
      var interval := -1;
      var probRelay: u32 := 0;
      if c.interval.Some? {
        interval := ToInt32(c.interval.value);
        probRelay := c.probrelay;
      }
      if c.gid !in announce {
        var i := Announce(s, false, interval, probRelay, c.srcttl, 0, false, false);
        if interval > 0 {
          if interval as real >= pullExpire {
            return false;
          }
          i := i.(noTtlRegen := c.nottlregen);
          i := i.(timer := true);
        }
        announce := announce[c.gid := i];
      } else {
        var i := announce[c.gid];
        if i.interval != interval {
          if i.interval > 0 {
            i := i.(timer := false);
          }
          if interval > 0 {
            i := i.(timer := true);
          }
          i := i.(interval := interval);
        }
        i := i.(srcTtl := c.srcttl);
        i := i.(probRelay := c.probrelay);
        i := i.(noTtlRegen := c.nottlregen);
        announce := announce[c.gid := i];
      }
      return true;
    }

    method OnClientReceive(s: Session, c: ClientCmd, now: int) returns (ok: bool)
      requires Valid()
      modifies this
      ensures ok == OnClient(old(View()), s, c, now).Running?
      ensures ok ==> Valid() && View() == OnClient(old(View()), s, c, now).node
    {
      match c
      case ClientPull(gid) =>
        localPull := localPull + [LocalPull(gid, s)];
        ok := true;
      case ClientUnpull(gid) =>
        Unsubscribe(s, gid);
        ok := true;
      case ClientData(d) =>
        ok := AcceptData(s, d, now);
      case ClientRegister(_, _, _, _, _) =>
        ok := Register(s, c);
      case ClientDeregister(gid) =>
        if gid !in announce {
          return false;
        }
        announce := announce - {gid};
        ok := true;
    }

    method CloseClientConnection(s: Session)
      modifies this`localPull, this`announce
      ensures View() == OnClose(old(View()), s)
    {
      CloseSubscriptions(s);
      CloseAnnouncements(s);
    }

    method CloseSubscriptions(s: Session)
      modifies this`localPull
      ensures localPull == FilterSeq(old(localPull), (e: LocalPull) => e.session != s)
    {
      hide Settled, FilterSeq;
      ghost var keep := (e: LocalPull) => e.session != s;
      var i := 0;
      SettledStart(localPull, keep);
      while i < |localPull|
        invariant 0 <= i <= |localPull|
        invariant FilterSeq(old(localPull), keep) == Settled(localPull, i, keep)
        decreases |localPull| - i
      {
        if localPull[i].session == s {
          SettledErase(localPull, i, keep);
          localPull := localPull[..i] + localPull[i + 1..];
        } else {
          SettledKeep(localPull, i, keep);
          i := i + 1;
        }
      }
      SettledEnd(localPull, keep);
    }

    method CloseAnnouncements(s: Session)
      modifies this`announce
      ensures announce == map g | g in old(announce) && old(announce)[g].session != s :: old(announce)[g]
    {
      ghost var m := announce;
      var rest := announce.Keys;
      while rest != {}
        invariant rest <= announce.Keys <= m.Keys
        invariant forall g :: g in m ==> (g in announce <==> g in rest || m[g].session != s)
        invariant forall g :: g in announce ==> announce[g] == m[g]
        decreases rest
      {
        var g := MinOf(rest);
        if announce[g].session == s {
          announce := announce - {g};
        }
        rest := rest - {g};
      }
    }

    // ---- periodic work -----------------------------------------------------------------

    method AnnounceTimeout(gid: GroupId, now: int) returns (ok: bool)
      requires Valid()
      modifies this
      ensures ok == OnAnnounce(old(View()), gid, now).Running?
      ensures ok ==> Valid() && View() == OnAnnounce(old(View()), gid, now).node
    {
      hide Indexed, NextDistance, AdvHash, HashedAt, Hashed, OwnAdvertise, OwnDistance;
      if gid !in announce {
        return false;
      }
      ghost var n := View();
      var a := NextAdvertise(gid);
      IssueAdvertise(a, now);
      assert announce == n.announce[gid := n.announce[gid].(seqNo := a.sequence)];
      return true;
    }

    /** Count the sequence number of the announcing client and fill in the message. */
    method NextAdvertise(gid: GroupId) returns (a: Advertise)
      requires gid in announce
      modifies this`announce
      ensures a == OwnAdvertise(old(View()), gid) && a.srcnode == id && a.ttl == a.srcttl
      ensures announce == old(announce)[gid := old(announce)[gid].(seqNo := a.sequence)]
    {
      var i := announce[gid];
      i := i.(seqNo := Inc32(i.seqNo));
      announce := announce[gid := i];
      a := Advertise(gid, i.srcTtl, id, i.srcTtl, 0, i.seqNo, i.probRelay, i.noTtlRegen);
    }

    method IssueAdvertise(a: Advertise, now: int)
      requires Valid() && a.srcnode == id
      modifies this`hash, this`hashTime, this`dist, this`sent
      ensures Valid() && hash == Hashed(old(hash), AdvHash(a), a.ttl)
      ensures hashTime == HashedAt(old(hash), old(hashTime), AdvHash(a), now)
      ensures dist == old(dist)[AdvFlow(a) := OwnDistance(old(dist), id, AdvFlow(a), AdvHash(a))]
      ensures sent == old(sent) + [OtaAdv(a.(ttl := Dec32(a.srcttl)))]
    {
      hide Indexed, NextDistance, AdvHash, HashedAt;
      var isNew := AddHash(AdvHash(a), a.ttl, now);
      // a message of one's own always counts as new here
      UpdateDistanceTable(AdvFlow(a), AdvHash(a), 0, id, true, true);
      ForwardAdv(a, a.srcttl);
    }

    method DropExpiredPulls(now: int)
      modifies this`remotePull
      ensures remotePull == FilterSeq(old(remotePull), (e: RemotePull) => !Expired(now, e.time, pullExpire))
    {
      hide Settled, FilterSeq;
      ghost var keep := (e: RemotePull) => !Expired(now, e.time, pullExpire);
      var i := 0;
      SettledStart(remotePull, keep);
      while i < |remotePull|
        invariant 0 <= i <= |remotePull|
        invariant FilterSeq(old(remotePull), keep) == Settled(remotePull, i, keep)
        decreases |remotePull| - i
      {
        if Expired(now, remotePull[i].time, pullExpire) {
          SettledErase(remotePull, i, keep);
          remotePull := remotePull[..i] + remotePull[i + 1..];
        } else {
          SettledKeep(remotePull, i, keep);
          i := i + 1;
        }
      }
      SettledEnd(remotePull, keep);
    }

    /** UNPULL one announcing client if its group has lost the last subscriber. */
    method StopIfOrphan(g: GroupId)
      requires g in announce
      modifies this`announce, this`written
      ensures announce == old(announce)[g := old(announce)[g].(pullSent := old(announce)[g].pullSent
                                                               && !Orphaned(old(View()), g))]
      ensures written == old(written) + if Orphaned(old(View()), g) then [AppWrite(announce[g].session, AppUnpull(g))]
              else []
    {
      var i := announce[g];
      if i.pullSent && !AnyRemote(remotePull, g) && !AnyLocal(localPull, g) && i.interval > 0 {
        ForwardToApp(i.session, AppUnpull(g));
        announce := announce[g := i.(pullSent := false)];
      }
    }

    method StopOrphans()
      modifies this`announce, this`written
      ensures View() == UnpullOrphans(old(View()))
    {
      hide AnyRemote, AnyLocal, UnpullWrites, UnpullProgress;
      ghost var n, m := View(), announce;
      ghost var orphans := Orphans(n);
      var rest := announce.Keys;
      UnpullStarts(m, orphans);
      while rest != {}
        invariant UnpullProgress(m, announce, orphans, rest)
        invariant n.written + UnpullWrites(m, orphans) == written + UnpullWrites(m, orphans * rest)
        decreases rest
      {
        UnpullNext(m, orphans, rest);
        var g := MinOf(rest);
        UnpullAdvances(m, announce, orphans, rest, g);
        StopIfOrphan(g);
        rest := rest - {g};
      }
      UnpullEnds(m, announce, orphans);
      assert announce == map g | g in m :: m[g].(pullSent := m[g].pullSent && !Orphaned(n, g));
    }

    method RemotePullCleanup(now: int)
      modifies this`remotePull, this`announce, this`written
      ensures View() == OnPullCleanup(old(View()), now)
    {
      DropExpiredPulls(now);
      StopOrphans();
    }
  }
}
