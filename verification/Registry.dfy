/** What a node keeps of its clients, told from what they asked: how it advertises their groups, who
    subscribes; and since when it knows a message. */
module Registry {
  import opened Types
  import opened NodeSpec
  import opened Network
  import opened Air
  import Delivery
  import HashIndex
  import Hearing
  import Origin
  import Sessions
  import Tables

  // ---- registrations -------------------------------------------------------------------

  predicate Registers(e: Event, gid: GroupId) { e.FromClient? && e.cmd.ClientRegister? && e.cmd.gid == gid }

  /** The interval asked for; without one no advertisements and ACKs are used. */
  function Interval(c: ClientCmd): int
    requires c.ClientRegister?
  {
    match c.interval
    case None => -1
    case Some(v) => if v < 0x8000_0000 then v else v - U32
  }

  /** The registration has what was asked for; a first one without a positive interval always lets group
      nodes renew the TTL, and without any interval has no relay probability. */
  predicate AsAsked(i: Announce, c: ClientCmd, first: bool)
    requires c.ClientRegister?
  {
    && i.interval == Interval(c) && i.srcTtl == c.srcttl
    && i.probRelay == (if first && c.interval.None? then 0 else c.probrelay)
    && (i.noTtlRegen <==> c.nottlregen && (first ==> Interval(c) > 0))
  }

  /** What an event makes of a registration. */
  ghost predicate EntryMoves(n: Node, e: Event, m: Node, gid: GroupId) {
    && (Registers(e, gid) ==>
          && gid in m.announce && AsAsked(m.announce[gid], e.cmd, gid !in n.announce)
          && (gid !in n.announce ==>
                m.announce[gid].session == e.session && m.announce[gid].seqNo == 0 && !m.announce[gid].pullSent)
          && (gid in n.announce ==>
                && m.announce[gid].session == n.announce[gid].session && m.announce[gid].seqNo == n.announce[gid].seqNo
                && m.announce[gid].pullSent == n.announce[gid].pullSent))
    && (!Registers(e, gid) && gid in m.announce ==>
          && gid in n.announce && m.announce[gid].session == n.announce[gid].session
          && m.announce[gid].interval == n.announce[gid].interval && m.announce[gid].srcTtl == n.announce[gid].srcTtl
          && m.announce[gid].probRelay == n.announce[gid].probRelay
          && m.announce[gid].noTtlRegen == n.announce[gid].noTtlRegen)
  }

  lemma ClientEntry(n: Node, s: Session, c: ClientCmd, now: int, gid: GroupId)
    requires !c.ClientData? && OnClient(n, s, c, now).Running?
    ensures EntryMoves(n, FromClient(s, c, now), OnClient(n, s, c, now).node, gid)
  {
    hide OnClientData, RemoveFirst;
    match c
    case ClientPull(_) =>
    case ClientUnpull(_) =>
    case ClientRegister(_, _, _, _, _) =>
    case ClientDeregister(_) =>
  }

  lemma CloseEntry(n: Node, s: Session, gid: GroupId)
    ensures EntryMoves(n, ClientGone(s), OnClose(n, s), gid)
  {
    hide FilterSeq;
  }

  lemma ManagingEntry(n: Node, e: Event, gid: GroupId)
    requires Sessions.Managing(e) && React(n, e).Running?
    ensures EntryMoves(n, e, React(n, e).node, gid)
  {
    hide EntryMoves, OnClient, OnClose;
    if e.FromClient? { ClientEntry(n, e.session, e.cmd, e.now, gid); } else { CloseEntry(n, e.session, gid); }
  }

  lemma ReactEntry(n: Node, e: Event, gid: GroupId)
    requires React(n, e).Running?
    ensures EntryMoves(n, e, React(n, e).node, gid)
  {
    hide React;
    if Sessions.Managing(e) {
      hide EntryMoves;
      ManagingEntry(n, e, gid);
    } else {
      Sessions.OtherNames(n, e);
    }
  }

  /** One step of a run, seen at one node. */
  lemma StepEntry(nets: seq<Net>, moves: seq<Move>, i: nat, x: NodeId, gid: GroupId)
    requires Run(nets, moves) && i < |moves| && x in nets[0]
    ensures x in nets[i] && x in nets[i + 1]
    ensures if Hearing.At(nets, moves, i, x) then EntryMoves(nets[i][x], moves[i].event, nets[i + 1][x], gid)
            else nets[i + 1][x] == nets[i][x]
  {
    hide React, EntryMoves;
    Hearing.NodesStay(nets, moves, i);
    assert Step(nets[i], moves[i].node, moves[i].event, nets[i + 1]);
    if moves[i].node == x {
      ReactEntry(nets[i][x], moves[i].event, gid);
    }
  }

  ghost predicate RegistersAt(nets: seq<Net>, moves: seq<Move>, j: nat, x: NodeId, gid: GroupId) {
    Hearing.At(nets, moves, j, x) && Registers(moves[j].event, gid)
  }

  /** Registered at all times after `j`, up to `i`. */
  ghost predicate Stands(nets: seq<Net>, i: nat, j: nat, x: NodeId, gid: GroupId) {
    i < |nets| && forall l :: j < l <= i ==> x in nets[l] && gid in nets[l][x].announce
  }

  lemma NoneRegistered(nets: seq<Net>, moves: seq<Move>, x: NodeId)
    requires Run(nets, moves) && x in nets[0]
    ensures nets[0][x].announce == map[] && nets[0][x].localPull == [] && nets[0][x].hashTime == []
  {
  }

  /** A registration is as the last REGISTER for the group asked. */
  lemma {:induction false} RegisteredAs(nets: seq<Net>, moves: seq<Move>, i: nat, x: NodeId, gid: GroupId)
    returns (j: nat)
    requires Run(nets, moves) && i <= |moves| && x in nets[0] && x in nets[i] && gid in nets[i][x].announce
    ensures j < i && RegistersAt(nets, moves, j, x, gid) && Stands(nets, i, j, x, gid)
    ensures forall l :: j < l < i ==> !RegistersAt(nets, moves, l, x, gid)
    ensures AsAsked(nets[i][x].announce[gid], moves[j].event.cmd, gid !in nets[j][x].announce)
    decreases i
  {
    hide Run, React, AsAsked;
    Hearing.RunShape(nets, moves);
    if i == 0 {
      NoneRegistered(nets, moves, x);
    } else {
      StepEntry(nets, moves, i - 1, x, gid);
      if RegistersAt(nets, moves, i - 1, x, gid) {
        j := i - 1;
      } else {
        j := RegisteredAs(nets, moves, i - 1, x, gid);
        StillAsked(nets[i - 1][x].announce[gid], nets[i][x].announce[gid], moves[j].event.cmd,
                   gid !in nets[j][x].announce);
      }
    }
  }

  lemma StillAsked(a: Announce, b: Announce, c: ClientCmd, first: bool)
    requires c.ClientRegister? && AsAsked(a, c, first) && b.interval == a.interval && b.srcTtl == a.srcTtl
             && b.probRelay == a.probRelay && b.noTtlRegen == a.noTtlRegen
    ensures AsAsked(b, c, first)
  {
  }

  /** It belongs to the session that registered the group when nobody had. */
  lemma {:induction false} RegisteredBy(nets: seq<Net>, moves: seq<Move>, i: nat, x: NodeId, gid: GroupId)
    returns (f: nat)
    requires Run(nets, moves) && i <= |moves| && x in nets[0] && x in nets[i] && gid in nets[i][x].announce
    ensures f < i && RegistersAt(nets, moves, f, x, gid) && gid !in nets[f][x].announce && Stands(nets, i, f, x, gid)
    ensures nets[i][x].announce[gid].session == moves[f].event.session
    decreases i
  {
    hide Run, React, AsAsked;
    Hearing.RunShape(nets, moves);
    if i == 0 {
      NoneRegistered(nets, moves, x);
    } else {
      StepEntry(nets, moves, i - 1, x, gid);
      if RegistersAt(nets, moves, i - 1, x, gid) && gid !in nets[i - 1][x].announce {
        f := i - 1;
      } else {
        f := RegisteredBy(nets, moves, i - 1, x, gid);
      }
    }
  }

  lemma AnnounceSays(n: Node, gid: GroupId, now: int)
    requires OnAnnounce(n, gid, now).Running?
    ensures gid in n.announce
    ensures var m, v := OnAnnounce(n, gid, now).node, n.announce[gid];
            && gid in m.announce && m.announce[gid] == v.(seqNo := (v.seqNo + 1) % U32)
            && |m.sent| == |n.sent| + 1 && n.sent <= m.sent && m.sent[|n.sent|].OtaAdv?
            && var a := m.sent[|n.sent|].adv;
               && a.gid == gid && a.srcnode == n.id && a.srcttl == v.srcTtl && a.distance == 0
               && a.sequence == (v.seqNo + 1) % U32 && a.probrelay == v.probRelay && a.nottlregen == v.noTtlRegen
               && AdvHash(a) in m.hash && (AdvHash(a) !in n.hash ==> m.hash[AdvHash(a)] == v.srcTtl)
  {
    if gid in n.announce {
      Origin.AdvCopyKeepsKey(OwnAdvertise(n, gid), Dec32(n.announce[gid].srcTtl), 0);
    }
    hide HashedAt, OwnDistance, AdvHash;
  }

  /** Every advertisement a node originates carries the TTL, the relay probability and the wish about TTL
      renewal of the last REGISTER for its group, and the number after the one before. */
  lemma AdvertisedAs(nets: seq<Net>, moves: seq<Move>, i: nat, gid: GroupId, now: int) returns (j: nat)
    requires Run(nets, moves) && i < |moves| && moves[i].event == AnnounceTimer(gid, now)
    ensures moves[i].node in nets[i] && moves[i].node in nets[i + 1]
    ensures var x := moves[i].node;
            && j < i && RegistersAt(nets, moves, j, x, gid) && Stands(nets, i, j, x, gid)
            && forall l :: j < l < i ==> !RegistersAt(nets, moves, l, x, gid)
    ensures var x, c := moves[i].node, moves[j].event.cmd; var n, m := nets[i][x], nets[i + 1][x];
            && gid in n.announce && |m.sent| == |n.sent| + 1 && n.sent <= m.sent && m.sent[|n.sent|].OtaAdv?
            && var a := m.sent[|n.sent|].adv;
               && a.gid == gid && a.srcnode == x && a.srcttl == c.srcttl && a.distance == 0
               && a.sequence == (n.announce[gid].seqNo + 1) % U32
               && a.probrelay == (if gid !in nets[j][x].announce && c.interval.None? then 0 else c.probrelay)
               && (a.nottlregen <==> c.nottlregen && (gid !in nets[j][x].announce ==> Interval(c) > 0))
  {
    hide OnAnnounce;
    Hearing.NodesStay(nets, moves, i);
    assert Step(nets[i], moves[i].node, moves[i].event, nets[i + 1]);
    hide Run;
    AnnounceSays(nets[i][moves[i].node], gid, now);
    j := RegisteredAs(nets, moves, i, moves[i].node, gid);
  }

  // ---- subscriptions -------------------------------------------------------------------

  /** How often a session subscribes to a group at a node, going by what it asked. */
  function Subscriptions(moves: seq<Move>, x: NodeId, g: GroupId, s: Session): nat {
    if moves == [] then 0
    else
      var before, last := Subscriptions(moves[..|moves| - 1], x, g, s), moves[|moves| - 1];
      if last.node != x then before
      else if last.event == ClientGone(s) then 0
      else if last.event.FromClient? && last.event.session == s && last.event.cmd == ClientPull(g) then before + 1
      else if last.event.FromClient? && last.event.session == s && last.event.cmd == ClientUnpull(g) && before > 0
        then before - 1
      else before
  }

  lemma {:induction false} RemovesOne(s: seq<LocalPull>, x: LocalPull)
    ensures multiset(RemoveFirst(s, x)) == multiset(s) - multiset{x}
  {
    if s != [] {
      assert s == [s[0]] + s[1..];
      if s[0] != x {
        RemovesOne(s[1..], x);
      }
    }
  }

  /** The first of several equal subscriptions goes. */
  lemma {:induction false} RemovesFirst(a: seq<LocalPull>, x: LocalPull, b: seq<LocalPull>)
    requires x !in a
    ensures RemoveFirst(a + [x] + b, x) == a + b
  {
    if a == [] {
      assert a + [x] + b == [x] + b && ([x] + b)[1..] == b;
      assert a + b == b;
    } else {
      assert (a + [x] + b)[1..] == a[1..] + [x] + b;
      RemovesFirst(a[1..], x, b);
      assert a + b == [a[0]] + (a[1..] + b);
    }
  }

  /** A new subscription is served after those that were there. */
  lemma SubscribesLast(n: Node, s: Session, gid: GroupId, now: int, d: Data)
    requires d.gid == gid && d.uheader.None?
    ensures OnClient(n, s, ClientPull(gid), now).Running?
    ensures Handed(OnClient(n, s, ClientPull(gid), now).node, d, None) == Handed(n, d, None) + [AppWrite(s, AppData(d))]
  {
    Delivery.InTableOrder(n.localPull, [LocalPull(gid, s)], gid, None, AppData(d));
  }

  lemma {:induction false} FilterCounts(s: seq<LocalPull>, keep: LocalPull -> bool, e: LocalPull)
    ensures multiset(FilterSeq(s, keep))[e] == if keep(e) then multiset(s)[e] else 0
  {
    if s != [] {
      assert s == [s[0]] + s[1..];
      FilterCounts(s[1..], keep, e);
    }
  }

  lemma ClientSubscriptions(n: Node, from: Session, c: ClientCmd, now: int, g: GroupId, s: Session)
    requires !c.ClientData? && OnClient(n, from, c, now).Running?
    ensures var p, before := OnClient(n, from, c, now).node.localPull, multiset(n.localPull)[LocalPull(g, s)];
            multiset(p)[LocalPull(g, s)] ==
              if from == s && c == ClientPull(g) then before + 1
              else if from == s && c == ClientUnpull(g) && before > 0 then before - 1
              else before
  {
    hide OnClientData, RemoveFirst, Registered;
    match c
    case ClientPull(_) =>
    case ClientUnpull(h) => RemovesOne(n.localPull, LocalPull(h, from));
    case ClientRegister(_, _, _, _, _) =>
    case ClientDeregister(_) =>
  }

  lemma ReactSubscriptions(n: Node, e: Event, g: GroupId, s: Session)
    requires React(n, e).Running?
    ensures var before, after := multiset(n.localPull)[LocalPull(g, s)],
            multiset(React(n, e).node.localPull)[LocalPull(g, s)];
            after == if e == ClientGone(s) then 0
                     else if e.FromClient? && e.session == s && e.cmd == ClientPull(g) then before + 1
                     else if e.FromClient? && e.session == s && e.cmd == ClientUnpull(g) && before > 0 then before - 1
                     else before
  {
    if Sessions.Managing(e) {
      hide OnClient;
      if e.FromClient? {
        ClientSubscriptions(n, e.session, e.cmd, e.now, g, s);
      } else {
        FilterCounts(n.localPull, (x: LocalPull) => x.session != e.session, LocalPull(g, s));
      }
    } else {
      hide React;
      Sessions.OtherNames(n, e);
    }
  }

  /** In every run the subscription table holds what the sessions asked for, and as often. */
  lemma {:induction false} SubscriptionsCounted(nets: seq<Net>, moves: seq<Move>, x: NodeId, g: GroupId, s: Session)
    requires Run(nets, moves) && x in nets[|moves|]
    ensures multiset(nets[|moves|][x].localPull)[LocalPull(g, s)] == Subscriptions(moves, x, g, s)
    decreases |moves|
  {
    hide React, Enabled;
    if moves != [] {
      RunPrefix(nets, moves);
      var last := |moves| - 1;
      assert Step(nets[last], moves[last].node, moves[last].event, nets[last + 1]);
      assert x in nets[last] by { SameNodes(nets[last], moves[last].node, moves[last].event, nets[last + 1]); }
      SubscriptionsCounted(nets[..|moves|], moves[..last], x, g, s);
      if moves[last].node == x {
        ReactSubscriptions(nets[last][x], moves[last].event, g, s);
      }
    }
  }

  // ---- times ---------------------------------------------------------------------------

  /** Events that may bring a new message, and when they happen. */
  predicate Brings(e: Event) { e.Receive? || e.AnnounceTimer? || (e.FromClient? && e.cmd.ClientData?) }

  function TimeOf(e: Event): int
    requires Brings(e)
  {
    match e case Receive(_, _, _, now) => now case AnnounceTimer(_, now) => now case FromClient(_, _, now) => now
  }

  lemma {:induction false} InsertMembers(s: seq<HashTime>, e: HashTime, t: HashTime)
    ensures t in InsertTime(s, e) <==> t in s || t == e
  {
    if s != [] && !(e.time < s[0].time) {
      InsertMembers(s[1..], e, t);
      assert t in s <==> t == s[0] || t in s[1..];
    }
  }

  lemma HashedMembers(n: Node, h: HashKey, now: int, t: HashTime)
    requires t in HashedAt(n.hash, n.hashTime, h, now)
    ensures t in n.hashTime || (t == HashTime(now, h) && h !in n.hash)
  {
    InsertMembers(n.hashTime, HashTime(now, h), t);
  }

  /** An entry of the index was there before, or is of a key that was not, with the time of the event. */
  lemma ReactTimes(n: Node, e: Event, t: HashTime)
    requires React(n, e).Running? && t in React(n, e).node.hashTime
    ensures t in n.hashTime || (Brings(e) && t.key !in n.hash && t.time == TimeOf(e))
  {
    hide HashedAt, AdvHash, DataHash, InsertTime;
    if e.Receive? {
      if e.from != n.id { HeardTimes(n, e, t); }
    } else if e.AnnounceTimer? {
      hide OwnDistance;
      HashedMembers(n, AdvHash(OwnAdvertise(n, e.gid)), e.now, t);
    } else if e.FromClient? && e.cmd.ClientData? {
      hide DataDistance, Handed, ClientSends, NextSeq;
      HashedMembers(n, DataHash(Stamped(n, e.cmd.data)), e.now, t);
    } else {
      QuietTimes(n, e, t);
    }
  }

  lemma AdvertiseTimes(n: Node, a: Advertise, from: NodeId, now: int)
    ensures OnAdvertise(n, a, from, now).hashTime == HashedAt(n.hash, n.hashTime, AdvHash(a), now)
  {
    hide HashedAt, AdvHash, AdvDistance, AdvForward, AdvRaises, JoinsTree, Overrides, LearnPath, PullWrites, Pulled,
         SetAckTimer;
  }

  lemma DataTimes(n: Node, d: Data, from: NodeId, now: int)
    ensures OnData(n, d, from, now).hashTime == HashedAt(n.hash, n.hashTime, DataHash(HeardData(d)), now)
  {
    hide HashedAt, DataHash, DataDistance, DataForward, DataRaises, Handed;
  }

  lemma AckTimes(n: Node, a: Ack, from: NodeId, draw: nat, now: int)
    requires OnAck(n, a, from, draw, now).Running?
    ensures OnAck(n, a, from, draw, now).node.hashTime == n.hashTime
  {
    hide Adopts, PassesAck, Flips, Chosen, AddPull, PullWrites, Pulled, SetAckTimer;
  }

  lemma HeardTimes(n: Node, e: Event, t: HashTime)
    requires e.Receive? && e.from != n.id && React(n, e).Running? && t in React(n, e).node.hashTime
    ensures t in n.hashTime || (t.key !in n.hash && t.time == e.now)
  {
    hide HashedAt, AdvHash, DataHash, OnAdvertise, OnData, OnAck;
    match e.msg
    case OtaAdv(a) =>
      AdvertiseTimes(n, a, e.from, e.now);
      HashedMembers(n, AdvHash(a), e.now, t);
    case OtaData(d) =>
      DataTimes(n, d, e.from, e.now);
      HashedMembers(n, DataHash(HeardData(d)), e.now, t);
    case OtaAck(a) => AckTimes(n, a, e.from, e.draw, e.now);
  }

  lemma QuietTimes(n: Node, e: Event, t: HashTime)
    requires QuietEvent(e) || e.HashTimer?
    requires React(n, e).Running? && t in React(n, e).node.hashTime
    ensures t in n.hashTime
  {
    if e.HashTimer? {
      HashIndex.FilterMembers(n.hashTime, (x: HashTime) => !Expired(e.now, x.time, n.hashExpire), t);
    } else {
      hide React;
      QuietReact(n, e);
    }
  }

  /** An entry of the index has the time of the event that made its key known; the key has been known since. */
  lemma {:induction false} TimeTold(nets: seq<Net>, moves: seq<Move>, x: NodeId, t: HashTime) returns (j: nat)
    requires Run(nets, moves) && x in nets[|moves|] && t in nets[|moves|][x].hashTime
    ensures |nets| == |moves| + 1 && j < |moves| && Hearing.At(nets, moves, j, x) && Brings(moves[j].event)
    ensures t.key !in nets[j][x].hash && t.time == TimeOf(moves[j].event)
    ensures forall l :: j < l <= |moves| ==> x in nets[l] && t.key in nets[l][x].hash
    decreases |moves|
  {
    hide React, Enabled, Brings;
    Hearing.RunShape(nets, moves);
    IsIndexed(nets, moves, x, t);
    if moves == [] {
      NoneRegistered(nets, moves, x);
    } else {
      RunPrefix(nets, moves);
      var last := |moves| - 1;
      assert Step(nets[last], moves[last].node, moves[last].event, nets[last + 1]);
      assert x in nets[last] by { SameNodes(nets[last], moves[last].node, moves[last].event, nets[last + 1]); }
      if t in nets[last][x].hashTime {
        j := TimeTold(nets[..|moves|], moves[..last], x, t);
      } else {
        ReactTimes(nets[last][x], moves[last].event, t);
        j := last;
      }
    }
  }

  lemma IsIndexed(nets: seq<Net>, moves: seq<Move>, x: NodeId, t: HashTime)
    requires Run(nets, moves) && x in nets[|moves|] && t in nets[|moves|][x].hashTime
    ensures t.key in nets[|moves|][x].hash
  {
    hide Run, OnHashCleanup;
    Hearing.RunShape(nets, moves);
    Tables.IndexAgrees(nets, moves, x, 0);
    var n := nets[|moves|][x];
    var i :| 0 <= i < |n.hashTime| && n.hashTime[i] == t;
    assert HashIndex.Lists(n.hashTime, t.key);
  }

  /** A cleanup forgets a message exactly if the event that made it known lies longer back than the
      expiry time. */
  lemma ForgottenIff(nets: seq<Net>, moves: seq<Move>, x: NodeId, h: HashKey, now: int) returns (j: nat)
    requires Run(nets, moves) && x in nets[|moves|] && h in nets[|moves|][x].hash
    ensures |nets| == |moves| + 1 && j < |moves| && Hearing.At(nets, moves, j, x) && Brings(moves[j].event)
    ensures h !in nets[j][x].hash && forall l :: j < l <= |moves| ==> x in nets[l] && h in nets[l][x].hash
    ensures var n := nets[|moves|][x];
            React(n, HashTimer(now)).Running? &&
            (h in React(n, HashTimer(now)).node.hash <==> (now - TimeOf(moves[j].event)) as real <= n.hashExpire)
  {
    hide Run, OnHashCleanup, Brings;
    Hearing.RunShape(nets, moves);
    Tables.IndexAgrees(nets, moves, x, now);
    var n := nets[|moves|][x];
    assert HashIndex.Lists(n.hashTime, h);
    var i :| 0 <= i < |n.hashTime| && n.hashTime[i].key == h;
    j := TimeTold(nets, moves, x, n.hashTime[i]);
  }

  // ---- what ends the service -----------------------------------------------------------

  /** A registration ends the service exactly if it is a first one whose interval is positive and not
      below the time after which remote pulls expire. */
  lemma RefusedIff(n: Node, s: Session, c: ClientCmd, now: int)
    requires c.ClientRegister?
    ensures OnClient(n, s, c, now).Fatal? <==>
              c.gid !in n.announce && Interval(c) > 0 && Interval(c) as real >= n.pullExpire
  {
  }

  /** Giving up a group ends it exactly if the group is not registered; otherwise only that group goes. */
  lemma GivenUp(n: Node, s: Session, gid: GroupId, now: int)
    ensures OnClient(n, s, ClientDeregister(gid), now).Fatal? <==> gid !in n.announce
    ensures gid in n.announce ==>
              OnClient(n, s, ClientDeregister(gid), now).node == n.(announce := map g | g in n.announce
                                                                    && g != gid :: n.announce[g])
  {
    assert (map g | g in n.announce && g != gid :: n.announce[g]) == n.announce - {gid};
  }
}
