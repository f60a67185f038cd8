/** Group DATA reaches each local subscription at most once, and never the session it came from. */
module Delivery {
  import opened Types
  import opened NodeSpec
  import opened Network
  import opened Origin

  // ---- one batch -----------------------------------------------------------------------

  /** Each subscription of the group gets exactly one copy; the sending session gets none. */
  lemma {:induction false} OneCopyEach(s: seq<LocalPull>, gid: GroupId, except: Option<Session>, m: AppMsg, t: Session)
    ensures multiset(Deliveries(s, gid, except, m))[AppWrite(t, m)] ==
            if except == Some(t) then 0 else multiset(s)[LocalPull(gid, t)]
  {
    if s != [] {
      OneCopyEach(s[1..], gid, except, m, t);
      assert s == [s[0]] + s[1..];
      var head := if s[0].gid == gid && except != Some(s[0].session) then [AppWrite(s[0].session, m)] else [];
      assert Deliveries(s, gid, except, m) == head + Deliveries(s[1..], gid, except, m);
    }
  }

  /** Sessions are served in the order of the subscription table. */
  lemma {:induction false} InTableOrder(s: seq<LocalPull>, t: seq<LocalPull>, gid: GroupId, except: Option<Session>,
                                        m: AppMsg)
    ensures Deliveries(s + t, gid, except, m) == Deliveries(s, gid, except, m) + Deliveries(t, gid, except, m)
  {
    if s == [] {
      assert s + t == t;
    } else {
      assert (s + t)[1..] == s[1..] + t;
      InTableOrder(s[1..], t, gid, except, m);
    }
  }

  lemma {:induction false} DeliversOnly(s: seq<LocalPull>, gid: GroupId, except: Option<Session>, m: AppMsg,
                                        w: AppWrite)
    requires w in Deliveries(s, gid, except, m)
    ensures w.msg == m
  {
    if w in Deliveries(s[1..], gid, except, m) {
      DeliversOnly(s[1..], gid, except, m, w);
    }
  }

  lemma HandedOnly(n: Node, d: Data, from: Option<Session>, w: AppWrite)
    requires w in Handed(n, d, from)
    ensures w.msg == AppData(d)
  {
    var own := if d.gid in n.announce then [AppWrite(n.announce[d.gid].session, AppData(d))] else [];
    if d.uheader.None? {
      DeliversOnly(n.localPull, d.gid, from, AppData(d), w);
    } else if w !in own {
      DeliversOnly(n.localPull, d.gid, None, AppData(d), w);
    }
  }

  lemma {:induction false} UnpullsOnly(t: map<GroupId, Announce>, gs: set<GroupId>, w: AppWrite)
    requires gs <= t.Keys && w in UnpullWrites(t, gs)
    ensures w.msg.AppUnpull?
    decreases gs
  {
    var g := MinOf(gs);
    if w in UnpullWrites(t, gs - {g}) {
      UnpullsOnly(t, gs - {g}, w);
    }
  }

  // ---- what an event hands over --------------------------------------------------------

  /** `w` is one of the writes the event adds to the log. */
  predicate Writes(n: Node, e: Event, w: AppWrite) {
    && React(n, e).Running?
    && |n.written| <= |React(n, e).node.written|
    && w in React(n, e).node.written[|n.written|..]
  }

  /** The event hands group DATA with key `h` to some session. */
  ghost predicate HandsOver(n: Node, e: Event, h: HashKey) {
    Tracked(Group, h) && exists w :: Writes(n, e, w) && w.msg.AppData? && DataHash(w.msg.data) == h
  }

  ghost predicate News(n: Node, e: Event, w: AppWrite)
    requires React(n, e).Running?
  {
    w.msg.AppData? ==> DataHash(w.msg.data) !in n.hash && DataHash(w.msg.data) in React(n, e).node.hash
  }

  lemma AdvertiseNews(n: Node, a: Advertise, from: NodeId, now: int, w: AppWrite)
    requires w in OnAdvertise(n, a, from, now).written[|n.written|..]
    ensures !w.msg.AppData?
  {
    hide Hashed, HashedAt, AdvDistance, AdvForward, AdvRaises, JoinsTree, Overrides, LearnPath, AdvHash;
    assert OnAdvertise(n, a, from, now).written[|n.written|..] == [] ||
           OnAdvertise(n, a, from, now).written[|n.written|..] == PullWrites(n.announce, a.gid);
  }

  lemma AckNews(n: Node, a: Ack, from: NodeId, draw: nat, now: int, w: AppWrite)
    requires OnAck(n, a, from, draw, now).Running? && w in OnAck(n, a, from, draw, now).node.written[|n.written|..]
    ensures !w.msg.AppData?
  {
    hide Adopts, PassesAck, Flips, Chosen, AddPull;
    assert OnAck(n, a, from, draw, now).node.written[|n.written|..] == [] ||
           OnAck(n, a, from, draw, now).node.written[|n.written|..] == PullWrites(n.announce, a.gid);
  }

  lemma DataNews(n: Node, d0: Data, from: NodeId, now: int, w: AppWrite)
    requires w in OnData(n, d0, from, now).written[|n.written|..]
    ensures w.msg == AppData(HeardData(d0))
    ensures DataHash(HeardData(d0)) !in n.hash && DataHash(HeardData(d0)) in OnData(n, d0, from, now).hash
  {
    hide HashedAt, DataDistance, DataForward, DataRaises, DataHash, Handed;
    var d := HeardData(d0);
    var m := OnData(n, d0, from, now);
    assert m.written[|n.written|..] == [] || m.written[|n.written|..] == Handed(n, d, None);
    assert DataHash(d) in n.hash ==> m.written == n.written;
    HandedOnly(n, d, None, w);
  }

  lemma ClientDataNews(n: Node, s: Session, d0: Data, now: int, w: AppWrite)
    requires OnClientData(n, s, d0, now).Running? && w in OnClientData(n, s, d0, now).node.written[|n.written|..]
    ensures w.msg == AppData(Stamped(n, d0))
    ensures DataHash(Stamped(n, d0)) !in n.hash && DataHash(Stamped(n, d0)) in OnClientData(n, s, d0, now).node.hash
    ensures w in Handed(n, Stamped(n, d0), Some(s))
  {
    hide HashedAt, DataDistance, DataHash, Handed, ClientSends, NextSeq;
    var d := Stamped(n, d0);
    var m := OnClientData(n, s, d0, now).node;
    assert m.written[|n.written|..] == [] || m.written[|n.written|..] == Handed(n, d, Some(s));
    assert DataHash(d) in n.hash ==> m.written == n.written;
    HandedOnly(n, d, Some(s), w);
  }

  lemma CleanupNews(n: Node, now: int, w: AppWrite)
    requires w in OnPullCleanup(n, now).written[|n.written|..]
    ensures !w.msg.AppData?
  {
    hide FilterSeq, UnpullWrites, Orphaned;
    var k := DropStalePulls(n, now);
    assert OnPullCleanup(n, now).written[|n.written|..] == UnpullWrites(k.announce, Orphans(k));
    UnpullsOnly(k.announce, Orphans(k), w);
  }

  lemma SilentEvents(n: Node, e: Event)
    requires React(n, e).Running?
    requires e.AckTimer? || e.AdvTimer? || e.DataTimer? || e.AnnounceTimer? || e.HashTimer? || e.ClientGone?
             || (e.FromClient? && !e.cmd.ClientData?)
    ensures React(n, e).node.written == n.written
  {
    hide AckProb, HashedAt, Hashed, OwnDistance, ExpiredKeys, Fresh, FilterSeq, OnClient;
    match e
    case AckTimer(k) =>
    case AdvTimer(k) =>
    case DataTimer(h) =>
    case AnnounceTimer(gid, now) =>
    case HashTimer(now) =>
    case ClientGone(s) =>
    case FromClient(s, c, now) => SilentClient(n, s, c, now);
  }

  lemma SilentClient(n: Node, s: Session, c: ClientCmd, now: int)
    requires !c.ClientData? && OnClient(n, s, c, now).Running?
    ensures OnClient(n, s, c, now).node.written == n.written
  {
    hide OnClientData, RemoveFirst, Registered;
    match c
    case ClientPull(g) =>
    case ClientUnpull(g) =>
    case ClientRegister(_, _, _, _, _) =>
    case ClientDeregister(g) =>
  }

  /** DATA is handed to a client only by an event for which its key is new. */
  lemma OnlyNewsIsHanded(n: Node, e: Event, w: AppWrite)
    requires Writes(n, e, w)
    ensures News(n, e, w)
  {
    hide OnAdvertise, OnAck, OnData, OnPullCleanup, OnClientData, OnRegister, RemoveFirst, OnAckTimeout, OnAdvTimeout,
         OnDataTimeout, OnAnnounce, OnHashCleanup, OnClose, DataHash;
    match e
    case Receive(from, m, draw, now) =>
      if from != n.id {
        match m
        case OtaAck(a) => AckNews(n, a, from, draw, now, w);
        case OtaAdv(a) => AdvertiseNews(n, a, from, now, w);
        case OtaData(d) => DataNews(n, d, from, now, w);
      }
    case PullTimer(now) => CleanupNews(n, now, w);
    case FromClient(s, ClientData(d), now) => ClientDataNews(n, s, d, now, w);
    case _ => SilentEvents(n, e);
  }

  /** Sending group DATA hands it to other sessions only. */
  lemma NotToSender(n: Node, s: Session, d: Data, now: int, w: AppWrite)
    requires Writes(n, FromClient(s, ClientData(d), now), w) && d.uheader.None?
    ensures w.session != s
  {
    hide OnClientData;
    ClientDataNews(n, s, d, now, w);
    var e := Stamped(n, d);
    OneCopyEach(n.localPull, e.gid, Some(s), AppData(e), w.session);
    assert w == AppWrite(w.session, AppData(e));
    assert multiset(Deliveries(n.localPull, e.gid, Some(s), AppData(e)))[w] > 0;
  }

  // ---- runs ----------------------------------------------------------------------------

  lemma {:induction false} HashPersists(nets: seq<Net>, moves: seq<Move>, i: nat, j: nat, x: NodeId, h: HashKey)
    requires Run(nets, moves) && AllSteady(Group, moves) && i <= j <= |moves|
    requires x in nets[i] && h in nets[i][x].hash
    ensures x in nets[j] && h in nets[j][x].hash
    decreases j - i
  {
    if i < j {
      hide React, Start, Enabled;
      HashPersists(nets, moves, i, j - 1, x, h);
      var p := moves[j - 1];
      assert Step(nets[j - 1], p.node, p.event, nets[j]);
      assert Steady(Group, p.event);
      HashGrows(nets[j - 1][p.node], p.event);
    }
  }

  lemma SubRun(q: Kind, nets: seq<Net>, moves: seq<Move>, j: nat)
    requires Run(nets, moves) && AllSteady(q, moves) && j <= |moves|
    ensures Run(nets[..j + 1], moves[..j]) && AllSteady(q, moves[..j])
  {
    hide Step, Steady, Start;
  }

  /** Two keys in the tables of one network that carry the same name are one key. */
  lemma NamesAreKeys(q: Kind, net: Net, x: NodeId, g: HashKey, h: HashKey, bound: nat)
    requires NetFaithful(q, net, bound) && x in net && g in net[x].hash && h in net[x].hash
    requires Tracked(q, g) && Tracked(q, h) && SameName(g, h)
    ensures g == h
  {
    hide LogIssued, Tracked, Src, Gid, SeqNo, Counter;
    assert Faithful(q, net, x, net[x], bound);
    assert Issued(net, g) && Issued(net, h);
    assert Faithful(q, net, Src(g), net[Src(g)], bound);
  }

  /** Without hash expiry a node hands over each group message, named by source, group and
      sequence number, in at most one event of the whole run. */
  lemma AtMostOnce(nets: seq<Net>, moves: seq<Move>, i: nat, j: nat, g: HashKey, h: HashKey)
    requires Run(nets, moves) && AllSteady(Group, moves) && |moves| < U64
    requires i < j < |moves| && moves[i].node == moves[j].node
    requires Step(nets[i], moves[i].node, moves[i].event, nets[i + 1])
    requires Step(nets[j], moves[j].node, moves[j].event, nets[j + 1])
    requires HandsOver(nets[i][moves[i].node], moves[i].event, g)
    requires HandsOver(nets[j][moves[j].node], moves[j].event, h)
    ensures !SameName(g, h)
  {
    hide React, Start, SameName, NetFaithful, Steady, Tracked, DataHash;
    var x := moves[i].node;
    var u :| Writes(nets[i][x], moves[i].event, u) && u.msg.AppData? && DataHash(u.msg.data) == g;
    OnlyNewsIsHanded(nets[i][x], moves[i].event, u);
    var v :| Writes(nets[j][x], moves[j].event, v) && v.msg.AppData? && DataHash(v.msg.data) == h;
    OnlyNewsIsHanded(nets[j][x], moves[j].event, v);
    HashPersists(nets, moves, i + 1, j, x, g);
    HashPersists(nets, moves, j, j + 1, x, g);
    assert g != h;
    SubRun(Group, nets, moves, j + 1);
    RunFaithful(Group, nets[..j + 2], moves[..j + 1]);
    if SameName(g, h) {
      NamesAreKeys(Group, nets[j + 1], x, g, h, j + 1);
    }
  }

  /** Without hash expiry a session is never handed the group DATA it sent: not when it sends it, and
      not when an echo of it arrives at any later time of the run. */
  lemma NeverEchoed(nets: seq<Net>, moves: seq<Move>, i: nat, j: nat, s: Session, d: Data, now: int, w: AppWrite)
    requires Run(nets, moves) && AllSteady(Group, moves) && i <= j < |moves| && moves[i].node == moves[j].node
    requires moves[i].event == FromClient(s, ClientData(d), now) && d.uheader.None?
    requires moves[i].node in nets[i] && moves[j].node in nets[j] && Writes(nets[j][moves[j].node], moves[j].event, w)
    requires w.msg.AppData? && DataHash(w.msg.data) == DataHash(Stamped(nets[i][moves[i].node], d))
    ensures i == j && w.session != s
  {
    hide Start, Steady, DataHash, OnClientData, Stamped;
    var x := moves[i].node;
    assert Step(nets[i], moves[i].node, moves[i].event, nets[i + 1]);
    if i == j {
      NotToSender(nets[i][x], s, d, now, w);
    } else {
      ClientDataKnown(nets[i][x], s, d, now);
      HashPersists(nets, moves, i + 1, j, x, DataHash(Stamped(nets[i][x], d)));
      OnlyNewsIsHanded(nets[j][x], moves[j].event, w);
    }
  }

  lemma ClientDataKnown(n: Node, s: Session, d: Data, now: int)
    requires OnClientData(n, s, d, now).Running?
    ensures DataHash(Stamped(n, d)) in OnClientData(n, s, d, now).node.hash
  {
    hide HashedAt, DataDistance, DataHash, Handed, ClientSends, NextSeq;
  }

  /** An echo of a node's own group DATA is handed to a session exactly if the session subscribes and
      the node has forgotten the key. */
  lemma EchoHandedIff(n: Node, d: Data, from: NodeId, draw: nat, now: int, s: Session)
    requires d.uheader.None? && d.srcnode == n.id && from != n.id
    ensures Writes(n, Receive(from, OtaData(d), draw, now), AppWrite(s, AppData(HeardData(d)))) <==>
            DataHash(d) !in n.hash && LocalPull(d.gid, s) in n.localPull
  {
    hide HashedAt, DataDistance, DataForward, DataRaises, DataHash, Deliveries;
    var e, m := HeardData(d), OnData(n, d, from, now);
    assert DataHash(e) == DataHash(d) by { CopyKeepsKey(d, d.ttl, Inc32(d.distance), 0); }
    OneCopyEach(n.localPull, d.gid, None, AppData(e), s);
    var w, all := AppWrite(s, AppData(e)), Deliveries(n.localPull, d.gid, None, AppData(e));
    assert multiset(all)[w] > 0 <==> w in all;
    assert multiset(n.localPull)[LocalPull(d.gid, s)] > 0 <==> LocalPull(d.gid, s) in n.localPull;
    assert m.written[|n.written|..] == if DataHash(d) in n.hash then [] else all;
  }

  // ---- exactly what is handed over -----------------------------------------------------

  /** How many copies of DATA a session is due: one for each subscription, unless it sent the DATA to the
      group; of unicast, at its destination only, one more for the announcing client. */
  function Copies(n: Node, d: Data, from: Option<Session>, s: Session): nat {
    var subscribed := multiset(n.localPull)[LocalPull(d.gid, s)];
    if d.uheader.None? then (if from == Some(s) then 0 else subscribed)
    else if d.uheader.value.dest != n.id then 0
    else subscribed + if d.gid in n.announce && n.announce[d.gid].session == s then 1 else 0
  }

  lemma HandedCopies(n: Node, d: Data, from: Option<Session>, s: Session)
    ensures multiset(Handed(n, d, from))[AppWrite(s, AppData(d))] == Copies(n, d, from, s)
  {
    OneCopyEach(n.localPull, d.gid, from, AppData(d), s);
    OneCopyEach(n.localPull, d.gid, None, AppData(d), s);
    hide Deliveries;
  }

  /** Of DATA heard each session is written as many copies as it is due if the DATA is new, else none. */
  lemma HeardCopies(n: Node, d0: Data, from: NodeId, now: int, s: Session)
    ensures n.written <= OnData(n, d0, from, now).written
    ensures multiset(OnData(n, d0, from, now).written[|n.written|..])[AppWrite(s, AppData(HeardData(d0)))] ==
            if DataHash(d0) in n.hash then 0 else Copies(n, d0, None, s)
  {
    hide HashedAt, DataDistance, DataForward, DataRaises, DataHash, Handed;
    var d, m := HeardData(d0), OnData(n, d0, from, now);
    assert DataHash(d) == DataHash(d0) by { CopyKeepsKey(d0, d0.ttl, Inc32(d0.distance), 0); }
    HandedCopies(n, d, None, s);
    assert m.written[|n.written|..] == if DataHash(d) in n.hash then [] else Handed(n, d, None);
  }

  /** Of DATA that a client sends likewise. */
  lemma SentCopies(n: Node, from: Session, d0: Data, now: int, s: Session)
    requires OnClientData(n, from, d0, now).Running?
    ensures n.written <= OnClientData(n, from, d0, now).node.written
    ensures multiset(OnClientData(n, from, d0, now).node.written[|n.written|..])[AppWrite(s,
              AppData(Stamped(n, d0)))] ==
            if DataHash(Stamped(n, d0)) in n.hash then 0 else Copies(n, Stamped(n, d0), Some(from), s)
  {
    hide HashedAt, DataDistance, DataHash, Handed, ClientSends, NextSeq;
    var d, m := Stamped(n, d0), OnClientData(n, from, d0, now).node;
    HandedCopies(n, d, Some(from), s);
    assert m.written[|n.written|..] == if DataHash(d) in n.hash then [] else Handed(n, d, Some(from));
  }

  /** A node never passes on an echo of its own group DATA, forgotten or not. */
  lemma OwnDataRests(n: Node, d0: Data, from: NodeId, now: int)
    requires d0.uheader.None? && d0.srcnode == n.id
    ensures OnData(n, d0, from, now).dataTimers == n.dataTimers
  {
    hide HashedAt, DataDistance, DataHash, Handed, IsGroupNode;
  }

  /** What carries the node's own id as sender is dropped. */
  lemma OwnIdDropped(n: Node, m: OtaMsg, draw: nat, now: int)
    ensures React(n, Receive(n.id, m, draw, now)) == Running(n)
  {
  }
}
