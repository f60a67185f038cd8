/** Telling the announcing client when to send: Pull and Unpull alternate, and what the client will
    believe once it has read its messages is what the service believes it told it. */
module Pulls {
  import opened Types
  import opened NodeSpec
  import opened Network
  import Delivery

  // ---- what is written about one group -------------------------------------------------

  /** The Pulls (true) and Unpulls (false) for a group, in order. */
  function Talk(s: seq<AppWrite>, g: GroupId): seq<bool> {
    if s == [] then []
    else (if s[0].msg == AppPull(g) then [true] else if s[0].msg == AppUnpull(g) then [false] else []) + Talk(s[1..], g)
  }

  lemma {:induction false} TalkAppends(s: seq<AppWrite>, t: seq<AppWrite>, g: GroupId)
    ensures Talk(s + t, g) == Talk(s, g) + Talk(t, g)
  {
    if s == [] {
      assert s + t == t;
    } else {
      assert (s + t)[1..] == s[1..] + t;
      TalkAppends(s[1..], t, g);
    }
  }

  lemma {:induction false} DataIsNoTalk(s: seq<AppWrite>, g: GroupId)
    requires forall w :: w in s ==> w.msg.AppData?
    ensures Talk(s, g) == []
  {
    if s != [] {
      assert s[0] in s;
      DataIsNoTalk(s[1..], g);
    }
  }

  predicate Alternates(t: seq<bool>) { forall i :: 0 <= i < |t| ==> t[i] == (i % 2 == 0) }

  predicate About(m: AppMsg, g: GroupId) { m == AppPull(g) || m == AppUnpull(g) }

  /** The talk about a group alternates, starting with a Pull; its last word is the service's mark;
      and all of it went to the announcing session. */
  ghost predicate Tuned(n: Node, g: GroupId) {
    && Alternates(Talk(n.written, g))
    && (g in n.announce ==> n.announce[g].pullSent == (|Talk(n.written, g)| % 2 == 1))
    && (forall w :: w in n.written && About(w.msg, g) ==> g in n.announce && w.session == n.announce[g].session)
    && (g !in n.announce ==> Talk(n.written, g) == [])
  }

  // ---- one event -----------------------------------------------------------------------

  /** The event adds these writes; the mark of the group rises, falls or stays with them. */
  ghost predicate Adds(n: Node, m: Node, more: seq<AppWrite>, g: GroupId) {
    && m.written == n.written + more && (g in n.announce <==> g in m.announce)
    && (forall w :: w in more && About(w.msg, g) ==> g in n.announce && w.session == n.announce[g].session)
    && (g in n.announce ==>
          && m.announce[g].session == n.announce[g].session
          && (m.announce[g].pullSent == n.announce[g].pullSent ==> Talk(more, g) == [])
          && (m.announce[g].pullSent != n.announce[g].pullSent ==> Talk(more, g) == [m.announce[g].pullSent]))
    && (g !in n.announce ==> Talk(more, g) == [])
  }

  lemma AddsTuned(n: Node, m: Node, more: seq<AppWrite>, g: GroupId)
    requires Tuned(n, g) && Adds(n, m, more, g)
    ensures Tuned(m, g)
  {
    TalkAppends(n.written, more, g);
  }

  lemma PullAdds(n: Node, m: Node, gid: GroupId, g: GroupId)
    requires m.announce == Pulled(n.announce, gid) && m.written == n.written + PullWrites(n.announce, gid)
    ensures Adds(n, m, PullWrites(n.announce, gid), g)
  {
    assert Talk([], g) == [];
  }

  lemma AdvertiseTalk(n: Node, a: Advertise, from: NodeId, now: int, g: GroupId)
    requires Tuned(n, g)
    ensures Tuned(OnAdvertise(n, a, from, now), g)
  {
    hide Hashed, HashedAt, AdvDistance, AdvForward, AdvRaises, JoinsTree, Overrides, LearnPath, AdvHash, SetAckTimer,
         PullWrites, Pulled;
    var m := OnAdvertise(n, a, from, now);
    if Overrides(n, a) {
      hide Tuned, Adds;
      PullAdds(n, m, a.gid, g);
      AddsTuned(n, m, PullWrites(n.announce, a.gid), g);
    }
  }

  lemma AckTalk(n: Node, a: Ack, from: NodeId, draw: nat, now: int, g: GroupId)
    requires Tuned(n, g) && OnAck(n, a, from, draw, now).Running?
    ensures Tuned(OnAck(n, a, from, draw, now).node, g)
  {
    hide Adopts, PassesAck, Flips, Chosen, AddPull, SetAckTimer, PullWrites, Pulled;
    var m := OnAck(n, a, from, draw, now).node;
    if a.srcnode == n.id {
      hide Tuned, Adds;
      PullAdds(n, m, a.gid, g);
      AddsTuned(n, m, PullWrites(n.announce, a.gid), g);
    }
  }

  lemma HandingTalk(n: Node, m: Node, d: Data, from: Option<Session>, g: GroupId)
    requires Tuned(n, g) && m.announce == n.announce
             && (m.written == n.written || m.written == n.written + Handed(n, d, from))
    ensures Tuned(m, g)
  {
    if m.written != n.written {
      forall w | w in Handed(n, d, from) ensures w.msg.AppData? { Delivery.HandedOnly(n, d, from, w); }
      DataIsNoTalk(Handed(n, d, from), g);
      AddsTuned(n, m, Handed(n, d, from), g);
    }
  }

  lemma DataTalk(n: Node, d: Data, from: NodeId, now: int, g: GroupId)
    requires Tuned(n, g)
    ensures Tuned(OnData(n, d, from, now), g)
  {
    hide HashedAt, Hashed, DataDistance, DataForward, DataRaises, DataHash, Handed, Tuned;
    HandingTalk(n, OnData(n, d, from, now), HeardData(d), None, g);
  }

  lemma ClientDataTalk(n: Node, s: Session, d: Data, now: int, g: GroupId)
    requires Tuned(n, g) && OnClientData(n, s, d, now).Running?
    ensures Tuned(OnClientData(n, s, d, now).node, g)
  {
    hide HashedAt, Hashed, DataDistance, DataHash, Handed, ClientSends, NextSeq, Tuned;
    HandingTalk(n, OnClientData(n, s, d, now).node, Stamped(n, d), Some(s), g);
  }

  /** The cleanup unpulls each orphaned group once. */
  lemma {:induction false} UnpullTalk(t: map<GroupId, Announce>, gs: set<GroupId>, g: GroupId)
    requires gs <= t.Keys
    ensures Talk(UnpullWrites(t, gs), g) == if g in gs then [false] else []
    ensures forall w :: w in UnpullWrites(t, gs) && About(w.msg, g) ==> g in gs && w.session == t[g].session
    decreases gs
  {
    if gs != {} {
      var x := MinOf(gs);
      UnpullTalk(t, gs - {x}, g);
      var head := [AppWrite(t[x].session, AppUnpull(x))];
      assert UnpullWrites(t, gs)[1..] == UnpullWrites(t, gs - {x});
    }
  }

  lemma CleanupTalk(n: Node, now: int, g: GroupId)
    requires Tuned(n, g)
    ensures Tuned(OnPullCleanup(n, now), g)
  {
    hide FilterSeq, UnpullWrites;
    var k := DropStalePulls(n, now);
    var more := UnpullWrites(k.announce, Orphans(k));
    UnpullTalk(k.announce, Orphans(k), g);
    hide Tuned, AnyRemote, AnyLocal;
    AddsTuned(n, OnPullCleanup(n, now), more, g);
  }

  /** All other events write nothing. */
  lemma SilentTalk(n: Node, e: Event, g: GroupId)
    requires Tuned(n, g) && React(n, e).Running? && (g in n.announce ==> g in React(n, e).node.announce)
    requires e.AckTimer? || e.AdvTimer? || e.DataTimer? || e.AnnounceTimer? || e.HashTimer? || e.ClientGone?
             || (e.FromClient? && !e.cmd.ClientData?)
    ensures Tuned(React(n, e).node, g)
  {
    Delivery.SilentEvents(n, e);
    hide Talk;
    SilentMarks(n, e, g);
  }

  lemma SilentMarks(n: Node, e: Event, g: GroupId)
    requires React(n, e).Running? && (g in n.announce ==> g in React(n, e).node.announce)
    requires e.AckTimer? || e.AdvTimer? || e.DataTimer? || e.AnnounceTimer? || e.HashTimer? || e.ClientGone?
             || (e.FromClient? && !e.cmd.ClientData?)
    ensures var m := React(n, e).node;
            && (g in n.announce ==>
                  m.announce[g].pullSent == n.announce[g].pullSent && m.announce[g].session == n.announce[g].session)
            && (g !in n.announce && g in m.announce ==> !m.announce[g].pullSent)
  {
    hide AckProb, HashedAt, Hashed, OwnDistance, ExpiredKeys, Fresh, FilterSeq, OnClient, AdvHash;
    match e
    case AckTimer(k) =>
    case AdvTimer(k) =>
    case DataTimer(h) =>
    case AnnounceTimer(gid, now) =>
    case HashTimer(now) =>
    case ClientGone(s) =>
    case FromClient(s, c, now) => ClientMarks(n, s, c, now, g);
  }

  lemma ClientMarks(n: Node, s: Session, c: ClientCmd, now: int, g: GroupId)
    requires !c.ClientData? && OnClient(n, s, c, now).Running?
             && (g in n.announce ==> g in OnClient(n, s, c, now).node.announce)
    ensures var m := OnClient(n, s, c, now).node;
            && (g in n.announce ==>
                  m.announce[g].pullSent == n.announce[g].pullSent && m.announce[g].session == n.announce[g].session)
            && (g !in n.announce && g in m.announce ==> !m.announce[g].pullSent)
  {
    hide RemoveFirst, OnClientData;
    match c
    case ClientPull(_) =>
    case ClientUnpull(_) =>
    case ClientRegister(_, _, _, _, _) =>
    case ClientDeregister(_) =>
  }

  lemma ReactTuned(n: Node, e: Event, g: GroupId)
    requires Tuned(n, g) && React(n, e).Running? && (g in n.announce ==> g in React(n, e).node.announce)
    ensures Tuned(React(n, e).node, g)
  {
    hide OnAdvertise, OnAck, OnData, OnPullCleanup, OnClientData, OnRegister, RemoveFirst, OnAckTimeout, OnAdvTimeout,
         OnDataTimeout, OnAnnounce, OnHashCleanup, OnClose, Tuned;
    match e
    case Receive(from, m, draw, now) =>
      if from != n.id {
        match m
        case OtaAck(a) => AckTalk(n, a, from, draw, now, g);
        case OtaAdv(a) => AdvertiseTalk(n, a, from, now, g);
        case OtaData(d) => DataTalk(n, d, from, now, g);
      }
    case PullTimer(now) => CleanupTalk(n, now, g);
    case FromClient(s, ClientData(d), now) => ClientDataTalk(n, s, d, now, g);
    case _ => SilentTalk(n, e, g);
  }

  // ---- runs ----------------------------------------------------------------------------

  /** The registration of the group at `x`, once made, is not given up. */
  ghost predicate StaysRegistered(nets: seq<Net>, x: NodeId, g: GroupId) {
    forall i :: 0 < i < |nets| && x in nets[i - 1] && g in nets[i - 1][x].announce ==>
        x in nets[i] && g in nets[i][x].announce
  }

  /** In every run Pulls and Unpulls for a registered group strictly alternate, starting with a Pull. */
  lemma {:induction false} PullsAlternate(nets: seq<Net>, moves: seq<Move>, x: NodeId, g: GroupId)
    requires Run(nets, moves) && x in nets[|moves|] && StaysRegistered(nets, x, g)
    ensures Tuned(nets[|moves|][x], g)
    decreases |moves|
  {
    hide React, Tuned, Start, Enabled;
    if moves == [] {
      StartTuned(nets[0], x, g);
    } else {
      RunPrefix(nets, moves);
      var last := |moves| - 1;
      assert Step(nets[last], moves[last].node, moves[last].event, nets[last + 1]);
      assert x in nets[last] by { SameNodes(nets[last], moves[last].node, moves[last].event, nets[last + 1]); }
      PullsAlternate(nets[..|moves|], moves[..last], x, g);
      if moves[last].node == x {
        ReactTuned(nets[last][x], moves[last].event, g);
      }
    }
  }

  lemma StartTuned(net: Net, x: NodeId, g: GroupId)
    requires Start(net) && x in net
    ensures Tuned(net[x], g)
  {
  }

  // ---- the client's view ---------------------------------------------------------------

  /** What a session has been written, in order. */
  function Inbox(s: seq<AppWrite>, to: Session): seq<AppMsg> {
    if s == [] then [] else (if s[0].session == to then [s[0].msg] else []) + Inbox(s[1..], to)
  }

  /** A client's belief that it has subscribers, after one message and after several. */
  function Hearing(has: bool, m: AppMsg, g: GroupId): bool {
    if m == AppPull(g) then true else if m == AppUnpull(g) then false else has
  }

  function Believes(has: bool, ms: seq<AppMsg>, g: GroupId): bool
    decreases |ms|
  {
    if ms == [] then has else Believes(Hearing(has, ms[0], g), ms[1..], g)
  }

  lemma {:induction false} BelievesOn(has: bool, ms: seq<AppMsg>, i: nat, g: GroupId)
    requires i <= |ms|
    decreases i
    ensures Believes(Believes(has, ms[..i], g), ms[i..], g) == Believes(has, ms, g)
  {
    if i > 0 {
      BelievesOn(Hearing(has, ms[0], g), ms[1..], i - 1, g);
      assert ms[..i][1..] == ms[1..][..i - 1] && ms[i..] == ms[1..][i - 1..];
    } else {
      assert ms[0..] == ms;
    }
  }

  lemma {:induction false} LastWord(s: seq<AppWrite>, to: Session, g: GroupId, has: bool)
    requires forall w :: w in s && About(w.msg, g) ==> w.session == to
    ensures Believes(has, Inbox(s, to), g) == var t := Talk(s, g); if t == [] then has else t[|t| - 1]
  {
    if s != [] {
      assert s[0] in s;
      var rest := s[1..];
      LastWord(rest, to, g, Hearing(has, s[0].msg, g));
      LastWord(rest, to, g, has);
      if s[0].session == to {
        var ms := Inbox(s, to);
        assert ms == [s[0].msg] + Inbox(rest, to) && ms[1..] == Inbox(rest, to);
        assert Believes(has, ms, g) == Believes(Hearing(has, s[0].msg, g), ms[1..], g);
      } else {
        assert Inbox(s, to) == Inbox(rest, to);
      }
      if About(s[0].msg, g) {
        assert Talk(s, g) == [s[0].msg == AppPull(g)] + Talk(rest, g);
      } else {
        assert Hearing(has, s[0].msg, g) == has;
        assert Talk(s, g) == Talk(rest, g);
      }
    }
  }

  /** At any moment of a run: a client that started out believing it has no subscribers and has read
      some of the messages written to it will, having read the rest, believe what the service marked. */
  lemma BeliefCatchesUp(nets: seq<Net>, moves: seq<Move>, x: NodeId, g: GroupId, i: nat)
    requires Run(nets, moves) && x in nets[|moves|] && StaysRegistered(nets, x, g) && g in nets[|moves|][x].announce
    requires i <= |Inbox(nets[|moves|][x].written, nets[|moves|][x].announce[g].session)|
    ensures var n := nets[|moves|][x]; var ms := Inbox(n.written, n.announce[g].session);
            Believes(Believes(false, ms[..i], g), ms[i..], g) == n.announce[g].pullSent
  {
    hide Step, Start, Talk, Inbox, Believes;
    var n := nets[|moves|][x];
    PullsAlternate(nets, moves, x, g);
    BelievesOn(false, Inbox(n.written, n.announce[g].session), i, g);
    LastWord(n.written, n.announce[g].session, g, false);
  }

  // ---- when an announcer is pulled -----------------------------------------------------

  /** The event tells that the group has a subscriber: an ACK of the node's own advertisement; or, with an
      announcement interval of zero, a new advertisement of the group by another source. */
  predicate Tells(n: Node, e: Event, g: GroupId)
    requires g in n.announce
  {
    && e.Receive? && e.from != n.id
    && match e.msg
       case OtaAck(a) => a.srcnode == n.id && a.gid == g
       case OtaAdv(a) => a.gid == g && AdvHash(a) !in n.hash && n.announce[g].interval == 0
       case OtaData(_) => false
  }

  /** An unmarked announcer is marked, and so written a PULL, exactly by such an event. */
  lemma MarkedIff(n: Node, e: Event, g: GroupId)
    requires React(n, e).Running? && g in n.announce && g in React(n, e).node.announce && !n.announce[g].pullSent
    ensures React(n, e).node.announce[g].pullSent <==> Tells(n, e, g)
  {
    if e.Receive? {
      if e.from != n.id { HeardMarks(n, e, g); }
    } else if e.PullTimer? {
      hide FilterSeq, UnpullWrites, Orphaned, Orphans;
    } else if e.FromClient? && e.cmd.ClientData? {
      hide Hashed, HashedAt, DataDistance, Handed, ClientSends, NextSeq, DataHash;
    } else {
      hide React;
      SilentMarks(n, e, g);
    }
  }

  lemma HeardMarks(n: Node, e: Event, g: GroupId)
    requires e.Receive? && e.from != n.id && React(n, e).Running? && g in n.announce && !n.announce[g].pullSent
    ensures g in React(n, e).node.announce && (React(n, e).node.announce[g].pullSent <==> Tells(n, e, g))
  {
    hide OnAdvertise, OnAck, OnData;
    match e.msg
    case OtaAdv(a) => AdvertiseMarks(n, a, e.from, e.now, g);
    case OtaAck(a) => AckMarks(n, a, e.from, e.draw, e.now, g);
    case OtaData(d) => DataMarks(n, d, e.from, e.now);
  }

  lemma AdvertiseMarks(n: Node, a: Advertise, from: NodeId, now: int, g: GroupId)
    requires g in n.announce && !n.announce[g].pullSent
    ensures var m := OnAdvertise(n, a, from, now);
            && g in m.announce
            && (m.announce[g].pullSent <==> a.gid == g && AdvHash(a) !in n.hash && n.announce[g].interval == 0)
  {
    hide Hashed, HashedAt, AdvDistance, AdvForward, AdvRaises, LearnPath, AdvHash, SetAckTimer, PullWrites;
  }

  lemma AckMarks(n: Node, a: Ack, from: NodeId, draw: nat, now: int, g: GroupId)
    requires OnAck(n, a, from, draw, now).Running? && g in n.announce && !n.announce[g].pullSent
    ensures var m := OnAck(n, a, from, draw, now).node;
            g in m.announce && (m.announce[g].pullSent <==> a.srcnode == n.id && a.gid == g)
  {
    hide Adopts, PassesAck, Flips, Chosen, AddPull, SetAckTimer, PullWrites;
  }

  lemma DataMarks(n: Node, d: Data, from: NodeId, now: int)
    ensures OnData(n, d, from, now).announce == n.announce
  {
    hide Hashed, HashedAt, DataDistance, DataForward, DataRaises, Handed, DataHash;
  }
}
