/** Whoever receives DATA hands it to the sessions it is for. */
module Sharing {
  import opened Types
  import opened NodeSpec
  import opened Network
  import opened Origin
  import opened Air
  import opened Traffic
  import Delivery

  predicate IsHanded(n: Node, s: Session, h: HashKey) {
    exists w :: w in n.written && w.session == s && w.msg.AppData? && DataHash(w.msg.data) == h
  }

  /** Group DATA is for every local subscriber; unicast, at its destination, for the announcing
      client too. */
  predicate IsDue(n: Node, s: Session, h: HashKey)
    requires h.DataHashKey?
  {
    var d := h.data;
    if d.uheader.None? then LocalPull(d.gid, s) in n.localPull
    else n.id == d.uheader.value.dest && (LocalPull(d.gid, s) in n.localPull
                                          || (d.gid in n.announce && n.announce[d.gid].session == s))
  }

  /** A node that has a message of another has handed it to everyone it is for. */
  ghost predicate Shared(n: Node, h: HashKey)
    requires h.DataHashKey?
  {
    h in n.hash && n.id != Src(h) ==> forall s :: IsDue(n, s, h) ==> IsHanded(n, s, h)
  }

  /** The same sessions subscribe and announce. */
  ghost predicate SameClients(n: Node, m: Node) {
    && m.id == n.id && m.localPull == n.localPull && m.announce.Keys == n.announce.Keys
    && forall g :: g in n.announce ==> m.announce[g].session == n.announce[g].session
  }

  lemma SharedStays(n: Node, m: Node, h: HashKey)
    requires h.DataHashKey? && Shared(n, h) && SameClients(n, m) && n.written <= m.written
             && (h in m.hash ==> h in n.hash)
    ensures Shared(m, h)
  {
    hide DataHash;
    forall s | IsDue(m, s, h) && h in m.hash && n.id != Src(h) ensures IsHanded(m, s, h) {
      assert IsDue(n, s, h);
      var w :| w in n.written && w.session == s && w.msg.AppData? && DataHash(w.msg.data) == h;
      assert w in m.written;
    }
  }

  lemma HandedToDue(n: Node, d: Data, s: Session)
    requires IsDue(n, s, DataHash(d))
    ensures AppWrite(s, AppData(d)) in Handed(n, d, None)
  {
    var w := AppWrite(s, AppData(d));
    Delivery.OneCopyEach(n.localPull, d.gid, None, AppData(d), s);
    if LocalPull(d.gid, s) in n.localPull {
      assert multiset(n.localPull)[LocalPull(d.gid, s)] > 0;
      assert multiset(Deliveries(n.localPull, d.gid, None, AppData(d)))[w] > 0;
    }
  }

  lemma NewDataShared(n: Node, d0: Data, from: NodeId, now: int)
    requires DataHash(d0) !in n.hash
    ensures DataHash(d0).DataHashKey? && Shared(OnData(n, d0, from, now), DataHash(d0))
  {
    hide HashedAt, DataDistance, DataForward, DataRaises, DataHash, Hashed, Handed;
    var d, m := HeardData(d0), OnData(n, d0, from, now);
    assert DataHash(d) == DataHash(d0) by { CopyKeepsKey(d0, d0.ttl, Inc32(d0.distance), 0); }
    DataKeyKind(d0);
    forall s | IsDue(m, s, DataHash(d)) ensures IsHanded(m, s, DataHash(d)) {
      HandedToDue(n, d, s);
      assert AppWrite(s, AppData(d)) in m.written;
    }
  }

  lemma DataShared(n: Node, d0: Data, from: NodeId, now: int, h: HashKey)
    requires h.DataHashKey? && Shared(n, h)
    ensures Shared(OnData(n, d0, from, now), h)
  {
    hide HashedAt, DataDistance, DataForward, DataRaises, DataHash, Handed, Shared;
    DataKeyKind(d0);
    if DataHash(d0) == h && h !in n.hash {
      NewDataShared(n, d0, from, now);
    } else {
      assert DataHash(HeardData(d0)) == DataHash(d0) by { CopyKeepsKey(d0, d0.ttl, Inc32(d0.distance), 0); }
      SharedStays(n, OnData(n, d0, from, now), h);
    }
  }

  lemma AdvertiseShared(n: Node, a: Advertise, from: NodeId, now: int, h: HashKey)
    requires h.DataHashKey? && Shared(n, h)
    ensures Shared(OnAdvertise(n, a, from, now), h)
  {
    hide HashedAt, AdvDistance, AdvForward, AdvRaises, JoinsTree, Overrides, LearnPath, AdvHash, SetAckTimer, Shared,
         PullWrites;
    AdvKeyKind(a);
    SharedStays(n, OnAdvertise(n, a, from, now), h);
  }

  lemma AckShared(n: Node, a: Ack, from: NodeId, draw: nat, now: int, h: HashKey)
    requires h.DataHashKey? && Shared(n, h) && OnAck(n, a, from, draw, now).Running?
    ensures Shared(OnAck(n, a, from, draw, now).node, h)
  {
    hide Adopts, PassesAck, Flips, Chosen, AddPull, SetAckTimer, Shared, PullWrites;
    SharedStays(n, OnAck(n, a, from, draw, now).node, h);
  }

  lemma ReactShared(n: Node, e: Event, h: HashKey)
    requires h.DataHashKey? && Shared(n, h) && (e.Receive? || TimerEvent(e)) && React(n, e).Running?
    ensures Shared(React(n, e).node, h)
  {
    if TimerEvent(e) {
      hide React, Shared, TimerMsg;
      TimerReact(n, e);
      SharedStays(n, React(n, e).node, h);
    } else if e.from != n.id {
      hide OnAdvertise, OnAck, OnData, Shared;
      match e.msg
      case OtaAck(a) => AckShared(n, a, e.from, e.draw, e.now, h);
      case OtaAdv(a) => AdvertiseShared(n, a, e.from, e.now, h);
      case OtaData(d) => DataShared(n, d, e.from, e.now, h);
    }
  }

  ghost predicate AllShared(s: Air, h: HashKey)
    requires h.DataHashKey?
  {
    forall x :: x in s.nodes ==> Shared(s.nodes[x], h)
  }

  lemma TalkShared(n: Node, m: Node, d0: Data, h: HashKey)
    requires h.DataHashKey? && Shared(n, h) && Said(n, m, d0) && Apart(n, d0, h)
    ensures Shared(m, h)
  {
    hide Shared, Apart, DataHash;
    ApartKeys(n, d0, h);
    SharedStays(n, m, h);
  }

  lemma StepShared(links: Links, s: Air, a: Act, t: Air, h: HashKey)
    requires h.DataHashKey? && AllShared(s, h) && Goes(links, s, a, t) && (Relaying(a) || Talks(a))
    requires Talks(a) && a.node in s.nodes ==> Apart(s.nodes[a.node], SaidBy(a), h)
    ensures AllShared(t, h)
  {
    hide React, Shared, Aired, Said, Apart;
    if Talks(a) {
      TalkNode(links, s, a, t);
      TalkShared(s.nodes[a.node], t.nodes[a.node], SaidBy(a), h);
    } else {
      ReactShared(s.nodes[Actor(a)], EventOf(s, a), h);
    }
  }

  /** In every season, whoever receives DATA hands it to everyone it is for. */
  lemma {:induction false} SeasonShared(links: Links, ss: seq<Air>, acts: seq<Act>, h: HashKey)
    requires Season(links, ss, acts) && h.DataHashKey? && AllShared(ss[0], h)
    requires forall i :: 0 <= i < |acts| && Talks(acts[i]) && acts[i].node in ss[i].nodes ==>
               Apart(ss[i].nodes[acts[i].node], SaidBy(acts[i]), h)
    ensures AllShared(ss[|acts|], h)
    decreases |acts|
  {
    hide Goes, AllShared, Apart, Talks;
    if acts != [] {
      SeasonPrefix(links, ss, acts);
      var last := |acts| - 1;
      SeasonShared(links, ss[..|acts|], acts[..last], h);
      StepShared(links, ss[last], acts[last], ss[|acts|], h);
    }
  }

  /** So in every round. */
  lemma RoundShared(links: Links, ss: seq<Air>, acts: seq<Act>, h: HashKey)
    requires Round(links, ss, acts) && h.DataHashKey? && AllShared(ss[0], h)
    ensures AllShared(ss[|acts|], h)
  {
    hide Goes, AllShared, Apart;
    SeasonShared(links, ss, acts, h);
  }
}
