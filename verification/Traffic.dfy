/** Seasons: rounds during which clients go on sending DATA. */
module Traffic {
  import opened Types
  import opened NodeSpec
  import opened Network
  import opened Origin
  import opened Air

  predicate Talks(a: Act) { a.Occurs? && a.event.FromClient? && a.event.cmd.ClientData? }

  function SaidBy(a: Act): Data
    requires Talks(a)
  {
    a.event.cmd.data
  }

  /** No client DATA of that flow. */
  predicate Spares(a: Act, k: FlowKey) { Talks(a) ==> FlowKey(SaidBy(a).gid, a.node) != k }

  /** Deliveries, timers and client DATA in any order. */
  ghost predicate Season(links: Links, ss: seq<Air>, acts: seq<Act>) {
    && |ss| == |acts| + 1
    && forall i :: 0 <= i < |acts| ==> Goes(links, ss[i], acts[i], ss[i + 1]) && (Relaying(acts[i]) || Talks(acts[i]))
  }

  lemma SeasonPrefix(links: Links, ss: seq<Air>, acts: seq<Act>)
    requires Season(links, ss, acts) && |acts| > 0
    ensures Season(links, ss[..|acts|], acts[..|acts| - 1])
    ensures Goes(links, ss[|acts| - 1], acts[|acts| - 1], ss[|acts|])
    ensures Relaying(acts[|acts| - 1]) || Talks(acts[|acts| - 1])
  {
    hide Goes;
  }

  lemma SeasonPart(links: Links, ss: seq<Air>, acts: seq<Act>, i: nat, j: nat)
    requires Season(links, ss, acts) && i <= j <= |acts|
    ensures Season(links, ss[i..j + 1], acts[i..j]) && ss[i..j + 1][0] == ss[i] && ss[i..j + 1][j - i] == ss[j]
  {
    hide Goes;
  }

  /** Nothing waiting or on the way carries the key. */
  ghost predicate Gone(s: Air, h: HashKey) { forall m :: m in Afoot(s) ==> KeyOf(m) != Some(h) }

  lemma QuietGone(s: Air, h: HashKey)
    requires Quiescent(s)
    ensures Gone(s, h)
  {
  }

  // ---- client DATA ---------------------------------------------------------------------

  /** The message goes by the name of the DATA. */
  predicate Utters(o: OtaMsg, d: Data) {
    o.OtaData? && o.data.srcnode == d.srcnode && o.data.gid == d.gid && o.data.sequence == d.sequence
  }

  /** What client DATA leaves alone at its node, what it adds and what it sends. */
  ghost predicate Said(n: Node, m: Node, d0: Data) {
    var d := Stamped(n, d0);
    && m == n.(hash := m.hash, hashTime := m.hashTime, dist := m.dist, written := m.written, seqByGid := m.seqByGid,
               sent := m.sent)
    && m.hash.Keys == n.hash.Keys + {DataHash(d)} && (forall h :: h in n.hash ==> m.hash[h] == n.hash[h])
    && (forall k :: k != DataFlow(d) ==> (k in m.dist <==> k in n.dist) && (k in n.dist ==> m.dist[k] == n.dist[k]))
    && m.seqByGid == n.seqByGid[d0.gid := d.sequence] && n.written <= m.written
    && n.sent <= m.sent && |m.sent| <= |n.sent| + 1 && (|m.sent| > |n.sent| ==> Utters(m.sent[|n.sent|], d))
  }

  lemma ClientTalk(n: Node, s: Session, d0: Data, now: int)
    requires OnClientData(n, s, d0, now).Running?
    ensures Said(n, OnClientData(n, s, d0, now).node, d0)
  {
    hide HashedAt, DataDistance, Handed, NextSeq, DataHash, AnyRemote;
  }

  lemma TalkNode(links: Links, s: Air, a: Act, t: Air)
    requires Goes(links, s, a, t) && Talks(a)
    ensures s.nodes.Keys == t.nodes.Keys && a.node in s.nodes && t.nodes == s.nodes[a.node := t.nodes[a.node]]
    ensures Said(s.nodes[a.node], t.nodes[a.node], SaidBy(a))
    ensures t.flight == s.flight + Aired(links, s.nodes, a.node, s.nodes[a.node], t.nodes[a.node])
  {
    hide OnClientData, Said, Aired;
    ClientTalk(s.nodes[a.node], a.event.session, SaidBy(a), a.event.now);
  }

  lemma SaidLog(n: Node, m: Node, d0: Data)
    requires Said(n, m, d0)
    ensures m.id == n.id && n.sent <= m.sent && |m.sent| <= |n.sent| + 1
    ensures |m.sent| > |n.sent| ==> Utters(m.sent[|n.sent|], Stamped(n, d0))
  {
    hide Utters, Stamped, DataHash;
  }

  /** What a longer log does to the air. */
  lemma LogGrows(links: Links, s: Air, x: NodeId, t: Air)
    requires WellFormed(links, s) && x in s.nodes && x in t.nodes && t.nodes == s.nodes[x := t.nodes[x]]
    requires t.nodes[x].id == s.nodes[x].id && s.nodes[x].sent <= t.nodes[x].sent
    requires t.flight == s.flight + Aired(links, s.nodes, x, s.nodes[x], t.nodes[x])
    ensures WellFormed(links, t)
    ensures forall c :: c in s.flight ==> OnAir(links, t.nodes, c) && MsgOf(t.nodes, c) == MsgOf(s.nodes, c)
    ensures forall c :: c in t.flight && c !in s.flight ==>
              OnAir(links, t.nodes, c) && c.from == x && c.index == |s.nodes[x].sent|
  {
  }

  /** What client DATA does to the network. */
  lemma TalkAir(links: Links, s: Air, a: Act, t: Air)
    requires WellFormed(links, s) && Goes(links, s, a, t) && Talks(a)
    ensures WellFormed(links, t) && s.nodes.Keys == t.nodes.Keys && a.node in s.nodes
            && t.nodes == s.nodes[a.node := t.nodes[a.node]]
    ensures Said(s.nodes[a.node], t.nodes[a.node], SaidBy(a)) && s.flight <= t.flight
    ensures forall c :: c in s.flight ==> OnAir(links, t.nodes, c) && MsgOf(t.nodes, c) == MsgOf(s.nodes, c)
    ensures forall c :: c in t.flight && c !in s.flight ==>
              OnAir(links, t.nodes, c) && Utters(MsgOf(t.nodes, c), Stamped(s.nodes[a.node], SaidBy(a)))
  {
    hide Goes, Utters, Stamped, Said, WellFormed, Aired;
    TalkNode(links, s, a, t);
    SaidLog(s.nodes[a.node], t.nodes[a.node], SaidBy(a));
    LogGrows(links, s, a.node, t);
  }

  lemma TalkAfoot(links: Links, s: Air, a: Act, t: Air, o: OtaMsg)
    requires WellFormed(links, s) && Goes(links, s, a, t) && Talks(a) && o in Afoot(t)
    ensures a.node in s.nodes && (o in Afoot(s) || Utters(o, Stamped(s.nodes[a.node], SaidBy(a))))
  {
    TalkAir(links, s, a, t);
    assert NodeMsgs(t.nodes[a.node]) == NodeMsgs(s.nodes[a.node]);
    hide Goes, Utters, Stamped, DataHash, NodeMsgs, Said, OnAir, WellFormed;
    if y :| y in t.nodes && o in NodeMsgs(t.nodes[y]) {
      assert y in s.nodes && o in NodeMsgs(s.nodes[y]);
    } else {
      var c :| c in t.flight && c.from in t.nodes && c.index < |t.nodes[c.from].sent| && MsgOf(t.nodes, c) == o;
      assert c in s.flight ==> o == MsgOf(s.nodes, c);
    }
  }

  /** An observer who takes no notice of the message sees no change. */
  lemma TalkSeen<V>(links: Links, s: Air, a: Act, t: Air, see: OtaMsg -> Option<V>)
    requires WellFormed(links, s) && Goes(links, s, a, t) && Talks(a) && a.node in s.nodes
    requires forall o :: Utters(o, Stamped(s.nodes[a.node], SaidBy(a))) ==> see(o) == None
    ensures Seen(t, see) == Seen(s, see)
  {
    TalkAir(links, s, a, t);
    hide Goes, Utters, Stamped, Said;
    forall c | c in t.flight ensures Sight(t, c, see) == if c in s.flight then Sight(s, c, see) else None {}
    hide Sight;
    assert forall c :: c in Seen(t, see) <==> c in Seen(s, see);
  }

  /** Client DATA that goes by another name than `h`. */
  predicate Apart(n: Node, d0: Data, h: HashKey) {
    FlowKey(d0.gid, n.id) == FlowOf(h) ==> NextSeq(n, d0.gid) != SeqNo(h)
  }

  lemma ApartKeys(n: Node, d0: Data, h: HashKey)
    requires Apart(n, d0, h)
    ensures DataHash(Stamped(n, d0)) != h && forall o :: Utters(o, Stamped(n, d0)) ==> KeyOf(o) != Some(h)
  {
    hide NextSeq;
    DataKeyKind(Stamped(n, d0));
    forall o | Utters(o, Stamped(n, d0)) ensures KeyOf(o) != Some(h) {
      DataKeyKind(o.data);
    }
  }
}
