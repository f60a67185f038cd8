/** One ADVERTISE and ACK round of one flow seen apart from everything else: who knows the
    advertisement and from whom, who still has to acknowledge it, and who is whose child.
    Whatever the order of events and coins, it builds a relay tree. */
module Tree {
  import opened Types
  import opened Air
  import opened Sums

  datatype World = World(links: Links, nodes: set<NodeId>, src: NodeId, members: set<NodeId>)

  /** The part of one node in the round; `hops` and `parent` count once it knows the advertisement. */
  datatype Part = Part(
    known: bool, hops: nat, parent: NodeId, spreads: Option<nat>, acks: Option<NodeId>,
    acked: bool, seen: bool, children: set<NodeId>, pulled: bool)

  datatype Note = Ad(hops: nat) | Ok(oblig: NodeId)

  datatype Tree = Tree(parts: map<NodeId, Part>, flight: map<Copy, Note>)

  ghost predicate Sensible(w: World) {
    && w.src in w.nodes && w.src in w.members
    && (forall x, y :: (x, y) in w.links ==> (y, x) in w.links)
  }

  predicate Linked(w: World, x: NodeId, y: NodeId) { Near(w.links, w.nodes, x, y) }

  /** A node that acknowledges: a group node, or a relay that passed an ACK on. */
  predicate Active(w: World, x: NodeId, p: Part) { p.known && (x in w.members || p.acked) }

  // ---- steps ---------------------------------------------------------------------------

  /** Hearing the advertisement from `f`: the first copy counts, a later one may be spread again. */
  predicate HearsAd(w: World, y: NodeId, p: Part, f: NodeId, hops: nat, r: Part) {
    if p.known then r == p.(spreads := r.spreads, seen := r.seen)
      && (r.spreads == p.spreads || r.spreads == Some(p.hops)) && (p.seen ==> r.seen)
    else
      && r.known && r.hops == hops + 1 && r.parent == f && (r.spreads == p.spreads || r.spreads == Some(hops + 1))
      && r.acks == (if y in w.members && p.acks.None? then Some(f) else p.acks)
      && r.acked == p.acked && (p.seen ==> r.seen) && r.children == p.children && (p.pulled ==> r.pulled)
  }

  /** Hearing an ACK from `f`; `heads` is the coin of a node that saw the advertisement. */
  predicate HearsOk(w: World, y: NodeId, p: Part, f: NodeId, oblig: NodeId, heads: bool, r: Part) {
    if y == w.src then r == p.(children := p.children + {f}, pulled := true)
    else if oblig == y || (heads && p.seen) then
      if y in w.members || p.acked then r == p.(children := p.children + {f})
      else r == p.(children := p.children + {f}, acked := true, acks := if p.acks.None? then Some(p.parent) else p.acks)
    else r == p
  }

  predicate Hears(w: World, y: NodeId, p: Part, f: NodeId, o: Note, heads: bool, r: Part) {
    match o case Ad(hops) => HearsAd(w, y, p, f, hops, r) case Ok(oblig) => HearsOk(w, y, p, f, oblig, heads, r)
  }

  ghost predicate Arrives(w: World, s: Tree, c: Copy, heads: bool, t: Tree) {
    && c in s.flight && c.to in s.parts && c.to in t.parts && t.flight == s.flight - {c}
    && t.parts == s.parts[c.to := t.parts[c.to]] && Hears(w, c.to, s.parts[c.to], c.from, s.flight[c], heads,
                                                          t.parts[c.to])
  }

  /** What the timer that sends `o` leaves behind. */
  ghost predicate Fired(p: Part, o: Note, r: Part) {
    || (o.Ad? && p.spreads == Some(o.hops) && r == p.(spreads := None))
    || (o.Ok? && p.acks == Some(o.oblig) && r == p.(acks := None))
  }

  ghost predicate Fires(w: World, s: Tree, x: NodeId, o: Note, t: Tree) {
    && x in s.parts && x in t.parts && t.parts == s.parts[x := t.parts[x]] && Fired(s.parts[x], o, t.parts[x])
    && Broadcasts(w.links, w.nodes, x, o, s.flight, t.flight)
  }

  ghost predicate Moves(w: World, s: Tree, t: Tree) {
    t == s || (exists c, heads :: Arrives(w, s, c, heads, t)) || (exists x, o :: Fires(w, s, x, o, t))
  }

  // ---- invariant -----------------------------------------------------------------------

  function Knowing(s: Tree): set<NodeId> { set x | x in s.parts && s.parts[x].known }

  /** A node that knows the advertisement has a neighbour for parent that knows it one hop nearer. */
  ghost predicate Rooted(w: World, s: Tree, x: NodeId, p: Part) {
    && (x == w.src ==> p.known && p.hops == 0 && p.acks.None?)
    && (x != w.src && p.known ==>
          Linked(w, p.parent, x) && p.parent in s.parts && s.parts[p.parent].known
            && p.hops == s.parts[p.parent].hops + 1)
    && (p.known ==> p.hops < |Knowing(s)|)
  }

  /** Nothing is remembered or waiting at a node that does not know the advertisement. */
  ghost predicate Clean(w: World, x: NodeId, p: Part) {
    && (!p.known ==> !p.acked && !p.seen && p.acks.None? && p.spreads.None?)
    && (p.spreads.Some? ==> p.spreads.value == p.hops)
    && (p.acks.Some? ==> Active(w, x, p) && p.acks.value == p.parent)
  }

  ghost predicate Truthful(w: World, s: Tree, c: Copy, o: Note) {
    && Linked(w, c.from, c.to) && c.from in s.parts
    && match o
       case Ad(hops) => s.parts[c.from].known && hops == s.parts[c.from].hops
       case Ok(oblig) => c.from != w.src && Active(w, c.from, s.parts[c.from]) && oblig == s.parts[c.from].parent
  }

  /** The parent of `x` has adopted it and is itself active, or is the source and was told. */
  ghost predicate Adopted(w: World, s: Tree, x: NodeId, p: Part) {
    p.parent in s.parts && x in s.parts[p.parent].children &&
    if p.parent == w.src then s.parts[p.parent].pulled else Active(w, p.parent, s.parts[p.parent])
  }

  ghost predicate Acknowledged(w: World, s: Tree, x: NodeId, p: Part) {
    p.acks.Some? || OnTheWay(s.flight, x, p.parent, Ok(p.parent)) || Adopted(w, s, x, p)
  }

  ghost predicate Fits(w: World, s: Tree, x: NodeId, p: Part) {
    Rooted(w, s, x, p) && Clean(w, x, p) && (x != w.src && Active(w, x, p) ==> Acknowledged(w, s, x, p))
  }

  ghost predicate TreeInv(w: World, s: Tree) {
    && Sensible(w) && s.parts.Keys == w.nodes
    && (forall x :: x in s.parts ==> Fits(w, s, x, s.parts[x]))
    && (forall c :: c in s.flight ==> Truthful(w, s, c, s.flight[c]))
  }

  /** Only active nodes and the source have children: true when no earlier round left any. */
  ghost predicate NoStrays(w: World, s: Tree) {
    forall x :: x in s.parts && x != w.src && s.parts[x].children != {} ==> Active(w, x, s.parts[x])
  }

  // ---- what one part may become --------------------------------------------------------

  /** Knowledge, place, activity, children and the notice to the source are never given up. */
  ghost predicate Evolves(w: World, x: NodeId, p: Part, r: Part) {
    && (p.known ==> r.known && r.hops == p.hops && r.parent == p.parent)
    && (Active(w, x, p) ==> Active(w, x, r)) && p.children <= r.children && (p.pulled ==> r.pulled)
  }

  lemma KnowingGrows(s: Tree, t: Tree, x: NodeId)
    requires x in s.parts && x in t.parts && t.parts == s.parts[x := t.parts[x]]
             && (s.parts[x].known ==> t.parts[x].known)
    ensures |Knowing(s)| <= |Knowing(t)|
    ensures !s.parts[x].known && t.parts[x].known ==> |Knowing(t)| == |Knowing(s)| + 1
  {
    if !s.parts[x].known && t.parts[x].known {
      assert Knowing(t) == Knowing(s) + {x};
    } else {
      assert Knowing(t) == Knowing(s);
    }
  }

  /** What holds of the other nodes goes on holding. */
  lemma OthersFit(w: World, s: Tree, t: Tree, x: NodeId, y: NodeId)
    requires x in s.parts && x in t.parts && t.parts == s.parts[x := t.parts[x]]
             && Evolves(w, x, s.parts[x], t.parts[x])
    requires y in s.parts && y != x && Fits(w, s, y, s.parts[y])
    requires OnTheWay(s.flight, y, s.parts[y].parent, Ok(s.parts[y].parent)) ==> Acknowledged(w, t, y, s.parts[y])
    ensures Fits(w, t, y, t.parts[y])
  {
    KnowingGrows(s, t, x);
    hide Knowing, OnTheWay;
  }

  lemma StillTruthful(w: World, s: Tree, t: Tree, x: NodeId, c: Copy, o: Note)
    requires x in s.parts && x in t.parts && t.parts == s.parts[x := t.parts[x]]
             && Evolves(w, x, s.parts[x], t.parts[x])
    requires Truthful(w, s, c, o)
    ensures Truthful(w, t, c, o)
  {
  }

  /** No hop count on the way to a newcomer is as large as the network; no stranger is named or drawn as a relay. */
  lemma NoteTimely(w: World, s: Tree, c: Copy)
    requires TreeInv(w, s) && c in s.flight
    ensures c.from in s.parts && c.to in s.parts && c.from != c.to
    ensures s.flight[c].Ad? && !s.parts[c.to].known ==> s.flight[c].hops + 1 < |w.nodes|
    ensures s.flight[c].Ok? && (s.flight[c].oblig == c.to || s.parts[c.to].seen) ==> s.parts[c.to].known
  {
    hide Acknowledged, Knowing;
    assert Truthful(w, s, c, s.flight[c]) && Fits(w, s, c.to, s.parts[c.to]) && Fits(w, s, c.from, s.parts[c.from]);
    if !s.parts[c.to].known {
      KnowingLess(w, s, c.to);
    }
  }

  lemma KnowingLess(w: World, s: Tree, x: NodeId)
    requires s.parts.Keys == w.nodes && x in s.parts && !s.parts[x].known
    ensures |Knowing(s)| < |w.nodes|
  {
    assert Knowing(s) <= w.nodes - {x};
    SubsetSize(Knowing(s), w.nodes - {x});
  }

  // ---- arrivals ------------------------------------------------------------------------

  lemma HearingEvolves(w: World, s: Tree, c: Copy, heads: bool, t: Tree)
    requires TreeInv(w, s) && Arrives(w, s, c, heads, t)
    ensures Evolves(w, c.to, s.parts[c.to], t.parts[c.to]) && Clean(w, c.to, t.parts[c.to])
  {
    assert Truthful(w, s, c, s.flight[c]) && Fits(w, s, c.to, s.parts[c.to]);
    assert s.flight[c].Ok? ==> Fits(w, s, c.from, s.parts[c.from]);
    hide Acknowledged, Knowing;
  }

  /** The hearer of an advertisement finds its place below the sender. */
  lemma HearerRooted(w: World, s: Tree, c: Copy, heads: bool, t: Tree)
    requires TreeInv(w, s) && Arrives(w, s, c, heads, t)
    ensures Rooted(w, t, c.to, t.parts[c.to])
  {
    HearingEvolves(w, s, c, heads, t);
    KnowingGrows(s, t, c.to);
    assert Truthful(w, s, c, s.flight[c]) && Fits(w, s, c.to, s.parts[c.to]);
    assert s.flight[c].Ad? ==> Fits(w, s, c.from, s.parts[c.from]);
    hide Acknowledged, Knowing, Clean;
  }

  lemma HearerAcknowledged(w: World, s: Tree, c: Copy, heads: bool, t: Tree)
    requires TreeInv(w, s) && Arrives(w, s, c, heads, t) && c.to != w.src && Active(w, c.to, t.parts[c.to])
    ensures Acknowledged(w, t, c.to, t.parts[c.to])
  {
    assert Truthful(w, s, c, s.flight[c]) && Fits(w, s, c.to, s.parts[c.to]);
    hide Knowing;
    var y, p, r := c.to, s.parts[c.to], t.parts[c.to];
    if Active(w, y, p) && p.acks.None? && OnTheWay(s.flight, y, p.parent, Ok(p.parent)) {
      var d :| d in s.flight && d.from == y && d.to == p.parent && s.flight[d] == Ok(p.parent);
      assert d in t.flight;
    }
  }

  /** A delivered ACK makes the parent it names adopt the sender. */
  lemma OkAdopts(w: World, s: Tree, c: Copy, heads: bool, t: Tree, y: NodeId)
    requires TreeInv(w, s) && Arrives(w, s, c, heads, t) && y in s.parts && y != c.to && y != w.src
             && Active(w, y, s.parts[y])
    requires OnTheWay(s.flight, y, s.parts[y].parent, Ok(s.parts[y].parent))
    ensures Acknowledged(w, t, y, s.parts[y])
  {
    var p := s.parts[y];
    var d :| d in s.flight && d.from == y && d.to == p.parent && s.flight[d] == Ok(p.parent);
    if d == c {
      HearingEvolves(w, s, c, heads, t);
      assert Fits(w, s, y, p) && Fits(w, s, c.to, s.parts[c.to]);
      hide Knowing;
      assert y in t.parts[p.parent].children;
    } else {
      assert d in t.flight;
    }
  }

  lemma ArriveInv(w: World, s: Tree, c: Copy, heads: bool, t: Tree)
    requires TreeInv(w, s) && Arrives(w, s, c, heads, t)
    ensures TreeInv(w, t)
  {
    hide Rooted, Clean, Acknowledged, OnTheWay, Evolves, Hears, Active, Truthful;
    HearingEvolves(w, s, c, heads, t);
    HearerRooted(w, s, c, heads, t);
    forall y | y in t.parts ensures Fits(w, t, y, t.parts[y]) {
      if y == c.to {
        if y != w.src && Active(w, y, t.parts[y]) { HearerAcknowledged(w, s, c, heads, t); }
      } else {
        assert Fits(w, s, y, s.parts[y]);
        if OnTheWay(s.flight, y, s.parts[y].parent, Ok(s.parts[y].parent)) {
          SenderActive(w, s, y);
          OkAdopts(w, s, c, heads, t, y);
        }
        OthersFit(w, s, t, c.to, y);
      }
    }
    forall d | d in t.flight ensures Truthful(w, t, d, t.flight[d]) {
      StillTruthful(w, s, t, c.to, d, s.flight[d]);
    }
  }

  lemma SenderActive(w: World, s: Tree, y: NodeId)
    requires TreeInv(w, s) && y in s.parts && OnTheWay(s.flight, y, s.parts[y].parent, Ok(s.parts[y].parent))
    ensures y != w.src && Active(w, y, s.parts[y])
  {
  }

  // ---- timers --------------------------------------------------------------------------

  lemma FirerFits(w: World, s: Tree, x: NodeId, o: Note, t: Tree)
    requires TreeInv(w, s) && Fires(w, s, x, o, t)
    ensures Evolves(w, x, s.parts[x], t.parts[x]) && Fits(w, t, x, t.parts[x])
  {
    assert Fits(w, s, x, s.parts[x]);
    KnowingGrows(s, t, x);
    hide Knowing;
    if OnTheWay(s.flight, x, s.parts[x].parent, Ok(s.parts[x].parent)) {
      StillOnTheWay(w, s, x, o, t, x);
    }
  }

  lemma StillOnTheWay(w: World, s: Tree, x: NodeId, o: Note, t: Tree, y: NodeId)
    requires Fires(w, s, x, o, t) && y in s.parts && OnTheWay(s.flight, y, s.parts[y].parent, Ok(s.parts[y].parent))
    ensures OnTheWay(t.flight, y, s.parts[y].parent, Ok(s.parts[y].parent))
  {
  }

  lemma FreshTruthful(w: World, s: Tree, x: NodeId, o: Note, t: Tree, d: Copy)
    requires TreeInv(w, s) && Fires(w, s, x, o, t) && d in t.flight && d !in s.flight
    ensures Truthful(w, t, d, t.flight[d])
  {
    assert Fits(w, s, x, s.parts[x]);
    hide Knowing, Acknowledged;
  }

  lemma FireInv(w: World, s: Tree, x: NodeId, o: Note, t: Tree)
    requires TreeInv(w, s) && Fires(w, s, x, o, t)
    ensures TreeInv(w, t)
  {
    hide Rooted, Clean, OnTheWay, Evolves, Active, Truthful, Fired;
    FirerFits(w, s, x, o, t);
    forall y | y in t.parts ensures Fits(w, t, y, t.parts[y]) {
      if y != x {
        assert Fits(w, s, y, s.parts[y]);
        if OnTheWay(s.flight, y, s.parts[y].parent, Ok(s.parts[y].parent)) {
          StillOnTheWay(w, s, x, o, t, y);
        }
        OthersFit(w, s, t, x, y);
      }
    }
    forall d | d in t.flight ensures Truthful(w, t, d, t.flight[d]) {
      if d in s.flight { StillTruthful(w, s, t, x, d, s.flight[d]); } else { FreshTruthful(w, s, x, o, t, d); }
    }
  }

  lemma MovesInv(w: World, s: Tree, t: Tree)
    requires TreeInv(w, s) && Moves(w, s, t)
    ensures TreeInv(w, t) && (NoStrays(w, s) ==> NoStrays(w, t))
  {
    hide TreeInv, Arrives, Fires, NoStrays;
    if c, heads :| Arrives(w, s, c, heads, t) {
      ArriveInv(w, s, c, heads, t);
      ArriveNoStrays(w, s, c, heads, t);
    } else if x, o :| Fires(w, s, x, o, t) {
      FireInv(w, s, x, o, t);
      FireNoStrays(w, s, x, o, t);
    }
  }

  lemma ArriveNoStrays(w: World, s: Tree, c: Copy, heads: bool, t: Tree)
    requires TreeInv(w, s) && Arrives(w, s, c, heads, t)
    ensures NoStrays(w, s) ==> NoStrays(w, t)
  {
    HearingEvolves(w, s, c, heads, t);
    assert Truthful(w, s, c, s.flight[c]) && Fits(w, s, c.to, s.parts[c.to]);
    assert s.flight[c].Ok? ==> Fits(w, s, c.from, s.parts[c.from]);
    hide Knowing, Acknowledged;
  }

  lemma FireNoStrays(w: World, s: Tree, x: NodeId, o: Note, t: Tree)
    requires Fires(w, s, x, o, t)
    ensures NoStrays(w, s) ==> NoStrays(w, t)
  {
  }

  // ---- start and outcome ---------------------------------------------------------------

  /** The source has just sent its advertisement and nobody else knows of it. */
  ghost predicate Announced(w: World, s: Tree) {
    && Sensible(w) && s.parts.Keys == w.nodes
    && (forall x :: x in s.parts ==> (s.parts[x].known <==> x == w.src) && Clean(w, x, s.parts[x]))
    && s.parts[w.src].hops == 0 && s.parts[w.src].acks.None?
    && forall c :: c in s.flight ==> c.from == w.src && Linked(w, c.from, c.to) && s.flight[c] == Ad(0)
  }

  lemma AnnouncedInv(w: World, s: Tree)
    requires Announced(w, s)
    ensures TreeInv(w, s)
  {
    assert Knowing(s) == {w.src};
  }

  /** Nothing waits and nothing is on the way. */
  predicate Over(s: Tree) {
    s.flight == map[] && forall x :: x in s.parts ==> s.parts[x].spreads.None? && s.parts[x].acks.None?
  }

  /** `x` is joined to the source by parents each of which has adopted the one before. */
  ghost predicate Joined(w: World, s: Tree, x: NodeId, hops: nat)
    decreases hops
  {
    x in s.parts && s.parts[x].hops == hops &&
    if hops == 0 then x == w.src
    else
      var p := s.parts[x].parent;
      && Linked(w, p, x) && p in s.parts && x in s.parts[p].children
      && (p == w.src ==> s.parts[p].pulled) && (p != w.src ==> Active(w, p, s.parts[p])) && Joined(w, s, p, hops - 1)
  }

  /** Whoever knows the advertisement is the source, at depth zero, or has a parent that knows it one hop nearer. */
  lemma KnownPlace(w: World, s: Tree, x: NodeId)
    requires TreeInv(w, s) && x in s.parts && s.parts[x].known
    ensures s.parts[x].hops == 0 <==> x == w.src
    ensures x != w.src ==> var p := s.parts[x].parent;
            Linked(w, p, x) && p in s.parts && s.parts[p].known && s.parts[x].hops == s.parts[p].hops + 1
  {
    hide Knowing, Acknowledged;
    assert Fits(w, s, x, s.parts[x]);
  }

  lemma JoinedKnows(w: World, s: Tree, x: NodeId, hops: nat)
    requires TreeInv(w, s) && Joined(w, s, x, hops) && (x == w.src || Active(w, x, s.parts[x]))
    ensures s.parts[x].known && w.src in s.parts && s.parts[w.src].hops == 0
  {
    hide Knowing, Acknowledged;
    assert Fits(w, s, x, s.parts[x]) && Fits(w, s, w.src, s.parts[w.src]);
  }

  /** When the round is over every active node is joined to the source, over as many links as the
      hop count it stored. */
  lemma {:induction false} TreeBuilt(w: World, s: Tree, x: NodeId)
    requires TreeInv(w, s) && Over(s) && x in s.parts && (x == w.src || Active(w, x, s.parts[x]))
    ensures Joined(w, s, x, s.parts[x].hops)
    decreases s.parts[x].hops
  {
    hide Knowing;
    assert Fits(w, s, x, s.parts[x]);
    if x != w.src {
      TreeBuilt(w, s, s.parts[x].parent);
    }
  }
}
