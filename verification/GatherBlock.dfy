/** When unicast may get lost: exactly when some relays can pass the message on among themselves so
    that every other relay hears it in vain, and the destination not at all. */
module GatherBlock {
  import opened Types
  import opened Air
  import opened Gather

  /** `y` gets a copy with offer `o` from the origin or from one of `fs`, which tells who passes the
      message on and with which TTL. */
  ghost predicate Offers(w: World, first: Offer, fs: map<NodeId, u32>, y: NodeId, o: Offer) {
    || (Linked(w, w.origin, y) && o == first)
    || exists x :: x in fs && Linked(w, x, y) && o.relay + 1 == Level(w, x) && o.ttl == fs[x]
  }

  /** A node that does not have the message yet. */
  predicate Open(w: World, had: set<NodeId>, y: NodeId) { y in w.level && y != w.dest && y !in had }

  ghost predicate HearsEnough(w: World, first: Offer, fs: map<NodeId, u32>, y: NodeId, ttl: u32) {
    exists o :: Offers(w, first, fs, y, o) && PassesOn(w, y, o) && Sent(Taken(w, y, o)).ttl == ttl
  }

  ghost predicate HearsInVain(w: World, first: Offer, fs: map<NodeId, u32>, y: NodeId) {
    exists o :: Offers(w, first, fs, y, o) && !PassesOn(w, y, o)
  }

  /** The nodes of `fs` pass the message on; every other node next to a sender may first hear a copy
      that it does not pass on; and no sender is next to the destination. */
  ghost predicate Blocks(w: World, first: Offer, had: set<NodeId>, fs: map<NodeId, u32>) {
    && (forall y :: y in fs ==> Open(w, had, y) && HearsEnough(w, first, fs, y, fs[y]))
    && (forall y, o :: y !in fs && Open(w, had, y) && Offers(w, first, fs, y, o) ==> HearsInVain(w, first, fs, y))
    && (forall o :: !Offers(w, first, fs, w.dest, o))
  }

  // ---- a lost message leaves such a set ------------------------------------------------

  /** What a forwarder sends. */
  ghost predicate Passed(w: World, s: Gather, x: NodeId, o: Offer) {
    x in s.forwarded && o.relay + 1 == Level(w, x) && o.ttl == s.forwarded[x]
  }

  /** The copy is an offer of a sender. */
  ghost predicate Offered(w: World, first: Offer, s: Gather, c: Copy) {
    && c in s.flight && Linked(w, c.from, c.to)
    && ((c.from == w.origin && s.flight[c] == first) || Passed(w, s, c.from, s.flight[c]))
  }

  /** Every offer made has been heard or is on the way. */
  ghost predicate Pending(w: World, first: Offer, s: Gather, y: NodeId) {
    && (Linked(w, w.origin, y) ==> OnTheWay<Offer>(s.flight, w.origin, y, first))
    && (forall x, o :: Passed(w, s, x, o) && Linked(w, x, y) ==> OnTheWay<Offer>(s.flight, x, y, o))
  }

  /** What the account says of one node. */
  ghost predicate Explained(w: World, first: Offer, had: set<NodeId>, s: Gather, y: NodeId) {
    && (y in s.waiting ==>
          && s.waiting[y].relay + 1 == Level(w, y) && y in s.has && y !in s.forwarded && Open(w, had, y)
          && HearsEnough(w, first, s.forwarded, y, Sent(s.waiting[y]).ttl))
    && (y in s.forwarded ==> y in s.has && Open(w, had, y) && HearsEnough(w, first, s.forwarded, y, s.forwarded[y]))
    && (y in s.has && Open(w, had, y) && y !in s.forwarded && y !in s.waiting ==> HearsInVain(w, first, s.forwarded, y))
  }

  ghost predicate Accounts(w: World, first: Offer, had: set<NodeId>, s: Gather) {
    && had <= s.has
    && (forall c :: c in s.flight ==> Offered(w, first, s, c))
    && (forall y :: Explained(w, first, had, s, y))
    && (forall y :: y in w.level && y !in s.has ==> Pending(w, first, s, y))
  }

  lemma DepartedAccounts(w: World, s: Gather, first: Offer)
    requires Departed(w, s, first)
    ensures Accounts(w, first, s.has, s)
  {
  }

  lemma ArrivePending(w: World, first: Offer, s: Gather, c: Copy, t: Gather, y: NodeId)
    requires Arrives(w, s, c, t) && Pending(w, first, s, y) && y !in t.has
    ensures Pending(w, first, t, y)
  {
    hide PassesOn;
    forall x, o | OnTheWay<Offer>(s.flight, x, y, o) ensures OnTheWay<Offer>(t.flight, x, y, o) {
      var d :| d in s.flight && d.from == x && d.to == y && s.flight[d] == o;
      assert d in t.flight;
    }
    forall x, o | Passed(w, t, x, o) && Linked(w, x, y) ensures OnTheWay<Offer>(t.flight, x, y, o) {
      assert Passed(w, s, x, o);
    }
  }

  lemma ArriveOffered(w: World, first: Offer, s: Gather, c: Copy, t: Gather, d: Copy)
    requires Arrives(w, s, c, t) && Offered(w, first, s, d) && d in t.flight
    ensures Offered(w, first, t, d)
  {
    hide PassesOn;
  }

  lemma ArriveExplained(w: World, first: Offer, had: set<NodeId>, s: Gather, c: Copy, t: Gather, y: NodeId)
    requires Explained(w, first, had, s, y) && Arrives(w, s, c, t) && Offered(w, first, s, c) && had <= s.has
    ensures Explained(w, first, had, t, y)
  {
    if y == c.to {
      assert Offers(w, first, s.forwarded, c.to, s.flight[c]);
    }
    hide Offers;
  }

  lemma ArriveAccounts(w: World, first: Offer, had: set<NodeId>, s: Gather, c: Copy, t: Gather)
    requires Accounts(w, first, had, s) && Arrives(w, s, c, t)
    ensures Accounts(w, first, had, t)
  {
    hide Pending, Offered, HearsEnough, HearsInVain, Level, Open, PassesOn, Explained;
    forall d | d in t.flight ensures Offered(w, first, t, d) { ArriveOffered(w, first, s, c, t, d); }
    forall y | y in w.level && y !in t.has ensures Pending(w, first, t, y) { ArrivePending(w, first, s, c, t, y); }
    forall y ensures Explained(w, first, had, t, y) {
      assert Explained(w, first, had, s, y);
      ArriveExplained(w, first, had, s, c, t, y);
    }
  }

  lemma MoreOffers(w: World, first: Offer, fs: map<NodeId, u32>, gs: map<NodeId, u32>, y: NodeId)
    requires forall x :: x in fs ==> x in gs && gs[x] == fs[x]
    ensures forall ttl :: HearsEnough(w, first, fs, y, ttl) ==> HearsEnough(w, first, gs, y, ttl)
    ensures HearsInVain(w, first, fs, y) ==> HearsInVain(w, first, gs, y)
  {
    forall o | Offers(w, first, fs, y, o) ensures Offers(w, first, gs, y, o) {}
    hide Offers, PassesOn;
  }

  lemma FireExplained(w: World, first: Offer, had: set<NodeId>, s: Gather, x: NodeId, t: Gather, y: NodeId)
    requires Explained(w, first, had, s, y) && Fires(w, s, x, t) && x !in s.forwarded
    ensures Explained(w, first, had, t, y)
  {
    hide Offers, HearsEnough, HearsInVain, Open, Broadcasts;
    MoreOffers(w, first, s.forwarded, t.forwarded, y);
  }

  lemma FireOffered(w: World, first: Offer, s: Gather, x: NodeId, t: Gather, d: Copy)
    requires Fires(w, s, x, t) && x !in s.forwarded && s.waiting[x].relay + 1 == Level(w, x)
    requires d in t.flight && (d in s.flight ==> Offered(w, first, s, d))
    ensures Offered(w, first, t, d)
  {
  }

  lemma FirePending(w: World, first: Offer, s: Gather, x: NodeId, t: Gather, y: NodeId)
    requires Fires(w, s, x, t) && x !in s.forwarded && s.waiting[x].relay + 1 == Level(w, x) && Pending(w, first, s, y)
    ensures Pending(w, first, t, y)
  {
    forall z, o | OnTheWay<Offer>(s.flight, z, y, o) ensures OnTheWay<Offer>(t.flight, z, y, o) {
      var d :| d in s.flight && d.from == z && d.to == y && s.flight[d] == o;
      assert d in t.flight;
    }
    forall z, o | Passed(w, t, z, o) && Linked(w, z, y) ensures OnTheWay<Offer>(t.flight, z, y, o) {
      if z == x {
        assert o == Sent(s.waiting[x]);
      } else {
        assert Passed(w, s, z, o);
      }
    }
  }

  lemma FireAccounts(w: World, first: Offer, had: set<NodeId>, s: Gather, x: NodeId, t: Gather)
    requires Accounts(w, first, had, s) && Fires(w, s, x, t)
    ensures Accounts(w, first, had, t)
  {
    hide Pending, Offered, HearsEnough, HearsInVain, Level, Open;
    assert Explained(w, first, had, s, x);
    forall d | d in t.flight ensures Offered(w, first, t, d) { FireOffered(w, first, s, x, t, d); }
    forall y | y in w.level && y !in t.has ensures Pending(w, first, t, y) { FirePending(w, first, s, x, t, y); }
    forall y ensures Explained(w, first, had, t, y) {
      assert Explained(w, first, had, s, y);
      FireExplained(w, first, had, s, x, t, y);
    }
  }

  lemma MovesAccounts(w: World, first: Offer, had: set<NodeId>, s: Gather, t: Gather)
    requires Accounts(w, first, had, s) && Moves(w, s, t)
    ensures Accounts(w, first, had, t)
  {
    hide Accounts;
    if c :| Arrives(w, s, c, t) {
      ArriveAccounts(w, first, had, s, c, t);
    } else if x :| Fires(w, s, x, t) {
      FireAccounts(w, first, had, s, x, t);
    }
  }

  /** If the message has died out without reaching the destination, the relays that passed it on block it. */
  lemma LostBlocks(w: World, first: Offer, had: set<NodeId>, s: Gather)
    requires Accounts(w, first, had, s) && Over(s) && w.dest !in s.has && w.dest in w.level
    ensures Blocks(w, first, had, s.forwarded)
  {
    hide HearsEnough, HearsInVain, Pending, Offered, Offers;
    forall y, o | y in w.level && Offers(w, first, s.forwarded, y, o) ensures y in s.has {
      OfferHeard(w, first, s, y, o);
    }
    forall y | y in s.forwarded ensures Open(w, had, y) && HearsEnough(w, first, s.forwarded, y, s.forwarded[y]) {
      assert Explained(w, first, had, s, y);
    }
    forall y, o | y !in s.forwarded && Open(w, had, y) && Offers(w, first, s.forwarded, y, o)
      ensures HearsInVain(w, first, s.forwarded, y)
    {
      assert Explained(w, first, had, s, y);
    }
  }

  /** With nothing on the way every offer has been heard. */
  lemma OfferHeard(w: World, first: Offer, s: Gather, y: NodeId, o: Offer)
    requires Over(s) && Offers(w, first, s.forwarded, y, o) && (y !in s.has ==> Pending(w, first, s, y))
    ensures y in s.has
  {
    if y !in s.has {
      Nowhere(s, w.origin, y, first);
      if x :| x in s.forwarded && Linked(w, x, y) && o.relay + 1 == Level(w, x) && o.ttl == s.forwarded[x] {
        assert Passed(w, s, x, o);
        Nowhere(s, x, y, o);
      }
    }
  }

  lemma Nowhere(s: Gather, x: NodeId, y: NodeId, o: Offer)
    requires Over(s)
    ensures !OnTheWay<Offer>(s.flight, x, y, o)
  {
  }

  // ---- downhill nothing is in the way --------------------------------------------------

  lemma {:induction false} Farthest(w: World, ys: set<NodeId>) returns (y: NodeId)
    requires ys != {}
    ensures y in ys && forall z :: z in ys ==> Level(w, z) <= Level(w, y)
    decreases |ys|
  {
    y :| y in ys;
    if ys != {y} {
      var z := Farthest(w, ys - {y});
      if Level(w, z) > Level(w, y) {
        y := z;
      }
    }
  }

  lemma {:induction false} Nearest(w: World, ys: set<NodeId>) returns (y: NodeId)
    requires ys != {}
    ensures y in ys && forall z :: z in ys ==> Level(w, y) <= Level(w, z)
    decreases |ys|
  {
    y :| y in ys;
    if ys != {y} {
      var z := Nearest(w, ys - {y});
      if Level(w, z) < Level(w, y) {
        y := z;
      }
    }
  }

  /** Whoever passes the message on in a blocking set is a node that may have to. */
  lemma {:induction false} MemberSends(w: World, first: Offer, had: set<NodeId>, fs: map<NodeId, u32>, y: NodeId,
                                       top: nat)
    requires Blocks(w, first, had, fs) && y in fs && forall z :: z in fs ==> Level(w, z) <= top
    ensures Level(w, y) > 0 && MaySend(w, first, y, Offer(Level(w, y) - 1, fs[y]))
    decreases top - Level(w, y)
  {
    var o :| Offers(w, first, fs, y, o) && PassesOn(w, y, o) && Sent(Taken(w, y, o)).ttl == fs[y];
    if Linked(w, w.origin, y) && o == first {
      OriginSends(w, first);
      NextSends(w, first, w.origin, o, y);
    } else {
      var x :| x in fs && Linked(w, x, y) && o.relay + 1 == Level(w, x) && o.ttl == fs[x];
      MemberSends(w, first, had, fs, x, top);
      assert o == Offer(Level(w, x) - 1, fs[x]);
      NextSends(w, first, x, o, y);
    }
  }

  /** Every offer is that of a node that may have to send, and at least that node's distance less one. */
  lemma OfferSent(w: World, first: Offer, had: set<NodeId>, fs: map<NodeId, u32>, y: NodeId,
                  o: Offer) returns (x: NodeId)
    requires Blocks(w, first, had, fs) && Offers(w, first, fs, y, o) && Level(w, w.origin) <= first.relay + 1
    ensures MaySend(w, first, x, o) && Linked(w, x, y) && Level(w, x) <= o.relay + 1
    ensures x == w.origin || x in fs
  {
    if Linked(w, w.origin, y) && o == first {
      OriginSends(w, first);
      x := w.origin;
    } else {
      x :| x in fs && Linked(w, x, y) && o.relay + 1 == Level(w, x) && o.ttl == fs[x];
      var top := Farthest(w, fs.Keys);
      MemberSends(w, first, had, fs, x, Level(w, top));
      assert o == Offer(Level(w, x) - 1, fs[x]);
    }
  }

  /** The nearest sender would have someone nearer to turn to. */
  lemma NoneBlocks(w: World, first: Offer, had: set<NodeId>, fs: map<NodeId, u32>)
    requires Downhill(w, first) && Level(w, w.origin) <= first.relay + 1 && had <= {w.origin}
    ensures !Blocks(w, first, had, fs)
  {
    if Blocks(w, first, had, fs) {
      var x := Nearest(w, fs.Keys + {w.origin});
      var o := if x in fs then Offer(if Level(w, x) > 0 then Level(w, x) - 1 else 0, fs[x]) else first;
      assert MaySend(w, first, x, o) && Level(w, x) <= o.relay + 1 && (x == w.origin || Level(w, x) == o.relay + 1) by {
        if x in fs {
          var top := Farthest(w, fs.Keys);
          MemberSends(w, first, had, fs, x, Level(w, top));
        } else {
          OriginSends(w, first);
        }
      }
      var z := TurnsTo(w, first, had, fs, x, o);
    }
  }

  /** Next to a sender of a blocking set is a nearer one, or a node that a nearer one made hear it in vain. */
  lemma TurnsTo(w: World, first: Offer, had: set<NodeId>, fs: map<NodeId, u32>, x: NodeId, o: Offer) returns (z: NodeId)
    requires Downhill(w, first) && Level(w, w.origin) <= first.relay + 1 && had <= {w.origin}
             && Blocks(w, first, had, fs)
    requires MaySend(w, first, x, o) && Level(w, x) <= o.relay + 1 && (x in fs || (x == w.origin && o == first))
    requires x in fs ==> o.relay + 1 == Level(w, x) && o.ttl == fs[x]
    ensures (z in fs || z == w.origin) && Level(w, z) < Level(w, x)
  {
    hide Offers, MaySend, Linked, PassesOn, Level, Downhill, Lasts, Blocks;
    z := NearerNext(w, first, x, o);
    assert Offers(w, first, fs, z, o) by { SenderOffers(w, first, fs, x, o, z); }
    if z !in fs && z != w.origin {
      var p := z;
      var v := HeardInVain(w, first, had, fs, x, p, o);
      z := OfferSent(w, first, had, fs, p, v);
      VainIsLow(w, first, p, z, v);
    }
  }

  lemma NearerNext(w: World, first: Offer, x: NodeId, o: Offer) returns (p: NodeId)
    requires Downhill(w, first) && MaySend(w, first, x, o)
    ensures Linked(w, x, p) && Level(w, p) < Level(w, x) && (p == w.dest || (Level(w, p) > 0 && Lasts(w, first, p)))
  {
    hide MaySend, Linked, Level, Lasts;
    p :| Linked(w, x, p) && Level(w, p) < Level(w, x) && (p == w.dest || (Level(w, p) > 0 && Lasts(w, first, p)));
  }

  lemma SenderOffers(w: World, first: Offer, fs: map<NodeId, u32>, x: NodeId, o: Offer, p: NodeId)
    requires Linked(w, x, p) && (x in fs || (x == w.origin && o == first))
    requires x in fs ==> o.relay + 1 == Level(w, x) && o.ttl == fs[x]
    ensures Offers(w, first, fs, p, o)
  {
    hide Linked, Level;
  }

  lemma HeardInVain(w: World, first: Offer, had: set<NodeId>, fs: map<NodeId, u32>, x: NodeId, p: NodeId, o: Offer)
    returns (v: Offer)
    requires Blocks(w, first, had, fs) && Linked(w, x, p) && Offers(w, first, fs, p, o)
    requires p !in fs && p != w.origin && had <= {w.origin}
    ensures p != w.dest && Offers(w, first, fs, p, v) && !PassesOn(w, p, v)
  {
    hide Offers, PassesOn, HearsEnough;
    assert Open(w, had, p) by { LinkedLevel(w, x, p); }
    assert HearsInVain(w, first, fs, p);
    v :| Offers(w, first, fs, p, v) && !PassesOn(w, p, v);
  }

  lemma VainIsLow(w: World, first: Offer, p: NodeId, x: NodeId, o: Offer)
    requires Lasts(w, first, p) && MaySend(w, first, x, o) && Linked(w, x, p) && !PassesOn(w, p, o)
    requires p != w.dest && Level(w, p) > 0
    ensures o.relay < Level(w, p)
  {
    hide MaySend;
  }

  lemma LinkedLevel(w: World, x: NodeId, p: NodeId)
    requires Linked(w, x, p)
    ensures p in w.level
  {
  }

  /** Though relays drop every copy after the first, the message gets down to the destination. */
  lemma Arrived(w: World, first: Offer, had: set<NodeId>, s: Gather)
    requires Accounts(w, first, had, s) && Over(s) && Downhill(w, first)
    requires Level(w, w.origin) <= first.relay + 1 && had <= {w.origin} && w.dest in w.level
    ensures w.dest in s.has
  {
    if w.dest !in s.has {
      LostBlocks(w, first, had, s);
      NoneBlocks(w, first, had, s.forwarded);
    }
  }

  // ---- such a set can lose the message -------------------------------------------------

  ghost predicate Within(gs: map<NodeId, u32>, fs: map<NodeId, u32>) {
    forall x :: x in gs ==> x in fs && fs[x] == gs[x]
  }

  /** Only members of `fs` have passed the message on, and only they have heard it. */
  ghost predicate Staged(w: World, first: Offer, had: set<NodeId>, fs: map<NodeId, u32>, s: Gather) {
    && Accounts(w, first, had, s) && s.waiting == map[] && Within(s.forwarded, fs)
    && s.has == had + s.forwarded.Keys
  }

  lemma Missing(fs: map<NodeId, u32>, gs: map<NodeId, u32>)
    requires Within(gs, fs) && gs != fs
    ensures fs.Keys - gs.Keys != {}
  {
    assert fs.Keys <= gs.Keys ==> fs.Keys == gs.Keys && fs == gs;
    var x :| x in fs && x !in gs;
    assert x in fs.Keys - gs.Keys;
  }

  /** An offer that has been made and not been heard is on the way. */
  lemma OnOffer(w: World, first: Offer, fs: map<NodeId, u32>, s: Gather, y: NodeId, o: Offer) returns (c: Copy)
    requires Pending(w, first, s, y) && Offers(w, first, fs, y, o)
    requires forall x :: x in fs && o.relay + 1 == Level(w, x) ==> x in s.forwarded && s.forwarded[x] == fs[x]
    ensures c in s.flight && c.to == y && s.flight[c] == o
  {
    if Linked(w, w.origin, y) && o == first {
      c :| c in s.flight && c.from == w.origin && c.to == y && s.flight[c] == first;
    } else {
      var x :| x in fs && Linked(w, x, y) && o.relay + 1 == Level(w, x) && o.ttl == fs[x];
      assert Passed(w, s, x, o);
      c :| c in s.flight && c.from == x && c.to == y && s.flight[c] == o;
    }
  }

  /** The farthest member that has not passed it on has a copy on the way that makes it do so. */
  lemma NextMember(w: World, first: Offer, had: set<NodeId>, fs: map<NodeId, u32>, s: Gather)
    returns (y: NodeId, c: Copy)
    requires Blocks(w, first, had, fs) && Staged(w, first, had, fs, s) && s.forwarded != fs
    ensures y in fs && y !in s.has && c in s.flight && c.to == y && PassesOn(w, y, s.flight[c])
    ensures Sent(Taken(w, y, s.flight[c])).ttl == fs[y]
  {
    Missing(fs, s.forwarded);
    y := Farthest(w, fs.Keys - s.forwarded.Keys);
    hide Offers, Pending, Offered, HearsInVain;
    assert Open(w, had, y);
    assert Pending(w, first, s, y);
    var o :| Offers(w, first, fs, y, o) && PassesOn(w, y, o) && Sent(Taken(w, y, o)).ttl == fs[y];
    c := OnOffer(w, first, fs, s, y, o);
  }

  lemma StageMember(w: World, first: Offer, had: set<NodeId>, fs: map<NodeId, u32>, s: Gather, y: NodeId, c: Copy,
                    t: Gather, v: Gather)
    requires Staged(w, first, had, fs, s) && y in fs && y !in s.has && c in s.flight && c.to == y
    requires PassesOn(w, y, s.flight[c]) && Sent(Taken(w, y, s.flight[c])).ttl == fs[y]
    requires Arrives(w, s, c, t) && Fires(w, t, y, v)
    ensures Staged(w, first, had, fs, v) && v.forwarded.Keys == s.forwarded.Keys + {y}
  {
    hide Accounts;
    ArriveAccounts(w, first, had, s, c, t);
    FireAccounts(w, first, had, t, y, v);
  }

  /** All members have passed the message on; what is still on the way does no good. */
  ghost predicate Draining(w: World, first: Offer, had: set<NodeId>, fs: map<NodeId, u32>, s: Gather) {
    && Accounts(w, first, had, s) && s.waiting == map[] && s.forwarded == fs && fs.Keys <= s.has
    && w.dest !in s.has
  }

  /** Some copy on the way makes nobody pass the message on. */
  lemma Harmless(w: World, first: Offer, had: set<NodeId>, fs: map<NodeId, u32>, s: Gather) returns (c: Copy)
    requires Blocks(w, first, had, fs) && Draining(w, first, had, fs, s) && s.flight.Keys != {}
    ensures c in s.flight && c.to != w.dest && (c.to in s.has || !PassesOn(w, c.to, s.flight[c]))
  {
    c :| c in s.flight.Keys;
    NotToDest(w, first, had, fs, s, c);
    if c.to !in s.has && PassesOn(w, c.to, s.flight[c]) {
      var y := c.to;
      assert Offered(w, first, s, c) && Offers(w, first, fs, y, s.flight[c]);
      assert Open(w, had, y);
      var o :| Offers(w, first, fs, y, o) && !PassesOn(w, y, o);
      assert Pending(w, first, s, y);
      c := OnOffer(w, first, fs, s, y, o);
    }
  }

  lemma NotToDest(w: World, first: Offer, had: set<NodeId>, fs: map<NodeId, u32>, s: Gather, c: Copy)
    requires Blocks(w, first, had, fs) && Draining(w, first, had, fs, s) && c in s.flight
    ensures c.to != w.dest
  {
    assert Offered(w, first, s, c);
    assert Offers(w, first, fs, c.to, s.flight[c]);
  }

  lemma DrainArrives(w: World, first: Offer, had: set<NodeId>, fs: map<NodeId, u32>, s: Gather, c: Copy, t: Gather)
    requires Draining(w, first, had, fs, s) && c in s.flight && c.to != w.dest
    requires c.to in s.has || !PassesOn(w, c.to, s.flight[c])
    requires Arrives(w, s, c, t)
    ensures Draining(w, first, had, fs, t) && t.flight.Keys == s.flight.Keys - {c}
  {
    hide Accounts;
    ArriveAccounts(w, first, had, s, c, t);
  }
}
