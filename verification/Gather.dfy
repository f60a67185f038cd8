/** One unicast message on its way to its destination, seen apart from everything else. Relays drop
    every copy after the first, and pass the first on only if it allows their distance and, off the
    tree, if its TTL lasts. */
module Gather {
  import opened Types
  import opened Air

  /** What a copy carries. */
  datatype Offer = Offer(relay: nat, ttl: u32)

  /** What a node does with the TTL it hears: it never passes the message on; it renews the TTL; it
      passes on what is left, if anything is; or it does so and renews the TTL when nothing is left. */
  datatype Duty = Rests | Renews | Wears | Saves

  /** `level` is the hop count a node knows for the destination; `full`, the TTL of the source. */
  datatype World = World(links: Links, level: map<NodeId, nat>, duty: map<NodeId, Duty>, full: u32,
                         dest: NodeId, origin: NodeId)

  /** Who has the message, who passed it on with which TTL, who is about to, and the copies. The origin
      may pass an echo of its own message on. */
  datatype Gather = Gather(has: set<NodeId>, forwarded: map<NodeId, u32>, waiting: map<NodeId, Offer>,
                           flight: map<Copy, Offer>)

  predicate Linked(w: World, x: NodeId, y: NodeId) { Near(w.links, w.level.Keys, x, y) }

  function Level(w: World, x: NodeId): nat { if x in w.level then w.level[x] else 0 }

  /** The TTL with which a node of that duty, hearing `ttl`, takes the message up, if it does. */
  function Reply(d: Duty, full: u32, ttl: u32): Option<u32> {
    match d
    case Rests => None
    case Renews => Some(full)
    case Wears => if ttl > 0 then Some(ttl) else None
    case Saves => Some(if ttl > 0 then ttl else full)
  }

  function Answer(w: World, y: NodeId, ttl: u32): Option<u32> {
    if y in w.duty then Reply(w.duty[y], w.full, ttl) else None
  }

  /** Only the first copy counts, and only if the relay distance it allows is not below the node's. */
  predicate PassesOn(w: World, y: NodeId, o: Offer) {
    y != w.dest && 0 < Level(w, y) <= o.relay && Answer(w, y, o.ttl).Some?
  }

  /** What then waits at the node. */
  function Taken(w: World, y: NodeId, o: Offer): Offer
    requires PassesOn(w, y, o)
  {
    Offer(Level(w, y) - 1, Answer(w, y, o.ttl).value)
  }

  /** What leaves the node. */
  function Sent(o: Offer): Offer { o.(ttl := Dec32(o.ttl)) }

  // ---- steps ---------------------------------------------------------------------------

  ghost predicate Arrives(w: World, s: Gather, c: Copy, t: Gather) {
    && c in s.flight && t.flight == s.flight - {c} && t.forwarded == s.forwarded && t.has == s.has + {c.to}
    && t.waiting == if c.to !in s.has && PassesOn(w, c.to, s.flight[c])
                    then s.waiting[c.to := Taken(w, c.to, s.flight[c])] else s.waiting
  }

  ghost predicate Fires(w: World, s: Gather, x: NodeId, t: Gather) {
    && x in s.waiting && t.has == s.has && t.waiting == s.waiting - {x}
    && t.forwarded == s.forwarded[x := Sent(s.waiting[x]).ttl]
    && Broadcasts<Offer>(w.links, w.level.Keys, x, Sent(s.waiting[x]), s.flight, t.flight)
  }

  ghost predicate Moves(w: World, s: Gather, t: Gather) {
    t == s || (exists c :: Arrives(w, s, c, t)) || (exists x :: s.waiting.Keys != {} && Fires(w, s, x, t))
  }

  /** The origin has sent the message with a relay distance of at least its own less one. */
  ghost predicate Departed(w: World, s: Gather, o: Offer) {
    && s.has <= {w.origin} && s.forwarded == map[] && s.waiting == map[] && w.origin in w.level
    && Level(w, w.origin) <= o.relay + 1
    && Broadcasts<Offer>(w.links, w.level.Keys, w.origin, o, map[], s.flight)
  }

  predicate Over(s: Gather) { s.waiting == map[] && s.flight == map[] }

  // ---- who may have to send ------------------------------------------------------------

  /** A chain of `n` forwardings from the origin, which sends `first`, may make `x` send `o`. */
  ghost predicate Chained(w: World, first: Offer, x: NodeId, o: Offer, n: nat)
    decreases n
  {
    if n == 0 then x == w.origin && o == first
    else
      exists y, p ::
        Chained(w, first, y, p, n - 1) && Linked(w, y, x) && PassesOn(w, x, p) && o == Sent(Taken(w, x, p))
  }

  ghost predicate MaySend(w: World, first: Offer, x: NodeId, o: Offer) { exists n: nat :: Chained(w, first, x, o, n) }

  /** However the TTLs fall, `p` takes the message up as far as they are concerned. */
  ghost predicate Lasts(w: World, first: Offer, p: NodeId) {
    forall x, o :: MaySend(w, first, x, o) && Linked(w, x, p) ==> Answer(w, p, o.ttl).Some?
  }

  /** Every node that may have to send has a nearer one next to it that is the destination, or knows
      its distance and is one that the TTL lasts for. */
  ghost predicate Downhill(w: World, first: Offer) {
    forall x, o :: MaySend(w, first, x, o) ==>
      exists p :: Linked(w, x, p) && Level(w, p) < Level(w, x)
                  && (p == w.dest || (Level(w, p) > 0 && Lasts(w, first, p)))
  }

  lemma OriginSends(w: World, first: Offer)
    ensures MaySend(w, first, w.origin, first)
  {
    assert Chained(w, first, w.origin, first, 0);
  }

  lemma NextSends(w: World, first: Offer, y: NodeId, p: Offer, x: NodeId)
    requires MaySend(w, first, y, p) && Linked(w, y, x) && PassesOn(w, x, p)
    ensures MaySend(w, first, x, Sent(Taken(w, x, p)))
  {
    var n: nat :| Chained(w, first, y, p, n);
    assert Chained(w, first, x, Sent(Taken(w, x, p)), n + 1);
  }

  /** Whoever may have to send is the origin or passes the message on. */
  lemma SenderPasses(w: World, first: Offer, x: NodeId, o: Offer)
    requires MaySend(w, first, x, o)
    ensures (x == w.origin && o == first) || exists p :: PassesOn(w, x, p) && o == Sent(Taken(w, x, p))
  {
    var n: nat :| Chained(w, first, x, o, n);
  }

  // ---- when the TTL lasts --------------------------------------------------------------

  /** The TTL lasts for every node that renews it. */
  lemma RenewerLasts(w: World, first: Offer, p: NodeId)
    requires p in w.duty && (w.duty[p].Renews? || w.duty[p].Saves?)
    ensures Lasts(w, first, p)
  {
    hide MaySend;
  }

  /** Each forwarding costs one of the relay distance, and at most one of the TTL. */
  lemma {:induction false} ChainCosts(w: World, first: Offer, x: NodeId, o: Offer, n: nat)
    requires Chained(w, first, x, o, n) && w.full == first.ttl + 1
    ensures o.relay + n <= first.relay && o.ttl + n >= first.ttl
    decreases n
  {
    if n > 0 {
      var y, p :| Chained(w, first, y, p, n - 1) && Linked(w, y, x) && PassesOn(w, x, p) && o == Sent(Taken(w, x, p));
      ChainCosts(w, first, y, p, n - 1);
    }
  }

  /** A TTL above the relay distance lasts for every node that passes the message on at all. */
  lemma AmpleLasts(w: World, first: Offer, p: NodeId)
    requires w.full == first.ttl + 1 && first.relay < first.ttl && p in w.duty && !w.duty[p].Rests?
    ensures Lasts(w, first, p)
  {
    forall x, o | MaySend(w, first, x, o) && Linked(w, x, p) ensures Answer(w, p, o.ttl).Some? {
      var n: nat :| Chained(w, first, x, o, n);
      ChainCosts(w, first, x, o, n);
    }
  }
}
