/** One flooded message seen apart from everything else: who has it and at which TTL, who will
    still pass it on, and which copies are on the way. Whatever the order of events, the outcome
    is the one that walks over the links determine. */
module Flood {
  import opened Types
  import opened Air

  /** A group node sends with the full TTL whatever arrives, or, when the message forbids that, with
      what arrives first; any other node with what arrives, as often as that rises. In a relay tree
      a node sends once or not at all. */
  datatype Role = Regenerates | PassesFirst | PassesOn | Absorbs

  datatype World = World(links: Links, src: NodeId, full: u32, role: map<NodeId, Role>)

  /** Highest TTL met, TTL waiting to be sent, number of sends, and copies on the way. */
  datatype Flood = Flood(got: map<NodeId, u32>, waiting: map<NodeId, u32>, sends: map<NodeId, nat>, flight: map<Copy,
                         u32>)

  ghost predicate Sensible(w: World) { w.src in w.role && w.role[w.src].Regenerates? && w.full > 0 }

  predicate Linked(w: World, x: NodeId, y: NodeId) { Near(w.links, w.role.Keys, x, y) }

  function RoleOf(w: World, x: NodeId): Role { if x in w.role then w.role[x] else Absorbs }

  // ---- steps ---------------------------------------------------------------------------

  predicate IsNews(w: World, s: Flood, y: NodeId, ttl: u32) {
    y !in s.got || (RoleOf(w, y).PassesOn? && ttl > s.got[y])
  }

  /** The TTL with which a node sends after news. */
  function Reply(role: Role, full: u32, ttl: u32): Option<u32> {
    match role
    case Regenerates => Some(full)
    case Absorbs => None
    case _ => if ttl > 0 then Some(ttl) else None
  }

  function Answer(w: World, y: NodeId, ttl: u32): Option<u32> { Reply(RoleOf(w, y), w.full, ttl) }

  ghost predicate Arrives(w: World, s: Flood, c: Copy, t: Flood) {
    && c in s.flight && t.sends == s.sends && t.flight == s.flight - {c}
    && var y, ttl := c.to, s.flight[c];
       if IsNews(w, s, y, ttl) then
         && t.got == s.got[y := ttl]
         && t.waiting == if Answer(w, y, ttl).Some? then s.waiting[y := Answer(w, y, ttl).value] else s.waiting
       else t.got == s.got && t.waiting == s.waiting
  }

  ghost predicate Fires(w: World, s: Flood, x: NodeId, t: Flood) {
    && x in s.waiting && s.waiting[x] > 0 && x in s.sends
    && t.got == s.got && t.waiting == s.waiting - {x} && t.sends == s.sends[x := s.sends[x] + 1]
    && Broadcasts<u32>(w.links, w.role.Keys, x, s.waiting[x] - 1, s.flight, t.flight)
  }

  ghost predicate Moves(w: World, s: Flood, t: Flood) {
    t == s || (exists c :: Arrives(w, s, c, t)) || (exists x :: s.waiting.Keys != {} && Fires(w, s, x, t))
  }

  // ---- walks ---------------------------------------------------------------------------

  /** Some walk of `hops` links makes `x` send the message with TTL `ttl`, before the decrement. */
  ghost predicate CanSend(w: World, x: NodeId, ttl: u32, hops: nat)
    decreases hops, 1
  {
    if hops == 0 then x == w.src && ttl == w.full
    else exists r: u32 :: CanHear(w, x, r, hops) && Answer(w, x, r) == Some(ttl)
  }

  /** Some walk of `hops` links brings a copy with TTL `ttl` to `x`. */
  ghost predicate CanHear(w: World, x: NodeId, ttl: u32, hops: nat)
    decreases hops, 0
  {
    hops > 0 && ttl + 1 < U32 && exists y: NodeId :: Linked(w, y, x) && CanSend(w, y, ttl + 1, hops - 1)
  }

  ghost predicate Sendable(w: World, x: NodeId, ttl: u32) { exists hops: nat :: CanSend(w, x, ttl, hops) }

  ghost predicate Audible(w: World, x: NodeId, ttl: u32) { exists hops: nat :: CanHear(w, x, ttl, hops) }

  lemma SendThenHear(w: World, y: NodeId, x: NodeId, ttl: u32)
    requires Linked(w, y, x) && ttl + 1 < U32 && Sendable(w, y, ttl + 1)
    ensures Audible(w, x, ttl)
  {
    var hops: nat :| CanSend(w, y, ttl + 1, hops);
    assert CanHear(w, x, ttl, hops + 1);
  }

  lemma HearThenSend(w: World, x: NodeId, ttl: u32)
    requires Audible(w, x, ttl) && Answer(w, x, ttl).Some?
    ensures Sendable(w, x, Answer(w, x, ttl).value)
  {
    var hops: nat :| CanHear(w, x, ttl, hops);
    assert CanSend(w, x, Answer(w, x, ttl).value, hops);
  }

  // ---- invariant -----------------------------------------------------------------------

  /** Nothing is stored, waiting or on the way but what a walk explains. */
  ghost predicate Sound(w: World, s: Flood) {
    && (forall x :: x in s.got && x != w.src ==> Audible(w, x, s.got[x]))
    && (forall x :: x in s.waiting ==> Sendable(w, x, s.waiting[x]))
    && (forall c :: c in s.flight ==>
          Linked(w, c.from, c.to) && s.flight[c] + 1 < U32 && Sendable(w, c.from, s.flight[c] + 1))
  }

  /** `y` has, or will be brought, the copy that `x` sent it with this TTL. */
  ghost predicate Served(w: World, s: Flood, x: NodeId, y: NodeId, ttl: u32) {
    OnTheWay(s.flight, x, y, ttl) || (y in s.got && (RoleOf(w, y).PassesOn? ==> ttl <= s.got[y]))
  }

  ghost predicate AllServed(w: World, s: Flood, x: NodeId, ttl: u32) {
    forall y :: Linked(w, x, y) ==> Served(w, s, x, y, ttl)
  }

  ghost predicate Answered(w: World, s: Flood, x: NodeId)
    requires x in s.got && Answer(w, x, s.got[x]).Some?
  {
    var p := Answer(w, x, s.got[x]).value;
    p > 0 && ((x in s.waiting && s.waiting[x] == p) || AllServed(w, s, x, p - 1))
  }

  /** Whoever has the message and should send it will send it, or everyone around got it. */
  ghost predicate Complete(w: World, s: Flood) {
    w.src in s.got && forall x :: x in s.got && Answer(w, x, s.got[x]).Some? ==> Answered(w, s, x)
  }

  /** How often a node may have sent, given the TTL it has met. */
  function Allowance(w: World, s: Flood, x: NodeId): nat {
    if x !in s.got then 0
    else match RoleOf(w, x) case PassesOn => s.got[x] case Absorbs => 0 case _ => 1
  }

  ghost predicate Modest(w: World, s: Flood) {
    && (forall x :: x in s.waiting ==> 1 <= s.waiting[x] <= w.full && x in s.got)
    && (forall c :: c in s.flight ==> s.flight[c] < w.full)
    && (forall x :: x in s.got && RoleOf(w, x).PassesOn? ==> s.got[x] < w.full)
    && (forall x :: x in s.sends ==> s.sends[x] + (if x in s.waiting then 1 else 0) <= Allowance(w, s, x))
  }

  ghost predicate FloodInv(w: World, s: Flood) { Sensible(w) && Sound(w, s) && Complete(w, s) && Modest(w, s) }

  /** The source has just sent the message and no one else knows of it. */
  ghost predicate Launched(w: World, s: Flood) {
    && Sensible(w) && s.got.Keys == {w.src} && s.waiting == map[]
    && (forall x :: x in s.sends ==> s.sends[x] == if x == w.src then 1 else 0)
    && Broadcasts<u32>(w.links, w.role.Keys, w.src, w.full - 1, map[], s.flight)
  }

  lemma LaunchedInv(w: World, s: Flood)
    requires Launched(w, s)
    ensures FloodInv(w, s)
  {
    assert CanSend(w, w.src, w.full, 0);
    assert Sendable(w, w.src, w.full);
    assert AllServed(w, s, w.src, w.full - 1);
  }

  lemma ArriveSound(w: World, s: Flood, c: Copy, t: Flood)
    requires Sensible(w) && Sound(w, s) && Arrives(w, s, c, t)
    ensures Sound(w, t)
  {
    hide CanSend, CanHear, Sendable, Audible;
    SendThenHear(w, c.from, c.to, s.flight[c]);
    if Answer(w, c.to, s.flight[c]).Some? {
      HearThenSend(w, c.to, s.flight[c]);
    }
  }

  lemma ArriveServes(w: World, s: Flood, c: Copy, t: Flood, x: NodeId, y: NodeId, ttl: u32)
    requires Arrives(w, s, c, t) && Served(w, s, x, y, ttl)
    ensures Served(w, t, x, y, ttl)
  {
    if OnTheWay(s.flight, x, y, ttl) {
      var d :| d in s.flight && d.from == x && d.to == y && s.flight[d] == ttl;
      assert d != c ==> d in t.flight && t.flight[d] == ttl;
    }
  }

  lemma ArriveComplete(w: World, s: Flood, c: Copy, t: Flood)
    requires Sensible(w) && Complete(w, s) && Arrives(w, s, c, t)
    ensures Complete(w, t)
  {
    hide Served, OnTheWay;
    forall x | x in t.got && Answer(w, x, t.got[x]).Some? ensures Answered(w, t, x) {
      if x != c.to || !IsNews(w, s, c.to, s.flight[c]) {
        assert Answered(w, s, x);
        var p := Answer(w, x, s.got[x]).value;
        if AllServed(w, s, x, p - 1) {
          forall y | Linked(w, x, y) ensures Served(w, t, x, y, p - 1) {
            ArriveServes(w, s, c, t, x, y, p - 1);
          }
        }
      }
    }
  }

  lemma ArriveModest(w: World, s: Flood, c: Copy, t: Flood)
    requires Sensible(w) && Modest(w, s) && Arrives(w, s, c, t)
    ensures Modest(w, t)
  {
  }

  lemma FireSound(w: World, s: Flood, x: NodeId, t: Flood)
    requires Sound(w, s) && Fires(w, s, x, t)
    ensures Sound(w, t)
  {
    hide CanSend, CanHear, Sendable, Audible;
  }

  lemma FireServes(w: World, s: Flood, x: NodeId, t: Flood, z: NodeId, y: NodeId, ttl: u32)
    requires Fires(w, s, x, t) && Served(w, s, z, y, ttl)
    ensures Served(w, t, z, y, ttl)
  {
  }

  lemma FireComplete(w: World, s: Flood, x: NodeId, t: Flood)
    requires Complete(w, s) && Fires(w, s, x, t)
    ensures Complete(w, t)
  {
    forall z | z in t.got && Answer(w, z, t.got[z]).Some? ensures Answered(w, t, z) {
      assert Answered(w, s, z);
      var p := Answer(w, z, s.got[z]).value;
      if AllServed(w, s, z, p - 1) {
        forall y | Linked(w, z, y) ensures Served(w, t, z, y, p - 1) {
          FireServes(w, s, x, t, z, y, p - 1);
        }
      } else if z == x {
        assert AllServed(w, t, z, p - 1);
      }
    }
  }

  lemma FireModest(w: World, s: Flood, x: NodeId, t: Flood)
    requires Modest(w, s) && Fires(w, s, x, t)
    ensures Modest(w, t)
  {
  }

  lemma MovesModest(w: World, s: Flood, t: Flood)
    requires Sensible(w) && Modest(w, s) && Moves(w, s, t)
    ensures Modest(w, t)
  {
    hide Modest, Sensible;
    if c :| Arrives(w, s, c, t) {
      ArriveModest(w, s, c, t);
    } else if x :| Fires(w, s, x, t) {
      FireModest(w, s, x, t);
    }
  }

  /** Losing copies makes no one send more. */
  lemma LossModest(w: World, s: Flood, t: Flood)
    requires Modest(w, s) && t.(flight := s.flight) == s
             && forall c :: c in t.flight ==> c in s.flight && t.flight[c] == s.flight[c]
    ensures Modest(w, t)
  {
  }

  lemma MovesInv(w: World, s: Flood, t: Flood)
    requires FloodInv(w, s) && Moves(w, s, t)
    ensures FloodInv(w, t)
  {
    hide Sound, Complete, Modest, Sensible;
    if c :| Arrives(w, s, c, t) {
      ArriveSound(w, s, c, t);
      ArriveComplete(w, s, c, t);
      ArriveModest(w, s, c, t);
    } else if x :| Fires(w, s, x, t) {
      FireSound(w, s, x, t);
      FireComplete(w, s, x, t);
      FireModest(w, s, x, t);
    }
  }

  /** No node sends more often than the full TTL, a group node once at most. */
  lemma SendsBounded(w: World, s: Flood, x: NodeId)
    requires Sensible(w) && Modest(w, s) && x in s.sends
    ensures s.sends[x] <= w.full && (!RoleOf(w, x).PassesOn? ==> s.sends[x] <= 1)
  {
  }

  // ---- outcome -------------------------------------------------------------------------

  /** The message has died out. */
  predicate Over(s: Flood) { s.waiting == map[] && s.flight == map[] }

  /** No node is bound to the first copy it hears. */
  ghost predicate Orderless(w: World) { forall x :: x in w.role ==> !w.role[x].PassesFirst? }

  /** Once the message has died out every walk has had its effect. */
  lemma {:induction false} WalkedTo(w: World, s: Flood, x: NodeId, ttl: u32, hops: nat)
    requires FloodInv(w, s) && Over(s) && Orderless(w) && CanSend(w, x, ttl, hops)
    ensures x in s.got && (RoleOf(w, x).PassesOn? ==> ttl <= s.got[x]) && (RoleOf(w, x).Regenerates? ==> ttl == w.full)
            && !RoleOf(w, x).Absorbs?
    decreases hops
  {
    hide Sound, Modest;
    if hops > 0 {
      var r: u32 :| CanHear(w, x, r, hops) && Answer(w, x, r) == Some(ttl);
      Heard(w, s, x, r, hops);
    }
  }

  lemma {:induction false} Heard(w: World, s: Flood, x: NodeId, ttl: u32, hops: nat)
    requires FloodInv(w, s) && Over(s) && Orderless(w) && CanHear(w, x, ttl, hops)
    ensures x in s.got && (RoleOf(w, x).PassesOn? ==> ttl <= s.got[x])
    decreases hops, 0
  {
    hide Sound, Modest;
    var y: NodeId :| Linked(w, y, x) && CanSend(w, y, ttl + 1, hops - 1);
    WalkedTo(w, s, y, ttl + 1, hops - 1);
    assert Answered(w, s, y);
    assert Served(w, s, y, x, Answer(w, y, s.got[y]).value - 1);
  }

  /** A node is reached by a walk along which every node has something left to send. */
  ghost predicate Reachable(w: World, x: NodeId) { x == w.src || exists ttl: u32 :: Audible(w, x, ttl) }

  /** At the end exactly the nodes that a walk reaches have the message, and a node outside the
      group has stored the highest TTL that any walk brings. */
  lemma DiedOut(w: World, s: Flood, x: NodeId)
    requires FloodInv(w, s) && Over(s) && Orderless(w)
    ensures x in s.got <==> Reachable(w, x)
    ensures x in s.got && RoleOf(w, x).PassesOn? ==>
              Audible(w, x, s.got[x]) && forall ttl: u32 :: Audible(w, x, ttl) ==> ttl <= s.got[x]
  {
    hide CanSend, CanHear;
    forall ttl: u32 | Audible(w, x, ttl) ensures x in s.got && (RoleOf(w, x).PassesOn? ==> ttl <= s.got[x]) {
      var hops: nat :| CanHear(w, x, ttl, hops);
      Heard(w, s, x, ttl, hops);
    }
  }
}
