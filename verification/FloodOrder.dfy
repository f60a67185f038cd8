/** When the order of deliveries does not matter though nobody but the source sends with the full
    TTL: exactly when all paths to a node bound to its first copy are equally long. */
module FloodOrder {
  import opened Types
  import opened Air
  import opened Flood

  /** Only the source sends with the full TTL, and everybody else passes on what is heard. */
  ghost predicate Renewless(w: World) {
    Sensible(w) && forall x :: x in w.role && x != w.src ==> w.role[x].PassesFirst? || w.role[x].PassesOn?
  }

  /** A way from the source to `y` that visits no node twice. */
  ghost predicate Path(w: World, p: seq<NodeId>, y: NodeId) {
    && |p| > 0 && p[0] == w.src && p[|p| - 1] == y
    && (forall i :: 0 < i < |p| ==> Linked(w, p[i - 1], p[i]))
    && (forall i, j :: 0 <= i < j < |p| ==> p[i] != p[j])
  }

  /** The ways to a node bound to its first copy that the TTL lasts for are all equally long. */
  ghost predicate OneLength(w: World) {
    forall p: seq<NodeId>, q: seq<NodeId>, y: NodeId ::
      Path(w, p, y) && Path(w, q, y) && RoleOf(w, y).PassesFirst? && |p| <= w.full + 1 && |q| <= w.full + 1 ==>
          |p| == |q|
  }

  // ---- every TTL has come along a path -------------------------------------------------

  ghost predicate Passed(w: World, s: Flood, p: seq<NodeId>) {
    forall j :: 0 < j < |p| ==> p[j] in s.got && s.got[p[j]] + j >= w.full
  }

  /** A path brought the message to `y` so that it has `ttl` left there. */
  ghost predicate Trace(w: World, s: Flood, y: NodeId, ttl: nat) {
    exists p :: Path(w, p, y) && |p| - 1 + ttl == w.full && Passed(w, s, p)
  }

  /** The TTL a copy had before it was sent. */
  function Before(ttl: u32): nat {
    var n: nat := ttl;
    n + 1
  }

  ghost predicate Traced(w: World, s: Flood) {
    && w.src in s.got
    && (forall x :: x in s.got && x != w.src ==> Trace(w, s, x, s.got[x]))
    && (forall x :: x in s.waiting ==> x != w.src && x in s.got && s.waiting[x] == s.got[x])
    && (forall c :: c in s.flight ==> Linked(w, c.from, c.to) && Trace(w, s, c.from, Before(s.flight[c])))
  }

  lemma LaunchedTraced(w: World, s: Flood)
    requires Launched(w, s)
    ensures Traced(w, s)
  {
    assert Path(w, [w.src], w.src) && Passed(w, s, [w.src]);
    assert Trace(w, s, w.src, w.full);
  }

  lemma TraceStays(w: World, s: Flood, t: Flood, y: NodeId, ttl: nat)
    requires Trace(w, s, y, ttl) && forall x :: x in s.got ==> x in t.got && s.got[x] <= t.got[x]
    ensures Trace(w, t, y, ttl)
  {
    var p :| Path(w, p, y) && |p| - 1 + ttl == w.full && Passed(w, s, p);
    assert Passed(w, t, p);
  }

  lemma PathExtends(w: World, p: seq<NodeId>, x: NodeId, y: NodeId)
    requires Path(w, p, x) && Linked(w, x, y) && y !in p
    ensures Path(w, p + [y], y)
  {
    hide Linked;
    var q := p + [y];
    forall i | 0 < i < |q| ensures Linked(w, q[i - 1], q[i]) {
      assert i < |p| ==> Linked(w, p[i - 1], p[i]);
    }
  }

  lemma NotYetOn(w: World, s: Flood, p: seq<NodeId>, y: NodeId, ttl: u32)
    requires Renewless(w) && w.src in s.got && |p| > 0 && p[0] == w.src && Passed(w, s, p) && |p| + ttl == w.full
             && IsNews(w, s, y, ttl)
    ensures y !in p
  {
    forall j | 0 <= j < |p| ensures p[j] != y {
      if j > 0 {
        assert p[j] in s.got && s.got[p[j]] + j >= w.full;
      }
    }
  }

  /** News reaches a node by a path that it is not on already. */
  lemma NewsTrace(w: World, s: Flood, c: Copy, t: Flood)
    requires Renewless(w) && Traced(w, s) && Arrives(w, s, c, t) && IsNews(w, s, c.to, s.flight[c])
    ensures Trace(w, t, c.to, s.flight[c])
  {
    var y, ttl := c.to, s.flight[c];
    var p :| Path(w, p, c.from) && |p| - 1 + (ttl + 1) == w.full && Passed(w, s, p);
    NotYetOn(w, s, p, y, ttl);
    var q := p + [y];
    PathExtends(w, p, c.from, y);
    assert Passed(w, t, q);
  }

  lemma ArriveGrows(w: World, s: Flood, c: Copy, t: Flood)
    requires Sensible(w) && Traced(w, s) && Arrives(w, s, c, t)
    ensures forall x :: x in s.got ==> x in t.got && s.got[x] <= t.got[x]
    ensures forall x :: x in t.got && !(x in s.got && t.got[x] == s.got[x]) ==>
              x == c.to && IsNews(w, s, x, s.flight[c]) && t.got[x] == s.flight[c]
  {
    hide Trace;
  }

  lemma ArriveWaits(w: World, s: Flood, c: Copy, t: Flood)
    requires Renewless(w) && Traced(w, s) && Arrives(w, s, c, t)
    ensures forall x :: x in t.waiting ==> x != w.src && x in t.got && t.waiting[x] == t.got[x]
  {
    hide Trace;
  }

  lemma ArriveTraced(w: World, s: Flood, c: Copy, t: Flood)
    requires Renewless(w) && Traced(w, s) && Arrives(w, s, c, t)
    ensures Traced(w, t)
  {
    hide Trace;
    ArriveGrows(w, s, c, t);
    ArriveWaits(w, s, c, t);
    forall x | x in t.got && x != w.src ensures Trace(w, t, x, t.got[x]) {
      if x in s.got && t.got[x] == s.got[x] { TraceStays(w, s, t, x, s.got[x]); } else { NewsTrace(w, s, c, t); }
    }
    forall d | d in t.flight
      ensures Trace(w, t, d.from, Before(t.flight[d]))
    {
      TraceStays(w, s, t, d.from, Before(s.flight[d]));
    }
  }

  lemma FireTraced(w: World, s: Flood, x: NodeId, t: Flood)
    requires Traced(w, s) && Fires(w, s, x, t)
    ensures Traced(w, t)
  {
    hide Trace;
    forall y | y in t.got && y != w.src ensures Trace(w, t, y, t.got[y]) { TraceStays(w, s, t, y, s.got[y]); }
    forall d | d in t.flight ensures Linked(w, d.from, d.to) && Trace(w, t, d.from, Before(t.flight[d])) {
      if d in s.flight { TraceStays(w, s, t, d.from, Before(s.flight[d])); } else { TraceStays(w, s, t, x, s.got[x]); }
    }
  }

  lemma MovesTraced(w: World, s: Flood, t: Flood)
    requires Renewless(w) && Traced(w, s) && Moves(w, s, t)
    ensures Traced(w, t)
  {
    hide Traced, Renewless;
    if c :| Arrives(w, s, c, t) {
      ArriveTraced(w, s, c, t);
    } else if x :| Fires(w, s, x, t) {
      FireTraced(w, s, x, t);
    }
  }

  // ---- the condition is enough ---------------------------------------------------------

  /** Once the message has died out, every path that the TTL lasts for has had its effect. */
  lemma {:induction false} PathWalked(w: World, t: Flood, p: seq<NodeId>, y: NodeId)
    requires Renewless(w) && OneLength(w) && FloodInv(w, t) && Traced(w, t) && Over(t)
    requires Path(w, p, y) && |p| <= w.full + 1
    ensures y in t.got && (y != w.src ==> t.got[y] + |p| - 1 >= w.full)
    ensures y != w.src && RoleOf(w, y).PassesFirst? ==> t.got[y] + |p| - 1 == w.full
    decreases |p|
  {
    if |p| > 1 {
      var k := |p| - 1;
      var q := p[..k];
      assert Path(w, q, p[k - 1]);
      PathWalked(w, t, q, p[k - 1]);
      StepWalked(w, t, p[k - 1], y, k - 1);
      if RoleOf(w, y).PassesFirst? && y != w.src {
        assert Trace(w, t, y, t.got[y]);
        var r :| Path(w, r, y) && |r| - 1 + t.got[y] == w.full && Passed(w, t, r);
      }
    }
  }

  lemma StepWalked(w: World, t: Flood, x: NodeId, y: NodeId, j: nat)
    requires Renewless(w) && FloodInv(w, t) && Over(t) && Linked(w, x, y) && x in t.got && j < w.full
    requires x != w.src ==> t.got[x] + j >= w.full
    ensures y in t.got && (RoleOf(w, y).PassesOn? ==> t.got[y] + j + 1 >= w.full)
  {
    hide Sound, Modest;
    assert Answered(w, t, x);
    assert Served(w, t, x, y, Answer(w, x, t.got[x]).value - 1);
  }

  /** Two ends of the same flood agree on who has the message and on every TTL passed on. */
  lemma Determined(w: World, s: Flood, t: Flood, x: NodeId)
    requires Renewless(w) && OneLength(w)
    requires FloodInv(w, s) && Traced(w, s) && Over(s) && FloodInv(w, t) && Traced(w, t) && Over(t)
    ensures x in s.got <==> x in t.got
    ensures x in s.got && x != w.src ==> s.got[x] == t.got[x]
  {
    hide OneLength, FloodInv;
    if x in s.got && x != w.src { AtLeast(w, s, t, x); }
    if x in t.got && x != w.src { AtLeast(w, t, s, x); }
  }

  lemma AtLeast(w: World, s: Flood, t: Flood, x: NodeId)
    requires Renewless(w) && OneLength(w) && Traced(w, s) && FloodInv(w, t) && Traced(w, t) && Over(t)
    requires x in s.got && x != w.src
    ensures x in t.got && s.got[x] <= t.got[x]
  {
    hide OneLength, FloodInv;
    assert Trace(w, s, x, s.got[x]);
    var p :| Path(w, p, x) && |p| - 1 + s.got[x] == w.full && Passed(w, s, p);
    PathWalked(w, t, p, x);
  }

  /** A node bound to its first copy never changes the TTL it stored. */
  lemma FirstStays(w: World, s: Flood, t: Flood, y: NodeId)
    requires Moves(w, s, t) && y in s.got && RoleOf(w, y).PassesFirst?
    ensures y in t.got && t.got[y] == s.got[y]
  {
  }

  // ---- a flood driven along a path -----------------------------------------------------

  /** Only the nodes of the path have the message; the last of them has yet to send it, or has just
      sent it and no copy of that has arrived. */
  ghost predicate Front(w: World, s: Flood, p: seq<NodeId>, sent: bool) {
    && |p| > 0 && (forall x :: x in s.got <==> x in p)
    && var y, left := p[|p| - 1], w.full - (|p| - 1);
       && left >= 0 && (|p| > 1 ==> s.got[y] == left)
       && (sent ==>
             left > 0 && s.waiting == map[] && forall z :: Linked(w, y, z) ==> OnTheWay<u32>(s.flight, y, z, left - 1))
       && (!sent ==> s.waiting == if left > 0 then map[y := left] else map[])
  }

  lemma FrontLaunched(w: World, s: Flood)
    requires Launched(w, s)
    ensures Front(w, s, [w.src], true)
  {
  }

  lemma FrontArrives(w: World, s: Flood, p: seq<NodeId>, x: NodeId, y: NodeId, c: Copy, t: Flood)
    requires Renewless(w) && Front(w, s, p, true) && Path(w, p, x) && Linked(w, x, y) && y !in p
    requires c in s.flight && c.to == y && s.flight[c] == w.full - |p| && Arrives(w, s, c, t)
    ensures Front(w, t, p + [y], false)
  {
    assert y != w.src && y in w.role;
  }

  lemma FrontFires(w: World, s: Flood, p: seq<NodeId>, y: NodeId, t: Flood)
    requires Front(w, s, p, false) && |p| <= w.full && y == p[|p| - 1] && Fires(w, s, y, t)
    ensures Front(w, t, p, true)
  {
  }
}
