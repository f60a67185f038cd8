/** The remote-pull multimap behaves as a map from (group, child) to a time. */
module PullTable {
  import opened Types
  import opened NodeSpec
  import opened HashIndex

  predicate SamePull(x: RemotePull, gid: GroupId, child: NodeId) { x.gid == gid && x.node == child }

  ghost predicate NoMatch(s: seq<RemotePull>, gid: GroupId, child: NodeId, p: nat)
    requires p <= |s|
  {
    forall i :: 0 <= i < p ==> !SamePull(s[i], gid, child)
  }

  /** AddPull overwrites the first match in place, or appends. */
  lemma {:induction false} AddPullAt(s: seq<RemotePull>, e: RemotePull, p: nat)
    requires p <= |s| && NoMatch(s, e.gid, e.node, p)
    requires p < |s| ==> SamePull(s[p], e.gid, e.node)
    ensures AddPull(s, e) == if p < |s| then s[p := e] else s + [e]
  {
    if s == [] {
    } else if p == 0 {
      assert s[0].(time := e.time) == e;
      assert AddPull(s, e) == [e] + s[1..];
    } else {
      forall i | 0 <= i < p - 1 ensures !SamePull(s[1..][i], e.gid, e.node) { assert s[1..][i] == s[i + 1]; }
      AddPullAt(s[1..], e, p - 1);
      assert !SamePull(s[0], e.gid, e.node);
    }
  }

  lemma {:induction false} FindPull(s: seq<RemotePull>, gid: GroupId, child: NodeId) returns (p: nat)
    ensures p <= |s| && NoMatch(s, gid, child, p) && (p < |s| ==> SamePull(s[p], gid, child))
  {
    p := 0;
    while p < |s| && !SamePull(s[p], gid, child)
      invariant p <= |s| && NoMatch(s, gid, child, p)
    {
      p := p + 1;
    }
  }

  /** At most one entry for a group and a child. */
  ghost predicate Single(s: seq<RemotePull>) {
    forall i, j :: 0 <= i < j < |s| ==> !SamePull(s[j], s[i].gid, s[i].node)
  }

  /** The map an unambiguous table stands for. */
  ghost predicate Stands(s: seq<RemotePull>, gid: GroupId, child: NodeId, time: int) {
    exists i :: 0 <= i < |s| && s[i] == RemotePull(gid, child, time)
  }

  /** Adding keeps the table unambiguous, sets the time of its own key and no other. */
  lemma AddPullRefines(s: seq<RemotePull>, e: RemotePull)
    requires Single(s)
    ensures Single(AddPull(s, e))
    ensures forall t :: Stands(AddPull(s, e), e.gid, e.node, t) <==> t == e.time
    ensures forall g: GroupId, c: NodeId, t: int :: (g, c) != (e.gid, e.node) ==>
              (Stands(AddPull(s, e), g, c, t) <==> Stands(s, g, c, t))
  {
    var p := FindPull(s, e.gid, e.node);
    AddPullAt(s, e, p);
    var r := AddPull(s, e);
    assert r[p] == e;
    forall g: GroupId, c: NodeId, t: int | (g, c) != (e.gid, e.node)
      ensures Stands(r, g, c, t) <==> Stands(s, g, c, t)
    {
      if Stands(s, g, c, t) {
        var i :| 0 <= i < |s| && s[i] == RemotePull(g, c, t);
        assert r[i] == s[i];
      }
    }
  }

  lemma AddPullMembers(s: seq<RemotePull>, e: RemotePull, x: RemotePull)
    ensures x in AddPull(s, e) ==> x == e || x in s
    ensures e in AddPull(s, e)
    ensures x in s && !SamePull(x, e.gid, e.node) ==> x in AddPull(s, e)
    ensures x in s ==> exists y :: y in AddPull(s, e) && SamePull(y, x.gid, x.node)
  {
    var p := FindPull(s, e.gid, e.node);
    AddPullAt(s, e, p);
    var r := AddPull(s, e);
    assert r[p] == e;
    if x in s {
      var i :| 0 <= i < |s| && s[i] == x;
      assert r[i] in r;
      assert SamePull(r[i], x.gid, x.node);
    }
  }

  lemma {:induction false} FilterSingle(s: seq<RemotePull>, keep: RemotePull -> bool)
    requires Single(s)
    ensures Single(FilterSeq(s, keep))
  {
    if s != [] {
      var t := s[1..];
      forall i, j | 0 <= i < j < |t| ensures !SamePull(t[j], t[i].gid, t[i].node) {
        assert t[j] == s[j + 1] && t[i] == s[i + 1];
      }
      FilterSingle(t, keep);
      var r := FilterSeq(t, keep);
      forall j | 0 <= j < |r| ensures !SamePull(r[j], s[0].gid, s[0].node) {
        FilterMembers(t, keep, r[j]);
        var m :| 0 <= m < |t| && t[m] == r[j];
        assert s[m + 1] == r[j];
      }
    }
  }

  /** Cleanup keeps the table unambiguous and keeps exactly the entries that have not expired. */
  lemma DropStaleExact(n: Node, now: int, e: RemotePull)
    requires Single(n.remotePull)
    ensures Single(OnPullCleanup(n, now).remotePull)
    ensures e in OnPullCleanup(n, now).remotePull <==> e in n.remotePull && (now - e.time) as real <= n.pullExpire
  {
    var keep := (x: RemotePull) => !Expired(now, x.time, n.pullExpire);
    FilterSingle(n.remotePull, keep);
    FilterMembers(n.remotePull, keep, e);
  }

  /** After cleanup an announcing client with a positive interval that is still marked as
      pulled has a local or a remote subscriber. */
  lemma PulledHasSubscriber(n: Node, now: int, gid: GroupId)
    requires gid in OnPullCleanup(n, now).announce
    ensures var m := OnPullCleanup(n, now);
            m.announce[gid].pullSent && m.announce[gid].interval > 0 ==>
                AnyRemote(m.remotePull, gid) || AnyLocal(m.localPull, gid)
  {
    var k := DropStalePulls(n, now);
    assert UnpullOrphans(k).announce[gid].interval == k.announce[gid].interval;
    assert UnpullOrphans(k).announce[gid].pullSent ==> !Orphaned(k, gid);
  }

  lemma {:induction false} WritesFor(announce: map<GroupId, Announce>, gs: set<GroupId>, w: AppWrite)
    requires gs <= announce.Keys
    ensures w in UnpullWrites(announce, gs) <==> exists g :: g in gs && w == AppWrite(announce[g].session, AppUnpull(g))
    decreases |gs|
  {
    if gs != {} {
      WritesFor(announce, gs - {MinOf(gs)}, w);
    }
  }

  /** Announcers are told in the order of their groups. */
  lemma {:induction false} ToldInOrder(announce: map<GroupId, Announce>, gs: set<GroupId>, i: nat, j: nat)
    requires gs <= announce.Keys && i < j < |UnpullWrites(announce, gs)|
    ensures var ws := UnpullWrites(announce, gs);
            ws[i].msg.AppUnpull? && ws[j].msg.AppUnpull? && ws[i].msg.gid < ws[j].msg.gid
    decreases |gs|
  {
    var g := MinOf(gs);
    var rest := UnpullWrites(announce, gs - {g});
    assert UnpullWrites(announce, gs) == [AppWrite(announce[g].session, AppUnpull(g))] + rest;
    if i == 0 {
      assert rest[j - 1] in rest;
      WritesFor(announce, gs - {g}, rest[j - 1]);
    } else {
      ToldInOrder(announce, gs - {g}, i - 1, j - 1);
    }
  }

  /** The announcer is marked as pulled and awaits ACKs, and nobody is left: no local subscriber, and
      every remote pull of the group has expired. */
  ghost predicate Deserted(n: Node, now: int, g: GroupId)
    requires g in n.announce
  {
    && n.announce[g].pullSent && n.announce[g].interval > 0
    && (forall e :: e in n.localPull ==> e.gid != g)
    && (forall e :: e in n.remotePull && e.gid == g ==> (now - e.time) as real > n.pullExpire)
  }

  lemma DesertedOrphaned(n: Node, now: int, g: GroupId)
    requires g in n.announce
    ensures Orphaned(DropStalePulls(n, now), g) <==> Deserted(n, now, g)
  {
    var keep := (e: RemotePull) => !Expired(now, e.time, n.pullExpire);
    var k := DropStalePulls(n, now);
    forall e ensures e in k.remotePull <==> e in n.remotePull && (now - e.time) as real <= n.pullExpire {
      FilterMembers(n.remotePull, keep, e);
    }
  }

  /** A cleanup takes the mark from exactly the deserted announcers, and from nothing else of them. */
  lemma UnmarkedIff(n: Node, now: int, g: GroupId)
    ensures var m := OnPullCleanup(n, now);
            && (g in m.announce <==> g in n.announce)
            && (g in n.announce ==>
                  m.announce[g] == n.announce[g].(pullSent := n.announce[g].pullSent && !Deserted(n, now, g)))
  {
    if g in n.announce {
      DesertedOrphaned(n, now, g);
    }
    hide FilterSeq, Orphaned;
  }

  /** It writes UNPULL to exactly those, and nothing else. */
  lemma UnpulledIff(n: Node, now: int, w: AppWrite)
    ensures n.written <= OnPullCleanup(n, now).written
    ensures w in OnPullCleanup(n, now).written[|n.written|..] <==>
              exists g :: g in n.announce && Deserted(n, now, g) && w == AppWrite(n.announce[g].session, AppUnpull(g))
  {
    var k := DropStalePulls(n, now);
    WritesFor(k.announce, Orphans(k), w);
    forall g | g in n.announce ensures g in Orphans(k) <==> Deserted(n, now, g) { DesertedOrphaned(n, now, g); }
    assert OnPullCleanup(n, now).written[|n.written|..] == UnpullWrites(k.announce, Orphans(k));
    hide FilterSeq, Orphaned, Deserted, UnpullWrites;
  }

  // ---- the loop that notifies orphaned announcers --------------------------------------

  /** The announce table while the groups of `rest` are still to be looked at. */
  ghost predicate UnpullProgress(m: map<GroupId, Announce>, a: map<GroupId, Announce>, orphans: set<GroupId>,
                                 rest: set<GroupId>) {
    && rest <= a.Keys == m.Keys
    && (forall g :: g in rest ==> a[g] == m[g])
    && (forall g :: g in m && g !in rest ==> a[g] == m[g].(pullSent := m[g].pullSent && g !in orphans))
  }

  lemma UnpullStarts(m: map<GroupId, Announce>, orphans: set<GroupId>)
    requires orphans <= m.Keys
    ensures UnpullProgress(m, m, orphans, m.Keys) && orphans * m.Keys == orphans
  {
  }

  lemma UnpullAdvances(m: map<GroupId, Announce>, a: map<GroupId, Announce>, orphans: set<GroupId>, rest: set<GroupId>,
                       g: GroupId)
    requires UnpullProgress(m, a, orphans, rest) && g in rest
    ensures g in a && g in m && a[g] == m[g]
    ensures UnpullProgress(m, a[g := m[g].(pullSent := m[g].pullSent && g !in orphans)], orphans, rest - {g})
  {
  }

  lemma UnpullEnds(m: map<GroupId, Announce>, a: map<GroupId, Announce>, orphans: set<GroupId>)
    requires UnpullProgress(m, a, orphans, {})
    ensures a == map g | g in m :: m[g].(pullSent := m[g].pullSent && g !in orphans)
    ensures UnpullWrites(m, orphans * {}) == []
  {
    assert orphans * {} == {};
  }

  lemma UniqueMin(s: set<GroupId>, g: GroupId)
    requires g in s && forall x :: x in s ==> g <= x
    ensures MinOf(s) == g
  {
  }

  /** What taking the next group off the work list leaves to be written. */
  lemma UnpullNext(announce: map<GroupId, Announce>, orphans: set<GroupId>, rest: set<GroupId>)
    requires orphans <= announce.Keys && rest != {}
    ensures var g := MinOf(rest);
            UnpullWrites(announce, orphans * rest) ==
            (if g in orphans then [AppWrite(announce[g].session, AppUnpull(g))] else [])
            + UnpullWrites(announce, orphans * (rest - {g}))
  {
    var g := MinOf(rest);
    if g in orphans {
      UniqueMin(orphans * rest, g);
      assert orphans * rest - {g} == orphans * (rest - {g});
    } else {
      assert orphans * rest == orphans * (rest - {g});
    }
  }

  /** A pull of one group says nothing about another. */
  lemma OtherPulls(s: seq<RemotePull>, e: RemotePull, gid: GroupId)
    requires e.gid != gid
    ensures AnyRemote(AddPull(s, e), gid) == AnyRemote(s, gid)
  {
    if AnyRemote(s, gid) {
      var x :| x in s && x.gid == gid;
      AddPullMembers(s, e, x);
    }
    if AnyRemote(AddPull(s, e), gid) {
      var x :| x in AddPull(s, e) && x.gid == gid;
      AddPullMembers(s, e, x);
    }
  }
}
