/** The time index of the hash table: its order, its agreement with the table, and expiry. */
module HashIndex {
  import opened Types
  import opened NodeSpec

  ghost predicate Sorted(s: seq<HashTime>) { forall i, j :: 0 <= i < j < |s| ==> s[i].time <= s[j].time }

  ghost predicate Distinct(s: seq<HashTime>) { forall i, j :: 0 <= i < j < |s| ==> s[i].key != s[j].key }

  ghost predicate Lists(s: seq<HashTime>, h: HashKey) { exists i :: 0 <= i < |s| && s[i].key == h }

  /** The index is ordered by time and lists every key of the table exactly once. */
  ghost predicate Indexed(hash: map<HashKey, u32>, s: seq<HashTime>) {
    && Sorted(s) && Distinct(s)
    && (forall h :: h in hash <==> Lists(s, h))
  }

  /** Insertion places one entry between those that are not later and those that are. */
  lemma {:induction false} InsertSplits(s: seq<HashTime>, e: HashTime) returns (p: nat)
    requires Sorted(s)
    ensures p <= |s| && InsertTime(s, e) == s[..p] + [e] + s[p..]
    ensures (forall i :: 0 <= i < p ==> s[i].time <= e.time) && (forall i :: p <= i < |s| ==> e.time < s[i].time)
  {
    if s == [] || e.time < s[0].time {
      p := 0;
    } else {
      var q := InsertSplits(s[1..], e);
      p := q + 1;
      assert s[..p] == [s[0]] + s[1..][..q] && s[p..] == s[1..][q..];
      forall i | p <= i < |s| ensures e.time < s[i].time { assert s[i] == s[1..][i - 1]; }
      forall i | 0 <= i < p ensures s[i].time <= e.time { if i > 0 { assert s[i] == s[1..][i - 1]; } }
    }
  }

  lemma InsertKeepsOrder(s: seq<HashTime>, e: HashTime, p: nat)
    requires p <= |s| && Sorted(s)
    requires (forall i :: 0 <= i < p ==> s[i].time <= e.time) && (forall i :: p <= i < |s| ==> e.time < s[i].time)
    ensures Sorted(s[..p] + [e] + s[p..])
  {
  }

  lemma InsertKeepsDistinct(s: seq<HashTime>, e: HashTime, p: nat)
    requires p <= |s| && Distinct(s) && !Lists(s, e.key)
    ensures Distinct(s[..p] + [e] + s[p..])
  {
  }

  lemma InsertLists(s: seq<HashTime>, e: HashTime, p: nat, h: HashKey)
    requires p <= |s|
    ensures Lists(s[..p] + [e] + s[p..], h) <==> Lists(s, h) || h == e.key
  {
    var r := s[..p] + [e] + s[p..];
    assert r[p] == e;
    if Lists(s, h) {
      var i :| 0 <= i < |s| && s[i].key == h;
      assert r[if i < p then i else i + 1] == s[i];
    }
    if Lists(r, h) {
      var i :| 0 <= i < |r| && r[i].key == h;
      assert i != p ==> r[i] == s[if i < p then i else i - 1];
    }
  }

  /** Adding a new key to both tables keeps them in agreement. */
  lemma AddKeepsIndex(hash: map<HashKey, u32>, s: seq<HashTime>, h: HashKey, ttl: u32, now: int)
    requires Indexed(hash, s) && h !in hash
    ensures Indexed(hash[h := ttl], InsertTime(s, HashTime(now, h)))
  {
    var e := HashTime(now, h);
    var p := InsertSplits(s, e);
    InsertKeepsOrder(s, e, p);
    InsertKeepsDistinct(s, e, p);
    forall g ensures g in hash[h := ttl] <==> Lists(InsertTime(s, e), g) {
      InsertLists(s, e, p, g);
    }
  }

  /** Filtering keeps exactly the elements asked for. */
  lemma {:induction false} FilterMembers<T>(s: seq<T>, keep: T -> bool, x: T)
    ensures x in FilterSeq(s, keep) <==> x in s && keep(x)
  {
    if s != [] {
      FilterMembers(s[1..], keep, x);
      assert x in s <==> x == s[0] || x in s[1..];
    }
  }

  lemma {:induction false} FilterAll<T>(s: seq<T>, keep: T -> bool)
    requires forall x :: x in s ==> keep(x)
    ensures FilterSeq(s, keep) == s
  {
    if s != [] {
      forall x | x in s[1..] ensures keep(x) { assert x in s; }
      FilterAll(s[1..], keep);
      assert s == [s[0]] + s[1..] && s[0] in s;
    }
  }

  lemma {:induction false} FilterDrop<T>(s: seq<T>, p: nat, keep: T -> bool)
    requires p <= |s| && forall i :: 0 <= i < p ==> !keep(s[i])
    ensures FilterSeq(s, keep) == FilterSeq(s[p..], keep)
  {
    if p == 0 {
      assert s[0..] == s;
    } else {
      assert s[1..][p - 1..] == s[p..];
      FilterDrop(s[1..], p - 1, keep);
    }
  }

  /** Where a loop that erases as it goes stands: the first `i` entries are settled. */
  ghost function Settled<T>(s: seq<T>, i: nat, keep: T -> bool): seq<T>
    requires i <= |s|
  {
    s[..i] + FilterSeq(s[i..], keep)
  }

  lemma SettledStart<T>(s: seq<T>, keep: T -> bool)
    ensures Settled(s, 0, keep) == FilterSeq(s, keep)
  {
    assert s[0..] == s;
  }

  lemma SettledErase<T>(s: seq<T>, i: nat, keep: T -> bool)
    requires i < |s| && !keep(s[i])
    ensures Settled(s[..i] + s[i + 1..], i, keep) == Settled(s, i, keep)
  {
    var t := s[..i] + s[i + 1..];
    assert t[..i] == s[..i] && t[i..] == s[i + 1..];
    assert s[i..][0] == s[i] && s[i..][1..] == s[i + 1..];
  }

  lemma SettledKeep<T>(s: seq<T>, i: nat, keep: T -> bool)
    requires i < |s| && keep(s[i])
    ensures Settled(s, i + 1, keep) == Settled(s, i, keep)
  {
    assert s[i..][0] == s[i] && s[i..][1..] == s[i + 1..];
    assert s[..i + 1] == s[..i] + [s[i]];
  }

  lemma SettledEnd<T>(s: seq<T>, keep: T -> bool)
    ensures Settled(s, |s|, keep) == s
  {
    assert s[|s|..] == [] && s[..|s|] == s;
  }

  /** `p` entries have expired and the next one, if any, has not. */
  ghost predicate Boundary(s: seq<HashTime>, now: int, limit: real, p: nat) {
    && p <= |s|
    && (forall i :: 0 <= i < p ==> Expired(now, s[i].time, limit))
    && (p < |s| ==> !Expired(now, s[p].time, limit))
  }

  lemma LaterIsFresh(s: seq<HashTime>, now: int, limit: real, p: nat, i: nat)
    requires Sorted(s) && Boundary(s, now, limit, p) && p <= i < |s|
    ensures !Expired(now, s[i].time, limit)
  {
    assert s[p].time <= s[i].time;
  }

  /** Because the index is ordered, everything before the first fresh entry has expired and
      everything from it on is fresh: stopping there loses nothing. */
  lemma FreshIsSuffix(s: seq<HashTime>, now: int, limit: real, p: nat)
    requires Sorted(s) && Boundary(s, now, limit, p)
    ensures Fresh(s, now, limit) == s[p..]
  {
    var keep := (e: HashTime) => !Expired(now, e.time, limit);
    forall x | x in s[p..] ensures keep(x) {
      var i :| 0 <= i < |s[p..]| && s[p..][i] == x;
      LaterIsFresh(s, now, limit, p, p + i);
    }
    FilterDrop(s, p, keep);
    FilterAll(s[p..], keep);
  }

  ghost function KeysBefore(s: seq<HashTime>, p: nat): set<HashKey>
    requires p <= |s|
  {
    set i | 0 <= i < p :: s[i].key
  }

  lemma ExpiredIsPrefix(s: seq<HashTime>, now: int, limit: real, p: nat)
    requires Sorted(s) && Boundary(s, now, limit, p)
    ensures ExpiredKeys(s, now, limit) == KeysBefore(s, p)
  {
    forall h | h in ExpiredKeys(s, now, limit) ensures h in KeysBefore(s, p) {
      var e :| e in s && Expired(now, e.time, limit) && e.key == h;
      var i :| 0 <= i < |s| && s[i] == e;
      if i >= p { LaterIsFresh(s, now, limit, p, i); }
    }
    forall h | h in KeysBefore(s, p) ensures h in ExpiredKeys(s, now, limit) {
      var i :| 0 <= i < p && s[i].key == h;
      assert s[i] in s;
    }
  }

  /** Dropping a prefix of the index and its keys keeps the tables in agreement. */
  lemma DropKeepsIndex(hash: map<HashKey, u32>, s: seq<HashTime>, p: nat)
    requires Indexed(hash, s) && p <= |s|
    ensures Indexed(hash - KeysBefore(s, p), s[p..])
    ensures forall i :: 0 <= i < |s| ==> (s[i].key in hash - KeysBefore(s, p) <==> p <= i)
  {
    forall i | 0 <= i < |s| ensures s[i].key in hash - KeysBefore(s, p) <==> p <= i {
      assert Lists(s, s[i].key);
    }
    forall h ensures h in hash - KeysBefore(s, p) <==> Lists(s[p..], h) {
      if Lists(s[p..], h) {
        var i :| 0 <= i < |s[p..]| && s[p..][i].key == h;
        assert s[p + i].key == h;
      }
      if h in hash - KeysBefore(s, p) {
        assert Lists(s, h);
        var i :| 0 <= i < |s| && s[i].key == h;
        assert s[p..][i - p].key == h;
      }
    }
  }

  /** The table after the first `p` index entries have been worked off. */
  ghost function Remaining(hash: map<HashKey, u32>, s: seq<HashTime>, p: nat): map<HashKey, u32>
    requires p <= |s|
  {
    hash - KeysBefore(s, p)
  }

  lemma CleanupStarts(hash: map<HashKey, u32>, s: seq<HashTime>)
    ensures Remaining(hash, s, 0) == hash && s[0..] == s
  {
  }

  lemma CleanupStep(hash: map<HashKey, u32>, s: seq<HashTime>, p: nat)
    requires Indexed(hash, s) && p < |s|
    ensures s[p].key in Remaining(hash, s, p)
    ensures Remaining(hash, s, p) - {s[p].key} == Remaining(hash, s, p + 1)
    ensures s[p..][0] == s[p] && s[p..][1..] == s[p + 1..]
  {
    DropKeepsIndex(hash, s, p);
    assert KeysBefore(s, p + 1) == KeysBefore(s, p) + {s[p].key};
  }

  lemma CleanupEnds(hash: map<HashKey, u32>, s: seq<HashTime>, now: int, limit: real, p: nat)
    requires Indexed(hash, s) && Boundary(s, now, limit, p)
    ensures Indexed(Remaining(hash, s, p), s[p..])
    ensures Remaining(hash, s, p) == hash - ExpiredKeys(s, now, limit) && s[p..] == Fresh(s, now, limit)
  {
    FreshIsSuffix(s, now, limit, p);
    ExpiredIsPrefix(s, now, limit, p);
    DropKeepsIndex(hash, s, p);
  }

  lemma {:induction false} FindBoundary(s: seq<HashTime>, now: int, limit: real) returns (p: nat)
    ensures Boundary(s, now, limit, p)
  {
    p := 0;
    while p < |s| && Expired(now, s[p].time, limit)
      invariant p <= |s|
      invariant forall i :: 0 <= i < p ==> Expired(now, s[i].time, limit)
    {
      p := p + 1;
    }
  }

  ghost predicate NodeIndexed(n: Node) { Indexed(n.hash, n.hashTime) }

  /** After a cleanup the two tables still agree, and a key survives exactly when it was
      inserted no longer than the expiry time ago. */
  lemma CleanupExact(n: Node, now: int)
    requires NodeIndexed(n)
    ensures NodeIndexed(OnHashCleanup(n, now))
    ensures forall i :: 0 <= i < |n.hashTime| ==>
              (n.hashTime[i].key in OnHashCleanup(n, now).hash <==> (now - n.hashTime[i].time) as real <= n.hashExpire)
  {
    var s := n.hashTime;
    var p := FindBoundary(s, now, n.hashExpire);
    CleanupEnds(n.hash, s, now, n.hashExpire, p);
    DropKeepsIndex(n.hash, s, p);
    forall i | 0 <= i < |s| ensures p <= i <==> !Expired(now, s[i].time, n.hashExpire) {
      if p <= i { LaterIsFresh(s, now, n.hashExpire, p, i); }
    }
  }
}
