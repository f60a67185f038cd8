/** A reachable network in which the order of deliveries decides who gets DATA that forbids renewing
    the TTL: the group node 1 hears it directly or by the detour over 2, and 3 hears 1 only. */
module DetourScene {
  import opened Types
  import opened NodeSpec
  import opened Network
  import opened Origin
  import opened Scenes
  import opened Air
  import opened Flood
  import opened FloodOrder
  import opened FloodRound
  import opened FloodOrderRound
  import FloodStart
  import LoopFreedom

  const CLIENT: Session := 5
  const GROUP: GroupId := 7

  const WAYS: Links := {(0, 1), (1, 0), (0, 2), (2, 0), (1, 2), (2, 1), (1, 3), (3, 1)}

  function Registering(): ClientCmd { ClientRegister(GROUP, 2, None, 0, true) }

  function Given(): Data { Data(GROUP, Some(2), 0, 0, 0, true, None, 0, []) }

  function Key(): HashKey { DataHashKey(Given().(sequence := 1)) }

  function Source(i: nat): Node {
    if i == 0 then Newcomer(0)
    else if i == 1 then Then(Source(0), FromClient(CLIENT, Registering(), 0))
    else Then(Source(1), FromClient(CLIENT, ClientData(Given()), 0))
  }

  function Member(i: nat): Node {
    if i == 0 then Newcomer(1) else Then(Member(0), FromClient(CLIENT, ClientPull(GROUP), 0))
  }

  predicate Gathered(net: Net, source: nat) {
    && net.Keys == {0, 1, 2, 3} && net[0] == Source(source) && net[1] == Member(1) && net[2] == Newcomer(2)
    && net[3] == Newcomer(3)
  }

  lemma SourceActs()
    ensures WellBehaved(Source(0), Registering()) && React(Source(0), FromClient(CLIENT, Registering(), 0)).Running?
    ensures WellBehaved(Source(1), ClientData(Given()))
            && React(Source(1), FromClient(CLIENT, ClientData(Given()), 0)).Running?
    ensures Source(1) == Newcomer(0).(announce := Source(1).announce) && GROUP in Source(1).announce
    ensures DataHash(Stamped(Source(1), Given())) == Key()
    ensures Source(2).id == 0 && GROUP in Source(2).announce && |Source(2).sent| == 1
  {
  }

  lemma MemberActs()
    ensures WellBehaved(Member(0), ClientPull(GROUP))
            && React(Member(0), FromClient(CLIENT, ClientPull(GROUP), 0)).Running?
    ensures Member(1) == Newcomer(1).(localPull := [LocalPull(GROUP, CLIENT)])
  {
  }

  lemma Lives()
    ensures Source(0) == Newcomer(0) && Source(1) == Then(Source(0), FromClient(CLIENT, Registering(), 0))
    ensures Source(2) == Then(Source(1), FromClient(CLIENT, ClientData(Given()), 0))
    ensures Member(0) == Newcomer(1) && Member(1) == Then(Member(0), FromClient(CLIENT, ClientPull(GROUP), 0))
  {
    hide Then, Newcomer;
  }

  lemma Prepared() returns (t: Trail)
    ensures IsRun(t) && Gathered(Now(t), 1)
  {
    hide React, Source, Member, Then, IsRun, WellBehaved, Newcomer, Now, Given, Registering;
    SourceActs();
    MemberActs();
    Lives();
    t := Begin({0, 1, 2, 3});
    t := Ask(t, 0, CLIENT, Registering());
    t := Ask(t, 1, CLIENT, ClientPull(GROUP));
  }

  /** The run up to the moment before the client sends, and after. */
  lemma SceneRuns() returns (before: Trail, after: Trail)
    ensures IsRun(before) && Gathered(Now(before), 1) && IsRun(after) && Gathered(Now(after), 2)
    ensures Step(Now(before), 0, FromClient(CLIENT, ClientData(Given()), 0), Now(after))
  {
    hide React, Source, Member, Then, IsRun, WellBehaved, Newcomer, Now, Given, Registering;
    SourceActs();
    Lives();
    before := Prepared();
    after := Ask(before, 0, CLIENT, ClientData(Given()));
    StepThen(Now(before), 0, FromClient(CLIENT, ClientData(Given()), 0));
  }

  // ---- the flood -----------------------------------------------------------------------

  predicate Blank(n: Node) {
    n.hash == map[] && n.sent == [] && n.ackTimers == map[] && n.advTimers == map[] && n.dataTimers == map[]
  }

  lemma AllBlank(net: Net)
    requires Gathered(net, 1)
    ensures forall x :: x in net ==> net[x].id == x && Blank(net[x])
  {
    SourceActs();
    MemberActs();
    hide React, Source, Member;
  }

  lemma NothingHeard(s: Air)
    requires s.flight == {} && forall x :: x in s.nodes ==> s.nodes[x].id == x && Blank(s.nodes[x])
    ensures FloodStart.Unheard(WAYS, s, Key())
  {
    forall x | x in s.nodes ensures NodeMsgs(s.nodes[x]) == {} {}
    hide NodeMsgs, Bystander, Carries;
  }

  /** The client has sent, in a network that can be reached. */
  lemma Sent() returns (t: Trail, s: Air)
    ensures IsRun(t) && s.nodes == Now(t) && Gathered(s.nodes, 2) && FloodStarts(WAYS, s, Key())
            && LoopFreedom.Inv(s.nodes)
  {
    hide React, Source, Member, FloodStarts, LoopFreedom.Inv, FloodStart.Unheard, Aired, Blank, Stamped;
    SourceActs();
    var before;
    before, t := SceneRuns();
    var s0, e := Air(Now(before), {}), FromClient(CLIENT, ClientData(Given()), 0);
    s := Air(Now(t), s0.flight + Aired(WAYS, s0.nodes, 0, s0.nodes[0], Now(t)[0]));
    assert Goes(WAYS, s0, Occurs(0, e), s);
    AllBlank(Now(before));
    NothingHeard(s0);
    FloodStart.ClientDataFloods(WAYS, s0, 0, CLIENT, Given(), 0, s);
    LoopFreedom.RunInv(t.nets, t.moves);
  }

  lemma Roles(s: Air)
    requires Gathered(s.nodes, 2)
    ensures var w := WorldOf(WAYS, s.nodes, Key());
            && w.role.Keys == {0, 1, 2, 3} && w.src == 0 && w.full == 2 && w.links == WAYS
            && RoleOf(w, 1).PassesFirst? && RoleOf(w, 2).PassesOn? && RoleOf(w, 3).PassesOn?
  {
    SourceActs();
    MemberActs();
    hide React, Source, Member;
    assert s.nodes[1].localPull[0] in s.nodes[1].localPull;
  }

  lemma TwoPaths(w: World)
    requires w.role.Keys == {0, 1, 2, 3} && w.src == 0 && w.full == 2 && w.links == WAYS
    ensures Path(w, [0, 1], 1) && Path(w, [0, 2, 1], 1) && Linked(w, 1, 3)
  {
    assert Linked(w, 0, 1) && Linked(w, 0, 2) && Linked(w, 2, 1);
  }

  /** What comes to 3 comes from 1. */
  lemma Via(w: World, p: seq<NodeId>)
    requires w.role.Keys == {0, 1, 2, 3} && w.src == 0 && w.links == WAYS && Path(w, p, 3)
    ensures |p| > 2 && p[|p| - 2] == 1
  {
    assert |p| > 1;
    assert Linked(w, p[|p| - 2], p[|p| - 1]);
  }

  lemma OnlyFromOne(w: World, f: Flood)
    requires w.role.Keys == {0, 1, 2, 3} && w.src == 0 && w.full == 2 && w.links == WAYS
    requires Traced(w, f) && 1 in f.got && f.got[1] == 0
    ensures 3 !in f.got
  {
    hide Path;
    if 3 in f.got && Trace(w, f, 3, f.got[3]) {
      var p :| Path(w, p, 3) && |p| - 1 + f.got[3] == w.full && Passed(w, f, p);
      Via(w, p);
    }
  }

  /** What 1 stored decides about 3. */
  lemma Ends(s: Air, h: HashKey, w: World, ss: seq<Air>, acts: seq<Act>)
    requires FloodStarts(WAYS, s, h) && Completes(WAYS, s, ss, acts) && w == WorldOf(WAYS, s.nodes, h) && Renewless(w)
    requires w.role.Keys == {0, 1, 2, 3} && w.src == 0 && w.full == 2 && w.links == WAYS && RoleOf(w, 1).PassesFirst?
    requires 1 in ss[|acts|].nodes && h in ss[|acts|].nodes[1].hash
    ensures 3 in ss[|acts|].nodes
    ensures ss[|acts|].nodes[1].hash[h] == 1 ==> h in ss[|acts|].nodes[3].hash
    ensures ss[|acts|].nodes[1].hash[h] == 0 ==> h !in ss[|acts|].nodes[3].hash
  {
    hide FloodStarts, WorldOf, FloodOf, FloodInv, Traced, Over, Renewless, Goes, Quiescent;
    EndTraced(WAYS, s, h, w, ss, acts);
    SameNodes(w, ss[|acts|].nodes, h);
    EndsIn(ss[|acts|], h, w);
  }

  lemma SameNodes(w: World, nodes: Net, h: HashKey)
    requires w == WorldOf(WAYS, nodes, h)
    ensures nodes.Keys == w.role.Keys
  {
  }

  lemma EndsIn(r: Air, h: HashKey, w: World)
    requires Renewless(w) && w.role.Keys == {0, 1, 2, 3} && w.src == 0 && w.full == 2 && w.links == WAYS
             && RoleOf(w, 1).PassesFirst?
    requires FloodInv(w, FloodOf(r, h)) && Traced(w, FloodOf(r, h)) && Over(FloodOf(r, h))
    requires 1 in r.nodes && 3 in r.nodes && h in r.nodes[1].hash
    ensures r.nodes[1].hash[h] == 1 ==> h in r.nodes[3].hash
    ensures r.nodes[1].hash[h] == 0 ==> h !in r.nodes[3].hash
  {
    hide FloodOf, FloodInv, Traced, Over, Renewless, Path;
    SeeGot(r, h, 1);
    SeeGot(r, h, 3);
    TwoPaths(w);
    if r.nodes[1].hash[h] == 1 {
      StepWalked(w, FloodOf(r, h), 1, 3, 1);
    } else if r.nodes[1].hash[h] == 0 {
      OnlyFromOne(w, FloodOf(r, h));
    }
  }

  /** Two complete rounds from one reachable network: node 3 gets the message in one and not in the other. */
  lemma OrderMatters() returns (nets: seq<Net>, moves: seq<Move>, s: Air, h: HashKey, ss: seq<Air>, acts: seq<Act>,
                                rs: seq<Air>, bs: seq<Act>)
    ensures Run(nets, moves) && |nets| == |moves| + 1 && s.nodes == nets[|moves|] && FloodStarts(WAYS, s, h)
            && h.DataHashKey? && h.data.nottlregen
    ensures Completes(WAYS, s, ss, acts) && 3 in ss[|acts|].nodes && h in ss[|acts|].nodes[3].hash
    ensures Completes(WAYS, s, rs, bs) && 3 in rs[|bs|].nodes && h !in rs[|bs|].nodes[3].hash
  {
    hide React, Source, Member, FloodStarts, LoopFreedom.Inv, WorldOf, Path, Round, Quiescent, Start;
    var t;
    t, s := Sent();
    h := Key();
    nets, moves := t.nets, t.moves;
    var w := WorldOf(WAYS, s.nodes, h);
    Roles(s);
    TwoPaths(w);
    RenewlessWorld(WAYS, s, h);
    ss, acts := PathRealised(WAYS, s, h, w, [0, 1], 1);
    rs, bs := PathRealised(WAYS, s, h, w, [0, 2, 1], 1);
    Ends(s, h, w, ss, acts);
    Ends(s, h, w, rs, bs);
  }
}
