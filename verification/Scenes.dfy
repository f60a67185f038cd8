/** Building blocks for concrete runs. */
module Scenes {
  import opened Types
  import opened NodeSpec
  import opened Network

  /** The node after an event that does not end the service. */
  function Then(n: Node, e: Event): Node { if React(n, e).Running? then React(n, e).node else n }

  /** A service of node `x` that forgets hashes after 50 and remote pulls after 60 seconds. */
  function Newcomer(x: NodeId): Node { FreshNode(x, false, 50.0, 60.0) }

  datatype Trail = Trail(nets: seq<Net>, moves: seq<Move>)

  /** A run. */
  ghost predicate IsRun(t: Trail) { Run(t.nets, t.moves) }

  /** The network it has led to. */
  function Now(t: Trail): Net { if |t.nets| > 0 then t.nets[|t.nets| - 1] else map[] }

  lemma Begin(ids: set<NodeId>) returns (t: Trail)
    ensures IsRun(t) && Forgetless(t) && t.moves == [] && Now(t).Keys == ids
            && forall x :: x in ids ==> Now(t)[x] == Newcomer(x)
  {
    t := Trail([map x | x in ids :: Newcomer(x)], []);
  }

  lemma Shape(nets: seq<Net>, moves: seq<Move>)
    requires Run(nets, moves)
    ensures |nets| == |moves| + 1
  {
  }

  /** What has happened in `t` has happened in `r`, at the same time. */
  ghost predicate Before(t: Trail, r: Trail) { t.nets <= r.nets && t.moves <= r.moves }

  /** No node has forgotten a hash. */
  ghost predicate Forgetless(t: Trail) { forall i :: 0 <= i < |t.moves| ==> !t.moves[i].event.HashTimer? }

  /** One more event. */
  ghost predicate Grows(t: Trail, x: NodeId, e: Event, r: Trail) {
    && IsRun(r) && Before(t, r) && |r.moves| == |t.moves| + 1 && r.moves[|t.moves|] == Move(x, e)
    && x in Now(t) && Now(r) == Now(t)[x := Then(Now(t)[x], e)] && (Forgetless(t) && !e.HashTimer? ==> Forgetless(r))
  }

  lemma Grow(t: Trail, x: NodeId, e: Event) returns (r: Trail)
    requires IsRun(t) && Enabled(Now(t), x, e) && React(Now(t)[x], e).Running?
    ensures Grows(t, x, e, r)
  {
    var net := Now(t);
    assert x in net;
    hide React, Start, Enabled;
    r := Trail(t.nets + [net[x := Then(net[x], e)]], t.moves + [Move(x, e)]);
    assert Step(net, x, e, net[x := Then(net[x], e)]) by { StepThen(net, x, e); }
    forall i | 0 <= i < |r.moves| ensures Step(r.nets[i], r.moves[i].node, r.moves[i].event, r.nets[i + 1]) {
      if i < |t.moves| {
        assert Step(t.nets[i], t.moves[i].node, t.moves[i].event, t.nets[i + 1]);
      }
    }
  }

  lemma StepThen(net: Net, x: NodeId, e: Event)
    requires Enabled(net, x, e) && React(net[x], e).Running?
    ensures Step(net, x, e, net[x := Then(net[x], e)])
  {
    hide React;
  }

  lemma Hear(t: Trail, x: NodeId, from: NodeId, m: OtaMsg, now: int) returns (r: Trail)
    requires IsRun(t) && x in Now(t) && from in Now(t) && m in Now(t)[from].sent
    requires React(Now(t)[x], Receive(from, m, 0, now)).Running?
    ensures Grows(t, x, Receive(from, m, 0, now), r)
  {
    hide React, IsRun, Forgetless;
    r := Grow(t, x, Receive(from, m, 0, now));
  }

  lemma Ask(t: Trail, x: NodeId, s: Session, c: ClientCmd) returns (r: Trail)
    requires IsRun(t) && x in Now(t) && WellBehaved(Now(t)[x], c) && React(Now(t)[x], FromClient(s, c, 0)).Running?
    ensures Grows(t, x, FromClient(s, c, 0), r)
  {
    hide React, IsRun, Forgetless;
    r := Grow(t, x, FromClient(s, c, 0));
  }

  /** A timer, a cleanup or an announcement. */
  lemma Wait(t: Trail, x: NodeId, e: Event) returns (r: Trail)
    requires IsRun(t) && x in Now(t) && !e.Receive? && !e.FromClient? && React(Now(t)[x], e).Running?
    ensures Grows(t, x, e, r)
  {
    hide IsRun, Forgetless, OnHashCleanup, OnPullCleanup, OnClose;
    r := Grow(t, x, e);
  }
}
