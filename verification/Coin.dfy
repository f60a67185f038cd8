/** Who becomes a relay on hearing an ACK: the node it names, and whoever wins the coin. */
module Coin {
  import opened Types
  import opened NodeSpec
  import PullTable

  predicate IsChild(n: Node, gid: GroupId, child: NodeId) {
    exists e :: e in n.remotePull && e.gid == gid && e.node == child
  }

  /** The node has the right to flip: it saw the advertisement and has not flipped for it or a later one. */
  predicate MayFlip(n: Node, a: Ack) {
    && AdvId(a.gid, a.srcnode, a.sequence) in n.advSeen
    && (FlowKey(a.gid, a.srcnode) in n.coin ==> n.coin[FlowKey(a.gid, a.srcnode)] < a.sequence)
  }

  lemma PullAdded(s: seq<RemotePull>, e: RemotePull)
    ensures e in AddPull(s, e)
  {
    PullTable.AddPullMembers(s, e, e);
  }

  /** The sender of an ACK is a new child afterwards exactly at the announcing source, at the relay it
      names, and at a node with the right to flip whose draw is below the probability it carries. */
  lemma AdoptsIff(n: Node, a: Ack, from: NodeId, draw: nat, now: int)
    requires OnAck(n, a, from, draw, now).Running? && !IsChild(n, a.gid, from)
    ensures RemotePull(a.gid, from, now) in OnAck(n, a, from, draw, now).node.remotePull <==>
              if a.srcnode == n.id then a.gid in n.announce
              else a.oblig == n.id || (MayFlip(n, a) && draw < a.prob)
  {
    PullAdded(n.remotePull, RemotePull(a.gid, from, now));
    hide AddPull;
  }

  /** A node that is neither source nor named, and does not win, is left as it was but for its coin. */
  lemma LosersRest(n: Node, a: Ack, from: NodeId, draw: nat, now: int)
    requires a.srcnode != n.id && a.oblig != n.id && !(MayFlip(n, a) && draw < a.prob)
    ensures OnAck(n, a, from, draw, now).Running?
    ensures var m := OnAck(n, a, from, draw, now).node;
            m == n.(coin := if MayFlip(n, a) then n.coin[FlowKey(a.gid, a.srcnode) := a.sequence] else n.coin)
  {
  }

  /** Whoever becomes a relay outside the group passes the ACK on to its own next hop, once for a number:
      it then records the number, and an ACK of the flow waits, this one unless another did before. */
  lemma RelaysPassOn(n: Node, a: Ack, from: NodeId, draw: nat, now: int)
    requires OnAck(n, a, from, draw, now).Running? && a.srcnode != n.id
    ensures var m, k := OnAck(n, a, from, draw, now).node, FlowKey(a.gid, a.srcnode);
            var relays := a.oblig == n.id || (MayFlip(n, a) && draw < a.prob);
            var passes := && relays && !IsGroupNode(n, a.gid) && (k in n.ackSent ==> n.ackSent[k] < a.sequence);
            && (passes ==> k in m.ackSent && m.ackSent[k] == a.sequence && k in m.ackTimers && k in n.revPath)
            && (passes && k !in n.ackTimers ==>
                  m.ackTimers[k].oblig == n.revPath[k].next && m.ackTimers[k].sequence == a.sequence
                  && AckFlow(m.ackTimers[k]) == k)
            && (passes && k in n.ackTimers ==> m.ackTimers == n.ackTimers)
            && (!passes ==> m.ackSent == n.ackSent && m.ackTimers == n.ackTimers)
  {
    hide AddPull, IsGroupNode;
  }

  /** Of a hundred equally likely draws, as many make a relay of it as the probability says. */
  lemma Chances(n: Node, a: Ack, from: NodeId, now: int, wins: set<nat>)
    requires a.srcnode != n.id && a.oblig != n.id && MayFlip(n, a) && FlowKey(a.gid, a.srcnode) in n.revPath
    requires !IsChild(n, a.gid, from)
    requires forall draw: nat :: draw in wins <==>
               draw < 100 && OnAck(n, a, from, draw, now).Running?
                 && RemotePull(a.gid, from, now) in OnAck(n, a, from, draw, now).node.remotePull
    ensures |wins| == if a.prob < 100 then a.prob else 100
  {
    forall draw: nat ensures draw in wins <==> draw < 100 && draw < a.prob {
      assert OnAck(n, a, from, draw, now).Running?;
      AdoptsIff(n, a, from, draw, now);
    }
    hide OnAck, MayFlip;
    BelowSize(wins, if a.prob < 100 then a.prob else 100);
  }

  lemma {:induction false} BelowSize(s: set<nat>, top: nat)
    requires forall x: nat :: x in s <==> x < top
    ensures |s| == top
    decreases top
  {
    if top == 0 {
      assert s == {};
    } else {
      assert s == (s - {top - 1}) + {top - 1};
      BelowSize(s - {top - 1}, top - 1);
    }
  }
}
