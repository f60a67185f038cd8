/** The basic client application: it numbers its messages, stops after so many, and tells new
    messages from repeats. */
module BasicClient {
  import opened Types
  import Payload
  import opened GcnClient

  // ---- sending -------------------------------------------------------------------------

  /** The number of the next message and whether the send timer is running. */
  datatype Sender = Sender(counter: u32, armed: bool)

  /** One send timeout; `stop` zero means no limit. */
  function Tick(b: Sender, stop: u32, pushes: bool, ok: bool, timeLeft: bool): Sender {
    var c := if ok then Inc32(b.counter) else b.counter;
    Sender(c, pushes && !(stop != 0 && c > stop) && timeLeft)
  }

  /** What a timeout meets: whether the message could be sent, and whether there is time left. */
  datatype Timeout = Timeout(ok: bool, timeLeft: bool)

  function After(stop: u32, pushes: bool, ts: seq<Timeout>): Sender {
    if ts == [] then Sender(1, pushes)
    else
      var t := ts[|ts| - 1];
      Tick(After(stop, pushes, ts[..|ts| - 1]), stop, pushes, t.ok, t.timeLeft)
  }

  /** The timer was running for each of the timeouts. */
  predicate Happens(stop: u32, pushes: bool, ts: seq<Timeout>) {
    ts == [] || (Happens(stop, pushes, ts[..|ts| - 1]) && After(stop, pushes, ts[..|ts| - 1]).armed)
  }

  function Sent(ts: seq<Timeout>): nat {
    if ts == [] then 0 else Sent(ts[..|ts| - 1]) + if ts[|ts| - 1].ok then 1 else 0
  }

  /** With a limit below the largest number, no more messages are sent than it says. */
  lemma {:induction false} StopsInTime(stop: u32, pushes: bool, ts: seq<Timeout>)
    requires 0 < stop < U32 - 1 && Happens(stop, pushes, ts)
    ensures Sent(ts) <= stop && After(stop, pushes, ts).counter == Sent(ts) + 1
            && (After(stop, pushes, ts).armed ==> Sent(ts) < stop)
    decreases |ts|
  {
    if ts != [] {
      StopsInTime(stop, pushes, ts[..|ts| - 1]);
    }
  }

  function Good(n: nat): seq<Timeout> { seq(n, _ => Timeout(true, true)) }

  /** With the largest number for a limit the counter wraps before it exceeds it: any number of
      messages may be sent. */
  lemma {:induction false} NeverStops(n: nat)
    ensures Happens(U32 - 1, true, Good(n)) && After(U32 - 1, true, Good(n)) == Sender((1 + n) % U32, true)
            && Sent(Good(n)) == n
    decreases n
  {
    if n > 0 {
      NeverStops(n - 1);
      assert Good(n)[..n - 1] == Good(n - 1);
      OneOn(n);
    }
  }

  lemma OneOn(n: nat)
    ensures (n % U32 + 1) % U32 == (1 + n) % U32
  {
  }

  /** A limit holds for every way the timeouts may go exactly when it is below the largest number. */
  lemma LimitHolds(stop: u32)
    requires stop > 0
    ensures (forall pushes, ts :: Happens(stop, pushes, ts) ==> Sent(ts) <= stop) <==> stop < U32 - 1
  {
    hide Happens, After, Sent;
    if stop < U32 - 1 {
      forall pushes, ts | Happens(stop, pushes, ts) ensures Sent(ts) <= stop {
        StopsInTime(stop, pushes, ts);
      }
    } else {
      NeverStops(U32);
      assert Happens(stop, true, Good(U32));
    }
  }

  /** The number of the next message is one more than the messages sent, on 32 bits; and the timer runs on
      exactly if the client pushes, time is left, and there is no limit or the number has not passed it. */
  lemma {:induction false} RunsOnIff(stop: u32, pushes: bool, ts: seq<Timeout>)
    ensures After(stop, pushes, ts).counter == (1 + Sent(ts)) % U32
    ensures After(stop, pushes, ts).armed <==>
              pushes && (ts == [] || (ts[|ts| - 1].timeLeft && (stop == 0 || (1 + Sent(ts)) % U32 <= stop)))
    decreases |ts|
  {
    if ts != [] {
      RunsOnIff(stop, pushes, ts[..|ts| - 1]);
      OneOn(Sent(ts[..|ts| - 1]));
      OneOn(1 + Sent(ts[..|ts| - 1]));
    }
  }

  /** Without a limit a client that pushes sends on for as long as there is time. */
  lemma {:induction false} NoLimit(ts: seq<Timeout>)
    requires forall i :: 0 <= i < |ts| ==> ts[i].timeLeft
    ensures Happens(0, true, ts) && After(0, true, ts).armed
    decreases |ts|
  {
    if ts != [] {
      NoLimit(ts[..|ts| - 1]);
    }
    RunsOnIff(0, true, ts);
  }

  // ---- receiving -----------------------------------------------------------------------

  datatype DataKey = DataKey(gid: GroupId, src: NodeId, number: u32)

  /** The key of a message: its group, its source and the number in the second word of its payload.
      Without a second word the source reads past its tokens: `stray` is whatever it finds there. */
  function KeyOf(d: Data, stray: u32): DataKey {
    DataKey(d.gid, d.srcnode, Payload.NumberIn(Payload.Text(d.payload), stray))
  }

  /** The keys met for one group. */
  function Of(seen: set<DataKey>, g: GroupId): set<DataKey> { set k | k in seen && k.gid == g }

  /** The receive count of a group is, on 32 bits, the number of distinct keys met for it. */
  ghost predicate Distinct(c: Client, seen: set<DataKey>, g: GroupId) {
    if g in c.groups then c.groups[g].recvCount == |Of(seen, g)| % U32 else Of(seen, g) == {}
  }

  /** A message whose key is new counts; a repeat does not. */
  lemma DistinctStays(c: Client, seen: set<DataKey>, d: Data, stray: u32, g: GroupId)
    requires Distinct(c, seen, g) && OnData(c, d, KeyOf(d, stray) !in seen).Running?
    ensures Distinct(OnData(c, d, KeyOf(d, stray) !in seen).client, seen + {KeyOf(d, stray)}, g)
  {
    hide Answer, Payload.NumberIn;
    var k := KeyOf(d, stray);
    if g == d.gid {
      assert k in seen <==> k in Of(seen, g);
      if k in seen {
        assert Of(seen + {k}, g) == Of(seen, g);
      } else {
        assert Of(seen + {k}, g) == Of(seen, g) + {k};
        assert |Of(seen + {k}, g)| == |Of(seen, g)| + 1;
        OneOn(|Of(seen, g)|);
      }
    } else {
      assert Of(seen + {k}, g) == Of(seen, g);
    }
  }

  lemma OthersKeepDistinct(c: Client, seen: set<DataKey>, e: Input, g: GroupId)
    requires Distinct(c, seen, g) && React(c, e).Running? && !(e.Hearing? && e.msg.AppData?)
    ensures Distinct(React(c, e).client, seen, g)
  {
    hide Answer, Message, Of;
  }

  /** The keys met before and after one input, the handler's answer being whether the key is new. */
  ghost predicate Meets(seen: set<DataKey>, e: Input, next: set<DataKey>) {
    if e.Hearing? && e.msg.AppData? then exists stray: u32 :: Files(seen, e.msg.data, stray, e.isNew, next)
    else next == seen
  }

  predicate Files(seen: set<DataKey>, d: Data, stray: u32, isNew: bool, next: set<DataKey>) {
    isNew == (KeyOf(d, stray) !in seen) && next == seen + {KeyOf(d, stray)}
  }

  /** In every life of a client each receive count is the number of distinct group, source and message
      numbers met, on 32 bits. */
  lemma {:induction false} LifeDistinct(cs: seq<Client>, es: seq<Input>, seens: seq<set<DataKey>>, g: GroupId)
    requires Life(cs, es) && |seens| == |cs| && seens[0] == {}
             && forall i :: 0 <= i < |es| ==> Meets(seens[i], es[i], seens[i + 1])
    ensures Distinct(cs[|es|], seens[|es|], g)
    decreases |es|
  {
    hide React, KeyOf, OnData;
    if es != [] {
      var last := |es| - 1;
      var e := es[last];
      LifeDistinct(cs[..|es|], es[..last], seens[..|es|], g);
      assert React(cs[last], e) == Running(cs[last + 1]) && Meets(seens[last], e, seens[last + 1]);
      if e.Hearing? && e.msg.AppData? {
        assert OnData(cs[last], e.msg.data, e.isNew) == Running(cs[last + 1]) by { HearingData(cs[last], e); }
        var stray: u32 :| Files(seens[last], e.msg.data, stray, e.isNew, seens[last + 1]);
        DistinctStays(cs[last], seens[last], e.msg.data, stray, g);
      } else {
        OthersKeepDistinct(cs[last], seens[last], e, g);
      }
    }
  }

  lemma HearingData(c: Client, e: Input)
    requires e.Hearing? && e.msg.AppData?
    ensures React(c, e) == OnData(c, e.msg.data, e.isNew)
  {
  }

  /** What one broadcasting client writes, a receiving one files under its node and number. */
  lemma NumberArrives(micro: nat, counter: u32, node: NodeId, size: nat, d: Data, stray: u32)
    requires d.payload == Payload.Bytes(Payload.Built(micro, counter, node, size)) && d.uheader.None?
             && d.srcnode == node
    ensures KeyOf(d, stray) == DataKey(d.gid, node, counter)
  {
    Payload.BuiltAscii(micro, counter, node, size);
    Payload.TextOfBytes(Payload.Built(micro, counter, node, size));
    Payload.PayloadRead(micro, counter, node, size);
    Payload.ReadsNumber(Payload.Built(micro, counter, node, size), false, stray);
  }

  // ---- the class -----------------------------------------------------------------------

  class BasicClient {
    const nodeId: NodeId
    const gid: GroupId
    const stopCount: u32
    const pushes: bool
    const size: nat
    const gcn: GcnClient
    var sender: Sender
    var seen: set<DataKey>

    constructor (nodeId: NodeId, gid: GroupId, stopCount: u32, pushes: bool, size: nat, gcn: GcnClient)
      ensures this.gcn == gcn && this.stopCount == stopCount && this.gid == gid && this.pushes == pushes
      ensures sender == Sender(1, pushes) && seen == {}
    {
      this.nodeId, this.gid, this.stopCount, this.pushes, this.size, this.gcn := nodeId, gid, stopCount, pushes, size,
        gcn;
      sender, seen := Sender(1, pushes), {};
    }

    /** The payload goes to the library; the number advances only when the message left. */
    method OnSendTimeout(micro: nat, timeLeft: bool) returns (ok: bool, fatal: bool)
      modifies this`sender, gcn
      ensures fatal <==> OnSend(old(gcn.View()), gid,
                                Payload.Bytes(Payload.Built(micro, old(sender).counter, nodeId, size)), 0).Fatal?
      ensures !fatal ==> gcn.View() == OnSend(old(gcn.View()), gid,
                                              Payload.Bytes(Payload.Built(micro, old(sender).counter, nodeId, size)),
                                                0).client
      ensures !fatal ==> sender == Tick(old(sender), stopCount, pushes, ok, timeLeft)
      ensures ok <==> gid in old(gcn.groups) && old(gcn.groups)[gid].hasSubscribers
    {
      var text := Payload.Build(micro, sender.counter, nodeId, size);
      ok, fatal := gcn.SendMessage(gid, Payload.Bytes(text), 0);
      if !fatal {
        if ok {
          sender := sender.(counter := Inc32(sender.counter));
        }
        sender := sender.(armed := pushes && !(stopCount != 0 && sender.counter > stopCount) && timeLeft);
      }
    }

    /** The library hands over a message it received. */
    method ProcessData(d: Data, stray: u32) returns (isNew: bool)
      modifies this`seen
      ensures isNew <==> KeyOf(d, stray) !in old(seen)
      ensures seen == old(seen) + {KeyOf(d, stray)}
    {
      var k := KeyOf(d, stray);
      isNew := k !in seen;
      seen := seen + {k};
    }
  }
}
