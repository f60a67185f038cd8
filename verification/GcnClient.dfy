/** The client library: it registers or subscribes, keeps its sends back until the service reports
    subscribers, and counts its messages. */
module GcnClient {
  import opened Types
  import Pulls
  import Payload

  /** ClientGroupInfo: `kind` 0 listens, 1 sends, 2 does both; a negative announce rate means that
      no advertisements and ACKs are used. */
  datatype GroupInfo = GroupInfo(
    kind: int, srcTtl: u32, rate: real, ackProb: u32, responds: bool, respFreq: u32, respTtl: u32,
    resilience: Resilience, regenerates: bool, hasSubscribers: bool, dest: NodeId,
    recvCount: u32, sendCount: u32, recvUni: u32, sendUni: u32)

  datatype Client = Client(groups: map<GroupId, GroupInfo>, sent: seq<ClientCmd>)

  /** Fatal stands for the exit on a group the client does not know, or on a response frequency of zero. */
  datatype Outcome = Running(client: Client) | Fatal

  // ---- what it sends -------------------------------------------------------------------

  function Registration(gid: GroupId, i: GroupInfo): ClientCmd {
    if i.rate >= 0.0 then ClientRegister(gid, i.srcTtl, Some(i.rate.Floor % U32), i.ackProb, !i.regenerates)
    else ClientRegister(gid, i.srcTtl, None, 0, false)
  }

  function Header(dest: NodeId, r: Resilience): Option<UnicastHeader> { Some(UnicastHeader(dest, 0, Some(r))) }

  /** The DATA of a send: unicast to a named node, unicast to a node that wrote before, or to the group. */
  function Message(gid: GroupId, i: GroupInfo, payload: Types.Payload, dest: NodeId): Data {
    var ttl := if i.rate < 0.0 then Some(if dest != 0 || i.dest != 0 then i.respTtl else i.srcTtl) else None;
    if dest != 0 then Data(gid, ttl, 0, 0, 0, false, Header(dest, i.resilience), 0, payload)
    else if i.dest != 0 then Data(gid, ttl, 0, 0, 0, false, Header(i.dest, i.resilience), 0, payload)
    else Data(gid, ttl, 0, 0, 0, i.rate < 0.0 && !i.regenerates, None, 0, payload)
  }

  /** The unicast answer to a received message. */
  function Answer(gid: GroupId, i: GroupInfo, d: Data): Data {
    var ttl := if d.srcttl.None? then None else if i.respTtl != 0 then Some(i.respTtl) else d.srcttl;
    Data(gid, ttl, 0, 0, 0, false, Header(d.srcnode, i.resilience), 0,
         Payload.Bytes(Payload.Response(i.recvCount, d.srcnode, d.gid)))
  }

  // ---- handlers ------------------------------------------------------------------------

  function OnStart(c: Client, gid: GroupId, config: GroupInfo): Client {
    var i := if gid in c.groups then c.groups[gid]
        else config.(hasSubscribers := true, dest := 0, recvCount := 0, sendCount := 0, recvUni := 0, sendUni := 0);
    Client(c.groups[gid := if i.kind > 0 && i.rate >= 0.0 then i.(hasSubscribers := false) else i],
           c.sent + (if i.kind > 0 then [Registration(gid, i)] else []) + (if i.kind == 0 || i.kind == 2
               then [ClientPull(gid)] else []))
  }

  /** `isNew` is what the application's handler says of the message. */
  function Received(i: GroupInfo, d: Data, isNew: bool): GroupInfo {
    i.(recvCount := if isNew then Inc32(i.recvCount) else i.recvCount, recvUni := if d.uheader.Some?
       then Inc32(i.recvUni) else i.recvUni)
  }

  function OnData(c: Client, d: Data, isNew: bool): Outcome {
    if d.gid !in c.groups then Fatal
    else
      var i := Received(c.groups[d.gid], d, isNew);
      if !i.responds then Running(c.(groups := c.groups[d.gid := i]))
      else if i.kind == 1 then Running(c.(groups := c.groups[d.gid := i.(dest := d.srcnode)]))
      else if i.respFreq == 0 then Fatal
      else if i.recvCount % i.respFreq != 0 then Running(c.(groups := c.groups[d.gid := i]))
      else Running(Client(c.groups[d.gid := i.(sendUni := Inc32(i.sendUni), sendCount := Inc32(i.sendCount))],
                          c.sent + [ClientData(Answer(d.gid, i, d))]))
  }

  function OnMessage(c: Client, m: AppMsg, isNew: bool): Outcome {
    match m
    case AppPull(gid) => if gid !in c.groups then Fatal
      else Running(c.(groups := c.groups[gid := c.groups[gid].(hasSubscribers := true)]))
    case AppUnpull(gid) => if gid !in c.groups then Fatal
      else Running(c.(groups := c.groups[gid := c.groups[gid].(hasSubscribers := false)]))
    case AppData(d) => OnData(c, d, isNew)
  }

  /** Nothing leaves, and nothing is counted, before there are subscribers. */
  function OnSend(c: Client, gid: GroupId, payload: Types.Payload, dest: NodeId): Outcome {
    if gid !in c.groups then Fatal
    else if !c.groups[gid].hasSubscribers then Running(c)
    else
      var i := c.groups[gid];
      var uni := dest != 0 || i.dest != 0;
      Running(Client(c.groups[gid := i.(sendUni := if uni then Inc32(i.sendUni)
                                        else i.sendUni, sendCount := Inc32(i.sendCount))],
                     c.sent + [ClientData(Message(gid, i, payload, dest))]))
  }

  // ---- the class -----------------------------------------------------------------------

  class GcnClient {
    var groups: map<GroupId, GroupInfo>
    var sent: seq<ClientCmd>

    ghost function View(): Client reads this { Client(groups, sent) }

    constructor ()
      ensures View() == Client(map[], [])
    {
      groups, sent := map[], [];
    }

    method SendToGcn(c: ClientCmd)
      modifies this`sent
      ensures sent == old(sent) + [c]
    {
      sent := sent + [c];
    }

    method Start(gid: GroupId, config: GroupInfo)
      modifies this
      ensures View() == OnStart(old(View()), gid, config)
    {
      if gid !in groups {
        groups := groups[gid := config.(hasSubscribers := true, dest := 0, recvCount := 0, sendCount := 0, recvUni := 0,
                                        sendUni := 0)];
      }
      var i := groups[gid];
      if i.kind > 0 {
        SendToGcn(Registration(gid, i));
        if i.rate >= 0.0 {
          groups := groups[gid := i.(hasSubscribers := false)];
        }
      }
      if i.kind == 0 || i.kind == 2 {
        SendToGcn(ClientPull(gid));
      }
    }

    /** The answer is the client's state after a fatal error too: the process has ended. */
    method SendMessage(gid: GroupId, payload: Types.Payload, dest: NodeId) returns (ok: bool, fatal: bool)
      modifies this
      ensures fatal <==> OnSend(old(View()), gid, payload, dest).Fatal?
      ensures !fatal ==> View() == OnSend(old(View()), gid, payload, dest).client
      ensures ok <==> gid in old(groups) && old(groups)[gid].hasSubscribers
    {
      ok, fatal := false, gid !in groups;
      if !fatal {
        var i := groups[gid];
        var m := Message(gid, i, payload, dest);
        if i.hasSubscribers {
          if dest != 0 || i.dest != 0 {
            groups := groups[gid := i.(sendUni := Inc32(i.sendUni))];
          }
          SendToGcn(ClientData(m));
          groups := groups[gid := groups[gid].(sendCount := Inc32(i.sendCount))];
          ok := true;
        }
      }
    }

    method OnReceive(m: AppMsg, isNew: bool) returns (fatal: bool)
      modifies this
      ensures fatal <==> OnMessage(old(View()), m, isNew).Fatal?
      ensures !fatal ==> View() == OnMessage(old(View()), m, isNew).client
    {
      fatal := false;
      match m
      case AppPull(gid) =>
        fatal := gid !in groups;
        if !fatal { groups := groups[gid := groups[gid].(hasSubscribers := true)]; }
      case AppUnpull(gid) =>
        fatal := gid !in groups;
        if !fatal { groups := groups[gid := groups[gid].(hasSubscribers := false)]; }
      case AppData(d) =>
        fatal := ReceiveData(d, isNew);
    }

    method ReceiveData(d: Data, isNew: bool) returns (fatal: bool)
      modifies this
      ensures fatal <==> OnData(old(View()), d, isNew).Fatal?
      ensures !fatal ==> View() == OnData(old(View()), d, isNew).client
    {
      fatal := d.gid !in groups;
      if !fatal {
        if isNew {
          groups := groups[d.gid := groups[d.gid].(recvCount := Inc32(groups[d.gid].recvCount))];
        }
        if d.uheader.Some? {
          groups := groups[d.gid := groups[d.gid].(recvUni := Inc32(groups[d.gid].recvUni))];
        }
        var i := groups[d.gid];
        if i.responds {
          if i.kind == 1 {
            groups := groups[d.gid := i.(dest := d.srcnode)];
          } else if i.respFreq == 0 {
            fatal := true;
          } else if i.recvCount % i.respFreq == 0 {
            SendToGcn(ClientData(Answer(d.gid, i, d)));
            groups := groups[d.gid := i.(sendUni := Inc32(i.sendUni), sendCount := Inc32(i.sendCount))];
          }
        }
      }
    }
  }

  // ---- what holds of every client ------------------------------------------------------

  datatype Input = Starting(gid: GroupId, config: GroupInfo) | Sending(gid: GroupId, payload: Types.Payload,
      dest: NodeId) | Hearing(msg: AppMsg, isNew: bool)

  function React(c: Client, e: Input): Outcome {
    match e
    case Starting(gid, config) => Running(OnStart(c, gid, config))
    case Sending(gid, payload, dest) => OnSend(c, gid, payload, dest)
    case Hearing(m, isNew) => OnMessage(c, m, isNew)
  }

  /** DATA of a group among the commands sent: all of it, or unicast only. */
  function Sends(s: seq<ClientCmd>, g: GroupId, uni: bool): nat {
    if s == [] then 0
    else
      var c := s[|s| - 1];
      Sends(s[..|s| - 1], g, uni) + if c.ClientData? && c.data.gid == g && (uni ==> c.data.uheader.Some?) then 1 else 0
  }

  lemma SendsAppend(s: seq<ClientCmd>, c: ClientCmd, g: GroupId, uni: bool)
    ensures Sends(s + [c], g, uni) == Sends(s, g, uni) + if c.ClientData? && c.data.gid == g
            && (uni ==> c.data.uheader.Some?) then 1 else 0
  {
    assert (s + [c])[..|s|] == s;
  }

  /** The counters say, on 32 bits, how much DATA and how much unicast left for the group. */
  ghost predicate Counted(c: Client, g: GroupId) {
    if g in c.groups then c.groups[g].sendCount == Sends(c.sent, g, false) % U32
      && c.groups[g].sendUni == Sends(c.sent, g, true) % U32
    else Sends(c.sent, g, false) == 0 && Sends(c.sent, g, true) == 0
  }

  /** `all` more DATA, `uni` of it unicast, counted as it is sent. */
  lemma StaysCounted(c: Client, d: Client, g: GroupId, all: nat, uni: nat)
    requires Counted(c, g) && Sends(d.sent, g, false) == Sends(c.sent, g, false) + all
             && Sends(d.sent, g, true) == Sends(c.sent, g, true) + uni
    requires g in c.groups ==> g in d.groups
    requires g in c.groups ==>
               d.groups[g].sendCount == (c.groups[g].sendCount + all) % U32
                 && d.groups[g].sendUni == (c.groups[g].sendUni + uni) % U32
    requires g !in c.groups ==> all == uni == 0 && (g in d.groups ==> d.groups[g].sendCount == d.groups[g].sendUni == 0)
    ensures Counted(d, g)
  {
    hide Sends;
  }

  lemma Commands(s: seq<ClientCmd>, t: seq<ClientCmd>, g: GroupId)
    requires forall c :: c in t ==> !c.ClientData?
    ensures Sends(s + t, g, false) == Sends(s, g, false) && Sends(s + t, g, true) == Sends(s, g, true)
    decreases |t|
  {
    if t == [] {
      assert s + t == s;
    } else {
      var last := |t| - 1;
      assert s + t == s + t[..last] + [t[last]];
      Commands(s, t[..last], g);
      SendsAppend(s + t[..last], t[last], g, false);
      SendsAppend(s + t[..last], t[last], g, true);
    }
  }

  lemma StartCounted(c: Client, gid: GroupId, config: GroupInfo, g: GroupId)
    requires Counted(c, g)
    ensures Counted(OnStart(c, gid, config), g)
  {
    hide Sends, Counted;
    var d := OnStart(c, gid, config);
    var i := if gid in c.groups then c.groups[gid]
        else config.(hasSubscribers := true, dest := 0, recvCount := 0, sendCount := 0, recvUni := 0, sendUni := 0);
    var t := (if i.kind > 0 then [Registration(gid, i)] else []) + (if i.kind == 0 || i.kind == 2 then [ClientPull(gid)]
                                                                    else []);
    assert d.sent == c.sent + t;
    Commands(c.sent, t, g);
    assert g in c.groups ==>
             c.groups[g].sendCount % U32 == c.groups[g].sendCount && c.groups[g].sendUni % U32 == c.groups[g].sendUni;
    StaysCounted(c, d, g, 0, 0);
  }

  lemma SendCounted(c: Client, gid: GroupId, payload: Types.Payload, dest: NodeId, g: GroupId)
    requires Counted(c, g) && OnSend(c, gid, payload, dest).Running?
    ensures Counted(OnSend(c, gid, payload, dest).client, g)
  {
    hide Sends, Counted, Message;
    var i := c.groups[gid];
    if i.hasSubscribers {
      var m := Message(gid, i, payload, dest);
      MessageKind(gid, i, payload, dest);
      SendsAppend(c.sent, ClientData(m), g, false);
      SendsAppend(c.sent, ClientData(m), g, true);
      assert g in c.groups ==>
               c.groups[g].sendCount % U32 == c.groups[g].sendCount && c.groups[g].sendUni % U32 == c.groups[g].sendUni;
      StaysCounted(c, OnSend(c, gid, payload, dest).client, g, if g == gid then 1 else 0, if g == gid && m.uheader.Some?
                   then 1 else 0);
    }
  }

  lemma DataCounted(c: Client, d: Data, isNew: bool, g: GroupId)
    requires Counted(c, g) && OnData(c, d, isNew).Running?
    ensures Counted(OnData(c, d, isNew).client, g)
  {
    hide Sends, Counted, Answer;
    var m, i := OnData(c, d, isNew).client, Received(c.groups[d.gid], d, isNew);
    AnswerKind(d.gid, i, d);
    SendsAppend(c.sent, ClientData(Answer(d.gid, i, d)), g, false);
    SendsAppend(c.sent, ClientData(Answer(d.gid, i, d)), g, true);
    assert g in c.groups ==>
             c.groups[g].sendCount % U32 == c.groups[g].sendCount && c.groups[g].sendUni % U32 == c.groups[g].sendUni;
    var more := if m.sent == c.sent || g != d.gid then 0 else 1;
    assert m.sent == c.sent || m.sent == c.sent + [ClientData(Answer(d.gid, i, d))];
    StaysCounted(c, m, g, more, more);
  }

  lemma ReactCounted(c: Client, e: Input, g: GroupId)
    requires Counted(c, g) && React(c, e).Running?
    ensures Counted(React(c, e).client, g)
  {
    hide OnStart, OnSend, OnData, Sends;
    match e
    case Starting(gid, config) => StartCounted(c, gid, config, g);
    case Sending(gid, payload, dest) => SendCounted(c, gid, payload, dest, g);
    case Hearing(m, isNew) => if m.AppData? { DataCounted(c, m.data, isNew, g); }
  }

  lemma MessageKind(gid: GroupId, i: GroupInfo, payload: Types.Payload, dest: NodeId)
    ensures var d := Message(gid, i, payload, dest); d.gid == gid && (d.uheader.Some? <==> dest != 0 || i.dest != 0)
  {
  }

  lemma AnswerKind(gid: GroupId, i: GroupInfo, d: Data)
    ensures Answer(gid, i, d).gid == gid && Answer(gid, i, d).uheader.Some?
  {
  }

  /** Clients and their inputs over a life. */
  ghost predicate Life(cs: seq<Client>, es: seq<Input>) {
    && |cs| == |es| + 1 && cs[0] == Client(map[], [])
    && forall i :: 0 <= i < |es| ==> React(cs[i], es[i]) == Running(cs[i + 1])
  }

  lemma {:induction false} LifeCounted(cs: seq<Client>, es: seq<Input>, g: GroupId)
    requires Life(cs, es)
    ensures Counted(cs[|es|], g)
    decreases |es|
  {
    hide React, Counted;
    if es == [] {
      assert Counted(Client(map[], []), g) by { NothingCounted(g); }
    } else {
      LifeCounted(cs[..|es|], es[..|es| - 1], g);
      assert React(cs[|es| - 1], es[|es| - 1]) == Running(cs[|es| - 1 + 1]);
      ReactCounted(cs[|es| - 1], es[|es| - 1], g);
    }
  }

  lemma NothingCounted(g: GroupId)
    ensures Counted(Client(map[], []), g)
  {
  }

  /** Broadcast DATA leaves only while the client believes it has subscribers; what it answers is unicast. */
  lemma HeldBack(c: Client, e: Input, d: Data)
    requires React(c, e).Running? && d.uheader.None?
    requires ClientData(d) in React(c, e).client.sent[|c.sent|..]
    ensures e.Sending? && d.gid in c.groups && c.groups[d.gid].hasSubscribers
  {
    hide Message, Answer;
    match e
    case Starting(gid, config) =>
    case Sending(gid, payload, dest) => MessageKind(gid, c.groups[gid], payload, dest);
    case Hearing(m, isNew) =>
      if m.AppData? {
        AnswerKind(m.data.gid, Received(c.groups[m.data.gid], m.data, isNew), m.data);
      }
  }

  /** After reading messages a client believes what they say about subscribers, and nothing else. */
  lemma {:induction false} ReadingBelieves(cs: seq<Client>, ms: seq<AppMsg>, news: seq<bool>, g: GroupId)
    requires |cs| == |ms| + 1 == |news| + 1 && g in cs[0].groups
    requires forall i :: 0 <= i < |ms| ==> OnMessage(cs[i], ms[i], news[i]) == Running(cs[i + 1])
    ensures g in cs[|ms|].groups && cs[|ms|].groups[g].hasSubscribers == Pulls.Believes(cs[0].groups[g].hasSubscribers,
              ms, g)
    decreases |ms|
  {
    if ms != [] {
      hide Answer;
      assert OnMessage(cs[0], ms[0], news[0]) == Running(cs[0 + 1]);
      ReadingBelieves(cs[1..], ms[1..], news[1..], g);
      assert cs[1].groups[g].hasSubscribers == Pulls.Hearing(cs[0].groups[g].hasSubscribers, ms[0], g);
    }
  }

  // ---- what the messages say -----------------------------------------------------------

  /** With subscribers a send puts out one DATA message with the payload given: to the node named, else to
      the last writer that the client answers to, else to the group. Only clients without advertisements
      give it a TTL, for unicast the one for responses, and may forbid its renewal, of broadcasts only. */
  lemma SendSays(c: Client, gid: GroupId, payload: Types.Payload, dest: NodeId)
    requires gid in c.groups && c.groups[gid].hasSubscribers
    ensures OnSend(c, gid, payload, dest).Running?
    ensures var m, i := OnSend(c, gid, payload, dest).client, c.groups[gid];
            var to := if dest != 0 then dest else i.dest;
            && |m.sent| == |c.sent| + 1 && c.sent <= m.sent && m.sent[|c.sent|].ClientData?
            && var d := m.sent[|c.sent|].data;
               && d.gid == gid && d.payload == payload
               && (d.uheader.Some? <==> to != 0)
               && (to != 0 ==> d.uheader.value.dest == to && d.uheader.value.resilience == Some(i.resilience))
               && (d.srcttl.Some? <==> i.rate < 0.0)
               && (i.rate < 0.0 ==> d.srcttl.value == if to != 0 then i.respTtl else i.srcTtl)
               && (d.nottlregen <==> i.rate < 0.0 && to == 0 && !i.regenerates)
  {
  }

  /** Without subscribers nothing is sent, counted or changed. */
  lemma SendHeldBack(c: Client, gid: GroupId, payload: Types.Payload, dest: NodeId)
    requires gid in c.groups && !c.groups[gid].hasSubscribers
    ensures OnSend(c, gid, payload, dest) == Running(c)
  {
  }

  /** A listener that responds answers every so many new messages, by unicast to their source: with the
      TTL for responses if there is one and the message had any, and with its receive count, which is what
      the other side reads from the answer. A sender that responds only remembers whom to write to. */
  lemma AnswerSays(c: Client, d: Data, isNew: bool, stray: u32)
    requires OnData(c, d, isNew).Running?
    ensures d.gid in c.groups && d.gid in OnData(c, d, isNew).client.groups
    ensures var m, i := OnData(c, d, isNew).client, c.groups[d.gid];
            var count := if isNew then (i.recvCount + 1) % U32 else i.recvCount;
            var answers := i.responds && i.kind != 1 && count % i.respFreq == 0;
            && m.groups[d.gid].recvCount == count
            && m.groups[d.gid].dest == (if i.responds && i.kind == 1 then d.srcnode else i.dest)
            && (!answers ==> m.sent == c.sent)
            && (answers ==>
                  && |m.sent| == |c.sent| + 1 && c.sent <= m.sent && m.sent[|c.sent|].ClientData?
                  && var a := m.sent[|c.sent|].data;
                     && a.gid == d.gid && a.uheader.Some? && a.uheader.value.dest == d.srcnode
                     && a.uheader.value.resilience == Some(i.resilience) && !a.nottlregen
                     && a.srcttl == (if d.srcttl.None? then None
                                     else Some(if i.respTtl != 0 then i.respTtl else d.srcttl.value))
                     && Payload.NumberIn(Payload.Text(a.payload), stray) == count)
  {
    var i := Received(c.groups[d.gid], d, isNew);
    var text := Payload.Response(i.recvCount, d.srcnode, d.gid);
    Payload.ResponseAscii(i.recvCount, d.srcnode, d.gid);
    Payload.TextOfBytes(text);
    Payload.ResponseRead(i.recvCount, d.srcnode, d.gid);
    Payload.ReadsNumber(text, true, stray);
    hide Payload.Response, Payload.Read, Payload.NumberIn, Payload.Text, Payload.Bytes;
  }

  /** What starting a group asks of the service, and whether sends are held back at first: senders register,
      listeners subscribe, and a sender that uses advertisements waits to be pulled. */
  lemma StartSays(c: Client, gid: GroupId, config: GroupInfo)
    requires gid !in c.groups
    ensures var m := OnStart(c, gid, config);
            && gid in m.groups && (m.groups[gid].hasSubscribers <==> config.kind <= 0 || config.rate < 0.0)
            && m.groups[gid].recvCount == 0 && m.groups[gid].sendCount == 0 && m.groups[gid].recvUni == 0
            && m.groups[gid].sendUni == 0 && m.groups[gid].dest == 0
            && (forall g :: g in c.groups ==> g in m.groups && m.groups[g] == c.groups[g])
            && c.sent <= m.sent
            && (forall x :: x in m.sent[|c.sent|..] ==>
                  (x.ClientRegister? && config.kind > 0)
                    || (x == ClientPull(gid) && (config.kind == 0 || config.kind == 2)))
            && (config.kind > 0 ==>
                  exists x :: x in m.sent[|c.sent|..] && x.ClientRegister? && x.gid == gid && x.srcttl == config.srcTtl)
            && ((config.kind == 0 || config.kind == 2) ==> ClientPull(gid) in m.sent[|c.sent|..])
  {
    var m := OnStart(c, gid, config);
    var i := config.(hasSubscribers := true, dest := 0, recvCount := 0, sendCount := 0, recvUni := 0, sendUni := 0);
    var r, p := if config.kind > 0 then [Registration(gid, i)] else [],
        if config.kind == 0 || config.kind == 2 then [ClientPull(gid)] else [];
    assert m.sent[|c.sent|..] == r + p;
    assert config.kind > 0 ==> r[0] in r + p;
    assert config.kind == 0 || config.kind == 2 ==> p[0] in r + p;
  }

  /** Starting a group again keeps all that was known of it, but a sender that uses advertisements waits to
      be pulled anew. */
  lemma StartAgain(c: Client, gid: GroupId, config: GroupInfo)
    requires gid in c.groups
    ensures var m, i := OnStart(c, gid, config), c.groups[gid];
            && m.groups.Keys == c.groups.Keys && (forall g :: g in c.groups && g != gid ==> m.groups[g] == c.groups[g])
            && m.groups[gid] == i.(hasSubscribers := i.hasSubscribers && (i.kind <= 0 || i.rate < 0.0))
  {
    hide Registration;
  }

  /** Unicast DATA among the inputs of a group. */
  function UnicastHeard(es: seq<Input>, g: GroupId): nat {
    if es == [] then 0
    else
      var e := es[|es| - 1];
      UnicastHeard(es[..|es| - 1], g)
      + if e.Hearing? && e.msg.AppData? && e.msg.data.gid == g && e.msg.data.uheader.Some? then 1 else 0
  }

  lemma ReactHears(c: Client, e: Input, g: GroupId)
    requires React(c, e).Running?
    ensures var m, more := React(c, e).client,
                  if e.Hearing? && e.msg.AppData? && e.msg.data.gid == g && e.msg.data.uheader.Some? then 1 else 0;
            && (g in c.groups ==> g in m.groups && m.groups[g].recvUni == (c.groups[g].recvUni + more) % U32)
            && (g !in c.groups ==> more == 0 && (g in m.groups ==> m.groups[g].recvUni == 0))
  {
    hide Message, Answer, Registration;
  }

  /** In every life the count of unicast received is that of the unicast DATA heard for the group. */
  lemma {:induction false} LifeHeard(cs: seq<Client>, es: seq<Input>, g: GroupId)
    requires Life(cs, es)
    ensures if g in cs[|es|].groups then cs[|es|].groups[g].recvUni == UnicastHeard(es, g) % U32
            else UnicastHeard(es, g) == 0
    decreases |es|
  {
    hide React;
    if es != [] {
      var last := |es| - 1;
      LifeHeard(cs[..|es|], es[..last], g);
      assert React(cs[last], es[last]) == Running(cs[last + 1]);
      ReactHears(cs[last], es[last], g);
      assert g in cs[last].groups ==> cs[last].groups[g].recvUni == UnicastHeard(es[..last], g) % U32;
    }
  }
}
