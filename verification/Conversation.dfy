/** What the client library asks for, and what the service then does. */
module Conversation {
  import opened Types
  import opened NodeSpec
  import GcnClient
  import FloodRound
  import FloodStart

  /** The registration of a client that uses advertisements, as the service takes it: announced at the
      rate given in whole seconds if that is positive as an int32, with the relay probability given, and
      with TTL renewal as wished. A client that does not is never announced. */
  lemma RegistrationMeans(n: Node, s: Session, gid: GroupId, i: GcnClient.GroupInfo, now: int)
    requires gid !in n.announce && OnClient(n, s, GcnClient.Registration(gid, i), now).Running?
    ensures var m := OnClient(n, s, GcnClient.Registration(gid, i), now).node;
            && gid in m.announce
            && var a, seconds := m.announce[gid], i.rate.Floor % U32;
               && a.session == s && a.srcTtl == i.srcTtl && a.seqNo == 0 && !a.pullSent
               && (a.timer <==> i.rate >= 0.0 && 0 < seconds < 0x8000_0000)
               && (i.rate < 0.0 ==> a.interval < 0 && a.probRelay == 0 && !a.noTtlRegen)
               && (i.rate >= 0.0 ==>
                     && a.probRelay == i.ackProb
                     && a.interval == (if seconds < 0x8000_0000 then seconds else seconds - U32)
                     && (a.noTtlRegen <==> !i.regenerates && a.timer))
  {
    var c := GcnClient.Registration(gid, i);
    RegistrationSays(gid, i);
    FirstEntry(n, s, c, now);
    hide OnClient, GcnClient.Registration, Registered;
    FirstRegistered(n, s, c);
  }

  lemma RegistrationSays(gid: GroupId, i: GcnClient.GroupInfo)
    ensures GcnClient.Registration(gid, i) ==
            if i.rate >= 0.0 then ClientRegister(gid, i.srcTtl, Some(i.rate.Floor % U32), i.ackProb, !i.regenerates)
            else ClientRegister(gid, i.srcTtl, None, 0, false)
  {
  }

  lemma FirstEntry(n: Node, s: Session, c: ClientCmd, now: int)
    requires c.ClientRegister? && OnClient(n, s, c, now).Running?
    ensures var m := OnClient(n, s, c, now).node; c.gid in m.announce && m.announce[c.gid] == Registered(n, s, c)
  {
    hide Registered;
  }

  lemma FirstRegistered(n: Node, s: Session, c: ClientCmd)
    requires c.ClientRegister? && c.gid !in n.announce
    ensures var a := Registered(n, s, c);
            && a.session == s && a.srcTtl == c.srcttl && a.seqNo == 0 && !a.pullSent
            && (a.timer <==> c.interval.Some? && 0 < c.interval.value < 0x8000_0000)
            && (c.interval.None? ==> a.interval < 0 && a.probRelay == 0 && !a.noTtlRegen)
            && (c.interval.Some? ==>
                  && a.probRelay == c.probrelay && (a.noTtlRegen <==> c.nottlregen && a.timer)
                  && a.interval == if c.interval.value < 0x8000_0000 then c.interval.value else c.interval.value - U32)
  {
  }

  /** What a broadcasting client sends, as the service puts it on the air: with advertisements along the
      tree, and only once someone subscribed or if they are not awaited; without, at once, with its TTL. */
  lemma BroadcastMeans(c: GcnClient.Client, gid: GroupId, payload: Types.Payload, n: Node, s: Session, now: int)
    requires gid in c.groups && c.groups[gid].hasSubscribers && c.groups[gid].dest == 0 && gid in n.announce
    ensures GcnClient.OnSend(c, gid, payload, 0).Running?
    ensures var i, m := c.groups[gid], GcnClient.OnSend(c, gid, payload, 0).client;
            && |m.sent| > |c.sent| && m.sent[|c.sent|].ClientData?
            && var d := m.sent[|c.sent|].data;
               && OnClientData(n, s, d, now).Running?
               && var sent := OnClientData(n, s, d, now).node.sent;
                  && (FloodRound.AlongTree(DataHash(Stamped(n, d))) <==> i.rate >= 0.0)
                  && (i.rate < 0.0 ==>
                        && |sent| == |n.sent| + 1 && sent[|n.sent|].OtaData?
                        && sent[|n.sent|].data.srcttl == Some(i.srcTtl)
                        && sent[|n.sent|].data.payload == payload && sent[|n.sent|].data.srcnode == n.id)
                  && (i.rate >= 0.0 ==>
                        (|sent| > |n.sent| <==> AnyRemote(n.remotePull, gid) || n.announce[gid].interval <= 0))
  {
    GcnClient.SendSays(c, gid, payload, 0);
    var d := GcnClient.OnSend(c, gid, payload, 0).client.sent[|c.sent|].data;
    hide GcnClient.OnSend, OnClientData, NextSeq;
    FloodStart.LeavesIff(n, s, d, now);
  }
}
