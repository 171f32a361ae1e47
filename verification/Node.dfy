/**
 The node as the program has it: maps updated in place, a handler that registers, dials in a loop and
 cleans up.  Each method is tied to the functional steps of module Handler.
 */
module Nodes {
  import opened Wrappers
  import opened Strings
  import opened Layers
  import opened Fragments
  import opened Handler
  import opened Protocol
  import Replay

  /** A channel of capacity one. */
  class AckChan {
    const id: nat
    var buf: seq<bool>

    constructor (id: nat)
      ensures this.id == id && buf == []
    {
      this.id := id;
      buf := [];
    }

    /** The waiter's receive; it waits while the channel is empty. */
    method Take() returns (v: bool)
      requires buf != []
      modifies this
      ensures v == old(buf)[0] && buf == old(buf)[1..]
    {
      v := buf[0];
      buf := buf[1..];
    }

    /** False where the sender would block. */
    method Put(v: bool) returns (done: bool)
      modifies this
      ensures done <==> |old(buf)| < 1
      ensures buf == if done then old(buf) + [v] else old(buf)
    {
      done := |buf| < 1;
      if done {
        buf := buf + [v];
      }
    }
  }

  /** For the proofs: an address dialled, and the keys the dialling node had in PendingACKs then. */
  datatype DialRecord = DialRecord(target: Addr, pending: set<Id>)

  /** The addresses that answer, and what has been put on the wire. */
  class Network {
    const up: set<Addr>
    var wire: seq<Task>
    ghost var dials: seq<DialRecord>

    constructor (up: set<Addr>)
      ensures this.up == up && wire == []
    {
      this.up := up;
      wire := [];
      dials := [];
    }

    method SendTo(target: Addr, msg: Msg, ghost pending: set<Id>) returns (ok: bool)
      modifies this
      ensures ok <==> target in up
      ensures dials == old(dials) + [DialRecord(target, pending)]
      ensures wire == if ok then old(wire) + [Packet(target, msg)] else old(wire)
    {
      dials := dials + [DialRecord(target, pending)];
      ok := target in up;
      if ok {
        wire := wire + [Packet(target, msg)];
      }
    }

    /** The dialling loop: the first address that answers gets the message, the rest are not tried. */
    method SendToFirst(addrs: seq<Addr>, msg: Msg) returns (sent: bool)
      modifies this
      ensures wire == old(wire) + FirstUp(addrs, msg, up)
      ensures sent <==> FirstUp(addrs, msg, up) != []
    {
      sent := false;
      var i := 0;
      while i < |addrs|
        invariant 0 <= i <= |addrs|
        invariant wire == old(wire)
        invariant forall k :: 0 <= k < i ==> addrs[k] !in up
      {
        hide FirstUp;
        var ok := SendTo(addrs[i], msg, {});
        if ok {
          FirstUpIs(addrs, msg, up, i);
          return true;
        }
        i := i + 1;
      }
      FirstUpIs(addrs, msg, up, i);
    }
  }

  /** rand.Shuffle: any swap sequence of the Fisher-Yates form. */
  method Shuffle(addrs: seq<Addr>) returns (order: seq<Addr>)
    ensures Shuffled(order, addrs) && |order| == |addrs|
  {
    order := addrs;
    var i := |addrs| - 1;
    while i > 0
      invariant |order| == |addrs| && Shuffled(order, addrs) && i < |addrs|
    {
      var j :| 0 <= j <= i;
      order := order[i := order[j]][j := order[i]];
      i := i - 1;
    }
  }

  class Node {
    const addr: Addr
    var PendingACKs: map<Id, AckChan>
    var PendingRelays: map<Id, Nackstruct>
    var SeenMsgs: map<string, int>
    var FragBuf: map<string, map<int, string>>
    var FragTotal: map<string, int>
    var ReceivedMsgs: seq<string>
    var PrivateKey: Key

    constructor (addr: Addr, key: Key)
      ensures this.addr == addr && View() == BlankNode(key)
    {
      this.addr := addr;
      PendingACKs := map[];
      PendingRelays := map[];
      SeenMsgs := map[];
      FragBuf := map[];
      FragTotal := map[];
      ReceivedMsgs := [];
      PrivateKey := key;
      new;
      assert Acks() == map[];
    }

    /** PendingACKs with channels named by their numbers. */
    ghost function Acks(): map<Id, nat>
      reads this
    {
      map k | k in PendingACKs :: PendingACKs[k].id
    }

    ghost function InboxView(): Inbox
      reads this
    {
      Inbox(FragBuf, FragTotal, ReceivedMsgs)
    }

    ghost function View(): NodeState
      reads this
    {
      NodeState(Acks(), PendingRelays, SeenMsgs, InboxView(), PrivateKey)
    }

    /** REGEN: a new key pair, the maps stay. */
    method RegenerateKeys(key: Key)
      modifies this`PrivateKey
      ensures View() == old(View()).(key := key)
    {
      PrivateKey := key;
      assert Acks() == old(Acks());
    }

    /** The sender's two keys for one channel, before the first SendTo. */
    method Register(msgID: Id, firstNackID: Id, ch: AckChan)
      modifies this`PendingACKs
      ensures View() == Protocol.Register(old(View()), msgID, firstNackID, ch.id)
      ensures PendingACKs == old(PendingACKs)[msgID := ch][firstNackID := ch]
    {
      PendingACKs := PendingACKs[msgID := ch];
      PendingACKs := PendingACKs[firstNackID := ch];
      assert Acks() == old(Acks())[msgID := ch.id][firstNackID := ch.id];
    }

    method Deregister(msgID: Id, firstNackID: Id)
      modifies this`PendingACKs
      ensures View() == Protocol.Deregister(old(View()), msgID, firstNackID)
      ensures PendingACKs == old(PendingACKs) - {msgID} - {firstNackID}
    {
      PendingACKs := PendingACKs - {msgID};
      PendingACKs := PendingACKs - {firstNackID};
      assert Acks() == old(Acks()) - {msgID} - {firstNackID};
    }

    /** The first half of a try: every dial happens with both keys in place, so no answer can come too
        early; when the whole first group is offline they are taken back.  The addresses that did not
        answer go on the blacklist of the next try. */
    method StartTry(msgID: Id, firstNackID: Id, ch: AckChan, firstGroup: seq<Addr>, onion: Payload, net: Network,
                    blacklist: seq<Addr>)
      returns (sent: bool, failedNodes: seq<Addr>)
      modifies this`PendingACKs, net
      ensures sent <==> exists a :: a in firstGroup && a in net.up
      ensures net.wire == old(net.wire) + FirstUp(firstGroup, Onion(onion), net.up)
      ensures exists k :: InVain(firstGroup, net.up, k) && failedNodes == blacklist + firstGroup[..k]
      ensures old(net.dials) <= net.dials
      ensures forall k :: |old(net.dials)| <= k < |net.dials| ==>
                net.dials[k].target in firstGroup && msgID in net.dials[k].pending
                  && firstNackID in net.dials[k].pending
      ensures var registered := Protocol.Register(old(View()), msgID, firstNackID, ch.id);
        View() == if sent then registered else Protocol.Deregister(registered, msgID, firstNackID)
    {
      Register(msgID, firstNackID, ch);
      sent, failedNodes := DialFirstGroup(firstGroup, onion, net, blacklist);
      if !sent {
        Deregister(msgID, firstNackID);
      }
    }

    method DialFirstGroup(firstGroup: seq<Addr>, onion: Payload, net: Network, blacklist: seq<Addr>)
      returns (sent: bool, failedNodes: seq<Addr>)
      modifies net
      ensures old(net.dials) <= net.dials
      ensures forall k :: |old(net.dials)| <= k < |net.dials| ==>
                net.dials[k].target in firstGroup && net.dials[k].pending == PendingACKs.Keys
      ensures sent <==> exists a :: a in firstGroup && a in net.up
      ensures net.wire == old(net.wire) + FirstUp(firstGroup, Onion(onion), net.up)
      ensures exists k :: InVain(firstGroup, net.up, k) && failedNodes == blacklist + firstGroup[..k]
    {
      sent, failedNodes := false, blacklist;
      var i := 0;
      while i < |firstGroup|
        invariant 0 <= i <= |firstGroup| && net.wire == old(net.wire) && old(net.dials) <= net.dials
        invariant forall k :: |old(net.dials)| <= k < |net.dials| ==>
                    net.dials[k].target in firstGroup && net.dials[k].pending == PendingACKs.Keys
        invariant forall k :: 0 <= k < i ==> firstGroup[k] !in net.up
        invariant failedNodes == blacklist + firstGroup[..i]
      {
        hide FirstUp;
        var ok := net.SendTo(firstGroup[i], Onion(onion), PendingACKs.Keys);
        if ok {
          FirstUpIs(firstGroup, Onion(onion), net.up, i);
          return true, failedNodes;
        }
        failedNodes := failedNodes + [firstGroup[i]];
        i := i + 1;
      }
      FirstUpIs(firstGroup, Onion(onion), net.up, i);
    }

    /** The waiter: a value from the channel, or the eight seconds are over.  Only success leaves the
        keys alone; `retry` asks for the next try. */
    method AwaitResult(msgID: Id, firstNackID: Id, ch: AckChan, expired: bool)
      returns (outcome: Option<Outcome>, retry: bool)
      requires expired || ch.buf != []
      modifies this`PendingACKs, ch
      ensures var acked := !expired && old(ch.buf)[0];
        && outcome == (if expired then Some(TimedOut) else if acked then Some(Acked) else None)
        && (retry <==> !expired && !acked)
        && View() == if acked then old(View()) else Protocol.Deregister(old(View()), msgID, firstNackID)
      ensures Verdict(outcome, retry, View())
           == Waited(old(View()), msgID, firstNackID, if expired then None else Some(old(ch.buf)[0]))
      ensures ch.buf == if expired then old(ch.buf) else old(ch.buf)[1..]
    {
      if expired {
        Deregister(msgID, firstNackID);
        return Some(TimedOut), false;
      }
      var success := ch.Take();
      if success {
        return Some(Acked), false;
      }
      Deregister(msgID, firstNackID);
      return None, true;
    }

    /** True for a MsgID already there; otherwise it is recorded with the time. */
    method SeenMsg(msgID: string, now: int) returns (seen: bool)
      modifies this`SeenMsgs
      ensures seen <==> msgID in old(SeenMsgs)
      ensures SeenMsgs == if seen then old(SeenMsgs) else old(SeenMsgs)[msgID := now]
      ensures SeenMsgs == Replay.After(old(SeenMsgs), Replay.Arrive(msgID, now))
    {
      if msgID in SeenMsgs {
        return true;
      }
      SeenMsgs := SeenMsgs[msgID := now];
      return false;
    }

    /** The sweep: each entry is judged at the time the loop gets to it. */
    method EvictSeen(begin: int) returns (end: int)
      modifies this`SeenMsgs
      ensures begin <= end && Replay.Swept(old(SeenMsgs), SeenMsgs, begin, end)
    {
      end := begin;
      var ids := SeenMsgs.Keys;
      while ids != {}
        invariant begin <= end && ids <= SeenMsgs.Keys <= old(SeenMsgs).Keys
        invariant forall id :: id in SeenMsgs ==> SeenMsgs[id] == old(SeenMsgs)[id]
        invariant forall id :: id in old(SeenMsgs) && id !in ids ==>
                    && (begin - old(SeenMsgs)[id] > Replay.TTL ==> id !in SeenMsgs)
                    && (end - old(SeenMsgs)[id] <= Replay.TTL ==> id in SeenMsgs)
        decreases |ids|
      {
        var id :| id in ids;
        var now: int :| end <= now;
        end := now;
        if now - SeenMsgs[id] > Replay.TTL {
          SeenMsgs := SeenMsgs - {id};
        }
        ids := ids - {id};
      }
    }

    /** Notify a waiting sender and drop the key; nothing changes where the put would block. */
    method Notify(id: Id, v: bool) returns (done: bool)
      requires id in PendingACKs
      modifies this`PendingACKs, PendingACKs[id]
      ensures done <==> |old(PendingACKs[id].buf)| < 1
      ensures done ==> old(PendingACKs[id]).buf == old(PendingACKs[id].buf) + [v]
      ensures done ==> View() == old(View()).(acks := old(Acks()) - {id})
      ensures !done ==> View() == old(View()) && old(PendingACKs[id]).buf == old(PendingACKs[id].buf)
    {
      var ch := PendingACKs[id];
      done := ch.Put(v);
      if done {
        PendingACKs := PendingACKs - {id};
        assert Acks() == old(Acks()) - {id};
      }
    }

    /** A FINAL layer goes into the inbox; false where a malformed tag would make the handler panic. */
    method AcceptFinal(frag: string, message: string) returns (ok: bool)
      modifies this`FragBuf, this`FragTotal, this`ReceivedMsgs
      ensures ok <==> Deliver(old(InboxView()), frag, message).Some?
      ensures InboxView() == if ok then Deliver(old(InboxView()), frag, message).value else old(InboxView())
    {
      if frag == "" {
        ReceivedMsgs := ReceivedMsgs + [message];
        return true;
      }
      var tag := ParseTag(frag);
      if tag.None? {
        return false;
      }
      AcceptChunk(tag.value, message);
      return true;
    }

    /** One chunk of a fragmented message, and the message itself when it was the last one missing. */
    method AcceptChunk(t: Tag, message: string)
      modifies this`FragBuf, this`FragTotal, this`ReceivedMsgs
      ensures InboxView() == AddChunk(old(InboxView()), t, message)
    {
      StoreChunk(t, message);
      var got := FragBuf[t.fragID];
      if |got| == (if t.fragID in FragTotal then FragTotal[t.fragID] else 0) {
        var assembled := AssembleChunks(got, t.total);
        FragBuf := FragBuf - {t.fragID};
        FragTotal := FragTotal - {t.fragID};
        ReceivedMsgs := ReceivedMsgs + [assembled];
      }
    }

    method StoreChunk(t: Tag, message: string)
      modifies this`FragBuf, this`FragTotal
      ensures t.fragID in FragBuf
      ensures FragBuf[t.fragID] == Written(old(InboxView()), t.fragID, t.idx, message)
      ensures FragBuf - {t.fragID} == old(FragBuf) - {t.fragID}
      ensures FragBuf == old(FragBuf)[t.fragID := FragBuf[t.fragID]]
      ensures FragTotal == if t.fragID in old(FragBuf) then old(FragTotal) else old(FragTotal)[t.fragID := t.total]
    {
      if t.fragID !in FragBuf {
        FragBuf := FragBuf[t.fragID := map[]];
        FragTotal := FragTotal[t.fragID := t.total];
      }
      FragBuf := FragBuf[t.fragID := FragBuf[t.fragID][t.idx := message]];
    }

    /** The builder loop over 1..total. */
    method AssembleChunks(got: map<int, string>, total: int) returns (b: string)
      ensures b == Assemble(got, 1, total)
    {
      b := "";
      var i := 1;
      while i <= total
        invariant 1 <= i
        invariant b + Assemble(got, i, total) == Assemble(got, 1, total)
      {
        b := b + (if i in got then got[i] else "");
        i := i + 1;
      }
      assert b + "" == b;
    }

    /** Where a put on a channel would block. */
    ghost predicate ChannelFull(told: Option<(Id, bool)>)
      reads this, PendingACKs.Values
    {
      told.Some? && told.value.0 in PendingACKs && |PendingACKs[told.value.0].buf| >= 1
    }

    /** What ends up on a channel that is pending here. */
    ghost function BufAfter(told: Option<(Id, bool)>, ch: AckChan): seq<bool>
      reads this, ch
    {
      ch.buf + if told.Some? && told.value.0 in PendingACKs && PendingACKs[told.value.0] == ch then [told.value.1]
        else []
    }

    /** "NACK:id" arrives. */
    method HandleNack(id: Id, net: Network) returns (blocked: bool)
      modifies this`PendingACKs, this`PendingRelays, PendingACKs.Values, net
      ensures blocked <==> old(ChannelFull(Some((id, false))))
      ensures blocked ==> View() == old(View()) && net.wire == old(net.wire)
      ensures !blocked ==> var e := OnNack(addr, old(View()), id);
        View() == Finish(e.node, e.next, [], net.up).0
          && net.wire == old(net.wire) + Finish(e.node, e.next, [], net.up).1
      ensures forall ch :: ch in old(PendingACKs.Values) ==>
                ch.buf == if blocked then old(ch.buf) else old(BufAfter(Some((id, false)), ch))
    {
      if id in PendingACKs {
        var done := Notify(id, false);
        assert id in old(Acks()) && net.wire + [] == net.wire;
        return !done;
      }
      if id in PendingRelays {
        var entry := PendingRelays[id];
        PendingRelays := PendingRelays - {id};
        var sent := net.SendToFirst(ParseAddresses(entry.PrevNodeAddr), Nack(entry.PrevNackID));
        FinishPropagate(View(), addr, ParseAddresses(entry.PrevNodeAddr), entry.PrevNackID, [], net.up);
      } else {
        assert net.wire + [] == net.wire;
      }
      return false;
    }

    /** A RELAY layer past the duplicate check: register, dial the shuffled next group, and on failure
        take the entry back and send the NACK. */
    method HandleRelay(layer: Layer, net: Network) returns (order: seq<Addr>)
      requires layer.Type == "RELAY"
      modifies this`PendingRelays, net
      ensures OrderFits([Opened(addr, layer)], order)
      ensures View() == Finish(old(View()), [Opened(addr, layer)], order, net.up).0
      ensures net.wire == old(net.wire) + Finish(old(View()), [Opened(addr, layer)], order, net.up).1
    {
      order := Shuffle(ParseAddresses(layer.Next));
      FinishRelay(addr, View(), layer, order, net.up);
      assert net.wire + [] == net.wire;
      if ':' !in layer.Next {
        return;
      }
      var parts := SplitN(layer.MsgID, ':', 2);
      if |parts| != 2 {
        return;
      }
      var toSend, toReceive := parts[0], parts[1];
      PendingRelays := PendingRelays[toReceive := Nackstruct(toSend, layer.From)];
      var sent := net.SendToFirst(order, Onion(layer.Data));
      if !sent {
        PendingRelays := PendingRelays - {toReceive};
        var told := net.SendToFirst(ParseAddresses(layer.From), Nack(toSend));
        assert old(net.wire) + [] == old(net.wire);
      }
    }

    /** A FINAL layer past the duplicate check: take the message in and send the return onion off. */
    method HandleFinal(layer: Layer, net: Network) returns (order: seq<Addr>)
      requires layer.Type == "FINAL"
      modifies this`FragBuf, this`FragTotal, this`ReceivedMsgs, net
      ensures OrderFits([Opened(addr, layer)], order)
      ensures View() == Finish(old(View()), [Opened(addr, layer)], order, net.up).0
      ensures net.wire == old(net.wire) + Finish(old(View()), [Opened(addr, layer)], order, net.up).1
    {
      order := Shuffle(ParseAddresses(layer.Next));
      FinishFinal(addr, View(), layer, order, net.up);
      assert net.wire + [] == net.wire;
      var ok := AcceptFinal(layer.Frag, layer.Message);
      if ok && layer.Next != "" && layer.Data != NoData {
        var sent := net.SendToFirst(order, Onion(layer.Data));
        if !sent {
          var told := net.SendToFirst(ParseAddresses(layer.From), Nack(layer.MsgID));
          assert old(net.wire) + [] == old(net.wire);
        }
      }
    }

    /** An ACK layer. */
    method HandleAck(layer: Layer, now: int) returns (blocked: bool)
      requires layer.Type == "ACK"
      modifies this`PendingACKs, PendingACKs.Values
      ensures blocked <==> old(ChannelFull(ToldBy(layer)))
      ensures View() == if blocked then old(View()) else OnLayer(addr, old(View()), layer, now).node
      ensures OnLayer(addr, old(View()), layer, now).next == []
      ensures forall ch :: ch in old(PendingACKs.Values) ==>
                ch.buf == if blocked then old(ch.buf) else old(BufAfter(ToldBy(layer), ch))
    {
      assert layer.MsgID in PendingACKs <==> layer.MsgID in Acks();
      if layer.MsgID in PendingACKs {
        var done := Notify(layer.MsgID, true);
        return !done;
      }
      return false;
    }

    /** A decrypted layer. */
    method HandleLayer(layer: Layer, now: int, net: Network) returns (order: seq<Addr>, blocked: bool)
      modifies this, PendingACKs.Values, net
      ensures OrderFits(OnLayer(addr, old(View()), layer, now).next, order)
      ensures !blocked ==> var e := OnLayer(addr, old(View()), layer, now);
        View() == Finish(e.node, e.next, order, net.up).0
          && net.wire == old(net.wire) + Finish(e.node, e.next, order, net.up).1
      ensures blocked ==> View() == old(View()) && net.wire == old(net.wire)
      ensures blocked <==> old(ChannelFull(ToldBy(layer)))
      ensures forall ch :: ch in old(PendingACKs.Values) ==>
                ch.buf == if blocked then old(ch.buf) else old(BufAfter(ToldBy(layer), ch))
    {
      order, blocked := [], false;
      assert net.wire + [] == net.wire;
      if layer.Type == "RELAY" || layer.Type == "FINAL" {
        var seen := SeenMsg(layer.MsgID, now);
        if !seen {
          assert View() == OnLayer(addr, old(View()), layer, now).node;
          if layer.Type == "RELAY" {
            order := HandleRelay(layer, net);
          } else {
            order := HandleFinal(layer, net);
          }
        }
      } else if layer.Type == "ACK" {
        blocked := HandleAck(layer, now);
      }
    }

    /** One incoming line, from the first byte to the last SendTo.  `blocked` tells the one case in
        which the program would stop inside the lock: a value for a channel that is full. */
    method HandlerRoutine(line: Msg, now: int, net: Network) returns (order: seq<Addr>, blocked: bool)
      modifies this, PendingACKs.Values, net
      ensures OrderFits(Receive(addr, old(View()), line, now).next, order)
      ensures !blocked ==> View() == Handled(addr, old(View()), line, now, order, net.up).0
      ensures !blocked ==> net.wire == old(net.wire) + Handled(addr, old(View()), line, now, order, net.up).1
      ensures blocked ==> View() == old(View()) && net.wire == old(net.wire)
      ensures blocked <==> old(ChannelFull(Told(PrivateKey, line)))
      ensures forall ch :: ch in old(PendingACKs.Values) ==>
                ch.buf == if blocked then old(ch.buf) else old(BufAfter(Told(PrivateKey, line), ch))
    {
      order, blocked := [], false;
      match line
      case Nack(id) =>
        blocked := HandleNack(id, net);
      case Onion(box) =>
        var plain := BroadcastDecrypt(box, PrivateKey);
        if plain.Err? {
          assert net.wire + [] == net.wire;
        } else {
          order, blocked := HandleLayer(plain.value, now, net);
        }
    }
  }
}
