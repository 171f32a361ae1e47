/**
 What one node does with one incoming line, as atomic steps.  The handler takes its locks one at a
 time, so other goroutines run between any two of these steps; a step reads and writes the maps of
 its own node only, and leaves behind at most the rest of its goroutine or one message on the wire.
 */
module Handler {
  import opened Wrappers
  import opened Strings
  import opened Layers
  import opened Fragments

  datatype Nackstruct = Nackstruct(PrevNackID: Id, PrevNodeAddr: string)

  /** The maps of a node and its private key.  PendingACKs holds channels, named here by numbers. */
  datatype NodeState = NodeState(acks: map<Id, nat>, relays: map<Id, Nackstruct>, seen: map<string, int>, inbox: Inbox,
                                 key: Key)

  /** A node as it starts: empty maps and a key pair just generated. */
  function BlankNode(key: Key): NodeState {
    NodeState(map[], map[], map[], EMPTY_INBOX, key)
  }

  /** A line: "NACK:id", or a box. */
  datatype Msg = Nack(id: Id) | Onion(box: Payload)

  /** A message on the wire, or what is left to do of a handler goroutine. */
  datatype Task =
    | Packet(dst: Addr, msg: Msg)
    | Opened(at: Addr, layer: Layer)                        // past the duplicate check
    | Forward(at: Addr, cands: seq<Addr>, layer: Layer)     // RELAY: trying the next group
    | Unregister(at: Addr, layer: Layer)                    // RELAY: the whole next group is offline
    | Reply(at: Addr, cands: seq<Addr>, layer: Layer)       // FINAL: trying the first return group
    | Propagate(at: Addr, cands: seq<Addr>, id: Id)         // sending "NACK:id" backward
    | Blocked(at: Addr)                                     // stuck on a full channel, lock held

  /** What a step does: the node's maps after it, the goroutine's remainder, the value put on a
      channel, and the FINAL layer accepted. */
  datatype Effect = Effect(node: NodeState, next: seq<Task>, notify: Option<(nat, bool)>, accepted: Option<Accept>)

  /** A FINAL layer that passed the duplicate check and went into the inbox of its node. */
  datatype Accept = Accept(at: Addr, msgID: Id, frag: string, message: string)

  function Quiet(nd: NodeState, next: seq<Task>): Effect {
    Effect(nd, next, None, None)
  }

  /** A loop over no address does nothing. */
  function PropagateTo(at: Addr, addrs: seq<Addr>, id: Id): seq<Task> {
    if addrs == [] then [] else [Propagate(at, addrs, id)]
  }

  function OnNack(at: Addr, nd: NodeState, id: Id): Effect {
    if id in nd.acks then
      Effect(nd.(acks := nd.acks - {id}), [], Some((nd.acks[id], false)), None)
    else if id in nd.relays then
      var entry := nd.relays[id];
      Quiet(nd.(relays := nd.relays - {id}), PropagateTo(at, ParseAddresses(entry.PrevNodeAddr), entry.PrevNackID))
    else
      Quiet(nd, [])
  }

  function OnLayer(at: Addr, nd: NodeState, layer: Layer, now: int): Effect {
    if layer.Type == "RELAY" || layer.Type == "FINAL" then
      if layer.MsgID in nd.seen then Quiet(nd, [])
      else Quiet(nd.(seen := nd.seen[layer.MsgID := now]), [Opened(at, layer)])
    else if layer.Type == "ACK" && layer.MsgID in nd.acks then
      Effect(nd.(acks := nd.acks - {layer.MsgID}), [], Some((nd.acks[layer.MsgID], true)), None)
    else
      Quiet(nd, [])
  }

  /** A line arrives. */
  function Receive(at: Addr, nd: NodeState, msg: Msg, now: int): Effect {
    match msg
    case Nack(id) => OnNack(at, nd, id)
    case Onion(box) =>
      var plain := Open(box, nd.key);
      if plain.Err? then Quiet(nd, []) else OnLayer(at, nd, plain.value, now)
  }

  /** The key under which a line is for a waiting sender, and what it tells it. */
  function Told(key: Key, msg: Msg): Option<(Id, bool)> {
    match msg
    case Nack(id) => Some((id, false))
    case Onion(box) => if Open(box, key).Ok? then ToldBy(Open(box, key).value) else None
  }

  function ToldBy(layer: Layer): Option<(Id, bool)> {
    if layer.Type == "ACK" then Some((layer.MsgID, true)) else None
  }

  /** The two halves of a relay's MsgID: what it would send back, and what it waits for. */
  function ParseIds(msgID: string): Option<(Id, Id)> {
    var parts := SplitN(msgID, ':', 2);
    if |parts| != 2 then None else Some((parts[0], parts[1]))
  }

  /** `order` is the next group as the shuffle left it. */
  function Proceed(at: Addr, nd: NodeState, layer: Layer, order: seq<Addr>): Effect {
    if layer.Type == "RELAY" then
      if ':' !in layer.Next || ParseIds(layer.MsgID).None? then Quiet(nd, [])
      else
        var (toSend, toReceive) := ParseIds(layer.MsgID).value;
        Quiet(nd.(relays := nd.relays[toReceive := Nackstruct(toSend, layer.From)]), [Forward(at, order, layer)])
    else if layer.Type == "FINAL" then
      var inbox := Deliver(nd.inbox, layer.Frag, layer.Message);
      if inbox.None? then Quiet(nd, [])
      else Effect(nd.(inbox := inbox.value),
                  if layer.Next != "" && layer.Data != NoData then [Reply(at, order, layer)] else [],
                  None, Some(Accept(at, layer.MsgID, layer.Frag, layer.Message)))
    else
      Quiet(nd, [])
  }

  function OnUnregister(at: Addr, nd: NodeState, layer: Layer): Effect {
    if ParseIds(layer.MsgID).None? then Quiet(nd, [])
    else
      var (toSend, toReceive) := ParseIds(layer.MsgID).value;
      Quiet(nd.(relays := nd.relays - {toReceive}), PropagateTo(at, ParseAddresses(layer.From), toSend))
  }

  /** The address the goroutine dials next. */
  function Dialled(t: Task): Option<Addr> {
    match t
    case Forward(_, cands, _) => if cands == [] then None else Some(cands[0])
    case Reply(_, cands, _) => if cands == [] then None else Some(cands[0])
    case Propagate(_, cands, _) => if cands == [] then None else Some(cands[0])
    case _ => None
  }

  /** One SendTo: on success the loop breaks with the message on the wire, on an error nothing has
      arrived and the next candidate is up; `ok` is ignored when no candidate is left. */
  function TrySend(t: Task, ok: bool): seq<Task> {
    match t
    case Forward(at, cands, layer) =>
      if cands == [] then [Unregister(at, layer)]
      else if ok then [Packet(cands[0], Onion(layer.Data))]
      else [Forward(at, cands[1..], layer)]
    case Reply(at, cands, layer) =>
      if cands == [] then PropagateTo(at, ParseAddresses(layer.From), layer.MsgID)
      else if ok then [Packet(cands[0], Onion(layer.Data))]
      else [Reply(at, cands[1..], layer)]
    case Propagate(at, cands, id) =>
      if cands == [] then []
      else if ok then [Packet(cands[0], Nack(id))]
      else PropagateTo(at, cands[1..], id)
    case _ => []
  }

  /** The node a task runs on, or travels to. */
  function Place(t: Task): Addr {
    match t
    case Packet(dst, _) => dst
    case Opened(at, _) => at
    case Forward(at, _, _) => at
    case Unregister(at, _) => at
    case Reply(at, _, _) => at
    case Propagate(at, _, _) => at
    case Blocked(at) => at
  }

  /** One atomic step of a task on its node. */
  function StepTask(nd: NodeState, t: Task, ok: bool, order: seq<Addr>, now: int): (e: Effect)
    ensures |e.next| <= 1
  {
    match t
    case Packet(dst, msg) => Receive(dst, nd, msg, now)
    case Opened(at, layer) => Proceed(at, nd, layer, order)
    case Unregister(at, layer) => OnUnregister(at, nd, layer)
    case Blocked(_) => Quiet(nd, [t])
    case _ => Quiet(nd, TrySend(t, ok))
  }

  // ---- what a step may change --------------------------------------------------------------

  /** A key of PendingACKs goes exactly when its channel is told something, and by a message for it. */
  ghost predicate AcksFrame(nd: NodeState, t: Task, e: Effect) {
    if e.notify.None? then e.node.acks == nd.acks
    else t.Packet? && exists k :: k in nd.acks && e.node.acks == nd.acks - {k} && e.notify.value.0 == nd.acks[k]
                                  && Told(nd.key, t.msg) == Some((k, e.notify.value.1))
  }

  /** PendingRelays gains one key when a RELAY layer is registered, and loses one when a NACK comes for
      it or its own forwarding has failed. */
  ghost predicate RelaysFrame(nd: NodeState, t: Task, e: Effect) {
    || e.node.relays == nd.relays
    || (t.Opened? && t.layer.Type == "RELAY" && ParseIds(t.layer.MsgID).Some?
        && e.node.relays == nd.relays[ParseIds(t.layer.MsgID).value.1 := Nackstruct(ParseIds(t.layer.MsgID).value.0,
             t.layer.From)])
    || (t.Unregister? && ParseIds(t.layer.MsgID).Some?
        && e.node.relays == nd.relays - {ParseIds(t.layer.MsgID).value.1})
    || (t.Packet? && t.msg.Nack? && t.msg.id in nd.relays && e.node.relays == nd.relays - {t.msg.id})
  }

  /** SeenMsgs gains exactly the MsgID of a layer that goes on to be processed. */
  ghost predicate SeenFrame(nd: NodeState, t: Task, now: int, e: Effect) {
    if t.Packet? && e.next != [] && e.next[0].Opened? then
      e.next[0].layer.MsgID !in nd.seen && e.node.seen == nd.seen[e.next[0].layer.MsgID := now]
    else e.node.seen == nd.seen
  }

  /** The inbox changes exactly when a FINAL layer is accepted. */
  ghost predicate InboxFrame(nd: NodeState, t: Task, e: Effect) {
    if e.accepted.None? then e.node.inbox == nd.inbox
    else
      && t.Opened? && t.layer.Type == "FINAL"
      && e.accepted == Some(Accept(t.at, t.layer.MsgID, t.layer.Frag, t.layer.Message))
      && Deliver(nd.inbox, t.layer.Frag, t.layer.Message) == Some(e.node.inbox)
  }

  /** The goroutine goes on at its node, or puts one message on the wire for the address it dialled. */
  ghost predicate NextFrame(t: Task, ok: bool, e: Effect) {
    e.next != [] ==>
      if e.next[0].Packet? then ok && Dialled(t) == Some(e.next[0].dst)
      else Place(e.next[0]) == Place(t)
  }

  lemma PacketFrame(nd: NodeState, t: Task, ok: bool, now: int)
    requires t.Packet?
    ensures var e := Receive(t.dst, nd, t.msg, now);
      && |e.next| <= 1 && e.node.key == nd.key
      && AcksFrame(nd, t, e) && RelaysFrame(nd, t, e) && SeenFrame(nd, t, now, e) && InboxFrame(nd, t, e)
         && NextFrame(t, ok, e)
  {
    hide ParseAddresses, ParseIds, Deliver, Open;
  }

  lemma OpenedFrame(nd: NodeState, t: Task, ok: bool, order: seq<Addr>, now: int)
    requires t.Opened?
    ensures var e := Proceed(t.at, nd, t.layer, order);
      && |e.next| <= 1 && e.node.key == nd.key
      && AcksFrame(nd, t, e) && RelaysFrame(nd, t, e) && SeenFrame(nd, t, now, e) && InboxFrame(nd, t, e)
         && NextFrame(t, ok, e)
  {
    hide ParseAddresses, ParseIds, Deliver;
  }

  /** Whatever task on whatever state: each map changes in its own few ways and the key not at all. */
  lemma StepFrame(nd: NodeState, t: Task, ok: bool, order: seq<Addr>, now: int)
    ensures var e := StepTask(nd, t, ok, order, now);
      && |e.next| <= 1 && e.node.key == nd.key
      && AcksFrame(nd, t, e) && RelaysFrame(nd, t, e) && SeenFrame(nd, t, now, e) && InboxFrame(nd, t, e)
         && NextFrame(t, ok, e)
  {
    hide ParseAddresses, ParseIds, Deliver, Receive, Proceed;
    if t.Packet? {
      PacketFrame(nd, t, ok, now);
    } else if t.Opened? {
      OpenedFrame(nd, t, ok, order, now);
    }
  }

  /** A shuffle's result. */
  predicate Shuffled(order: seq<Addr>, addrs: seq<Addr>) {
    multiset(order) == multiset(addrs)
  }

  // ---- a handler runs to its end -----------------------------------------------------------

  /** Steps a goroutine has left before it ends or hands over to a message. */
  function Rest(t: Task): nat {
    match t
    case Packet(_, _) => 0
    case Blocked(_) => 0
    case Opened(_, layer) => |ParseAddresses(layer.Next)| + |ParseAddresses(layer.From)| + 3
    case Forward(_, cands, layer) => |cands| + |ParseAddresses(layer.From)| + 2
    case Unregister(_, layer) => |ParseAddresses(layer.From)| + 1
    case Reply(_, cands, layer) => |cands| + |ParseAddresses(layer.From)| + 1
    case Propagate(_, cands, _) => |cands|
  }

  predicate Ended(ts: seq<Task>) {
    ts == [] || ts[0].Packet? || ts[0].Blocked?
  }

  /** Whatever layer it was given, honest or not, a goroutine ends. */
  lemma HandlerTerminates(nd: NodeState, t: Task, ok: bool, order: seq<Addr>, now: int)
    requires !t.Packet? && !t.Blocked?
    requires t.Opened? ==> |order| == |ParseAddresses(t.layer.Next)|
    ensures var next := StepTask(nd, t, ok, order, now).next;
      next != [] ==> !next[0].Opened? && Rest(next[0]) < Rest(t)
  {
    hide ParseIds, Deliver, ParseAddresses;
  }

  /** The atomic steps of one goroutine in a row, when exactly the addresses in `up` answer. */
  function Finish(nd: NodeState, ts: seq<Task>, order: seq<Addr>, up: set<Addr>): (result: (NodeState, seq<Task>))
    requires |ts| <= 1
    requires ts != [] && ts[0].Opened? ==> |order| == |ParseAddresses(ts[0].layer.Next)|
    ensures |result.1| <= 1
    ensures Ended(result.1)
    decreases if ts == [] then 0 else 1 + Rest(ts[0])
  {
    if Ended(ts) then (nd, ts)
    else
      HandlerTerminates(nd, ts[0], Dialled(ts[0]).Some? && Dialled(ts[0]).value in up, order, 0);
      var e := StepTask(nd, ts[0], Dialled(ts[0]).Some? && Dialled(ts[0]).value in up, order, 0);
      Finish(e.node, e.next, order, up)
  }

  predicate Meets(addrs: seq<Addr>, up: set<Addr>) {
    exists a :: a in addrs && a in up
  }

  /** Address k answers and none before it does. */
  predicate FirstAt(addrs: seq<Addr>, up: set<Addr>, k: int) {
    && 0 <= k < |addrs| && addrs[k] in up
    && forall j :: 0 <= j < k ==> addrs[j] !in up
  }

  /** The first address that answers: the one a dialling loop ends with. */
  function FirstIn(addrs: seq<Addr>, up: set<Addr>): (first: Option<Addr>)
    ensures first.None? <==> !Meets(addrs, up)
    ensures first.Some? ==> first.value in addrs && first.value in up
    ensures first.Some? ==> exists k :: FirstAt(addrs, up, k) && addrs[k] == first.value
  {
    if addrs == [] then None
    else if addrs[0] in up then
      assert FirstAt(addrs, up, 0);
      Some(addrs[0])
    else
      var first := FirstIn(addrs[1..], up);
      assert Meets(addrs, up) <==> Meets(addrs[1..], up) by { MeetsRest(addrs, up); }
      assert first.Some? ==> exists k :: FirstAt(addrs, up, k) && addrs[k] == first.value by {
        if first.Some? {
          var k :| FirstAt(addrs[1..], up, k) && addrs[1..][k] == first.value;
          assert FirstAt(addrs, up, k + 1);
        }
      }
      first
  }

  lemma MeetsRest(addrs: seq<Addr>, up: set<Addr>)
    requires addrs != [] && addrs[0] !in up
    ensures Meets(addrs, up) <==> Meets(addrs[1..], up)
  {
    if Meets(addrs, up) {
      var a :| a in addrs && a in up;
      assert a in addrs[1..];
    }
  }

  /** The message to the first address that answers. */
  function FirstUp(addrs: seq<Addr>, msg: Msg, up: set<Addr>): (sent: seq<Task>)
    ensures |sent| <= 1
    ensures sent == [] <==> forall a :: a in addrs ==> a !in up
    ensures sent != [] ==>
              sent[0].Packet? && sent[0].msg == msg && exists k :: FirstAt(addrs, up, k) && addrs[k] == sent[0].dst
  {
    match FirstIn(addrs, up)
    case None => []
    case Some(first) => [Packet(first, msg)]
  }

  /** The first k addresses are dialled in vain; the next one answers, unless there is none. */
  predicate InVain(addrs: seq<Addr>, up: set<Addr>, k: int) {
    && 0 <= k <= |addrs|
    && (forall i :: 0 <= i < k ==> addrs[i] !in up)
    && (k < |addrs| ==> addrs[k] in up)
  }

  lemma FirstUpNext(addrs: seq<Addr>, msg: Msg, up: set<Addr>)
    requires addrs != []
    ensures FirstUp(addrs, msg, up) == if addrs[0] in up then [Packet(addrs[0], msg)] else FirstUp(addrs[1..], msg, up)
    ensures FirstUp([], msg, up) == []
  {
  }

  lemma FirstUpIs(addrs: seq<Addr>, msg: Msg, up: set<Addr>, k: int)
    requires InVain(addrs, up, k)
    ensures FirstUp(addrs, msg, up) == if k < |addrs| then [Packet(addrs[k], msg)] else []
    ensures FirstUp(addrs, msg, up) == [] <==> k == |addrs|
  {
    hide FirstUp;
    var sent := FirstUp(addrs, msg, up);
    if k < |addrs| {
      assert addrs[k] in addrs && addrs[k] in up;
      var j :| FirstAt(addrs, up, j) && addrs[j] == sent[0].dst;
      assert j == k;
    }
  }

  lemma {:induction false} FinishPropagate(nd: NodeState, at: Addr, addrs: seq<Addr>, id: Id, order: seq<Addr>,
                                           up: set<Addr>)
    ensures Finish(nd, PropagateTo(at, addrs, id), order, up) == (nd, FirstUp(addrs, Nack(id), up))
    decreases |addrs|
  {
    if addrs != [] && addrs[0] !in up {
      FinishPropagate(nd, at, addrs[1..], id, order, up);
    }
  }

  lemma {:induction false} FinishForward(nd: NodeState, at: Addr, cands: seq<Addr>, layer: Layer, order: seq<Addr>,
                                         up: set<Addr>)
    ensures var sent := FirstUp(cands, Onion(layer.Data), up);
      Finish(nd, [Forward(at, cands, layer)], order, up)
      == if sent != [] then (nd, sent) else Finish(nd, [Unregister(at, layer)], order, up)
    decreases |cands|
  {
    if cands != [] && cands[0] !in up {
      FinishForward(nd, at, cands[1..], layer, order, up);
    }
  }

  lemma {:induction false} FinishReply(nd: NodeState, at: Addr, cands: seq<Addr>, layer: Layer, order: seq<Addr>,
                                       up: set<Addr>)
    ensures var sent := FirstUp(cands, Onion(layer.Data), up);
      Finish(nd, [Reply(at, cands, layer)], order, up)
      == if sent != [] then (nd, sent) else (nd, FirstUp(ParseAddresses(layer.From), Nack(layer.MsgID), up))
    decreases |cands|
  {
    if cands == [] {
      FinishPropagate(nd, at, ParseAddresses(layer.From), layer.MsgID, order, up);
    } else if cands[0] !in up {
      FinishReply(nd, at, cands[1..], layer, order, up);
    }
  }

  lemma FinishUnregister(nd: NodeState, at: Addr, layer: Layer, order: seq<Addr>, up: set<Addr>)
    requires ParseIds(layer.MsgID).Some?
    ensures var (toSend, toReceive) := ParseIds(layer.MsgID).value;
      Finish(nd, [Unregister(at, layer)], order, up)
      == (nd.(relays := nd.relays - {toReceive}), FirstUp(ParseAddresses(layer.From), Nack(toSend), up))
  {
    var (toSend, toReceive) := ParseIds(layer.MsgID).value;
    FinishPropagate(nd.(relays := nd.relays - {toReceive}), at, ParseAddresses(layer.From), toSend, order, up);
  }

  /** A whole line, handled without interruption. */
  function Handled(at: Addr, nd: NodeState, msg: Msg, now: int, order: seq<Addr>,
                   up: set<Addr>): (result: (NodeState, seq<Task>))
    requires OrderFits(Receive(at, nd, msg, now).next, order)
    ensures |result.1| <= 1
  {
    var e := Receive(at, nd, msg, now);
    Finish(e.node, e.next, order, up)
  }

  /** The shuffle has permuted the next group of the layer just opened. */
  predicate OrderFits(ts: seq<Task>, order: seq<Addr>) {
    |ts| <= 1 && (ts != [] && ts[0].Opened? ==>
      Shuffled(order, ParseAddresses(ts[0].layer.Next)) && |order| == |ParseAddresses(ts[0].layer.Next)|)
  }

  /** A NACK handled to its end: a waiting sender is told before any entry is looked at; otherwise the
      entry goes and the NACK goes on; otherwise nothing happens. */
  lemma FinishNack(at: Addr, nd: NodeState, id: Id, order: seq<Addr>, up: set<Addr>)
    ensures var e := OnNack(at, nd, id);
      if id in nd.acks then
        e.notify == Some((nd.acks[id], false)) && Finish(e.node, e.next, order, up) == (nd.(acks := nd.acks - {id}), [])
      else if id in nd.relays then
        var entry := nd.relays[id];
        e.notify == None && Finish(e.node, e.next, order, up)
          == (nd.(relays := nd.relays - {id}), FirstUp(ParseAddresses(entry.PrevNodeAddr), Nack(entry.PrevNackID), up))
      else
        e.notify == None && Finish(e.node, e.next, order, up) == (nd, [])
  {
    hide FirstUp;
    if id !in nd.acks && id in nd.relays {
      var entry := nd.relays[id];
      FinishPropagate(nd.(relays := nd.relays - {id}), at, ParseAddresses(entry.PrevNodeAddr), entry.PrevNackID, order,
                      up);
    }
  }

  /** A layer decrypted: RELAY and FINAL go on exactly when their MsgID is new, which is then recorded; an
      ACK tells the sender that waits for its MsgID; anything else changes nothing. */
  lemma LayerArrives(at: Addr, nd: NodeState, layer: Layer, now: int)
    ensures var e := OnLayer(at, nd, layer, now);
      if (layer.Type == "RELAY" || layer.Type == "FINAL") && layer.MsgID !in nd.seen then
        e == Effect(nd.(seen := nd.seen[layer.MsgID := now]), [Opened(at, layer)], None, None)
      else if layer.Type == "ACK" && layer.MsgID in nd.acks then
        e == Effect(nd.(acks := nd.acks - {layer.MsgID}), [], Some((nd.acks[layer.MsgID], true)), None)
      else
        e == Effect(nd, [], None, None)
  {
  }

  lemma FinishRelay(at: Addr, nd: NodeState, layer: Layer, order: seq<Addr>, up: set<Addr>)
    requires layer.Type == "RELAY" && |order| == |ParseAddresses(layer.Next)|
    ensures var result := Finish(nd, [Opened(at, layer)], order, up);
      if ':' !in layer.Next || ParseIds(layer.MsgID).None? then result == (nd, [])
      else
        var (toSend, toReceive) := ParseIds(layer.MsgID).value;
        var registered := nd.(relays := nd.relays[toReceive := Nackstruct(toSend, layer.From)]);
        var sent := FirstUp(order, Onion(layer.Data), up);
        result == if sent != [] then (registered, sent)
                  else (registered.(relays := registered.relays - {toReceive}),
                        FirstUp(ParseAddresses(layer.From), Nack(toSend), up))
  {
    if ':' in layer.Next && ParseIds(layer.MsgID).Some? {
      var (toSend, toReceive) := ParseIds(layer.MsgID).value;
      var registered := nd.(relays := nd.relays[toReceive := Nackstruct(toSend, layer.From)]);
      FinishForward(registered, at, order, layer, order, up);
      FinishUnregister(registered, at, layer, order, up);
    }
  }

  lemma FinishFinal(at: Addr, nd: NodeState, layer: Layer, order: seq<Addr>, up: set<Addr>)
    requires layer.Type == "FINAL" && |order| == |ParseAddresses(layer.Next)|
    ensures var result := Finish(nd, [Opened(at, layer)], order, up);
      var inbox := Deliver(nd.inbox, layer.Frag, layer.Message);
      if inbox.None? then result == (nd, [])
      else
        var sent := FirstUp(order, Onion(layer.Data), up);
        result == (nd.(inbox := inbox.value),
                   if layer.Next == "" || layer.Data == NoData then []
                   else if sent != [] then sent
                   else FirstUp(ParseAddresses(layer.From), Nack(layer.MsgID), up))
  {
    var inbox := Deliver(nd.inbox, layer.Frag, layer.Message);
    if inbox.Some? {
      FinishReply(nd.(inbox := inbox.value), at, order, layer, order, up);
    }
  }
}
