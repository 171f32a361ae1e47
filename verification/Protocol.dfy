/**
 The network of nodes as a step system: any number of sends run at once, every handler and waiter
 goroutine advances one atomic step at a time, any SendTo may fail, any message or goroutine may be
 lost, nodes may crash and come back blank, and keys may be replaced while onions are under way.
 */
module Protocol {
  import opened Wrappers
  import opened Layers
  import opened Encapsulation
  import opened Fragments
  import opened Handler

  // ---- one attempt -------------------------------------------------------------------------

  /** One onion sent: the relay groups towards dest, the keys the sender had for the route, the
      identifiers drawn for it, and (for the proofs) the onion with what is left of it after each hop. */
  datatype Attempt = Attempt(
    send: nat, sender: Addr, dest: Addr, relays: seq<seq<Addr>>, keyOf: map<Addr, Key>,
    msgID: Id, nacks: seq<Id>, frag: string, message: string, boxes: seq<Payload>)

  /** Forward hops, counting the destination. */
  function Hops(att: Attempt): nat {
    |att.relays| + 1
  }

  /** The round trip has 2n stations: relays, destination, relays backward, sender. */
  function Stations(att: Attempt): nat {
    2 * Hops(att)
  }

  /** One identifier per hop and one box per station. */
  predicate Sized(att: Attempt) {
    |att.nacks| == Hops(att) && |att.boxes| == Stations(att)
  }

  predicate IsRelay(att: Attempt, i: int) {
    0 <= i < Stations(att) - 1 && i != Hops(att) - 1
  }

  function Group(att: Attempt, i: int): seq<Addr>
    requires 0 <= i < Stations(att)
  {
    var n := Hops(att);
    if i < n - 1 then att.relays[i]
    else if i == n - 1 then [att.dest]
    else if i < 2 * n - 1 then att.relays[2 * n - 2 - i]
    else [att.sender]
  }

  /** The identifier a NACK from station i carries: the forward ones again, reversed. */
  function IdIn(att: Attempt, i: int): Id
    requires Sized(att) && 0 <= i < Stations(att)
  {
    if i < Hops(att) then att.nacks[i] else att.nacks[Stations(att) - 1 - i]
  }

  /** Where a NACK from station i goes. */
  function Back(att: Attempt, i: int): seq<Addr>
    requires 0 <= i < Stations(att)
  {
    if i == 0 || i == Hops(att) then [att.sender] else Group(att, i - 1)
  }

  function LayerAt(att: Attempt, i: int): Layer
    requires Sized(att) && 0 <= i < Stations(att)
  {
    if i == Stations(att) - 1 then AckLayer(att.msgID)
    else if i == Hops(att) - 1 then
      OnionLayer("FINAL", att.msgID, JoinAddresses(Group(att, i + 1)), "", att.boxes[i + 1], att.frag, att.message)
    else
      OnionLayer("RELAY", PairId(IdIn(att, i), IdIn(att, i + 1)), JoinAddresses(Group(att, i + 1)),
                 JoinAddresses(Back(att, i)), att.boxes[i + 1], "", "")
  }

  function MsgIdAt(att: Attempt, i: int): string
    requires Sized(att) && 0 <= i < Stations(att)
  {
    if i == Stations(att) - 1 || i == Hops(att) - 1 then att.msgID else PairId(IdIn(att, i), IdIn(att, i + 1))
  }

  /** The key to seal with for an address, and for a group. */
  function KeyFor(keyOf: map<Addr, Key>, a: Addr): Key {
    if a in keyOf then keyOf[a] else ""
  }

  function KeysFor(keyOf: map<Addr, Key>, addrs: seq<Addr>): (keys: seq<Key>)
    ensures |keys| == |addrs|
  {
    seq(|addrs|, i requires 0 <= i < |addrs| => KeyFor(keyOf, addrs[i]))
  }

  /** Whether the holder of this key can open box i. */
  predicate Fits(att: Attempt, i: int, key: Key)
    requires 0 <= i < Stations(att)
  {
    key in KeysFor(att.keyOf, Group(att, i))
  }

  /** Box i is sealed for the keys of group i and shows layer i, which holds box i + 1. */
  predicate BoxOK(att: Attempt, i: int)
    requires Sized(att) && 0 <= i < Stations(att)
  {
    att.boxes[i] == Sealed(KeysFor(att.keyOf, Group(att, i)), LayerAt(att, i))
  }

  predicate ColonFree(id: Id) {
    ':' !in id
  }

  predicate FreshIds(msgID: Id, nacks: seq<Id>) {
    && ColonFree(msgID) && msgID !in nacks
    && (forall i :: 0 <= i < |nacks| ==> ColonFree(nacks[i]))
    && (forall i, j :: 0 <= i < j < |nacks| ==> nacks[i] != nacks[j])
  }

  predicate Disjoint(a: seq<Addr>, b: seq<Addr>) {
    forall x :: x in a ==> x !in b
  }

  /** What the route builders guarantee: non-empty groups, no address in two of them, and never the sender. */
  predicate ValidRoute(relays: seq<seq<Addr>>, sender: Addr) {
    && |relays| >= 1
    && (forall i :: 0 <= i < |relays| ==> relays[i] != [] && ValidAddrs(relays[i]) && sender !in relays[i])
    && (forall i, j :: 0 <= i < |relays| && 0 <= j < |relays| && i != j ==> Disjoint(relays[i], relays[j]))
  }

  /** No tag, or one the handler can parse. */
  predicate FragOK(frag: string) {
    frag == "" || ParseTag(frag).Some?
  }

  predicate ValidAttempt(att: Attempt) {
    && ValidRoute(att.relays, att.sender)
    && ValidAddr(att.sender) && ValidAddr(att.dest) && FragOK(att.frag)
    && Sized(att) && FreshIds(att.msgID, att.nacks)
    && forall i :: 0 <= i < Stations(att) ==> BoxOK(att, i)
  }

  /** The acceptance this attempt is after. */
  function AcceptOf(att: Attempt): Accept {
    Accept(att.dest, att.msgID, att.frag, att.message)
  }

  /** How often the destination accepted this attempt's FINAL layer. */
  function Accepted(accepted: seq<Accept>, att: Attempt): nat {
    multiset(accepted)[AcceptOf(att)]
  }

  function IdsOf(att: Attempt): set<Id> {
    {att.msgID} + set id | id in att.nacks
  }

  // ---- the state ---------------------------------------------------------------------------

  /** A capacity-1 channel, with the history of the values put on it. */
  datatype Chan = Chan(buf: Option<bool>, sent: seq<bool>)

  datatype Outcome = Acked | Abandoned | TimedOut | Stopped | Crashed

  datatype Phase =
    | Ready                                              // on entry of the retry function
    | Launching(cands: seq<Addr>, onion: Payload)        // registered; dialling the first group
    | Waiting                                            // the waiter is in its select
    | Clearing(expired: bool)                            // about to delete both registered keys
    | Done(outcome: Outcome)

  /** One call of SendWithRetry, through all its tries; `cur` is the latest attempt. */
  datatype Send = Send(sender: Addr, dest: Addr, message: string, frag: string,
                       maxRetries: int, tries: int, cur: Option<nat>, phase: Phase)

  /** `accepted` is the history of accepted FINAL layers, in order; channel c belongs to attempt c. */
  datatype State = State(nodes: map<Addr, NodeState>, attempts: seq<Attempt>, chans: seq<Chan>,
                         tasks: map<nat, Task>, nextTask: nat, sends: seq<Send>, accepted: seq<Accept>)

  ghost predicate Init(s: State) {
    && (forall a :: a in s.nodes ==> s.nodes[a] == BlankNode(s.nodes[a].key))
    && s.attempts == [] && s.chans == [] && s.tasks == map[] && s.sends == [] && s.accepted == []
  }

  // ---- steps -------------------------------------------------------------------------------

  datatype Label =
    | NewSend(sender: Addr, dest: Addr, message: string, frag: string, maxRetries: int)
    | Abandon(x: nat)                                               // currentTry >= maxRetries
    | Stop(x: nat)                                                  // no list, too few relays, a key missing
    | Launch(x: nat, relays: seq<seq<Addr>>, keyOf: map<Addr, Key>, msgID: Id, nacks: seq<Id>)
    | Dial(x: nat, ok: bool)                                        // one SendTo to the first group
    | Consume(x: nat)                                               // the waiter receives a value
    | Expire(x: nat)                                                // eight seconds are over
    | Clear(x: nat)                                                 // the two keys are deleted
    | Run(t: nat, ok: bool, order: seq<Addr>, now: int)             // one step of a handler
    | Lose(t: nat)
    | Crash(a: Addr, key: Key)                                      // and comes back with a new key
    | Rotate(a: Addr, key: Key)                                     // REGEN
    | Evict(a: Addr, ids: set<string>)                              // the SeenMsgs sweep

  /** The onion the group builder makes for a route and its mirror image. */
  function GroupWith(keyOf: map<Addr, Key>, addrs: seq<Addr>): LayerGroup {
    LayerGroup(addrs, KeysFor(keyOf, addrs))
  }

  function GroupsOf(relays: seq<seq<Addr>>, keyOf: map<Addr, Key>): seq<LayerGroup> {
    seq(|relays|, i requires 0 <= i < |relays| => GroupWith(keyOf, relays[i]))
  }

  function ForwardRoute(relays: seq<seq<Addr>>, dest: Addr, keyOf: map<Addr, Key>): (route: seq<LayerGroup>)
    ensures |route| == |relays| + 1
  {
    GroupsOf(relays, keyOf) + [GroupWith(keyOf, [dest])]
  }

  function ReturnRoute(relays: seq<seq<Addr>>, sender: Addr, keyOf: map<Addr, Key>): (route: seq<LayerGroup>)
    ensures |route| == |relays| + 1
  {
    seq(|relays|, i requires 0 <= i < |relays| =>
      GroupWith(keyOf, relays[|relays| - 1 - i])) + [GroupWith(keyOf, [sender])]
  }

  function AttemptOnion(e: Send, relays: seq<seq<Addr>>, keyOf: map<Addr, Key>, msgID: Id, nacks: seq<Id>): Payload
    requires |nacks| == |relays| + 1
  {
    DoubleOnion(e.message, e.frag, ForwardRoute(relays, e.dest, keyOf), Some(ReturnRoute(relays, e.sender, keyOf)),
                e.sender, msgID, nacks)
  }

  function NewAttempt(x: nat, e: Send, relays: seq<seq<Addr>>, keyOf: map<Addr, Key>, msgID: Id,
                      nacks: seq<Id>): Attempt
    requires |nacks| == |relays| + 1
  {
    var onion := AttemptOnion(e, relays, keyOf, msgID, nacks);
    Attempt(x, e.sender, e.dest, relays, keyOf, msgID, nacks, e.frag, e.message,
            seq(2 * |relays| + 2, i requires 0 <= i => Peel(onion, i)))
  }

  /** Every key the builder looks up is there, fresh or stale. */
  predicate HasKeys(relays: seq<seq<Addr>>, e: Send, keyOf: map<Addr, Key>) {
    && e.sender in keyOf && e.dest in keyOf
    && forall i, x :: 0 <= i < |relays| && x in relays[i] ==> x in keyOf
  }

  /** The identifier supply never repeats itself. */
  ghost predicate Unused(s: State, msgID: Id, nacks: seq<Id>) {
    forall a :: 0 <= a < |s.attempts| ==> IdsOf(s.attempts[a]) !! ({msgID} + set id | id in nacks)
  }

  ghost predicate Enabled(s: State, l: Label) {
    match l
    case NewSend(sender, dest, message, frag, maxRetries) =>
      sender in s.nodes && ValidAddr(sender) && ValidAddr(dest) && FragOK(frag)
    case Abandon(x) => x < |s.sends| && s.sends[x].phase.Ready? && s.sends[x].tries >= s.sends[x].maxRetries
    case Stop(x) => x < |s.sends| && s.sends[x].phase.Ready? && s.sends[x].tries < s.sends[x].maxRetries
    case Launch(x, relays, keyOf, msgID, nacks) =>
      && x < |s.sends| && s.sends[x].phase.Ready? && s.sends[x].tries < s.sends[x].maxRetries
      && s.sends[x].sender in s.nodes
      && ValidRoute(relays, s.sends[x].sender) && HasKeys(relays, s.sends[x], keyOf)
      && |nacks| == |relays| + 1 && FreshIds(msgID, nacks) && Unused(s, msgID, nacks)
    case Dial(x, ok) =>
      && x < |s.sends| && s.sends[x].phase.Launching? && s.sends[x].phase.cands != []
      && (ok ==> s.sends[x].phase.cands[0] in s.nodes)
    case Consume(x) =>
      && x < |s.sends| && s.sends[x].phase.Waiting? && s.sends[x].cur.Some?
      && s.sends[x].cur.value < |s.chans| && s.chans[s.sends[x].cur.value].buf.Some?
    case Expire(x) => x < |s.sends| && s.sends[x].phase.Waiting?
    case Clear(x) =>
      && x < |s.sends| && s.sends[x].phase.Clearing? && s.sends[x].cur.Some?
      && s.sends[x].cur.value < |s.attempts| && s.sends[x].sender in s.nodes
    case Run(t, ok, order, now) =>
      && t in s.tasks && !s.tasks[t].Blocked? && Place(s.tasks[t]) in s.nodes
      && (s.tasks[t].Opened? ==> Shuffled(order, ParseAddresses(s.tasks[t].layer.Next)))
      && (ok && Dialled(s.tasks[t]).Some? ==> Dialled(s.tasks[t]).value in s.nodes)
    case Lose(t) => t in s.tasks
    case Crash(a, key) => a in s.nodes
    case Rotate(a, key) => a in s.nodes
    case Evict(a, ids) => a in s.nodes
  }

  function SetPhase(s: State, x: nat, phase: Phase): State
    requires x < |s.sends|
  {
    s.(sends := s.sends[x := s.sends[x].(phase := phase)])
  }

  function ReplaceTask(tasks: map<nat, Task>, nextTask: nat, t: nat, next: seq<Task>): map<nat, Task> {
    if next == [] then tasks - {t} else (tasks - {t})[nextTask := next[0]]
  }

  function Register(nd: NodeState, msgID: Id, firstNack: Id, c: nat): NodeState {
    nd.(acks := nd.acks[msgID := c][firstNack := c])
  }

  function Deregister(nd: NodeState, msgID: Id, firstNack: Id): NodeState {
    nd.(acks := nd.acks - {msgID} - {firstNack})
  }

  /** What the waiter reports, whether it starts the next try, and its node afterwards. */
  datatype Verdict = Verdict(outcome: Option<Outcome>, retry: bool, node: NodeState)

  /** None for the eight seconds being over. */
  function Waited(nd: NodeState, msgID: Id, firstNack: Id, heard: Option<bool>): Verdict {
    match heard
    case None => Verdict(Some(TimedOut), false, Deregister(nd, msgID, firstNack))
    case Some(success) =>
      if success then Verdict(Some(Acked), false, nd) else Verdict(None, true, Deregister(nd, msgID, firstNack))
  }

  function CrashSend(e: Send, a: Addr): Send {
    if e.sender == a && !e.phase.Done? then e.(phase := Done(Crashed)) else e
  }

  predicate Survives(t: Task, a: Addr) {
    t.Packet? || Place(t) != a
  }

  function RunTask(s: State, t: nat, ok: bool, order: seq<Addr>, now: int): State
    requires t in s.tasks && Place(s.tasks[t]) in s.nodes
  {
    var at := Place(s.tasks[t]);
    var e := StepTask(s.nodes[at], s.tasks[t], ok, order, now);
    if e.notify.Some? && e.notify.value.0 < |s.chans| && s.chans[e.notify.value.0].buf.Some? then
      s.(tasks := s.tasks[t := Blocked(at)])
    else
      s.(nodes := s.nodes[at := e.node],
         tasks := ReplaceTask(s.tasks, s.nextTask, t, e.next),
         nextTask := s.nextTask + 1,
         chans := if e.notify.Some? && e.notify.value.0 < |s.chans|
                  then s.chans[e.notify.value.0 := Chan(Some(e.notify.value.1),
                                                        s.chans[e.notify.value.0].sent + [e.notify.value.1])]
                  else s.chans,
         accepted := if e.accepted.Some? then s.accepted + [e.accepted.value] else s.accepted)
  }

  ghost function Next(s: State, l: Label): State
    requires Enabled(s, l)
  {
    match l
    case NewSend(sender, dest, message, frag, maxRetries) =>
      s.(sends := s.sends + [Send(sender, dest, message, frag, maxRetries, 0, None, Ready)])
    case Abandon(x) => SetPhase(s, x, Done(Abandoned))
    case Stop(x) => SetPhase(s, x, Done(Stopped))
    case Launch(x, relays, keyOf, msgID, nacks) =>
      var e := s.sends[x];
      var c := |s.attempts|;
      s.(attempts := s.attempts + [NewAttempt(x, e, relays, keyOf, msgID, nacks)],
         chans := s.chans + [Chan(None, [])],
         nodes := s.nodes[e.sender := Register(s.nodes[e.sender], msgID, nacks[0], c)],
         sends := s.sends[x := e.(cur := Some(c),
                                  phase := Launching(relays[0], AttemptOnion(e, relays, keyOf, msgID, nacks)))])
    case Dial(x, ok) =>
      var p := s.sends[x].phase;
      if ok then
        SetPhase(s, x, Waiting).(tasks := s.tasks[s.nextTask := Packet(p.cands[0], Onion(p.onion))],
                                 nextTask := s.nextTask + 1)
      else
        SetPhase(s, x, if |p.cands| == 1 then Clearing(false) else Launching(p.cands[1..], p.onion))
    case Consume(x) =>
      var c := s.sends[x].cur.value;
      var success := s.chans[c].buf.value;
      SetPhase(s, x, if success then Done(Acked) else Clearing(false)).(chans := s.chans[c := s.chans[c].(buf := None)])
    case Expire(x) => SetPhase(s, x, Clearing(true))
    case Clear(x) =>
      var e := s.sends[x];
      var att := s.attempts[e.cur.value];
      var firstNack := if att.nacks == [] then "" else att.nacks[0];
      s.(nodes := s.nodes[e.sender := Deregister(s.nodes[e.sender], att.msgID, firstNack)],
         sends := s.sends[x := if e.phase.expired then e.(phase := Done(TimedOut))
                          else e.(phase := Ready, tries := e.tries + 1)])
    case Run(t, ok, order, now) => RunTask(s, t, ok, order, now)
    case Lose(t) => s.(tasks := s.tasks - {t})
    case Rotate(a, key) => s.(nodes := s.nodes[a := s.nodes[a].(key := key)])
    case Crash(a, key) =>
      s.(nodes := s.nodes[a := BlankNode(key)],
         tasks := map t | t in s.tasks && Survives(s.tasks[t], a) :: s.tasks[t],
         sends := seq(|s.sends|, x requires 0 <= x < |s.sends| => CrashSend(s.sends[x], a)))
    case Evict(a, ids) => s.(nodes := s.nodes[a := s.nodes[a].(seen := s.nodes[a].seen - ids)])
  }

  // ---- runs --------------------------------------------------------------------------------

  /** states[0] is initial and every later state is the previous one's successor by its label. */
  ghost predicate IsRun(states: seq<State>, labels: seq<Label>) {
    && |states| == |labels| + 1
    && Init(states[0])
    && forall k :: 0 <= k < |labels| ==> IsStep(states[k], labels[k], states[k + 1])
  }

  ghost predicate IsStep(s: State, l: Label, s': State) {
    Enabled(s, l) && s' == Next(s, l)
  }
}
