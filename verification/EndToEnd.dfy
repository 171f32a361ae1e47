/**
 From the SEND command to the list of received messages: over every run, with any interleaving of
 sends, tries and failures, what a destination has received is what its senders' outcomes say.
 */
module EndToEnd {
  import opened Wrappers
  import opened Layers
  import opened Fragments
  import opened Handler
  import opened Protocol
  import opened Invariant
  import opened Preservation
  import opened Outcomes

  // ---- attempts carry what their sends were given ------------------------------------------

  predicate SameCargo(e: Send, e': Send) {
    e.dest == e'.dest && e.frag == e'.frag && e.message == e'.message
  }

  predicate SendsKept(s: State, s': State) {
    && |s.sends| <= |s'.sends|
    && forall x :: 0 <= x < |s.sends| ==> SameCargo(s.sends[x], s'.sends[x])
  }

  lemma StepSends(s: State, l: Label)
    requires Enabled(s, l)
    ensures SendsKept(s, Next(s, l))
  {
  }

  predicate Carried(att: Attempt, sends: seq<Send>) {
    att.send < |sends| && var e := sends[att.send]; att.dest == e.dest && att.frag == e.frag && att.message == e.message
  }

  ghost predicate FromSends(s: State) {
    forall a :: 0 <= a < |s.attempts| ==> Carried(s.attempts[a], s.sends)
  }

  lemma StepFromSends(s: State, l: Label)
    requires Enabled(s, l) && FromSends(s)
    ensures FromSends(Next(s, l))
  {
    StepSends(s, l);
    var s' := Next(s, l);
    StepGrows(s, l);
    forall a | 0 <= a < |s'.attempts|
      ensures Carried(s'.attempts[a], s'.sends)
    {
      if a < |s.attempts| {
        assert Carried(s.attempts[a], s.sends);
        assert s'.attempts[a] == s.attempts[a];
      }
    }
  }

  lemma {:induction false} RunFromSends(states: seq<State>, labels: seq<Label>, k: nat)
    requires IsRun(states, labels) && k <= |labels|
    ensures FromSends(states[k])
  {
    if k > 0 {
      RunFromSends(states, labels, k - 1);
      assert IsStep(states[k - 1], labels[k - 1], states[k]);
      StepFromSends(states[k - 1], labels[k - 1]);
    }
  }

  // ---- the inbox follows the accepted layers -----------------------------------------------

  lemma TaskInbox(nd: NodeState, t: Task, ok: bool, order: seq<Addr>, now: int)
    ensures var e := StepTask(nd, t, ok, order, now);
      if e.accepted.None? then e.node.inbox == nd.inbox
      else e.notify.None? && e.accepted.value.at == Place(t)
           && Deliver(nd.inbox, e.accepted.value.frag, e.accepted.value.message) == Some(e.node.inbox)
  {
  }

  /** A step that accepts e, as seen from node x. */
  ghost predicate AcceptsAt(s: State, s': State, x: Addr, e: Accept)
    requires x in s.nodes && x in s'.nodes
  {
    && s'.accepted == s.accepted + [e] && s'.attempts == s.attempts && s'.sends == s.sends
    && Some(s'.nodes[x].inbox) == if e.at == x then Deliver(s.nodes[x].inbox, e.frag, e.message)
       else Some(s.nodes[x].inbox)
  }

  ghost predicate AcceptsNothing(s: State, s': State, x: Addr)
    requires x in s.nodes && x in s'.nodes
  {
    s'.accepted == s.accepted && s'.nodes[x].inbox == s.nodes[x].inbox
  }

  lemma StepInbox(s: State, l: Label, x: Addr)
    requires Enabled(s, l) && x in s.nodes && !(l.Crash? && l.a == x)
    ensures x in Next(s, l).nodes
    ensures AcceptsNothing(s, Next(s, l), x) || exists e :: AcceptsAt(s, Next(s, l), x, e)
  {
    if l.Run? {
      var t := s.tasks[l.t];
      var at := Place(t);
      TaskInbox(s.nodes[at], t, l.ok, l.order, l.now);
      var e := StepTask(s.nodes[at], t, l.ok, l.order, l.now);
      RunInbox(s, l, x, e);
    }
  }

  lemma RunInbox(s: State, l: Label, x: Addr, e: Effect)
    requires Enabled(s, l) && l.Run? && x in s.nodes
    requires e == StepTask(s.nodes[Place(s.tasks[l.t])], s.tasks[l.t], l.ok, l.order, l.now)
    requires if e.accepted.None? then e.node.inbox == s.nodes[Place(s.tasks[l.t])].inbox
             else e.notify.None? && e.accepted.value.at == Place(s.tasks[l.t])
                  && Deliver(s.nodes[Place(s.tasks[l.t])].inbox, e.accepted.value.frag,
                             e.accepted.value.message) == Some(e.node.inbox)
    ensures x in Next(s, l).nodes
    ensures AcceptsNothing(s, Next(s, l), x) || exists a :: AcceptsAt(s, Next(s, l), x, a)
  {
    if e.accepted.Some? {
      assert AcceptsAt(s, Next(s, l), x, e.accepted.value);
    }
  }

  // ---- counting deliveries -----------------------------------------------------------------

  lemma AcceptOne(accepted: seq<Accept>, e: Accept, att: Attempt)
    ensures Accepted(accepted + [e], att) == Accepted(accepted, att) + if e == AcceptOf(att) then 1 else 0
  {
  }

  lemma {:induction false} DeliveriesMore(s: State, s': State, a: nat, x: nat, k: nat)
    requires k <= |s.attempts| && s'.attempts == s.attempts && a < |s.attempts|
    requires s'.accepted == s.accepted + [AcceptOf(s.attempts[a])]
    requires forall b :: 0 <= b < |s.attempts| && b != a ==> s.attempts[b].msgID != s.attempts[a].msgID
    ensures Deliveries(s', x, k) == Deliveries(s, x, k) + if a < k && s.attempts[a].send == x then 1 else 0
  {
    if k > 0 {
      DeliveriesMore(s, s', a, x, k - 1);
      AcceptOne(s.accepted, AcceptOf(s.attempts[a]), s.attempts[k - 1]);
    }
  }

  lemma {:induction false} DeliveriesSame(s: State, s': State, x: nat, k: nat)
    requires k <= |s.attempts| && s.attempts <= s'.attempts && s'.accepted == s.accepted
    ensures Deliveries(s', x, k) == Deliveries(s, x, k)
  {
    if k > 0 {
      DeliveriesSame(s, s', x, k - 1);
    }
  }

  lemma {:induction false} NoDeliveries(s: State, x: nat, k: nat)
    requires k <= |s.attempts| && forall a :: 0 <= a < k ==> s.attempts[a].send != x
    ensures Deliveries(s, x, k) == 0
  {
    if k > 0 {
      NoDeliveries(s, x, k - 1);
    }
  }

  lemma MsgIdsApart(s: State, a: nat, b: nat)
    requires AttemptsOK(s) && a < |s.attempts| && b < |s.attempts| && a != b
    ensures s.attempts[a].msgID != s.attempts[b].msgID
  {
    assert s.attempts[a].msgID in IdsOf(s.attempts[a]);
    assert s.attempts[b].msgID in IdsOf(s.attempts[b]);
    assert IdsOf(s.attempts[a]) !! IdsOf(s.attempts[b]);
  }

  // ---- the plan ----------------------------------------------------------------------------

  /** plan[x] is what send x carries: a whole message, or one chunk of a fragmented one. */
  predicate PlannedSend(parts: Catalogue, e: Send, item: Item) {
    ValidItem(parts, item) && e.frag == FragOf(parts, item) && e.message == TextOf(parts, item)
  }

  /** Every send to dst is planned; the SEND command hands every chunk to one send. */
  ghost predicate Planned(parts: Catalogue, dst: Addr, sends: seq<Send>, plan: seq<Item>) {
    && ValidCatalogue(parts) && |sends| <= |plan|
    && (forall x :: 0 <= x < |sends| && sends[x].dest == dst ==> PlannedSend(parts, sends[x], plan[x]))
    && (forall x, y :: 0 <= x < y < |sends| && sends[x].dest == dst && sends[y].dest == dst && plan[x].Piece? ==>
          plan[x] != plan[y])
  }

  lemma PlannedBefore(parts: Catalogue, dst: Addr, s: State, s': State, plan: seq<Item>)
    requires SendsKept(s, s') && Planned(parts, dst, s'.sends, plan)
    ensures Planned(parts, dst, s.sends, plan)
  {
    forall x | 0 <= x < |s.sends| && s.sends[x].dest == dst
      ensures PlannedSend(parts, s.sends[x], plan[x])
    {
      assert SameCargo(s.sends[x], s'.sends[x]);
    }
    forall x, y | 0 <= x < y < |s.sends| && s.sends[x].dest == dst && s.sends[y].dest == dst && plan[x].Piece?
      ensures plan[x] != plan[y]
    {
      assert SameCargo(s.sends[x], s'.sends[x]) && SameCargo(s.sends[y], s'.sends[y]);
    }
  }

  /** The items delivered by the sends of a log, in the order of the log. */
  function ItemsOf(plan: seq<Item>, log: seq<nat>): (items: seq<Item>)
    requires forall i :: 0 <= i < |log| ==> log[i] < |plan|
    ensures |items| == |log|
    ensures forall i :: 0 <= i < |log| ==> items[i] == plan[log[i]]
  {
    seq(|log|, i requires 0 <= i < |log| => plan[log[i]])
  }

  predicate ForDst(sends: seq<Send>, dst: Addr, log: seq<nat>) {
    forall i :: 0 <= i < |log| ==> log[i] < |sends| && sends[log[i]].dest == dst
  }

  /** The log counts what the destination accepted. */
  ghost predicate LogCounts(s: State, dst: Addr, log: seq<nat>) {
    forall x :: 0 <= x < |s.sends| && s.sends[x].dest == dst ==> multiset(log)[x] == Deliveries(s, x, |s.attempts|)
  }

  /** `log` lists the sends whose FINAL layers dst accepted; its inbox is what their items make of it. */
  ghost predicate Logged(s: State, dst: Addr, parts: Catalogue, plan: seq<Item>, log: seq<nat>) {
    && dst in s.nodes && |s.sends| <= |plan| && ForDst(s.sends, dst, log)
    && LogCounts(s, dst, log)
    && ValidItems(parts, ItemsOf(plan, log))
    && Arrive(parts, ItemsOf(plan, log)) == Some(s.nodes[dst].inbox)
  }

  lemma LogQuietStep(s: State, s': State, dst: Addr, parts: Catalogue, plan: seq<Item>, log: seq<nat>)
    requires Logged(s, dst, parts, plan, log) && dst in s'.nodes && AcceptsNothing(s, s', dst)
    requires SendsKept(s, s') && |s'.sends| <= |plan| && s.attempts <= s'.attempts
    requires forall x :: 0 <= x < |s'.sends| ==>
               Deliveries(s', x, |s'.attempts|) == if x < |s.sends| then Deliveries(s, x, |s.attempts|) else 0
    ensures Logged(s', dst, parts, plan, log)
  {
    forall i | 0 <= i < |log|
      ensures log[i] < |s'.sends| && s'.sends[log[i]].dest == dst
    {
      assert SameCargo(s.sends[log[i]], s'.sends[log[i]]);
    }
    forall x | 0 <= x < |s'.sends| && s'.sends[x].dest == dst
      ensures multiset(log)[x] == Deliveries(s', x, |s'.attempts|)
    {
      if x < |s.sends| {
        assert SameCargo(s.sends[x], s'.sends[x]);
      } else {
        assert x !in log;
      }
    }
  }

  lemma UnacceptedLast(s: State, s': State, x: nat)
    requires s.attempts <= s'.attempts && |s'.attempts| == |s.attempts| + 1 && s'.accepted == s.accepted
    requires Accepted(s.accepted, s'.attempts[|s.attempts|]) == 0
    ensures Deliveries(s', x, |s'.attempts|) == Deliveries(s, x, |s.attempts|)
  {
    DeliveriesSame(s, s', x, |s.attempts|);
  }

  lemma UnstartedSend(s: State, x: nat)
    requires AttemptsOK(s) && x >= |s.sends|
    ensures Deliveries(s, x, |s.attempts|) == 0
  {
    NoDeliveries(s, x, |s.attempts|);
  }

  /** A step without an acceptance changes no count: a new attempt or send starts at zero. */
  lemma QuietDeliveries(s: State, l: Label, x: nat)
    requires Enabled(s, l) && AttemptsOK(s) && AcceptedOK(s) && Next(s, l).accepted == s.accepted
    requires x < |Next(s, l).sends|
    ensures Deliveries(Next(s, l), x, |Next(s, l).attempts|) == if x < |s.sends| then Deliveries(s, x, |s.attempts|)
            else 0
  {
    hide Next, Enabled, Accepted, AcceptedOK, AttemptsOK, Deliveries;
    var s' := Next(s, l);
    StepShape(s, l);
    StepGrows(s, l);
    if l.Launch? {
      NewAttemptUnaccepted(s, l);
      UnacceptedLast(s, s', x);
    } else {
      DeliveriesSame(s, s', x, |s.attempts|);
    }
    if x >= |s.sends| {
      UnstartedSend(s, x);
    }
  }

  lemma StepShape(s: State, l: Label)
    requires Enabled(s, l)
    ensures |Next(s, l).attempts| == |s.attempts| + if l.Launch? then 1 else 0
    ensures |Next(s, l).sends| == |s.sends| + if l.NewSend? then 1 else 0
  {
    hide StepTask;
  }

  lemma NewAttemptUnaccepted(s: State, l: Label)
    requires Enabled(s, l) && l.Launch? && AcceptedOK(s)
    ensures var s' := Next(s, l);
      |s'.attempts| == |s.attempts| + 1 && Accepted(s.accepted, s'.attempts[|s.attempts|]) == 0
  {
    var att := Next(s, l).attempts[|s.attempts|];
    forall e | e in s.accepted
      ensures e.msgID != att.msgID
    {
      assert KnownFinal(s, e);
      var a :| 0 <= a < |s.attempts| && AcceptOf(s.attempts[a]) == e;
      assert e.msgID in IdsOf(s.attempts[a]);
      assert IdsOf(s.attempts[a]) !! ({l.msgID} + set id | id in l.nacks);
    }
    assert AcceptOf(att) !in s.accepted;
  }

  lemma LogAcceptStep(s: State, s': State, dst: Addr, parts: Catalogue, plan: seq<Item>, log: seq<nat>, a: nat)
    requires Logged(s, dst, parts, plan, log) && dst in s'.nodes
    requires AttemptsOK(s) && FromSends(s) && a < |s.attempts| && AcceptsAt(s, s', dst, AcceptOf(s.attempts[a]))
    requires Planned(parts, dst, s.sends, plan)
    ensures Logged(s', dst, parts, plan, if s.attempts[a].dest == dst then log + [s.attempts[a].send] else log)
  {
    var att := s.attempts[a];
    forall b | 0 <= b < |s.attempts| && b != a
      ensures s.attempts[b].msgID != att.msgID
    {
      MsgIdsApart(s, a, b);
    }
    forall x | 0 <= x < |s.sends|
      ensures Deliveries(s', x, |s.attempts|) == Deliveries(s, x, |s.attempts|) + if att.send == x then 1 else 0
    {
      DeliveriesMore(s, s', a, x, |s.attempts|);
    }
    assert Carried(att, s.sends);
    if att.dest == dst {
      LogMore(s, s', dst, log, att.send);
      ArriveOne(parts, plan, log, att.send, s.sends[att.send], s.nodes[dst].inbox);
    }
  }

  lemma LogMore(s: State, s': State, dst: Addr, log: seq<nat>, x: nat)
    requires s'.sends == s.sends && s'.attempts == s.attempts && x < |s.sends| && s.sends[x].dest == dst
    requires ForDst(s.sends, dst, log) && LogCounts(s, dst, log)
    requires forall y :: 0 <= y < |s.sends| ==>
               Deliveries(s', y, |s.attempts|) == Deliveries(s, y, |s.attempts|) + if x == y then 1 else 0
    ensures ForDst(s'.sends, dst, log + [x]) && LogCounts(s', dst, log + [x])
  {
    forall y
      ensures multiset(log + [x])[y] == multiset(log)[y] + if x == y then 1 else 0
    {
    }
  }

  lemma ArriveOne(parts: Catalogue, plan: seq<Item>, log: seq<nat>, x: nat, e: Send, b: Inbox)
    requires x < |plan| && (forall i :: 0 <= i < |log| ==> log[i] < |plan|)
    requires ValidItems(parts, ItemsOf(plan, log)) && Arrive(parts, ItemsOf(plan, log)) == Some(b)
    requires PlannedSend(parts, e, plan[x])
    ensures ValidItems(parts, ItemsOf(plan, log + [x]))
    ensures Arrive(parts, ItemsOf(plan, log + [x])) == Deliver(b, e.frag, e.message)
  {
    var items := ItemsOf(plan, log + [x]);
    assert items == ItemsOf(plan, log) + [plan[x]];
    assert items[..|items| - 1] == ItemsOf(plan, log);
  }

  // ---- runs --------------------------------------------------------------------------------

  /** Why the destination must not restart: then it has received nothing, runs nothing, remembers
      nothing, and its own sends are over. */
  lemma RestartForgets(s: State, a: Addr, key: Key)
    requires a in s.nodes
    ensures var s' := Next(s, Crash(a, key));
      && s'.nodes[a].inbox.received == [] && s'.nodes[a].inbox.buf == map[] && s'.nodes[a].seen == map[]
      && s'.nodes[a].relays == map[] && s'.nodes[a].acks == map[] && s'.nodes[a].key == key
      && (forall t :: t in s'.tasks && !s'.tasks[t].Packet? ==> Place(s'.tasks[t]) != a)
      && (forall t :: t in s.tasks && (s.tasks[t].Packet? || Place(s.tasks[t]) != a) ==>
            t in s'.tasks && s'.tasks[t] == s.tasks[t])
      && (forall x :: 0 <= x < |s.sends| && s.sends[x].sender == a ==> s'.sends[x].phase.Done?)
      && (forall x :: 0 <= x < |s.sends| && s.sends[x].sender != a ==> s'.sends[x] == s.sends[x])
      && (forall b :: b in s.nodes && b != a ==> s'.nodes[b] == s.nodes[b])
  {
  }

  predicate NeverCrashes(labels: seq<Label>, dst: Addr, k: nat)
    requires k <= |labels|
  {
    forall j :: 0 <= j < k && labels[j].Crash? ==> labels[j].a != dst
  }

  lemma LogStep(s: State, l: Label, dst: Addr, parts: Catalogue, plan: seq<Item>, log: seq<nat>)
    returns (log': seq<nat>)
    requires Enabled(s, l) && AttemptsOK(s) && AcceptedOK(s) && AcceptedOK(Next(s, l)) && FromSends(s)
    requires Logged(s, dst, parts, plan, log) && !(l.Crash? && l.a == dst)
    requires Planned(parts, dst, s.sends, plan) && |Next(s, l).sends| <= |plan|
    ensures Logged(Next(s, l), dst, parts, plan, log')
  {
    hide Planned, Deliveries, Next, Enabled, FromSends, AttemptsOK, Arrive, LogCounts, ForDst;
    var s' := Next(s, l);
    StepInbox(s, l, dst);
    StepSends(s, l);
    StepGrows(s, l);
    if AcceptsNothing(s, s', dst) {
      forall x | 0 <= x < |s'.sends|
        ensures Deliveries(s', x, |s'.attempts|) == if x < |s.sends| then Deliveries(s, x, |s.attempts|) else 0
      {
        QuietDeliveries(s, l, x);
      }
      LogQuietStep(s, s', dst, parts, plan, log);
      log' := log;
    } else {
      var e :| AcceptsAt(s, s', dst, e);
      assert s'.accepted[|s.accepted|] == e;
      assert KnownFinal(s', e);
      var a :| 0 <= a < |s'.attempts| && AcceptOf(s'.attempts[a]) == e;
      LogAcceptStep(s, s', dst, parts, plan, log, a);
      log' := if s.attempts[a].dest == dst then log + [s.attempts[a].send] else log;
    }
  }

  lemma {:induction false} RunLogged(states: seq<State>, labels: seq<Label>, k: nat, dst: Addr, parts: Catalogue,
                                     plan: seq<Item>)
    returns (log: seq<nat>)
    requires IsRun(states, labels) && k <= |labels| && dst in states[0].nodes
    requires NeverCrashes(labels, dst, k) && Planned(parts, dst, states[k].sends, plan)
    ensures Logged(states[k], dst, parts, plan, log)
  {
    if k == 0 {
      log := [];
      assert ItemsOf(plan, log) == [];
    } else {
      var s, l := states[k - 1], labels[k - 1];
      assert IsStep(s, l, states[k]);
      StepSends(s, l);
      PlannedBefore(parts, dst, s, states[k], plan);
      var before := RunLogged(states, labels, k - 1, dst, parts, plan);
      var g := RunInv(states, labels, k - 1);
      var g' := RunInv(states, labels, k);
      RunFromSends(states, labels, k - 1);
      log := LogStep(s, l, dst, parts, plan, before);
    }
  }

  // ---- what the outcomes say ---------------------------------------------------------------

  /** Chunk i of message f is the load of a send whose FINAL layer has been accepted. */
  ghost predicate ChunkDelivered(s: State, dst: Addr, plan: seq<Item>, f: string, i: int) {
    exists x :: 0 <= x < |s.sends| && x < |plan| && s.sends[x].dest == dst && plan[x] == Piece(f, i)
                && Deliveries(s, x, |s.attempts|) == 1
  }

  ghost predicate ChunkAcked(s: State, dst: Addr, plan: seq<Item>, f: string, i: int) {
    exists x :: 0 <= x < |s.sends| && x < |plan| && s.sends[x].dest == dst && plan[x] == Piece(f, i)
                && s.sends[x].phase == Done(Acked)
  }

  /** Nothing in a log of single deliveries repeats a chunk. */
  lemma NoRepeats(s: State, dst: Addr, parts: Catalogue, plan: seq<Item>, log: seq<nat>)
    requires Logged(s, dst, parts, plan, log) && Planned(parts, dst, s.sends, plan)
    requires forall x :: 0 <= x < |s.sends| ==> Deliveries(s, x, |s.attempts|) <= 1
    ensures RepeatsOnlyBefore(parts, ItemsOf(plan, log))
  {
    var items := ItemsOf(plan, log);
    forall k | 0 <= k < |items| && items[k].Piece? && items[k].fragID in parts
      ensures Seen(items[..k], items[k].fragID) != Numbers(|parts[items[k].fragID]|)
    {
      assert ValidItem(parts, items[k]);
      NotSeenBefore(s, dst, plan, log, k);
    }
  }

  lemma NotSeenBefore(s: State, dst: Addr, plan: seq<Item>, log: seq<nat>, k: nat)
    requires |s.sends| <= |plan| && ForDst(s.sends, dst, log) && LogCounts(s, dst, log) && k < |log|
    requires plan[log[k]].Piece?
    requires forall x, y ::
               0 <= x < y < |s.sends| && s.sends[x].dest == dst && s.sends[y].dest == dst && plan[x].Piece? ==>
                 plan[x] != plan[y]
    requires forall x :: 0 <= x < |s.sends| ==> Deliveries(s, x, |s.attempts|) <= 1
    ensures plan[log[k]].idx !in Seen(ItemsOf(plan, log)[..k], plan[log[k]].fragID)
  {
    var before := ItemsOf(plan, log)[..k];
    forall j | 0 <= j < k
      ensures before[j] != plan[log[k]]
    {
      OnceInLog(s, dst, log, j, k);
      assert log[j] < log[k] || log[k] < log[j];
    }
  }

  lemma OnceInLog(s: State, dst: Addr, log: seq<nat>, j: nat, k: nat)
    requires ForDst(s.sends, dst, log) && LogCounts(s, dst, log) && j < k < |log|
    requires forall x :: 0 <= x < |s.sends| ==> Deliveries(s, x, |s.attempts|) <= 1
    ensures log[j] != log[k]
  {
    assert multiset(log)[log[k]] <= 1;
    assert log == log[..k] + [log[k]] + log[k + 1..];
    assert log[..k][j] == log[j];
  }

  lemma SeenIsDelivered(s: State, dst: Addr, parts: Catalogue, plan: seq<Item>, log: seq<nat>, f: string, i: int)
    requires Logged(s, dst, parts, plan, log)
    requires forall x :: 0 <= x < |s.sends| ==> Deliveries(s, x, |s.attempts|) <= 1
    ensures i in Seen(ItemsOf(plan, log), f) <==> ChunkDelivered(s, dst, plan, f, i)
  {
    var items := ItemsOf(plan, log);
    if i in Seen(items, f) {
      var k :| 0 <= k < |items| && items[k].Piece? && items[k].fragID == f && items[k].idx == i;
      assert log[k] in multiset(log);
      assert Deliveries(s, log[k], |s.attempts|) == 1;
    }
    if ChunkDelivered(s, dst, plan, f, i) {
      var x :| 0 <= x < |s.sends| && x < |plan| && s.sends[x].dest == dst && plan[x] == Piece(f, i)
          && Deliveries(s, x, |s.attempts|) == 1;
      assert x in multiset(log);
      var k :| 0 <= k < |log| && log[k] == x;
      assert items[k] == Piece(f, i);
    }
  }

  ghost predicate AllDelivered(s: State, dst: Addr, plan: seq<Item>, n: nat, f: string) {
    forall i :: 1 <= i <= n ==> ChunkDelivered(s, dst, plan, f, i)
  }

  lemma SeenIsAll(s: State, dst: Addr, parts: Catalogue, plan: seq<Item>, log: seq<nat>, f: string)
    requires Logged(s, dst, parts, plan, log) && f in parts
    requires forall x :: 0 <= x < |s.sends| ==> Deliveries(s, x, |s.attempts|) <= 1
    ensures Seen(ItemsOf(plan, log), f) == Numbers(|parts[f]|) <==> AllDelivered(s, dst, plan, |parts[f]|, f)
  {
    var seen := Seen(ItemsOf(plan, log), f);
    forall i
      ensures i in seen <==> ChunkDelivered(s, dst, plan, f, i)
    {
      SeenIsDelivered(s, dst, parts, plan, log, f, i);
    }
    SeenInRange(parts, ItemsOf(plan, log), f);
  }

  lemma InboxOfItems(parts: Catalogue, items: seq<Item>, b: Inbox, f: string)
    requires ValidCatalogue(parts) && ValidItems(parts, items) && RepeatsOnlyBefore(parts, items) && f in parts
    requires Arrive(parts, items) == Some(b)
    ensures b.received == Originals(parts, Expected(parts, items))
    ensures var complete := Seen(items, f) == Numbers(|parts[f]|);
      && multiset(Expected(parts, items))[Piece(f, 0)] == (if complete then 1 else 0)
      && (complete ==> f !in b.buf)
  {
    Reassembly(parts, items);
    AppendedOnce(parts, items, f);
    assert HoldsFor(parts[f], Have(parts, items, f), b, f);
  }

  /** A fragmented message is in the destination's list exactly once when all its chunks have been
      accepted, and otherwise not at all; nothing of a complete one stays in the buffer. */
  lemma FragmentsDelivered(states: seq<State>, labels: seq<Label>, k: nat, dst: Addr, parts: Catalogue, plan: seq<Item>,
                           f: string)
    returns (appended: seq<Item>)
    requires IsRun(states, labels) && k <= |labels| && dst in states[0].nodes
    requires NeverCrashes(labels, dst, k) && Planned(parts, dst, states[k].sends, plan) && f in parts
    ensures dst in states[k].nodes
    ensures states[k].nodes[dst].inbox.received == Originals(parts, appended)
    ensures var complete := AllDelivered(states[k], dst, plan, |parts[f]|, f);
      && multiset(appended)[Piece(f, 0)] == (if complete then 1 else 0)
      && (complete ==> f !in states[k].nodes[dst].inbox.buf)
  {
    var s := states[k];
    var log := RunLogged(states, labels, k, dst, parts, plan);
    forall x | 0 <= x < |s.sends|
      ensures Deliveries(s, x, |s.attempts|) <= 1
    {
      OutcomeSoundness(states, labels, k, x);
    }
    NoRepeats(s, dst, parts, plan, log);
    SeenIsAll(s, dst, parts, plan, log, f);
    appended := Expected(parts, ItemsOf(plan, log));
    InboxOfItems(parts, ItemsOf(plan, log), s.nodes[dst].inbox, f);
  }

  lemma SeenInRange(parts: Catalogue, xs: seq<Item>, f: string)
    requires ValidItems(parts, xs) && f in parts
    ensures Seen(xs, f) <= Numbers(|parts[f]|)
  {
    forall i | i in Seen(xs, f)
      ensures i in Numbers(|parts[f]|)
    {
      var k :| 0 <= k < |xs| && xs[k].Piece? && xs[k].fragID == f && xs[k].idx == i;
      assert ValidItem(parts, xs[k]);
    }
  }

  /** The SEND command end to end: when every chunk's send has reported ACK, the destination has
      received the original message, once. */
  lemma SentMessageArrives(states: seq<State>, labels: seq<Label>, k: nat, dst: Addr, parts: Catalogue, plan: seq<Item>,
                           f: string, message: string) returns (appended: seq<Item>)
    requires IsRun(states, labels) && k <= |labels| && dst in states[0].nodes
    requires NeverCrashes(labels, dst, k) && Planned(parts, dst, states[k].sends, plan)
    requires f in parts && parts[f] == Chunks(message, FRAG_CHUNK_SIZE)
    requires forall i :: 1 <= i <= |parts[f]| ==> ChunkAcked(states[k], dst, plan, f, i)
    ensures dst in states[k].nodes
    ensures states[k].nodes[dst].inbox.received == Originals(parts, appended)
    ensures multiset(appended)[Piece(f, 0)] == 1 && Original(parts, Piece(f, 0)) == message
    ensures message in states[k].nodes[dst].inbox.received
  {
    var s := states[k];
    forall i | 1 <= i <= |parts[f]|
      ensures ChunkDelivered(s, dst, plan, f, i)
    {
      assert ChunkAcked(s, dst, plan, f, i);
      var x :| 0 <= x < |s.sends| && x < |plan| && s.sends[x].dest == dst && plan[x] == Piece(f, i)
          && s.sends[x].phase == Done(Acked);
      OutcomeSoundness(states, labels, k, x);
    }
    appended := FragmentsDelivered(states, labels, k, dst, parts, plan, f);
    ChunksSplit(message, FRAG_CHUNK_SIZE);
    assert Piece(f, 0) in multiset(appended);
    var j :| 0 <= j < |appended| && appended[j] == Piece(f, 0);
    assert Originals(parts, appended)[j] == message;
  }
}
