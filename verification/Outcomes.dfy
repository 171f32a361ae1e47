/**
 What the results mean, over every run: any number of sends, any failures, losses and crashes.
 */
module Outcomes {
  import opened Layers
  import opened Handler
  import opened Protocol
  import opened Attempts
  import opened Invariant
  import opened Steps
  import opened Preservation

  // ---- outcome soundness -------------------------------------------------------------------

  /** Acceptances of send x, over its tries among the first k attempts. */
  function Deliveries(s: State, x: nat, k: nat): nat
    requires k <= |s.attempts|
  {
    if k == 0 then 0
    else Deliveries(s, x, k - 1) + if s.attempts[k - 1].send == x then Accepted(s.accepted, s.attempts[k - 1]) else 0
  }

  lemma {:induction false} OnlyLatestDelivers(s: State, g: Ghost, x: nat, k: nat)
    requires TracksOK(s, g) && OthersDead(s, g) && x < |s.sends| && k <= |s.attempts|
    requires s.sends[x].cur.Some? ==> s.sends[x].cur.value < |s.attempts| && s.attempts[s.sends[x].cur.value].send == x
    ensures Deliveries(s, x, k) ==
            if s.sends[x].cur.Some?
               && s.sends[x].cur.value < k then Accepted(s.accepted, s.attempts[s.sends[x].cur.value]) else 0
  {
    hide PosOK, Accepted;
    if k > 0 {
      OnlyLatestDelivers(s, g, x, k - 1);
      assert AttemptOK(s.attempts[k - 1], g.at[k - 1], s.chans[k - 1], Accepted(s.accepted, s.attempts[k - 1]));
    }
  }

  /** How often a message may have been accepted, by what its send has come to. */
  predicate CountFits(count: nat, phase: Phase) {
    && count <= 1
    && (phase == Done(Acked) ==> count == 1)
    && (phase == Done(Abandoned) || phase == Done(Stopped) || phase == Ready ==> count == 0)
  }

  /** A send that ends in ACK has had its message accepted exactly once over all its tries, one that
      ends in ABANDON or stops never, and any other at most once. */
  lemma OutcomeSoundness(states: seq<State>, labels: seq<Label>, k: nat, x: nat)
    requires IsRun(states, labels) && k <= |labels| && x < |states[k].sends|
    ensures var s := states[k]; CountFits(Deliveries(s, x, |s.attempts|), s.sends[x].phase)
  {
    hide Next, Enabled, Inv;
    var g := RunInv(states, labels, k);
    SendCounted(states[k], g, x);
  }

  lemma SendCounted(s: State, g: Ghost, x: nat)
    requires Inv(s, g) && x < |s.sends|
    ensures CountFits(Deliveries(s, x, |s.attempts|), s.sends[x].phase)
  {
    hide Deliveries, RelaysOK, SeenOK, AcksOK, AcceptedOK, TasksOK, OthersDead;
    assert SendOK(s, g, x);
    OnlyLatestDelivers(s, g, x, |s.attempts|);
    if s.sends[x].cur.Some? {
      var c := s.sends[x].cur.value;
      assert AttemptOK(s.attempts[c], g.at[c], s.chans[c], Accepted(s.accepted, s.attempts[c]));
    }
  }

  /** A reported outcome is never revised, so the counts above hold for good. */
  lemma OutcomeIsFinal(s: State, l: Label, x: nat)
    requires Enabled(s, l) && x < |s.sends| && s.sends[x].phase.Done?
    ensures x < |Next(s, l).sends| && Next(s, l).sends[x] == s.sends[x]
  {
  }

  // ---- the channel -------------------------------------------------------------------------

  /** Two keys lead to the channel of an attempt, but at most one value is ever put on it, so the
      put done with the lock held never blocks. */
  lemma ChannelNeverBlocks(states: seq<State>, labels: seq<Label>, k: nat)
    requires IsRun(states, labels) && k <= |labels|
    ensures var s := states[k];
      && |s.chans| == |s.attempts|
      && (forall a :: 0 <= a < |s.chans| ==> |s.chans[a].sent| <= 1)
      && (forall t :: t in s.tasks ==> !s.tasks[t].Blocked?)
  {
    hide Next, Enabled, Inv;
    var g := RunInv(states, labels, k);
    ChannelsFree(states[k], g);
  }

  lemma ChannelsFree(s: State, g: Ghost)
    requires TracksOK(s, g) && TasksOK(s, g)
    ensures |s.chans| == |s.attempts|
    ensures forall a :: 0 <= a < |s.chans| ==> |s.chans[a].sent| <= 1
    ensures forall t :: t in s.tasks ==> !s.tasks[t].Blocked?
  {
    forall a | 0 <= a < |s.chans|
      ensures |s.chans[a].sent| <= 1
    {
      hide TasksOK, PosOK, Accepted;
      assert AttemptOK(s.attempts[a], g.at[a], s.chans[a], Accepted(s.accepted, s.attempts[a]));
    }
    forall t | t in s.tasks
      ensures !s.tasks[t].Blocked?
    {
      hide TracksOK, TaskAt;
      NotBlocked(s.attempts[g.owner[t]], g.at[g.owner[t]].pos, s.tasks[t]);
    }
  }

  lemma NotBlocked(att: Attempt, p: Pos, t: Task)
    requires Sized(att) && TaskAt(att, p, t)
    ensures !t.Blocked?
  {
    hide Group, LayerAt, Back, IdIn;
  }

  // ---- what a value on the channel tells ---------------------------------------------------

  /** Attempts, channel histories and acceptances only grow. */
  predicate Grows(s: State, s': State) {
    && s.attempts <= s'.attempts
    && |s.chans| <= |s'.chans|
    && (forall a :: 0 <= a < |s.chans| ==> s.chans[a].sent <= s'.chans[a].sent)
    && s.accepted <= s'.accepted
  }

  lemma StepGrows(s: State, l: Label)
    requires Enabled(s, l)
    ensures Grows(s, Next(s, l))
  {
  }

  lemma {:induction false} RunGrows(states: seq<State>, labels: seq<Label>, j: nat, k: nat)
    requires IsRun(states, labels) && j <= k <= |labels|
    ensures Grows(states[j], states[k])
    decreases k - j
  {
    if j < k {
      RunGrows(states, labels, j, k - 1);
      assert IsStep(states[k - 1], labels[k - 1], states[k]);
      StepGrows(states[k - 1], labels[k - 1]);
      GrowsOn(states[j], states[k - 1], states[k]);
    }
  }

  lemma GrowsOn(s: State, s': State, s'': State)
    requires Grows(s, s') && Grows(s', s'')
    ensures Grows(s, s'')
  {
    forall a | 0 <= a < |s.chans|
      ensures s.chans[a].sent <= s''.chans[a].sent
    {
      assert s.chans[a].sent <= s'.chans[a].sent;
    }
  }

  /** A `false` on an attempt's channel means its forward onion never reached the destination, then
      or ever after; a `true` means it was accepted once.  So retrying after a NACK cannot deliver twice. */
  lemma ValueTells(states: seq<State>, labels: seq<Label>, j: nat, k: nat, a: nat)
    requires IsRun(states, labels) && j <= k <= |labels|
    requires a < |states[j].chans| && states[j].chans[a].sent != []
    ensures a < |states[k].attempts|
    ensures Accepted(states[k].accepted, states[k].attempts[a]) == if states[j].chans[a].sent[0] then 1 else 0
    ensures Accepted(states[j].accepted, states[k].attempts[a]) == if states[j].chans[a].sent[0] then 1 else 0
  {
    RunGrows(states, labels, j, k);
    var g := RunInv(states, labels, k);
    var s := states[k];
    assert AttemptOK(s.attempts[a], g.at[a], s.chans[a], Accepted(s.accepted, s.attempts[a]));
    assert states[j].chans[a].sent <= s.chans[a].sent;
    var h := RunInv(states, labels, j);
    assert AttemptOK(states[j].attempts[a], h.at[a], states[j].chans[a],
                     Accepted(states[j].accepted, states[j].attempts[a]));
    assert states[j].attempts[a] == s.attempts[a];
  }

  // ---- single thread -----------------------------------------------------------------------

  /** A message or handler of this attempt. */
  ghost predicate Carries(att: Attempt, t: Task) {
    Sized(att) && exists p :: TaskAt(att, p, t)
  }

  /** The MsgID, or the NACK identifier, a task shows. */
  function Shown(t: Task): string {
    match t
    case Packet(_, Nack(id)) => id
    case Packet(_, Onion(box)) => if box.NoData? then "" else box.layer.MsgID
    case Opened(_, layer) => layer.MsgID
    case Forward(_, _, layer) => layer.MsgID
    case Unregister(_, layer) => layer.MsgID
    case Reply(_, _, layer) => layer.MsgID
    case Propagate(_, _, id) => id
    case Blocked(_) => ""
  }

  predicate IsNack(t: Task) {
    t.Propagate? || (t.Packet? && t.msg.Nack?)
  }

  lemma ShownIs(att: Attempt, p: Pos, t: Task)
    requires ValidAttempt(att) && TaskAt(att, p, t)
    ensures p.Flying? || p.Opening? || p.Sending? || p.Giving? || p.Nacking? || p.NackFlying?
    ensures 0 <= p.i < Stations(att)
    ensures if IsNack(t) then Shown(t) == IdIn(att, p.i) else Shown(t) == MsgIdAt(att, p.i)
  {
    assert p.Flying? ==> BoxOK(att, p.i);
  }

  lemma OneOwner(att: Attempt, bt: Attempt, p: Pos, q: Pos, t: Task)
    requires ValidAttempt(att) && ValidAttempt(bt) && TaskAt(att, p, t) && TaskAt(bt, q, t)
    ensures !(IdsOf(att) !! IdsOf(bt))
  {
    ShownIs(att, p, t);
    ShownIs(bt, q, t);
    IdInOwn(att, p.i);
    IdInOwn(bt, q.i);
    if IdsOf(att) !! IdsOf(bt) {
      MsgIdApart(att, bt, p.i, q.i);
    }
  }

  lemma OwnerCarries(s: State, g: Ghost, t: nat, a: nat)
    requires AttemptsOK(s) && TasksOK(s, g) && t in s.tasks && a < |s.attempts|
    ensures Carries(s.attempts[a], s.tasks[t]) <==> g.owner[t] == a
  {
    var b := g.owner[t];
    assert TaskAt(s.attempts[b], g.at[b].pos, s.tasks[t]);
    if Carries(s.attempts[a], s.tasks[t]) && a != b {
      var p :| TaskAt(s.attempts[a], p, s.tasks[t]);
      OneOwner(s.attempts[a], s.attempts[b], p, g.at[b].pos, s.tasks[t]);
      assert false;
    }
  }

  /** Of every attempt there is at most one message or handler in the whole system, and every
      message or handler belongs to an attempt. */
  lemma SingleThread(states: seq<State>, labels: seq<Label>, k: nat)
    requires IsRun(states, labels) && k <= |labels|
    ensures var s := states[k];
      && (forall a, t, u ::
            (0 <= a < |s.attempts| && t in s.tasks && u in s.tasks
             && Carries(s.attempts[a], s.tasks[t]) && Carries(s.attempts[a], s.tasks[u])) ==> t == u)
      && (forall t :: t in s.tasks ==> exists a :: 0 <= a < |s.attempts| && Carries(s.attempts[a], s.tasks[t]))
  {
    var s := states[k];
    var g := RunInv(states, labels, k);
    forall a, t | 0 <= a < |s.attempts| && t in s.tasks
      ensures Carries(s.attempts[a], s.tasks[t]) <==> g.owner[t] == a
    {
      OwnerCarries(s, g, t, a);
    }
  }

  // ---- at most 3n - 2 messages handled -----------------------------------------------------

  /** Step j handles a message of attempt a. */
  ghost predicate HandlesFor(s: State, l: Label, a: nat) {
    l.Run? && l.t in s.tasks && s.tasks[l.t].Packet? && a < |s.attempts| && Carries(s.attempts[a], s.tasks[l.t])
  }

  ghost function HandledFor(states: seq<State>, labels: seq<Label>, a: nat, k: nat): nat
    requires k <= |labels| && |states| == |labels| + 1
  {
    if k == 0 then 0
    else HandledFor(states, labels, a, k - 1) + if HandlesFor(states[k - 1], labels[k - 1], a) then 1 else 0
  }

  lemma {:induction false} HandledBudget(states: seq<State>, labels: seq<Label>, a: nat, k: nat) returns (g: Ghost)
    requires IsRun(states, labels) && k <= |labels|
    ensures Inv(states[k], g)
    ensures a < |states[k].attempts| ==>
              && 0 <= Budget(states[k].attempts[a], g.at[a].pos)
              && HandledFor(states, labels, a, k) + Budget(states[k].attempts[a],
                                                           g.at[a].pos) <= 3 * Hops(states[k].attempts[a]) - 2
    ensures a >= |states[k].attempts| ==> HandledFor(states, labels, a, k) == 0
  {
    hide Next, Enabled, HandlesFor, Inv;
    if k == 0 {
      g := RunInv(states, labels, 0);
    } else {
      var s, l := states[k - 1], labels[k - 1];
      var h := HandledBudget(states, labels, a, k - 1);
      assert IsStep(s, l, states[k]);
      g := StepKeeps(s, h, l);
      StepGrows(s, l);
      HandledStep(s, h, states[k], g, l, a);
    }
  }

  lemma HandledStep(s: State, h: Ghost, s': State, g: Ghost, l: Label, a: nat)
    requires Inv(s, h) && Inv(s', g) && Enabled(s, l) && Paid(s, h, g, l) && s.attempts <= s'.attempts
    ensures a < |s'.attempts| ==> 0 <= Budget(s'.attempts[a], g.at[a].pos) <= 3 * Hops(s'.attempts[a]) - 2
    ensures HandlesFor(s, l, a) ==> a < |s.attempts|
    ensures a < |s.attempts| ==>
              Budget(s.attempts[a], g.at[a].pos) + (if HandlesFor(s, l, a) then 1
                                                    else 0) <= Budget(s.attempts[a], h.at[a].pos)
  {
    if a < |s'.attempts| {
      assert Hops(s'.attempts[a]) >= 2;
      BudgetNonNegative(s'.attempts[a], g.at[a], s'.chans[a], Accepted(s'.accepted, s'.attempts[a]));
    }
    if a < |s.attempts| && HandlesFor(s, l, a) {
      OwnerCarries(s, h, l.t, a);
      assert Handles(s, h, l, a);
    }
  }

  /** One attempt on a route of n hops is over after at most 3n - 2 handled messages: 2n on the
      round trip, or up to the failing hop and back. */
  lemma HandledAtMost(states: seq<State>, labels: seq<Label>, a: nat, k: nat)
    requires IsRun(states, labels) && k <= |labels| && a < |states[k].attempts|
    ensures HandledFor(states, labels, a, k) <= 3 * Hops(states[k].attempts[a]) - 2
  {
    var g := HandledBudget(states, labels, a, k);
  }

  // ---- replay protection and registration --------------------------------------------------

  /** The box was sealed for the key its sender had for this address. */
  ghost predicate SealedFor(s: State, t: Task)
    requires t.Packet? && t.msg.Onion?
  {
    exists a :: 0 <= a < |s.attempts| && Carries(s.attempts[a], t)
                && t.msg.box.Sealed? && KeyFor(s.attempts[a].keyOf, t.dst) in t.msg.box.keys
  }

  /** The box opens at this node exactly when the node's key is one it was sealed for, and then it is
      not taken for a replay. */
  predicate OpensFresh(box: Payload, nd: NodeState)
    requires box.Sealed?
  {
    && (Open(box, nd.key).Ok? <==> nd.key in box.keys)
    && (Open(box, nd.key).Ok? ==> Open(box, nd.key).value.Type == "ACK" || Open(box, nd.key).value.MsgID !in nd.seen)
  }

  /** The key this RELAY layer registers under is not in use. */
  predicate RegistersFresh(layer: Layer, nd: NodeState) {
    ParseIds(layer.MsgID).Some? && ParseIds(layer.MsgID).value.1 !in nd.relays
  }

  /** What is promised about a message, or a layer just opened, at its node. */
  ghost predicate Honest(s: State, t: Task)
    requires Place(t) in s.nodes
  {
    && (t.Packet? && t.msg.Onion? ==> SealedFor(s, t) && OpensFresh(t.msg.box, s.nodes[Place(t)]))
    && (t.Opened? && t.layer.Type == "RELAY" ==> RegistersFresh(t.layer, s.nodes[Place(t)]))
  }

  /** Every box arrives at an address it was sealed for, so that it opens there unless the key is
      another by now; if it opens it is never taken for a replay, and no relay ever overwrites an
      entry of PendingRelays. */
  lemma HonestLayersPass(states: seq<State>, labels: seq<Label>, k: nat, t: nat)
    requires IsRun(states, labels) && k <= |labels|
    requires t in states[k].tasks && Place(states[k].tasks[t]) in states[k].nodes
    ensures Honest(states[k], states[k].tasks[t])
  {
    hide Next, Enabled, Inv;
    var s := states[k];
    var g := RunInv(states, labels, k);
    HonestTask(s, g, t);
  }

  lemma HonestTask(s: State, g: Ghost, t: nat)
    requires Inv(s, g) && t in s.tasks && Place(s.tasks[t]) in s.nodes
    ensures Honest(s, s.tasks[t])
  {
    hide TracksOK, RelaysOK, SeenOK, AcksOK, AcceptedOK, SendsOK, TaskAt, ValidAttempt, SeenPast, AcksOwn, RelaysOwn,
         AttemptOK, ParseIds, Open;
    HereHolds(s, g, t);
    var a, task := g.owner[t], s.tasks[t];
    HonestHere(s.attempts[a], a, g.at[a], s.chans[a], Place(task), s.nodes[Place(task)], task,
               Accepted(s.accepted, s.attempts[a]));
  }

  lemma HonestBox(att: Attempt, ga: Track, nd: NodeState, t: Task, i: int)
    requires 0 <= i < Stations(att) && ga.top == i && t.Packet? && t.msg.Onion?
    requires ValidAttempt(att) && TaskAt(att, Flying(i), t) && SeenPast(att, ga, nd.seen)
    ensures t.msg.box.Sealed? && KeyFor(att.keyOf, t.dst) in t.msg.box.keys
    ensures OpensFresh(t.msg.box, nd)
  {
    hide ValidRoute, FreshIds, Back;
    assert BoxOK(att, i);
    var p :| 0 <= p < |Group(att, i)| && Group(att, i)[p] == t.dst;
    assert KeysFor(att.keyOf, Group(att, i))[p] == KeyFor(att.keyOf, t.dst);
    if i < Stations(att) - 1 {
      assert LayerAt(att, i).MsgID == MsgIdAt(att, i);
    }
  }

  lemma HonestOpened(att: Attempt, ga: Track, nd: NodeState, t: Task, i: int)
    requires t.Opened? && ga.pos == Opening(i) && IsRelay(att, i)
    requires ValidAttempt(att) && TaskAt(att, Opening(i), t) && RelaysOwn(att, ga, t.at, nd.relays)
    ensures RegistersFresh(t.layer, nd)
  {
    hide ValidRoute, FreshIds, BoxOK, ParseIds, Back;
    RelayLayerReads(att, i);
    KeyNotInUse(att, ga, t.at, nd.relays, i);
  }

  lemma HonestHere(att: Attempt, a: nat, ga: Track, ch: Chan, x: Addr, nd: NodeState, t: Task, count: nat)
    requires Here(att, a, ga, ch, x, nd, t, count)
    ensures t.Packet? && t.msg.Onion? ==>
              && Carries(att, t) && t.msg.box.Sealed? && KeyFor(att.keyOf, t.dst) in t.msg.box.keys
              && OpensFresh(t.msg.box, nd)
    ensures t.Opened? && t.layer.Type == "RELAY" ==> RegistersFresh(t.layer, nd)
  {
    hide SeenPast, AcksOwn, RelaysOwn, Open, ParseIds, BoxOK, ValidRoute, FreshIds;
    if ga.pos.Flying? {
      HonestBox(att, ga, nd, t, ga.pos.i);
    } else if ga.pos.Opening? && IsRelay(att, ga.pos.i) {
      HonestOpened(att, ga, nd, t, ga.pos.i);
    }
  }

  // ---- keys --------------------------------------------------------------------------------

  /** x neither restarts nor runs REGEN in steps j to k - 1. */
  predicate KeepsKey(labels: seq<Label>, j: nat, k: nat, x: Addr)
    requires k <= |labels|
  {
    forall m :: j <= m < k && (labels[m].Crash? || labels[m].Rotate?) ==> labels[m].a != x
  }

  lemma StepKey(s: State, l: Label, x: Addr)
    requires Enabled(s, l) && x in s.nodes && (l.Crash? || l.Rotate? ==> l.a != x)
    ensures x in Next(s, l).nodes && Next(s, l).nodes[x].key == s.nodes[x].key
  {
    if l.Run? {
      TaskKey(s.nodes[Place(s.tasks[l.t])], s.tasks[l.t], l.ok, l.order, l.now);
    }
  }

  lemma TaskKey(nd: NodeState, t: Task, ok: bool, order: seq<Addr>, now: int)
    ensures StepTask(nd, t, ok, order, now).node.key == nd.key
  {
  }

  lemma {:induction false} SameKeyOver(states: seq<State>, labels: seq<Label>, j: nat, k: nat, x: Addr)
    requires IsRun(states, labels) && j <= k <= |labels| && x in states[j].nodes && KeepsKey(labels, j, k, x)
    ensures x in states[k].nodes && states[k].nodes[x].key == states[j].nodes[x].key
    decreases k
  {
    hide Next, Enabled;
    if j < k {
      SameKeyOver(states, labels, j, k - 1, x);
      OneStepKey(states[k - 1], labels[k - 1], states[k], x);
    }
  }

  lemma OneStepKey(s: State, l: Label, s': State, x: Addr)
    requires IsStep(s, l, s') && x in s.nodes && (l.Crash? || l.Rotate? ==> l.a != x)
    ensures x in s'.nodes && s'.nodes[x].key == s.nodes[x].key
  {
    StepKey(s, l, x);
  }

  /** A box of attempt a, launched at step j with the key that dst had then, opens at dst as long as
      dst has kept that key. */
  lemma UnchangedKeyOpens(states: seq<State>, labels: seq<Label>, j: nat, k: nat, a: nat, t: nat)
    requires IsRun(states, labels) && j < k <= |labels| && a < |states[k].attempts|
    requires t in states[k].tasks && states[k].tasks[t].Packet? && states[k].tasks[t].msg.Onion?
             && Carries(states[k].attempts[a], states[k].tasks[t])
    requires var dst := states[k].tasks[t].dst;
      && dst in states[j].nodes && KeepsKey(labels, j, k, dst)
      && KeyFor(states[k].attempts[a].keyOf, dst) == states[j].nodes[dst].key
    ensures states[k].tasks[t].dst in states[k].nodes
    ensures Open(states[k].tasks[t].msg.box, states[k].nodes[states[k].tasks[t].dst].key).Ok?
  {
    hide Next, Enabled, Inv;
    var s := states[k];
    SameKeyOver(states, labels, j, k, s.tasks[t].dst);
    var g := RunInv(states, labels, k);
    AttemptIsValid(s, g, a);
    CarriedBoxOpens(s.attempts[a], s.tasks[t]);
  }

  lemma AttemptIsValid(s: State, g: Ghost, a: nat)
    requires Inv(s, g) && a < |s.attempts|
    ensures ValidAttempt(s.attempts[a])
  {
    hide RelaysOK, SeenOK, AcksOK, AcceptedOK, SendsOK, TracksOK, TasksOK;
  }

  lemma CarriedBoxOpens(att: Attempt, t: Task)
    requires ValidAttempt(att) && t.Packet? && t.msg.Onion? && Carries(att, t)
    ensures Open(t.msg.box, KeyFor(att.keyOf, t.dst)).Ok?
  {
    hide ValidRoute, FreshIds, LayerAt;
    var p :| TaskAt(att, p, t);
    BoxOpensFor(att, p.i, t.dst);
  }

  lemma BoxOpensFor(att: Attempt, i: int, x: Addr)
    requires ValidAttempt(att) && 0 <= i < Stations(att) && x in Group(att, i)
    ensures Open(att.boxes[i], KeyFor(att.keyOf, x)).Ok?
  {
    assert BoxOK(att, i);
    FitsMember(att, i, x);
  }

  lemma FitsMember(att: Attempt, i: int, x: Addr)
    requires 0 <= i < Stations(att) && x in Group(att, i)
    ensures Fits(att, i, KeyFor(att.keyOf, x))
  {
    var p :| 0 <= p < |Group(att, i)| && Group(att, i)[p] == x;
    assert KeysFor(att.keyOf, Group(att, i))[p] == KeyFor(att.keyOf, x);
  }
}
