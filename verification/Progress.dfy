/**
 Nobody gets stuck: every message and every handler goroutine can take its next step, an attempt has a
 bounded number of steps to take, and so it comes to rest, under any fair scheduling.
 */
module Progress {
  import opened Wrappers
  import opened Layers
  import opened Handler
  import opened Protocol
  import opened Attempts
  import opened Invariant
  import opened Advance
  import opened Steps
  import opened Preservation
  import opened Outcomes
  import opened Frames
  import opened Paths
  import opened Delivery

  /** Every task runs on a node of the system, or travels to one. */
  ghost predicate Placed(s: State) {
    forall t :: t in s.tasks ==> Place(s.tasks[t]) in s.nodes
  }

  lemma StepPlaced(s: State, l: Label)
    requires Placed(s) && Enabled(s, l)
    ensures Placed(Next(s, l))
  {
    hide StepTask;
    if l.Run? {
      StepFrame(s.nodes[Place(s.tasks[l.t])], s.tasks[l.t], l.ok, l.order, l.now);
    }
  }

  lemma {:induction false} RunPlaced(states: seq<State>, labels: seq<Label>, k: nat)
    requires IsRun(states, labels) && k <= |labels|
    ensures Placed(states[k])
  {
    if k > 0 {
      RunPlaced(states, labels, k - 1);
      assert IsStep(states[k - 1], labels[k - 1], states[k]);
      StepPlaced(states[k - 1], labels[k - 1]);
    }
  }

  /** The shuffle that puts this address first, if it is there. */
  function PutFirst(addrs: seq<Addr>, who: Addr): (order: seq<Addr>)
    ensures Shuffled(order, addrs)
    ensures who in addrs ==> order != [] && order[0] == who
  {
    if addrs == [] || addrs[0] == who then addrs
    else
      assert addrs == [addrs[0]] + addrs[1..];
      var rest := PutFirst(addrs[1..], who);
      if rest != [] && rest[0] == who then
        assert rest == [who] + rest[1..];
        [who, addrs[0]] + rest[1..]
      else addrs
  }

  function OrderFor(t: Task, lead: Option<Lead>): seq<Addr> {
    if !t.Opened? then [] else if lead.None? then ParseAddresses(t.layer.Next)
       else PutFirst(ParseAddresses(t.layer.Next), lead.value.who)
  }

  /** In every run, every task there is can be run: none waits for a lock, a channel or another task. */
  lemma NoTaskStuck(states: seq<State>, labels: seq<Label>, k: nat, t: nat, up: set<Addr>, lead: Option<Lead>)
    returns (l: Label)
    requires IsRun(states, labels) && k <= |labels| && t in states[k].tasks && up <= states[k].nodes.Keys
    ensures Enabled(states[k], l) && l.Run? && l.t == t && l.order == OrderFor(states[k].tasks[t], lead)
    ensures Dialled(states[k].tasks[t]).Some? ==> (l.ok <==> Dialled(states[k].tasks[t]).value in up)
  {
    hide Next, IsStep, ParseAddresses, Shuffled, PutFirst;
    var s := states[k];
    RunPlaced(states, labels, k);
    ChannelNeverBlocks(states, labels, k);
    var task := s.tasks[t];
    l := Run(t, Dialled(task).Some? && Dialled(task).value in up, OrderFor(task, lead), 0);
    if task.Opened? {
      OrderShuffled(task, lead);
    }
  }

  lemma OrderShuffled(t: Task, lead: Option<Lead>)
    requires t.Opened?
    ensures Shuffled(OrderFor(t, lead), ParseAddresses(t.layer.Next))
  {
    hide ParseAddresses;
  }

  /** An attempt that has not come to rest can take a calm step of its own, following any lead. */
  lemma PendingCanStep(states: seq<State>, labels: seq<Label>, k: nat, a: nat, up: set<Addr>, lead: Option<Lead>)
    returns (l: Label)
    requires IsRun(states, labels) && k <= |labels| && a < |states[k].attempts|
    requires up <= states[k].nodes.Keys && Pending(states[k], a)
    ensures Enabled(states[k], l) && (RunsFor(states[k], l, a) || DialsFor(states[k], l, a))
    ensures Calm(states[k], l, a, up) && Follows(states[k], l, a, lead)
  {
    hide Enabled, IsStep, Init, Carries, Calm, Follows, RunsFor, DialsFor;
    var s := states[k];
    if t :| t in s.tasks && Carries(s.attempts[a], s.tasks[t]) {
      l := NoTaskStuck(states, labels, k, t, up, lead);
      RunIsCalm(s, l, a, up, lead);
    } else {
      l := LaunchingCanDial(states, labels, k, s.attempts[a].send, up);
      DialIsCalm(s, l, a, up, lead);
    }
  }

  lemma RunIsCalm(s: State, l: Label, a: nat, up: set<Addr>, lead: Option<Lead>)
    requires a < |s.attempts| && l.Run? && l.t in s.tasks && Carries(s.attempts[a], s.tasks[l.t])
             && l.order == OrderFor(s.tasks[l.t], lead)
    requires Dialled(s.tasks[l.t]).Some? ==> (l.ok <==> Dialled(s.tasks[l.t]).value in up)
    ensures RunsFor(s, l, a) && Calm(s, l, a, up) && Follows(s, l, a, lead)
  {
    hide Carries, ParseAddresses;
  }

  lemma DialIsCalm(s: State, l: Label, a: nat, up: set<Addr>, lead: Option<Lead>)
    requires a < |s.attempts| && l.Dial? && l.x < |s.sends| && s.sends[l.x].cur == Some(a)
    requires s.sends[l.x].phase.Launching? && s.sends[l.x].phase.cands != []
             && (l.ok <==> s.sends[l.x].phase.cands[0] in up)
    ensures DialsFor(s, l, a) && Calm(s, l, a, up) && Follows(s, l, a, lead)
  {
  }

  lemma LaunchingCanDial(states: seq<State>, labels: seq<Label>, k: nat, x: nat, up: set<Addr>) returns (l: Label)
    requires IsRun(states, labels) && k <= |labels|
    requires x < |states[k].sends| && states[k].sends[x].phase.Launching? && up <= states[k].nodes.Keys
    ensures l.Dial? && l.x == x && Enabled(states[k], l) && states[k].sends[x].phase.cands != []
    ensures l.ok <==> states[k].sends[x].phase.cands[0] in up
  {
    var s := states[k];
    var g := RunInv(states, labels, k);
    assert SendOK(s, g, x) && PhaseOK(s, g, s.sends[x]);
    l := Dial(x, s.sends[x].phase.cands[0] in up);
  }

  // ---- at most so many handler steps -------------------------------------------------------

  /** Addresses over the first k stations. */
  function Mass(att: Attempt, k: nat): nat
    requires k <= Stations(att)
  {
    if k == 0 then 0 else Mass(att, k - 1) + |Group(att, k - 1)|
  }

  lemma {:induction false} GroupInMass(att: Attempt, i: nat, k: nat)
    requires i < k <= Stations(att)
    ensures |Group(att, i)| <= Mass(att, k)
    decreases k
  {
    if i < k - 1 {
      GroupInMass(att, i, k - 1);
    }
  }

  /** More than the steps of any one handler of the attempt. */
  function HandlerSize(att: Attempt): nat {
    2 * Mass(att, Stations(att)) + 4
  }

  lemma BackInMass(att: Attempt, i: nat)
    requires i < Stations(att)
    ensures |Back(att, i)| <= Mass(att, Stations(att))
  {
    GroupInMass(att, Stations(att) - 1, Stations(att));
    if i != 0 && i != Hops(att) {
      GroupInMass(att, i - 1, Stations(att));
    }
  }

  lemma OpenedRest(att: Attempt, x: Addr, i: nat)
    requires ValidAttempt(att) && i < Stations(att) - 1
    ensures Rest(Opened(x, LayerAt(att, i))) < HandlerSize(att)
  {
    hide ValidAttempt, ParseIds, JoinAddresses, Mass, Group, Back;
    GroupInMass(att, i + 1, Stations(att));
    if i == Hops(att) - 1 {
      FinalLayerReads(att);
    } else {
      RelayLayerReads(att, i);
      BackInMass(att, i);
    }
  }

  /** Handling a message starts a handler of bounded length. */
  lemma PacketRest(att: Attempt, a: nat, ga: Track, ch: Chan, x: Addr, nd: NodeState, t: Task, count: nat,
                   ok: bool, order: seq<Addr>, now: int)
    requires Here(att, a, ga, ch, x, nd, t, count) && t.Packet?
    ensures var next := StepTask(nd, t, ok, order, now).next;
      next != [] ==> Rest(next[0]) < HandlerSize(att)
  {
    hide StepTask, LayerAt, BoxOK, HandlerSize, ValidRoute, FreshIds, OnNack, Rest, AcksOwn, RelaysOwn, SeenPast;
    if ga.pos.Flying? {
      var i := ga.pos.i;
      if !Fits(att, i, nd.key) {
        var _ := LostBoxStep(att, a, ga, ch, x, nd, t, count, ok, order, now, 0, i);
      } else if i < Stations(att) - 1 {
        OpenEffect(att, ga, nd, t, ok, order, now, i);
        OpenedRest(att, x, i);
      } else {
        AckEnds(att, nd, t, ok, order, now);
      }
    } else {
      NackEffect(nd, t, ok, order, now);
      NackRest(att, ga, x, nd, ga.pos.i);
    }
  }

  lemma NackEffect(nd: NodeState, t: Task, ok: bool, order: seq<Addr>, now: int)
    requires t.Packet? && t.msg.Nack?
    ensures StepTask(nd, t, ok, order, now) == OnNack(t.dst, nd, t.msg.id)
  {
  }

  lemma NackRest(att: Attempt, ga: Track, x: Addr, nd: NodeState, i: int)
    requires ValidAttempt(att) && Sized(att) && 0 <= i < Stations(att) && RelaysOwn(att, ga, x, nd.relays)
    ensures var next := OnNack(x, nd, IdIn(att, i)).next;
      next != [] ==> Rest(next[0]) < HandlerSize(att)
  {
    hide ValidAttempt, Mass, EntryOf, IdIn, IdsOf, ParseAddresses, RelaysOwn, Hops;
    var id := IdIn(att, i);
    IdInOwn(att, i);
    if id in nd.relays {
      KnownBack(att, ga, x, nd.relays, id);
    }
  }

  lemma KnownBack(att: Attempt, ga: Track, x: Addr, relays: map<Id, Nackstruct>, id: Id)
    requires ValidAttempt(att) && RelaysOwn(att, ga, x, relays) && id in relays && id in IdsOf(att)
    ensures |ParseAddresses(relays[id].PrevNodeAddr)| <= Mass(att, Stations(att))
  {
    hide ValidAttempt, EntryOf, IdsOf, Mass, ParseAddresses;
    var j :| EntryOf(att, j, x, id, relays[id]) && Registered(ga, j);
    EntryBack(att, j, x, id, relays[id]);
  }

  lemma EntryBack(att: Attempt, j: int, x: Addr, k: Id, v: Nackstruct)
    requires ValidAttempt(att) && EntryOf(att, j, x, k, v)
    ensures |ParseAddresses(v.PrevNodeAddr)| <= Mass(att, Stations(att))
  {
    hide ParseAddresses, JoinAddresses, Mass;
    BackOK(att, j);
    ParseJoinAddresses(Back(att, j));
    BackInMass(att, j);
  }

  /** A step of attempt a's thread. */
  ghost predicate RunsFor(s: State, l: Label, a: nat) {
    l.Run? && l.t in s.tasks && a < |s.attempts| && Carries(s.attempts[a], s.tasks[l.t])
  }

  /** A SendTo to the first group of attempt a. */
  ghost predicate DialsFor(s: State, l: Label, a: nat) {
    l.Dial? && l.x < |s.sends| && s.sends[l.x].cur == Some(a)
  }

  ghost function StepsFor(states: seq<State>, labels: seq<Label>, a: nat, k: nat): nat
    requires k <= |labels| && |states| == |labels| + 1
  {
    if k == 0 then 0
    else StepsFor(states, labels, a, k - 1) + if RunsFor(states[k - 1], labels[k - 1], a) then 1 else 0
  }

  /** A step ends the handler, shortens what is left of it, or starts one of bounded length. */
  predicate Shortens(t: Task, next: seq<Task>, size: nat) {
    if t.Packet? then next != [] ==> Rest(next[0]) < size
    else Rest(t) >= 1 && (next != [] ==> Rest(next[0]) < Rest(t))
  }

  lemma ThreadShortens(att: Attempt, a: nat, ga: Track, ch: Chan, x: Addr, nd: NodeState, t: Task, count: nat,
                       ok: bool, order: seq<Addr>, now: int)
    requires Here(att, a, ga, ch, x, nd, t, count)
    requires t.Opened? ==> Shuffled(order, ParseAddresses(t.layer.Next))
    ensures Shortens(t, StepTask(nd, t, ok, order, now).next, HandlerSize(att))
  {
    hide StepTask, ParseAddresses, AttemptOK, SeenPast, AcksOwn, RelaysOwn, ValidAttempt, HandlerSize;
    if t.Packet? {
      PacketRest(att, a, ga, ch, x, nd, t, count, ok, order, now);
    } else {
      if t.Opened? {
        assert |multiset(order)| == |order|
               && |multiset(ParseAddresses(t.layer.Next))| == |ParseAddresses(t.layer.Next)|;
      }
      HandlerTerminates(nd, t, ok, order, now);
    }
  }

  function StepLimit(att: Attempt): int {
    (3 * Hops(att) - 2) * HandlerSize(att)
  }

  /** The steps so far, the messages still to come and the rest of the running handler. */
  predicate InBudget(limit: int, steps: nat, budget: int, size: nat, rest: nat) {
    steps + budget * size + rest <= limit
  }

  lemma Spend(limit: int, steps: nat, t: Task, next: seq<Task>, budget: int, budget': int, size: nat)
    requires size >= 1 && budget' + (if t.Packet? then 1 else 0) <= budget
    requires InBudget(limit, steps, budget, size, 0) && InBudget(limit, steps, budget, size, Rest(t))
             && Shortens(t, next, size)
    ensures InBudget(limit, steps + 1, budget', size, 0)
    ensures next != [] ==> InBudget(limit, steps + 1, budget', size, Rest(next[0]))
  {
    if t.Packet? {
      assert budget' * size <= (budget - 1) * size == budget * size - size;
    } else {
      assert budget' * size <= budget * size;
    }
  }

  ghost predicate Within(s: State, g: Ghost, a: nat, steps: nat) {
    a < |s.attempts| && a < |g.at| &&
    var att := s.attempts[a];
    && InBudget(StepLimit(att), steps, Budget(att, g.at[a].pos), HandlerSize(att), 0)
    && forall t :: t in s.tasks && Carries(att, s.tasks[t]) ==>
         InBudget(StepLimit(att), steps, Budget(att, g.at[a].pos), HandlerSize(att), Rest(s.tasks[t]))
  }

  /** s' is s after thread t of attempt a has made a fitting move that brings it nearer to its end. */
  ghost predicate ShortMove(s: State, s': State, t: nat, x: Addr, a: nat, ga: Track)
    requires a < |s.attempts| == |s.chans| && x in s.nodes && t in s.tasks
  {
    exists e: Effect, ga': Track, ch': Chan, accepts: bool ::
      && OwnMove(s, s', t, x, a, ga, ga', ch', e, accepts)
      && Spends(s.attempts[a], s.tasks[t], ga, ga')
      && Shortens(s.tasks[t], e.next, HandlerSize(s.attempts[a]))
  }

  lemma RunShortens(s: State, l: Label, x: Addr, a: nat, ga: Track)
    requires l.Run? && Enabled(s, l) && x == Place(s.tasks[l.t])
    requires a < |s.attempts| == |s.chans| && s.chans[a] == Chan(None, [])
    requires Here(s.attempts[a], a, ga, s.chans[a], x, s.nodes[x], s.tasks[l.t], Accepted(s.accepted, s.attempts[a]))
    ensures ShortMove(s, Next(s, l), l.t, x, a, ga)
  {
    hide StepTask, StepFits, IsMove, RunTask, Here, Spends, Shortens;
    var ga', ch', accepts := RunFits(s, l.t, l.ok, l.order, l.now, a, ga);
    var e := StepTask(s.nodes[x], s.tasks[l.t], l.ok, l.order, l.now);
    ThreadShortens(s.attempts[a], a, ga, s.chans[a], x, s.nodes[x], s.tasks[l.t], Accepted(s.accepted, s.attempts[a]),
                   l.ok, l.order, l.now);
    TaskKey(s.nodes[x], s.tasks[l.t], l.ok, l.order, l.now);
    assert OwnMove(s, Next(s, l), l.t, x, a, ga, ga', ch', e, accepts);
  }

  lemma ShortMoveWithin(s: State, g: Ghost, s': State, t: nat, x: Addr, a: nat, steps: nat) returns (g': Ghost)
    requires Inv(s, g) && t in s.tasks && t in g.owner && g.owner[t] == a && a < |g.at| && x in s.nodes
             && Within(s, g, a, steps)
    requires |s.attempts| == |s.chans| && ShortMove(s, s', t, x, a, g.at[a])
    requires Carries(s.attempts[a], s.tasks[t])
    requires forall u :: u in s.tasks && u != t ==> !Carries(s.attempts[a], s.tasks[u])
    ensures Inv(s', g') && Within(s', g', a, steps + 1)
  {
    hide Inv, StepFits, Carries, TaskAt, Shortens, StepLimit, HandlerSize, Budget, InBudget;
    var e: Effect, ga': Track, ch': Chan, accepts: bool :|
      && OwnMove(s, s', t, x, a, g.at[a], ga', ch', e, accepts)
      && Spends(s.attempts[a], s.tasks[t], g.at[a], ga')
      && Shortens(s.tasks[t], e.next, HandlerSize(s.attempts[a]));
    g' := OwnMoveKeeps(s, g, s', t, x, a, ga', ch', e, accepts);
    var att := s.attempts[a];
    SizePositive(att);
    Spend(StepLimit(att), steps, s.tasks[t], e.next, Budget(att, g.at[a].pos), Budget(att, ga'.pos), HandlerSize(att));
    assert g'.at[a] == ga' && s'.attempts == s.attempts;
    MoveTasks(s, s', t, x, e.node, e.next, a, ch', accepts);
  }

  lemma SizePositive(att: Attempt)
    ensures HandlerSize(att) >= 1
  {
  }

  lemma OwnRunWithin(s: State, g: Ghost, l: Label, a: nat, steps: nat) returns (g': Ghost)
    requires Enabled(s, l) && l.Run? && a < |s.attempts| && l.t in g.owner && g.owner[l.t] == a
    requires Inv(s, g) && Within(s, g, a, steps)
    ensures Inv(Next(s, l), g') && Within(Next(s, l), g', a, steps + 1)
  {
    hide Inv, Next, Within, Here, Carries, Shortens;
    InvSizes(s, g);
    HereHolds(s, g, l.t);
    OnlyMine(s, g, l.t, a);
    RunShortens(s, l, Place(s.tasks[l.t]), a, g.at[a]);
    g' := ShortMoveWithin(s, g, Next(s, l), l.t, Place(s.tasks[l.t]), a, steps);
  }

  ghost predicate OnlyRemainder(s: State, s': State, a: nat, next: seq<Task>)
    requires a < |s.attempts|
  {
    forall t :: t in s'.tasks && Carries(s.attempts[a], s'.tasks[t]) ==> next != [] && s'.tasks[t] == next[0]
  }

  lemma OnlyMine(s: State, g: Ghost, t: nat, a: nat)
    requires t in s.tasks && t in g.owner && g.owner[t] == a && a < |s.attempts| && Inv(s, g)
    ensures forall u :: u in s.tasks ==> (Carries(s.attempts[a], s.tasks[u]) <==> u == t)
  {
    hide TracksOK, RelaysOK, SeenOK, AcksOK, AcceptedOK, SendsOK, TaskAt, Carries, ValidAttempt;
    OwnerCarries(s, g, t, a);
    forall u | u in s.tasks && u != t
      ensures !Carries(s.attempts[a], s.tasks[u])
    {
      OwnerCarries(s, g, u, a);
      assert g.at[g.owner[u]].tid == u;
      assert g.at[g.owner[t]].tid == t;
    }
  }

  lemma MoveTasks(s: State, s': State, t: nat, x: Addr, nd': NodeState, next: seq<Task>, a: nat, ch': Chan,
                  accepts: bool)
    requires a < |s.chans| && a < |s.attempts| && IsMove(s, s', t, x, nd', next, a, ch', accepts)
    requires forall u :: u in s.tasks && u != t ==> !Carries(s.attempts[a], s.tasks[u])
    ensures OnlyRemainder(s, s', a, next)
  {
  }

  lemma OtherRunWithin(s: State, g: Ghost, l: Label, a: nat, steps: nat) returns (g': Ghost)
    requires Inv(s, g) && Enabled(s, l) && l.Run? && a < |s.attempts| && g.owner[l.t] != a && Within(s, g, a, steps)
    ensures Inv(Next(s, l), g') && Within(Next(s, l), g', a, steps)
  {
    g' := OtherRun(s, g, l, a);
    var s' := Next(s, l);
    assert s'.attempts[a] == s.attempts[a];
    forall t | t in s'.tasks && Carries(s.attempts[a], s'.tasks[t])
      ensures t in s.tasks && s'.tasks[t] == s.tasks[t]
    {
      OwnerCarries(s', g', t, a);
    }
  }

  lemma QuietWithin(s: State, g: Ghost, l: Label, a: nat, steps: nat) returns (g': Ghost)
    requires Inv(s, g) && Enabled(s, l) && !l.Run? && a < |s.attempts| && Within(s, g, a, steps)
    ensures Inv(Next(s, l), g') && Within(Next(s, l), g', a, steps)
  {
    g' := StepKeeps(s, g, l);
    StepGrows(s, l);
    var att, s' := s.attempts[a], Next(s, l);
    assert Budget(att, g'.at[a].pos) <= Budget(att, g.at[a].pos);
    Cheaper(StepLimit(att), steps, Budget(att, g.at[a].pos), Budget(att, g'.at[a].pos), HandlerSize(att), 0);
    forall t | t in s'.tasks && Carries(att, s'.tasks[t])
      ensures InBudget(StepLimit(att), steps, Budget(att, g'.at[a].pos), HandlerSize(att), Rest(s'.tasks[t]))
    {
      QuietTask(s, l, t);
      if t in s.tasks && s'.tasks[t] == s.tasks[t] {
        Cheaper(StepLimit(att), steps, Budget(att, g.at[a].pos), Budget(att, g'.at[a].pos), HandlerSize(att),
                Rest(s.tasks[t]));
      }
    }
  }

  lemma Cheaper(limit: int, steps: nat, budget: int, budget': int, size: nat, rest: nat)
    requires budget' <= budget && InBudget(limit, steps, budget, size, rest)
    ensures InBudget(limit, steps, budget', size, rest)
  {
    assert budget' * size <= budget * size;
  }

  /** Steps other than a handler's add nothing but messages. */
  lemma QuietTask(s: State, l: Label, t: nat)
    requires Enabled(s, l) && !l.Run? && t in Next(s, l).tasks
    ensures (t in s.tasks && Next(s, l).tasks[t] == s.tasks[t]) || Rest(Next(s, l).tasks[t]) == 0
  {
  }

  lemma NewAttemptIdle(s: State, g: Ghost, l: Label, g': Ghost, t: nat)
    requires Inv(s, g) && Enabled(s, l) && l.Launch? && Inv(Next(s, l), g') && t in Next(s, l).tasks
    ensures |Next(s, l).attempts| == |s.attempts| + 1
            && !Carries(Next(s, l).attempts[|s.attempts|], Next(s, l).tasks[t])
  {
    var s', a := Next(s, l), |s.attempts|;
    OwnerCarries(s', g', t, a);
    assert SendOK(s', g', l.x) && PhaseOK(s', g', s'.sends[l.x]);
    assert g'.at[a].pos.AtStart?;
  }

  lemma LaunchWithin(s: State, g: Ghost, l: Label) returns (g': Ghost)
    requires Inv(s, g) && Enabled(s, l) && l.Launch?
    ensures Inv(Next(s, l), g') && Within(Next(s, l), g', |s.attempts|, 0)
  {
    g' := StepKeeps(s, g, l);
    forall t | t in Next(s, l).tasks
      ensures |Next(s, l).attempts| == |s.attempts| + 1
              && !Carries(Next(s, l).attempts[|s.attempts|], Next(s, l).tasks[t])
    {
      NewAttemptIdle(s, g, l, g', t);
    }
    AtMostOneMore(s, l);
    IdleWithin(Next(s, l), g', |s.attempts|);
  }

  lemma IdleWithin(s: State, g: Ghost, a: nat)
    requires TracksOK(s, g) && AttemptsOK(s) && a < |s.attempts|
    requires forall t :: t in s.tasks ==> !Carries(s.attempts[a], s.tasks[t])
    ensures Within(s, g, a, 0)
  {
    var att := s.attempts[a];
    BudgetNonNegative(att, g.at[a], s.chans[a], Accepted(s.accepted, att));
    assert InBudget(StepLimit(att), 0, 3 * Hops(att) - 2, HandlerSize(att), 0);
    Cheaper(StepLimit(att), 0, 3 * Hops(att) - 2, Budget(att, g.at[a].pos), HandlerSize(att), 0);
  }

  lemma AtMostOneMore(s: State, l: Label)
    requires Enabled(s, l)
    ensures |Next(s, l).attempts| == |s.attempts| + if l.Launch? then 1 else 0
  {
  }

  /** Some placing of the threads explains the state and keeps attempt a within its budget. */
  ghost predicate Accounted(s: State, a: nat, steps: nat) {
    exists g :: Inv(s, g) && if a < |s.attempts| then Within(s, g, a, steps) else steps == 0
  }

  lemma AccountedNew(s: State, l: Label, a: nat)
    requires Enabled(s, l) && a >= |s.attempts| && Accounted(s, a, 0)
    ensures Accounted(Next(s, l), a, 0)
  {
    var g :| Inv(s, g);
    AtMostOneMore(s, l);
    if l.Launch? && a == |s.attempts| {
      var g' := LaunchWithin(s, g, l);
    } else {
      var g' := StepKeeps(s, g, l);
    }
  }

  lemma AccountedQuiet(s: State, l: Label, a: nat, steps: nat)
    requires Enabled(s, l) && !l.Run? && a < |s.attempts| && Accounted(s, a, steps)
    ensures Accounted(Next(s, l), a, steps)
  {
    var g :| Inv(s, g) && Within(s, g, a, steps);
    AtMostOneMore(s, l);
    var g' := QuietWithin(s, g, l, a, steps);
  }

  lemma AccountedRun(s: State, l: Label, a: nat, steps: nat)
    requires Enabled(s, l) && l.Run? && a < |s.attempts| && Accounted(s, a, steps)
    ensures Accounted(Next(s, l), a, if RunsFor(s, l, a) then steps + 1 else steps)
  {
    hide Next, Within, RelaysOK, SeenOK, AcksOK, AcceptedOK, SendsOK, TracksOK;
    var g :| Inv(s, g) && Within(s, g, a, steps);
    AtMostOneMore(s, l);
    OwnerCarries(s, g, l.t, a);
    if g.owner[l.t] == a {
      var g' := OwnRunWithin(s, g, l, a, steps);
    } else {
      var g' := OtherRunWithin(s, g, l, a, steps);
    }
  }

  lemma AccountedZero(s: State, a: nat, steps: nat)
    requires Accounted(s, a, steps) && a >= |s.attempts|
    ensures steps == 0
  {
  }

  lemma AccountedStep(s: State, l: Label, s': State, a: nat, steps: nat)
    requires IsStep(s, l, s') && Accounted(s, a, steps)
    ensures Accounted(s', a, if RunsFor(s, l, a) then steps + 1 else steps)
  {
    if a >= |s.attempts| {
      AccountedZero(s, a, steps);
      AccountedNew(s, l, a);
    } else if l.Run? {
      AccountedRun(s, l, a, steps);
    } else {
      AccountedQuiet(s, l, a, steps);
    }
  }

  lemma {:induction false} StepsAccounted(states: seq<State>, labels: seq<Label>, a: nat, k: nat)
    requires IsRun(states, labels) && k <= |labels|
    ensures Accounted(states[k], a, StepsFor(states, labels, a, k))
  {
    hide Next, Enabled, Inv, Within, RunsFor;
    if k == 0 {
      var g := RunInv(states, labels, 0);
    } else {
      StepsAccounted(states, labels, a, k - 1);
      AccountedStep(states[k - 1], labels[k - 1], states[k], a, StepsFor(states, labels, a, k - 1));
    }
  }

  // ---- at most so many dials ---------------------------------------------------------------

  ghost function DialsOf(states: seq<State>, labels: seq<Label>, a: nat, k: nat): nat
    requires k <= |labels| && |states| == |labels| + 1
  {
    if k == 0 then 0
    else DialsOf(states, labels, a, k - 1) + if DialsFor(states[k - 1], labels[k - 1], a) then 1 else 0
  }

  /** Members of the first group the sender has still to try. */
  function DialsLeft(s: State, a: nat): nat
    requires a < |s.attempts|
  {
    var x := s.attempts[a].send;
    if x < |s.sends| && s.sends[x].cur == Some(a) && s.sends[x].phase.Launching? then |s.sends[x].phase.cands| else 0
  }

  lemma DialsSpent(s: State, g: Ghost, l: Label, a: nat)
    requires Inv(s, g) && Enabled(s, l) && a < |s.attempts|
    ensures s.attempts <= Next(s, l).attempts
    ensures DialsLeft(Next(s, l), a) + (if DialsFor(s, l, a) then 1 else 0) <= DialsLeft(s, a)
  {
    hide Inv, Next, DialsLeft;
    DialsOwn(s, g, l);
    HasSend(s, g, a);
    SendsGrow(s, l);
    StepGrows(s, l);
    DialSpent(s, l, a);
  }

  lemma HasSend(s: State, g: Ghost, a: nat)
    requires Inv(s, g) && a < |s.attempts|
    ensures s.attempts[a].send < |s.sends|
  {
  }

  lemma DialSpent(s: State, l: Label, a: nat)
    requires Enabled(s, l) && a < |s.attempts| && s.attempts[a].send < |s.sends| && s.attempts <= Next(s, l).attempts
    requires DialsFor(s, l, a) ==> s.attempts[a].send == l.x
    ensures DialsLeft(Next(s, l), a) + (if DialsFor(s, l, a) then 1 else 0) <= DialsLeft(s, a)
  {
    hide StepTask, AttemptOnion, ValidRoute, Unused, FreshIds;
  }

  lemma DialsNone(s: State, g: Ghost, l: Label, a: nat)
    requires Inv(s, g) && Enabled(s, l) && a >= |s.attempts|
    ensures !DialsFor(s, l, a)
    ensures a < |Next(s, l).attempts| ==>
              l.Launch? && a == |s.attempts| && DialsLeft(Next(s, l), a) == |Group(Next(s, l).attempts[a], 0)|
  {
    hide Inv, StepTask, AttemptOnion, Unused, FreshIds;
    AtMostOneMore(s, l);
    DialsOwn(s, g, l);
  }

  lemma DialsOwn(s: State, g: Ghost, l: Label)
    requires Inv(s, g) && Enabled(s, l)
    ensures l.Dial? ==>
              s.sends[l.x].cur.Some? && s.sends[l.x].cur.value < |s.attempts|
                && s.attempts[s.sends[l.x].cur.value].send == l.x
  {
    assert l.Dial? ==> SendOK(s, g, l.x);
  }

  lemma {:induction false} DialsCounted(states: seq<State>, labels: seq<Label>, a: nat, k: nat)
    requires IsRun(states, labels) && k <= |labels|
    ensures a < |states[k].attempts| ==>
              DialsOf(states, labels, a, k) + DialsLeft(states[k], a) <= |Group(states[k].attempts[a], 0)|
    ensures a >= |states[k].attempts| ==> DialsOf(states, labels, a, k) == 0
  {
    hide Next, Enabled, Inv, DialsFor, DialsLeft, Init, Group;
    if k > 0 {
      DialsCounted(states, labels, a, k - 1);
      var s, l := states[k - 1], labels[k - 1];
      assert IsStep(s, l, states[k]);
      var g := RunInv(states, labels, k - 1);
      if a < |s.attempts| {
        DialsSpent(s, g, l, a);
      } else {
        DialsNone(s, g, l, a);
      }
    } else {
      assert states[0].attempts == [] by { NothingYet(states[0]); }
    }
  }

  lemma NothingYet(s: State)
    requires Init(s)
    ensures s.attempts == []
  {
  }

  // ---- the end -----------------------------------------------------------------------------

  /** Own moves of attempt a: steps of its thread and dials to its first group. */
  ghost function MovesOf(states: seq<State>, labels: seq<Label>, a: nat, k: nat): nat
    requires k <= |labels| && |states| == |labels| + 1
  {
    StepsFor(states, labels, a, k) + DialsOf(states, labels, a, k)
  }

  function MoveLimit(att: Attempt): int {
    StepLimit(att) + |Group(att, 0)|
  }

  /** In every run an attempt makes a bounded number of moves, fixed when its route was drawn. */
  lemma MovesAtMost(states: seq<State>, labels: seq<Label>, a: nat, k: nat)
    requires IsRun(states, labels) && k <= |labels| && a < |states[k].attempts|
    ensures MovesOf(states, labels, a, k) <= MoveLimit(states[k].attempts[a])
  {
    hide IsStep, Init, StepLimit, StepsFor, DialsOf, Group, Accounted;
    StepsAccounted(states, labels, a, k);
    AccountedBound(states[k], a, StepsFor(states, labels, a, k));
    DialsCounted(states, labels, a, k);
  }

  lemma AccountedBound(s: State, a: nat, steps: nat)
    requires a < |s.attempts| && Accounted(s, a, steps)
    ensures steps <= StepLimit(s.attempts[a])
  {
    var g :| Inv(s, g) && Within(s, g, a, steps);
    var att := s.attempts[a];
    assert ValidAttempt(att);
    BudgetNonNegative(att, g.at[a], s.chans[a], Accepted(s.accepted, att));
    Cheaper(StepLimit(att), steps, Budget(att, g.at[a].pos), 0, HandlerSize(att), 0);
  }
}
