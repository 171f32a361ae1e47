/**
 Every step of the system keeps the invariant.
 */
module Preservation {
  import opened Wrappers
  import opened Layers
  import opened Handler
  import opened Protocol
  import opened Attempts
  import opened Invariant
  import opened Advance
  import opened Steps

  // ---- handler steps -----------------------------------------------------------------------

  lemma HereHolds(s: State, g: Ghost, t: nat)
    requires Inv(s, g) && t in s.tasks && Place(s.tasks[t]) in s.nodes
    ensures var a := g.owner[t];
      && a < |s.attempts|
      && Active(g.at[a].pos)
      && s.chans[a] == Chan(None, [])
      && Here(s.attempts[a], a, g.at[a], s.chans[a], Place(s.tasks[t]), s.nodes[Place(s.tasks[t])], s.tasks[t],
              Accepted(s.accepted, s.attempts[a]))
  {
    var a := g.owner[t];
    var x := Place(s.tasks[t]);
    SeenLocal(s, g, a, x);
    AcksLocal(s, a, x);
    RelaysLocal(s, g, a, x);
    ActiveChan(s.attempts[a], g.at[a], s.chans[a], Accepted(s.accepted, s.attempts[a]));
  }

  /** A handled message costs one unit of the budget, no other step adds to it. */
  predicate Spends(att: Attempt, t: Task, ga: Track, ga': Track) {
    0 <= Budget(att, ga'.pos) && Budget(att, ga'.pos) + (if t.Packet? then 1 else 0) <= Budget(att, ga.pos)
  }

  /** The moves a thread makes. */
  predicate Moves(att: Attempt, p: Pos, p': Pos) {
    match p
    case Flying(i) => p'.Gone? || (i < Stations(att) - 1 && p' == Opening(i))
    case Opening(i) => p' == Sending(i)
    case Sending(i) => p' == Flying(i + 1) || p' == Sending(i) || p' == if i == Hops(att) - 1 then Gone else Giving(i)
    case Giving(i) => p' == Nacking(i)
    case Nacking(i) => p' == NackFlying(i) || p' == Nacking(i) || p' == Gone
    case NackFlying(i) => p'.Gone? || (i != 0 && i != Hops(att) && p' == Nacking(i - 1))
    case _ => false
  }

  lemma MovesSpend(att: Attempt, t: Task, ga: Track, ga': Track)
    requires Hops(att) >= 2 && Sized(att) && PosOK(att, ga) && TaskAt(att, ga.pos, t) && Moves(att, ga.pos, ga'.pos)
    ensures Spends(att, t, ga, ga')
  {
  }

  /** The case split: whatever the thread is at, its step fits. */
  lemma StepOf(att: Attempt, a: nat, ga: Track, ch: Chan, x: Addr, nd: NodeState, t: Task, count: nat,
               ok: bool, order: seq<Addr>, now: int, nextTask: nat) returns (ga': Track, ch': Chan, accepts: bool)
    requires Here(att, a, ga, ch, x, nd, t, count)
    requires t.Opened? ==> Shuffled(order, ParseAddresses(t.layer.Next))
    ensures StepFits(att, a, ga, ga', ch, ch', x, nd, StepTask(nd, t, ok, order, now), nextTask, count, accepts)
    ensures Moves(att, ga.pos, ga'.pos)
  {
    ch', accepts := ch, false;
    if ga.pos.Flying? {
      ga', ch' := FlyingStep(att, a, ga, ch, x, nd, t, count, ok, order, now, nextTask);
    } else if ga.pos.Opening? {
      ga', accepts := OpeningStep(att, a, ga, ch, x, nd, t, count, ok, order, now, nextTask);
    } else if ga.pos.Sending? {
      ga' := SendingStep(att, a, ga, ch, x, nd, t, count, ok, order, now, nextTask);
    } else if ga.pos.Giving? {
      ga' := GiveUpStep(att, a, ga, ch, x, nd, t, count, ok, order, now, nextTask, ga.pos.i);
    } else if ga.pos.Nacking? {
      ga' := PropagateStep(att, a, ga, ch, x, nd, t, count, ok, order, now, nextTask, ga.pos.i);
    } else {
      ga', ch' := NackFlyingStep(att, a, ga, ch, x, nd, t, count, ok, order, now, nextTask);
    }
  }

  lemma FlyingStep(att: Attempt, a: nat, ga: Track, ch: Chan, x: Addr, nd: NodeState, t: Task, count: nat,
                   ok: bool, order: seq<Addr>, now: int, nextTask: nat) returns (ga': Track, ch': Chan)
    requires Here(att, a, ga, ch, x, nd, t, count) && ga.pos.Flying?
    ensures StepFits(att, a, ga, ga', ch, ch', x, nd, StepTask(nd, t, ok, order, now), nextTask, count, false)
    ensures Moves(att, ga.pos, ga'.pos)
  {
    ch' := ch;
    if !Fits(att, ga.pos.i, nd.key) {
      ga' := LostBoxStep(att, a, ga, ch, x, nd, t, count, ok, order, now, nextTask, ga.pos.i);
    } else if ga.pos.i == Stations(att) - 1 {
      ga', ch' := AckStep(att, a, ga, ch, x, nd, t, count, ok, order, now, nextTask);
    } else {
      ga' := OpenStep(att, a, ga, ch, x, nd, t, count, ok, order, now, nextTask, ga.pos.i);
    }
  }

  lemma OpeningStep(att: Attempt, a: nat, ga: Track, ch: Chan, x: Addr, nd: NodeState, t: Task, count: nat,
                    ok: bool, order: seq<Addr>, now: int, nextTask: nat) returns (ga': Track, accepts: bool)
    requires Here(att, a, ga, ch, x, nd, t, count) && ga.pos.Opening?
    requires Shuffled(order, ParseAddresses(t.layer.Next))
    ensures StepFits(att, a, ga, ga', ch, ch, x, nd, StepTask(nd, t, ok, order, now), nextTask, count, accepts)
    ensures Moves(att, ga.pos, ga'.pos)
  {
    accepts := ga.pos.i == Hops(att) - 1;
    if accepts {
      ga' := AcceptStep(att, a, ga, ch, x, nd, t, count, ok, order, now, nextTask);
    } else {
      ga' := RegisterStep(att, a, ga, ch, x, nd, t, count, ok, order, now, nextTask, ga.pos.i);
    }
  }

  lemma SendingStep(att: Attempt, a: nat, ga: Track, ch: Chan, x: Addr, nd: NodeState, t: Task, count: nat,
                    ok: bool, order: seq<Addr>, now: int, nextTask: nat) returns (ga': Track)
    requires Here(att, a, ga, ch, x, nd, t, count) && ga.pos.Sending?
    ensures StepFits(att, a, ga, ga', ch, ch, x, nd, StepTask(nd, t, ok, order, now), nextTask, count, false)
    ensures Moves(att, ga.pos, ga'.pos)
  {
    if ga.pos.i == Hops(att) - 1 {
      ga' := DialReplyStep(att, a, ga, ch, x, nd, t, count, ok, order, now, nextTask);
    } else {
      ga' := DialRelayStep(att, a, ga, ch, x, nd, t, count, ok, order, now, nextTask, ga.pos.i);
    }
  }

  lemma NackFlyingStep(att: Attempt, a: nat, ga: Track, ch: Chan, x: Addr, nd: NodeState, t: Task, count: nat,
                       ok: bool, order: seq<Addr>, now: int, nextTask: nat) returns (ga': Track, ch': Chan)
    requires Here(att, a, ga, ch, x, nd, t, count) && ga.pos.NackFlying?
    ensures StepFits(att, a, ga, ga', ch, ch', x, nd, StepTask(nd, t, ok, order, now), nextTask, count, false)
    ensures Moves(att, ga.pos, ga'.pos)
  {
    ch' := ch;
    if ga.pos.i == 0 || ga.pos.i == Hops(att) {
      ga', ch' := NackHomeStep(att, a, ga, ch, x, nd, t, count, ok, order, now, nextTask, ga.pos.i);
    } else {
      ga' := NackRelayStep(att, a, ga, ch, x, nd, t, count, ok, order, now, nextTask, ga.pos.i);
    }
  }

  /** A step that fits is what RunTask makes; in particular it never meets a full channel. */
  lemma FitsIsMove(s: State, t: nat, ok: bool, order: seq<Addr>, now: int, a: nat, ga: Track, ga': Track, ch': Chan,
                   accepts: bool)
    requires t in s.tasks && Place(s.tasks[t]) in s.nodes && a < |s.attempts| == |s.chans|
    requires s.chans[a] == Chan(None, [])
    requires var x := Place(s.tasks[t]);
      StepFits(s.attempts[a], a, ga, ga', s.chans[a], ch', x, s.nodes[x],
               StepTask(s.nodes[x], s.tasks[t], ok, order, now),
               s.nextTask, Accepted(s.accepted, s.attempts[a]), accepts)
    ensures var x := Place(s.tasks[t]);
      var e := StepTask(s.nodes[x], s.tasks[t], ok, order, now);
      IsMove(s, RunTask(s, t, ok, order, now), t, x, e.node, e.next, a, ch', accepts)
  {
    var x := Place(s.tasks[t]);
    var e := StepTask(s.nodes[x], s.tasks[t], ok, order, now);
    if e.notify.Some? {
      var v := e.notify.value.1;
      assert e.notify == Some((a, v)) && ch' == Chan(Some(v), [v]);
      assert s.chans[a].sent + [v] == [v];
    } else {
      assert s.chans[a := ch'] == s.chans;
    }
  }

  lemma RunFits(s: State, t: nat, ok: bool, order: seq<Addr>, now: int, a: nat, ga: Track)
    returns (ga': Track, ch': Chan, accepts: bool)
    requires Enabled(s, Run(t, ok, order, now))
    requires a < |s.attempts| == |s.chans| && s.chans[a] == Chan(None, [])
    requires Here(s.attempts[a], a, ga, s.chans[a], Place(s.tasks[t]), s.nodes[Place(s.tasks[t])], s.tasks[t],
                  Accepted(s.accepted, s.attempts[a]))
    ensures var x := Place(s.tasks[t]);
      var e := StepTask(s.nodes[x], s.tasks[t], ok, order, now);
      && IsMove(s, RunTask(s, t, ok, order, now), t, x, e.node, e.next, a, ch', accepts)
      && StepFits(s.attempts[a], a, ga, ga', s.chans[a], ch', x, s.nodes[x], e, s.nextTask,
                  Accepted(s.accepted, s.attempts[a]), accepts)
    ensures Spends(s.attempts[a], s.tasks[t], ga, ga')
  {
    var x := Place(s.tasks[t]);
    ga', ch', accepts := StepOf(s.attempts[a], a, ga, s.chans[a], x, s.nodes[x], s.tasks[t],
                                Accepted(s.accepted, s.attempts[a]), ok, order, now, s.nextTask);
    FitsIsMove(s, t, ok, order, now, a, ga, ga', ch', accepts);
    MovesSpend(s.attempts[a], s.tasks[t], ga, ga');
  }

  /** s' is s after a fitting move of thread t, which belongs to attempt a. */
  ghost predicate CanMove(s: State, s': State, t: nat, x: Addr, a: nat, ga: Track)
    requires a < |s.attempts| == |s.chans| && x in s.nodes && t in s.tasks
  {
    exists e: Effect, ga': Track, ch': Chan, accepts: bool ::
      && IsMove(s, s', t, x, e.node, e.next, a, ch', accepts)
      && StepFits(s.attempts[a], a, ga, ga', s.chans[a], ch', x, s.nodes[x], e, s.nextTask,
                  Accepted(s.accepted, s.attempts[a]), accepts)
      && Spends(s.attempts[a], s.tasks[t], ga, ga')
  }

  lemma RunCanMove(s: State, t: nat, ok: bool, order: seq<Addr>, now: int, x: Addr, a: nat, ga: Track)
    requires Enabled(s, Run(t, ok, order, now)) && x == Place(s.tasks[t])
    requires a < |s.attempts| == |s.chans| && s.chans[a] == Chan(None, [])
    requires Here(s.attempts[a], a, ga, s.chans[a], x, s.nodes[x], s.tasks[t], Accepted(s.accepted, s.attempts[a]))
    ensures CanMove(s, Next(s, Run(t, ok, order, now)), t, x, a, ga)
  {
    var ga', ch', accepts := RunFits(s, t, ok, order, now, a, ga);
  }

  lemma MoveKeeps(s: State, g: Ghost, s': State, t: nat, x: Addr, a: nat) returns (g': Ghost, ga': Track)
    requires Inv(s, g) && t in s.tasks && g.owner[t] == a && x in s.nodes
    requires CanMove(s, s', t, x, a, g.at[a])
    ensures Inv(s', g')
    ensures g'.at == g.at[a := ga'] && Spends(s.attempts[a], s.tasks[t], g.at[a], ga')
  {
    var e: Effect, ga1: Track, ch': Chan, accepts: bool :|
      && IsMove(s, s', t, x, e.node, e.next, a, ch', accepts)
      && StepFits(s.attempts[a], a, g.at[a], ga1, s.chans[a], ch', x, s.nodes[x], e, s.nextTask,
                  Accepted(s.accepted, s.attempts[a]), accepts)
      && Spends(s.attempts[a], s.tasks[t], g.at[a], ga1);
    ga' := ga1;
    Move(s, g, s', t, x, e.node, e.next, a, ga', ch', accepts);
    g' := MovedGhost(g, t, s.nextTask, e.next, a, ga');
  }

  /** Whether step l handles a message of attempt b. */
  predicate Handles(s: State, g: Ghost, l: Label, b: nat) {
    l.Run? && l.t in s.tasks && s.tasks[l.t].Packet? && l.t in g.owner && g.owner[l.t] == b
  }

  /** No attempt gains budget, and each message handled is paid for. */
  ghost predicate Paid(s: State, g: Ghost, g': Ghost, l: Label) {
    && |s.attempts| == |g.at| <= |g'.at|
    && forall b :: 0 <= b < |g.at| ==>
         Budget(s.attempts[b], g'.at[b].pos) + (if Handles(s, g, l, b) then 1
                                                else 0) <= Budget(s.attempts[b], g.at[b].pos)
  }

  lemma PaidByOne(s: State, g: Ghost, g': Ghost, l: Label, a: nat, ga': Track)
    requires |s.attempts| == |g.at| && a < |g.at| && l.Run? && l.t in s.tasks && l.t in g.owner && g.owner[l.t] == a
    requires g'.at == g.at[a := ga'] && Spends(s.attempts[a], s.tasks[l.t], g.at[a], ga')
    ensures Paid(s, g, g', l)
  {
  }

  lemma RunKeeps(s: State, g: Ghost, l: Label) returns (g': Ghost)
    requires l.Run? && Enabled(s, l) && Inv(s, g)
    ensures Inv(Next(s, l), g')
    ensures Paid(s, g, g', l)
  {
    HereHolds(s, g, l.t);
    var x := Place(s.tasks[l.t]);
    var a := g.owner[l.t];
    RunCanMove(s, l.t, l.ok, l.order, l.now, x, a, g.at[a]);
    var ga';
    g', ga' := MoveKeeps(s, g, Next(s, l), l.t, x, a);
    PaidByOne(s, g, g', l, a, ga');
  }

  // ---- losses ------------------------------------------------------------------------------

  predicate SubNode(now: NodeState, was: NodeState) {
    && (forall k :: k in now.relays ==> k in was.relays && was.relays[k] == now.relays[k])
    && (forall m :: m in now.seen ==> m in was.seen)
    && (forall k :: k in now.acks ==> k in was.acks && was.acks[k] == now.acks[k])
  }

  /** Threads end, map entries vanish, nothing else happens to attempts. */
  ghost predicate Shrinks(s: State, s': State) {
    && s'.attempts == s.attempts && s'.chans == s.chans && s'.accepted == s.accepted && s'.nextTask == s.nextTask
    && s'.nodes.Keys == s.nodes.Keys
    && (forall x :: x in s'.nodes ==> SubNode(s'.nodes[x], s.nodes[x]))
    && (forall t :: t in s'.tasks ==> t in s.tasks && s'.tasks[t] == s.tasks[t])
    && |s'.sends| == |s.sends|
    && (forall x :: 0 <= x < |s.sends| ==> s'.sends[x].sender == s.sends[x].sender)
  }

  /** Tracks fade to Gone where their thread ended, or where `drop` says so. */
  function Faded(g: Ghost, tasks: set<nat>, drop: set<nat>): (g': Ghost)
    ensures |g'.at| == |g.at|
  {
    Ghost(seq(|g.at|, b requires 0 <= b < |g.at| =>
              if (Active(g.at[b].pos) && g.at[b].tid !in tasks) || b in drop then Track(Gone, g.at[b].top, 0)
                 else g.at[b]),
          map t | t in g.owner && t in tasks :: g.owner[t])
  }

  ghost predicate AtStartOnly(g: Ghost, drop: set<nat>) {
    forall b :: b in drop && b < |g.at| ==> g.at[b].pos.AtStart?
  }

  lemma ShrinkTasks(s: State, g: Ghost, s': State, drop: set<nat>)
    requires TasksOK(s, g) && Shrinks(s, s') && AtStartOnly(g, drop)
    ensures TasksOK(s', Faded(g, s'.tasks.Keys, drop))
  {
    var g' := Faded(g, s'.tasks.Keys, drop);
    assert g'.owner.Keys == s'.tasks.Keys;
    forall t | t in s'.tasks
      ensures t < s'.nextTask && g'.owner[t] < |s'.attempts| && g'.at[g'.owner[t]] == g.at[g.owner[t]]
      ensures g'.at[g'.owner[t]].tid == t && Active(g'.at[g'.owner[t]].pos)
      ensures TaskAt(s'.attempts[g'.owner[t]], g'.at[g'.owner[t]].pos, s'.tasks[t])
    {
      assert g'.owner[t] == g.owner[t] && Active(g.at[g.owner[t]].pos) && g.at[g.owner[t]].tid == t;
    }
    forall b | 0 <= b < |s'.attempts| && Active(g'.at[b].pos)
      ensures g'.at[b].tid in s'.tasks && g'.owner[g'.at[b].tid] == b
    {
      assert g'.at[b] == g.at[b];
    }
  }

  lemma ShrinkTracks(s: State, g: Ghost, s': State, drop: set<nat>)
    requires TracksOK(s, g) && Shrinks(s, s') && AtStartOnly(g, drop)
    ensures TracksOK(s', Faded(g, s'.tasks.Keys, drop))
  {
  }

  lemma ShrinkNodes(s: State, g: Ghost, s': State, drop: set<nat>)
    requires |g.at| == |s.attempts| && RelaysOK(s, g) && SeenOK(s, g) && AcksOK(s) && AcceptedOK(s) && Shrinks(s, s')
    ensures var g' := Faded(g, s'.tasks.Keys, drop);
      RelaysOK(s', g') && SeenOK(s', g') && AcksOK(s') && AcceptedOK(s')
  {
    var g' := Faded(g, s'.tasks.Keys, drop);
    forall x, k | x in s'.nodes && k in s'.nodes[x].relays
      ensures KnownEntry(s', g', x, k, s'.nodes[x].relays[k])
    {
      KnownEntryKept(s, g, s', g', x, k, s.nodes[x].relays[k]);
    }
    forall x, m | x in s'.nodes && m in s'.nodes[x].seen
      ensures KnownMsg(s', g', m)
    {
      KnownMsgKept(s, g, s', g', m);
    }
    forall m | m in s'.accepted
      ensures KnownFinal(s', m)
    {
      assert KnownFinal(s, m);
    }
  }

  lemma ShrinkAttempts(s: State, s': State)
    requires AttemptsOK(s) && Shrinks(s, s')
    ensures AttemptsOK(s')
  {
  }

  lemma ShrinkOthers(s: State, g: Ghost, s': State, drop: set<nat>)
    requires |g.at| == |s.attempts| && OthersDead(s, g) && Shrinks(s, s') && AtStartOnly(g, drop)
    requires forall x :: 0 <= x < |s.sends| ==> s'.sends[x].cur == s.sends[x].cur
    ensures OthersDead(s', Faded(g, s'.tasks.Keys, drop))
  {
  }

  /** All but the sends. */
  lemma Shrink(s: State, g: Ghost, s': State, drop: set<nat>)
    requires Inv(s, g) && Shrinks(s, s') && AtStartOnly(g, drop)
    requires forall x :: 0 <= x < |s.sends| ==> s'.sends[x].cur == s.sends[x].cur
    requires forall x :: 0 <= x < |s'.sends| ==> SendOK(s', Faded(g, s'.tasks.Keys, drop), x)
    ensures Inv(s', Faded(g, s'.tasks.Keys, drop))
  {
    ShrinkAttempts(s, s');
    ShrinkTasks(s, g, s', drop);
    ShrinkTracks(s, g, s', drop);
    ShrinkNodes(s, g, s', drop);
    ShrinkOthers(s, g, s', drop);
  }

  /** Nothing but one send changes. */
  lemma FadedNothing(s: State, g: Ghost)
    requires TasksOK(s, g)
    ensures Faded(g, s.tasks.Keys, {}) == g
  {
    hide TaskAt, Sized;
    var g' := Faded(g, s.tasks.Keys, {});
    assert g'.at == g.at;
    assert g'.owner == g.owner;
  }

  lemma LoseShrinks(s: State, t: nat, s': State)
    requires t in s.tasks && s' == Next(s, Lose(t))
    ensures Shrinks(s, s') && s'.sends == s.sends && s'.nodes == s.nodes && s'.attempts == s.attempts
            && s'.chans == s.chans
  {
  }

  lemma LoseKeeps(s: State, g: Ghost, t: nat, s': State)
    requires t in s.tasks && s' == Next(s, Lose(t))
    requires Inv(s, g)
    ensures Inv(s', Faded(g, s'.tasks.Keys, {}))
  {
    hide SendOK, RelaysOK, SeenOK, AcksOK, AcceptedOK, TracksOK, OthersDead, TaskAt, Sized, Next, Shrinks, Faded;
    LoseShrinks(s, t, s');
    InvSizes(s, g);
    forall x | 0 <= x < |s'.sends|
      ensures SendOK(s', Faded(g, s'.tasks.Keys, {}), x)
    {
      LoseSends(s, g, s', x);
    }
    Shrink(s, g, s', {});
  }

  lemma LoseSends(s: State, g: Ghost, s': State, x: int)
    requires |g.at| == |s.attempts| == |s.chans| && 0 <= x < |s.sends| && SendOK(s, g, x)
    requires s'.nodes.Keys == s.nodes.Keys && s'.attempts == s.attempts && s'.chans == s.chans && s'.sends == s.sends
    ensures SendOK(s', Faded(g, s'.tasks.Keys, {}), x)
  {
  }

  /** Nothing but the maps and keys of nodes changes. */
  lemma OnlyNodes(s: State, g: Ghost, s': State)
    requires Inv(s, g) && Shrinks(s, s') && s'.tasks == s.tasks && s'.sends == s.sends
    ensures Inv(s', g)
  {
    hide RelaysOK, SeenOK, AcksOK, AcceptedOK, TracksOK, OthersDead, TaskAt, Sized, PhaseOK, SubNode;
    FadedNothing(s, g);
    forall x | 0 <= x < |s'.sends|
      ensures SendOK(s', g, x)
    {
      assert SendOK(s, g, x);
      SameSend(s, g, s', x);
    }
    Shrink(s, g, s', {});
  }

  lemma SameSend(s: State, g: Ghost, s': State, x: int)
    requires |g.at| == |s.attempts| == |s.chans| && 0 <= x < |s.sends| && SendOK(s, g, x)
    requires Shrinks(s, s') && s'.sends == s.sends
    ensures SendOK(s', g, x)
  {
  }

  lemma RotateKeeps(s: State, g: Ghost, a: Addr, key: Key, s': State)
    requires a in s.nodes && s' == Next(s, Rotate(a, key))
    requires Inv(s, g)
    ensures Inv(s', g)
  {
    hide Inv;
    OnlyNodes(s, g, s');
  }

  lemma EvictKeeps(s: State, g: Ghost, a: Addr, ids: set<string>)
    requires Inv(s, g) && a in s.nodes
    ensures Inv(Next(s, Evict(a, ids)), g)
  {
    hide Inv;
    OnlyNodes(s, g, Next(s, Evict(a, ids)));
  }

  /** Attempts whose sender crashed while dialling. */
  function CutShort(s: State, g: Ghost, a: Addr): set<nat> {
    set b: nat | b < |g.at| && b < |s.attempts| && g.at[b].pos.AtStart? && s.attempts[b].sender == a
  }

  lemma CrashSends(s: State, g: Ghost, a: Addr, key: Key, x: int)
    requires |g.at| == |s.attempts| == |s.chans| && a in s.nodes && 0 <= x < |s.sends|
    requires SendOK(s, g, x)
    requires forall b :: 0 <= b < |s.attempts| && s.attempts[b].send == x ==> s.attempts[b].sender == s.sends[x].sender
    ensures SendOK(Next(s, Crash(a, key)), Faded(g, Next(s, Crash(a, key)).tasks.Keys, CutShort(s, g, a)), x)
  {
    var s' := Next(s, Crash(a, key));
    FadedSend(s, g, s', Faded(g, s'.tasks.Keys, CutShort(s, g, a)), a, x);
  }

  lemma FadedSend(s: State, g: Ghost, s': State, g': Ghost, a: Addr, x: int)
    requires |g.at| == |s.attempts| == |s.chans| && 0 <= x < |s.sends| && SendOK(s, g, x)
    requires forall b :: 0 <= b < |s.attempts| && s.attempts[b].send == x ==> s.attempts[b].sender == s.sends[x].sender
    requires s'.attempts == s.attempts && s'.chans == s.chans && s'.nodes.Keys == s.nodes.Keys
    requires |s'.sends| == |s.sends| && s'.sends[x] == CrashSend(s.sends[x], a) && |g'.at| == |g.at|
    requires forall b :: 0 <= b < |g.at| ==>
               g'.at[b] == if g.at[b].pos.AtStart? && s.attempts[b].sender == a then Track(Gone, g.at[b].top, 0)
                           else if g'.at[b].pos.Gone? && !g.at[b].pos.AtStart? then g'.at[b] else g.at[b]
    requires forall b :: 0 <= b < |g.at| ==> g'.at[b].top == g.at[b].top
    ensures SendOK(s', g', x)
  {
  }

  lemma CrashKeeps(s: State, g: Ghost, a: Addr, key: Key, s': State)
    requires a in s.nodes && s' == Next(s, Crash(a, key)) && |g.at| == |s.attempts|
    requires Inv(s, g)
    ensures Inv(s', Faded(g, s'.tasks.Keys, CutShort(s, g, a)))
  {
    hide SendOK, RelaysOK, SeenOK, AcksOK, AcceptedOK, TracksOK, OthersDead, TaskAt, Sized;
    forall x | 0 <= x < |s'.sends|
      ensures SendOK(s', Faded(g, s'.tasks.Keys, CutShort(s, g, a)), x)
    {
      CrashSends(s, g, a, key, x);
    }
    Shrink(s, g, s', CutShort(s, g, a));
  }

  // ---- steps of a send ---------------------------------------------------------------------

  /** Only send x changes, apart from map entries that vanish. */
  lemma SendAlone(s: State, g: Ghost, s': State, x: nat)
    requires Inv(s, g) && Shrinks(s, s') && s'.tasks == s.tasks && x < |s.sends|
    requires s'.sends == s.sends[x := s'.sends[x]] && s'.sends[x].cur == s.sends[x].cur
    requires SendOK(s', g, x)
    ensures Inv(s', g)
  {
    FadedNothing(s, g);
    forall y | 0 <= y < |s'.sends|
      ensures SendOK(s', g, y)
    {
      if y != x {
        assert SendOK(s, g, y);
      }
    }
    Shrink(s, g, s', {});
  }

  lemma QuitSend(s: State, g: Ghost, l: Label)
    requires |g.at| == |s.attempts| == |s.chans|
    requires Enabled(s, l) && (l.Abandon? || l.Stop? || l.Expire? || l.Clear?)
    requires SendOK(s, g, l.x)
    ensures SendOK(Next(s, l), g, l.x)
  {
  }

  lemma QuitShrinks(s: State, l: Label)
    requires Enabled(s, l) && (l.Abandon? || l.Stop? || l.Expire? || l.Clear?)
    ensures Shrinks(s, Next(s, l))
  {
  }

  lemma QuitKeeps(s: State, g: Ghost, l: Label)
    requires Inv(s, g) && Enabled(s, l) && (l.Abandon? || l.Stop? || l.Expire? || l.Clear?)
    ensures Inv(Next(s, l), g)
  {
    assert SendOK(s, g, l.x);
    QuitSend(s, g, l);
    QuitShrinks(s, l);
    SendAlone(s, g, Next(s, l), l.x);
  }

  lemma NewSendSends(s: State, g: Ghost, l: Label)
    requires |g.at| == |s.attempts| == |s.chans| && SendsOK(s, g) && Enabled(s, l) && l.NewSend?
    requires forall a :: 0 <= a < |s.attempts| ==> s.attempts[a].send < |s.sends|
    ensures SendsOK(Next(s, l), g)
  {
    var s' := Next(s, l);
    forall x | 0 <= x < |s'.sends|
      ensures SendOK(s', g, x)
    {
      if x < |s.sends| {
        assert SendOK(s, g, x);
      }
    }
  }

  lemma NewSendKeeps(s: State, g: Ghost, l: Label)
    requires Inv(s, g) && Enabled(s, l) && l.NewSend?
    ensures Inv(Next(s, l), g)
  {
    var s' := Next(s, l);
    SameAttempts(s, s');
    SameTasks(s, g, s');
    SameNodes(s, g, s');
    NewSendSends(s, g, l);
  }

  /** The maps keep their explanations when attempts, tracks and maps stay. */
  lemma SameNodes(s: State, g: Ghost, s': State)
    requires |g.at| == |s.attempts| && RelaysOK(s, g) && SeenOK(s, g) && AcksOK(s) && AcceptedOK(s)
    requires s'.attempts == s.attempts && s'.nodes == s.nodes && s'.accepted == s.accepted
    ensures RelaysOK(s', g) && SeenOK(s', g) && AcksOK(s') && AcceptedOK(s')
  {
    forall y, k | y in s'.nodes && k in s'.nodes[y].relays
      ensures KnownEntry(s', g, y, k, s'.nodes[y].relays[k])
    {
      KnownEntryKept(s, g, s', g, y, k, s.nodes[y].relays[k]);
    }
    forall y, m | y in s'.nodes && m in s'.nodes[y].seen
      ensures KnownMsg(s', g, m)
    {
      KnownMsgKept(s, g, s', g, m);
    }
    forall m | m in s'.accepted
      ensures KnownFinal(s', m)
    {
      assert KnownFinal(s, m);
    }
  }

  lemma ConsumeOwn(s: State, g: Ghost, x: nat)
    requires |g.at| == |s.attempts| == |s.chans| && Enabled(s, Consume(x)) && SendOK(s, g, x)
    requires var c := s.sends[x].cur.value;
      AttemptOK(s.attempts[c], g.at[c], s.chans[c], Accepted(s.accepted, s.attempts[c]))
    ensures SendOK(Next(s, Consume(x)), g, x)
  {
    hide Accepted, PosOK, Group, AmongAll;
  }

  lemma ConsumeOther(s: State, g: Ghost, x: nat, y: nat)
    requires |g.at| == |s.attempts| == |s.chans| && Enabled(s, Consume(x)) && y < |s.sends| && y != x
    requires SendOK(s, g, x) && SendOK(s, g, y)
    ensures SendOK(Next(s, Consume(x)), g, y)
  {
    hide Group, AmongAll, Dead, FragOK, ValidAddr;
  }

  lemma ConsumeSend(s: State, g: Ghost, x: nat, y: nat)
    requires |g.at| == |s.attempts| == |s.chans| && TracksOK(s, g) && SendsOK(s, g) && Enabled(s, Consume(x))
             && y < |s.sends|
    ensures SendOK(Next(s, Consume(x)), g, y)
  {
    hide OthersDead, AttemptOK, PhaseOK;
    assert SendOK(s, g, x) && SendOK(s, g, y);
    if x == y {
      ConsumeOwn(s, g, x);
    } else {
      ConsumeOther(s, g, x, y);
    }
  }

  lemma ConsumeSends(s: State, g: Ghost, x: nat)
    requires |g.at| == |s.attempts| == |s.chans| && TracksOK(s, g) && SendsOK(s, g) && Enabled(s, Consume(x))
    requires forall a :: 0 <= a < |s.attempts| ==> s.attempts[a].send < |s.sends|
    ensures SendsOK(Next(s, Consume(x)), g)
  {
    hide TracksOK, SendOK;
    var s' := Next(s, Consume(x));
    forall y | 0 <= y < |s'.sends|
      ensures SendOK(s', g, y)
    {
      ConsumeSend(s, g, x, y);
    }
    assert OthersDead(s', g);
  }

  lemma ConsumeKeeps(s: State, g: Ghost, x: nat)
    requires Inv(s, g) && Enabled(s, Consume(x))
    ensures Inv(Next(s, Consume(x)), g)
  {
    var s' := Next(s, Consume(x));
    ConsumeTracks(s, g, s', s.sends[x].cur.value);
    SameNodes(s, g, s');
    ConsumeSends(s, g, x);
    SameAttempts(s, s');
    SameTasks(s, g, s');
  }

  lemma SameAttempts(s: State, s': State)
    requires AttemptsOK(s) && s'.attempts == s.attempts && |s'.chans| == |s.chans| && |s'.sends| >= |s.sends|
    requires forall x :: 0 <= x < |s.sends| ==> s'.sends[x].sender == s.sends[x].sender
    ensures AttemptsOK(s')
  {
  }

  lemma SameTasks(s: State, g: Ghost, s': State)
    requires TasksOK(s, g) && s'.attempts == s.attempts && s'.tasks == s.tasks && s'.nextTask == s.nextTask
    ensures TasksOK(s', g)
  {
  }

  lemma ConsumeTracks(s: State, g: Ghost, s': State, c: nat)
    requires TracksOK(s, g) && c < |s.attempts| && s'.attempts == s.attempts && s'.accepted == s.accepted
    requires s'.chans == s.chans[c := s.chans[c].(buf := None)]
    ensures TracksOK(s', g)
  {
  }

  // ---- dialling the first group ------------------------------------------------------------

  function DialGhost(s: State, g: Ghost, x: nat, ok: bool): Ghost
    requires x < |s.sends| && s.sends[x].phase.Launching? && s.sends[x].cur.Some? && s.sends[x].cur.value < |g.at|
  {
    var c := s.sends[x].cur.value;
    if ok then Ghost(g.at[c := Track(Flying(0), 0, s.nextTask)], g.owner[s.nextTask := c])
    else if |s.sends[x].phase.cands| == 1 then Ghost(g.at[c := Track(Gone, 0, 0)], g.owner)
    else g
  }

  lemma DialTasks(s: State, g: Ghost, x: nat, ok: bool)
    requires TasksOK(s, g) && |s.chans| == |s.attempts|
    requires x < |s.sends| && SendOK(s, g, x) && Enabled(s, Dial(x, ok))
    ensures TasksOK(Next(s, Dial(x, ok)), DialGhost(s, g, x, ok))
  {
    hide TaskAt;
    DialOwned(s, g, x, ok);
    DialActive(s, g, x, ok);
  }

  lemma DialOwned(s: State, g: Ghost, x: nat, ok: bool)
    requires TasksOK(s, g) && |s.chans| == |s.attempts|
    requires x < |s.sends| && SendOK(s, g, x) && Enabled(s, Dial(x, ok))
    ensures var s' := Next(s, Dial(x, ok));
      var g' := DialGhost(s, g, x, ok);
      && g'.owner.Keys == s'.tasks.Keys
      && forall t :: t in s'.tasks ==>
           && t < s'.nextTask && g'.owner[t] < |g'.at| && g'.at[g'.owner[t]].tid == t && Active(g'.at[g'.owner[t]].pos)
           && TaskAt(s'.attempts[g'.owner[t]], g'.at[g'.owner[t]].pos, s'.tasks[t])
  {
    hide LayerAt, BoxOK, Back, IdIn, ValidAttempt, FreshIds, ValidRoute, MsgIdAt;
    var s' := Next(s, Dial(x, ok));
    var g' := DialGhost(s, g, x, ok);
    var c := s.sends[x].cur.value;
    assert s.sends[x].phase.cands[0] in s.sends[x].phase.cands;
    forall t | t in s'.tasks
      ensures t < s'.nextTask && g'.owner[t] < |g'.at| && g'.at[g'.owner[t]].tid == t && Active(g'.at[g'.owner[t]].pos)
      ensures TaskAt(s'.attempts[g'.owner[t]], g'.at[g'.owner[t]].pos, s'.tasks[t])
    {
      if t in s.tasks {
        assert Active(g.at[g.owner[t]].pos);
        assert g.owner[t] != c && g'.owner[t] == g.owner[t];
      }
    }
  }

  lemma DialActive(s: State, g: Ghost, x: nat, ok: bool)
    requires TasksOK(s, g) && |s.chans| == |s.attempts|
    requires x < |s.sends| && SendOK(s, g, x) && Enabled(s, Dial(x, ok))
    ensures var s' := Next(s, Dial(x, ok));
      var g' := DialGhost(s, g, x, ok);
      forall b :: 0 <= b < |g'.at| && Active(g'.at[b].pos) ==>
        g'.at[b].tid in s'.tasks && g'.at[b].tid in g'.owner && g'.owner[g'.at[b].tid] == b
  {
    hide TaskAt;
    var s' := Next(s, Dial(x, ok));
    var g' := DialGhost(s, g, x, ok);
    var c := s.sends[x].cur.value;
    forall b | 0 <= b < |g'.at| && Active(g'.at[b].pos)
      ensures g'.at[b].tid in s'.tasks && g'.at[b].tid in g'.owner && g'.owner[g'.at[b].tid] == b
    {
      if b != c {
        assert g'.at[b] == g.at[b] && g.at[b].tid in s.tasks;
      }
    }
  }

  lemma DialTracks(s: State, g: Ghost, x: nat, ok: bool)
    requires TracksOK(s, g)
    requires x < |s.sends| && SendOK(s, g, x) && Enabled(s, Dial(x, ok))
    ensures TracksOK(Next(s, Dial(x, ok)), DialGhost(s, g, x, ok))
  {
    var s' := Next(s, Dial(x, ok));
    var g' := DialGhost(s, g, x, ok);
    var c := s.sends[x].cur.value;
    forall b | 0 <= b < |s'.attempts|
      ensures AttemptOK(s'.attempts[b], g'.at[b], s'.chans[b], Accepted(s'.accepted, s'.attempts[b]))
    {
      DialTrack(s.attempts[b], g.at[b], s.chans[b], Accepted(s.accepted, s.attempts[b]), s.nextTask);
    }
  }

  /** From the start a thread may leave or end. */
  lemma DialTrack(att: Attempt, ga: Track, ch: Chan, count: nat, tid: nat)
    requires AttemptOK(att, ga, ch, count)
    ensures ga.pos.AtStart? && ch == Chan(None, []) ==>
              AttemptOK(att, Track(Flying(0), 0, tid), ch, count) && AttemptOK(att, Track(Gone, 0, 0), ch, count)
  {
  }

  lemma DialNodes(s: State, g: Ghost, x: nat, ok: bool)
    requires TracksOK(s, g) && RelaysOK(s, g) && SeenOK(s, g) && AcksOK(s) && AcceptedOK(s)
    requires x < |s.sends| && SendOK(s, g, x) && Enabled(s, Dial(x, ok))
    ensures var s' := Next(s, Dial(x, ok));
      var g' := DialGhost(s, g, x, ok);
      RelaysOK(s', g') && SeenOK(s', g') && AcksOK(s') && AcceptedOK(s')
  {
    hide KnownEntry, KnownMsg, Accepted, TaskAt, IsRelay;
    var s' := Next(s, Dial(x, ok));
    var g' := DialGhost(s, g, x, ok);
    var c := s.sends[x].cur.value;
    assert AttemptOK(s.attempts[c], g.at[c], s.chans[c], Accepted(s.accepted, s.attempts[c]));
    assert forall i :: Registered(g.at[c], i) ==> Registered(g'.at[c], i);
    forall y, k | y in s'.nodes && k in s'.nodes[y].relays
      ensures KnownEntry(s', g', y, k, s'.nodes[y].relays[k])
    {
      KnownEntryKept(s, g, s', g', y, k, s.nodes[y].relays[k]);
    }
    forall y, m | y in s'.nodes && m in s'.nodes[y].seen
      ensures KnownMsg(s', g', m)
    {
      KnownMsgKept(s, g, s', g', m);
    }
    forall m | m in s'.accepted
      ensures KnownFinal(s', m)
    {
      assert KnownFinal(s, m);
    }
  }

  lemma DialSend(s: State, g: Ghost, x: nat, ok: bool, y: nat)
    requires TracksOK(s, g) && SendsOK(s, g) && Enabled(s, Dial(x, ok)) && y < |s.sends|
    ensures SendOK(s, g, x) && SendOK(Next(s, Dial(x, ok)), DialGhost(s, g, x, ok), y)
  {
    hide AttemptOK, Accepted, OthersDead, SendOK, Next, DialGhost;
    assert SendOK(s, g, x) && SendOK(s, g, y);
    if y == x {
      DialOwnSend(s, g, x, ok);
    } else {
      DialOtherSend(s, g, x, ok, y);
    }
  }

  lemma DialOwnSend(s: State, g: Ghost, x: nat, ok: bool)
    requires |g.at| == |s.attempts| == |s.chans| && Enabled(s, Dial(x, ok)) && SendOK(s, g, x)
    ensures SendOK(Next(s, Dial(x, ok)), DialGhost(s, g, x, ok), x)
  {
    hide Group, TaskAt, StepTask, LayerAt, AttemptOnion, RunTask, Register, Shuffled, ParseAddresses;
    if !ok {
      var cands := s.sends[x].phase.cands;
      assert forall a :: a in cands[1..] ==> a in cands;
    }
  }

  lemma DialOtherSend(s: State, g: Ghost, x: nat, ok: bool, y: nat)
    requires |g.at| == |s.attempts| == |s.chans| && Enabled(s, Dial(x, ok)) && SendOK(s, g, x)
    requires y < |s.sends| && y != x && SendOK(s, g, y)
    ensures SendOK(Next(s, Dial(x, ok)), DialGhost(s, g, x, ok), y)
  {
    hide Group, TaskAt;
  }

  lemma DialSends(s: State, g: Ghost, x: nat, ok: bool)
    requires TracksOK(s, g) && SendsOK(s, g) && Enabled(s, Dial(x, ok))
    requires forall a :: 0 <= a < |s.attempts| ==> s.attempts[a].send < |s.sends|
    ensures SendOK(s, g, x)
    ensures SendsOK(Next(s, Dial(x, ok)), DialGhost(s, g, x, ok))
  {
    hide PosOK, Accepted, TaskAt, Group, AttemptOK;
    assert SendOK(s, g, x);
    var s' := Next(s, Dial(x, ok));
    var g' := DialGhost(s, g, x, ok);
    forall y | 0 <= y < |s'.sends|
      ensures SendOK(s', g', y)
    {
      DialSend(s, g, x, ok, y);
    }
    assert OthersDead(s', g');
  }

  lemma DialKeeps(s: State, g: Ghost, x: nat, ok: bool)
    requires Inv(s, g) && Enabled(s, Dial(x, ok))
    ensures SendOK(s, g, x)
    ensures Inv(Next(s, Dial(x, ok)), DialGhost(s, g, x, ok))
  {
    DialSends(s, g, x, ok);
    DialTasks(s, g, x, ok);
    DialTracks(s, g, x, ok);
    DialNodes(s, g, x, ok);
    DialAttempts(s, x, ok);
  }

  lemma DialAttempts(s: State, x: nat, ok: bool)
    requires AttemptsOK(s) && Enabled(s, Dial(x, ok))
    ensures AttemptsOK(Next(s, Dial(x, ok)))
  {
  }

  // ---- a new attempt -----------------------------------------------------------------------

  function LaunchGhost(g: Ghost): Ghost {
    Ghost(g.at + [Track(AtStart, 0, 0)], g.owner)
  }

  lemma LaunchAttempts(s: State, l: Label)
    requires AttemptsOK(s) && Enabled(s, l) && l.Launch?
    requires var e := s.sends[l.x]; ValidAddr(e.sender) && ValidAddr(e.dest) && FragOK(e.frag)
    ensures AttemptsOK(Next(s, l))
  {
    hide ValidAttempt, NewAttempt, IdsOf, ValidRoute, FreshIds, HasKeys, FragOK;
    var e := s.sends[l.x];
    NewAttemptValid(l.x, e, l.relays, l.keyOf, l.msgID, l.nacks);
    NewAttemptIs(l.x, e, l.relays, l.keyOf, l.msgID, l.nacks);
  }

  lemma NewAttemptIs(x: nat, e: Send, relays: seq<seq<Addr>>, keyOf: map<Addr, Key>, msgID: Id, nacks: seq<Id>)
    requires |nacks| == |relays| + 1
    ensures var att := NewAttempt(x, e, relays, keyOf, msgID, nacks);
      att.send == x && att.sender == e.sender && IdsOf(att) == {msgID} + set id | id in nacks
  {
  }

  lemma LaunchTasks(s: State, g: Ghost, l: Label)
    requires TasksOK(s, g) && Enabled(s, l) && l.Launch?
    requires Sized(Next(s, l).attempts[|s.attempts|])
    ensures TasksOK(Next(s, l), LaunchGhost(g))
  {
    hide TaskAt, FreshIds, ValidRoute, Unused, Register, AttemptOnion;
  }

  lemma LaunchTracks(s: State, g: Ghost, l: Label)
    requires TracksOK(s, g) && AcceptedOK(s) && Enabled(s, l) && l.Launch?
    ensures TracksOK(Next(s, l), LaunchGhost(g))
  {
    var s' := Next(s, l);
    var c := |s.attempts|;
    forall b | 0 <= b < |s.attempts|
      ensures s.attempts[b].msgID != l.msgID
    {
      assert s.attempts[b].msgID in IdsOf(s.attempts[b]);
    }
    assert !KnownFinal(s, AcceptOf(s'.attempts[c]));
    assert Accepted(s.accepted, s'.attempts[c]) == 0;
  }

  lemma LaunchNodes(s: State, g: Ghost, l: Label)
    requires |g.at| == |s.attempts| && RelaysOK(s, g) && SeenOK(s, g) && AcceptedOK(s)
    requires Enabled(s, l) && l.Launch?
    ensures var s' := Next(s, l);
      RelaysOK(s', LaunchGhost(g)) && SeenOK(s', LaunchGhost(g)) && AcceptedOK(s')
  {
    hide KnownEntry, KnownMsg, KnownFinal, NewAttempt, AttemptOnion, ValidRoute, FreshIds, Unused, HasKeys, Registered;
    var s' := Next(s, l);
    var g' := LaunchGhost(g);
    assert forall b, i :: 0 <= b < |s.attempts| && Registered(g.at[b], i) ==> Registered(g'.at[b], i);
    forall y, k | y in s'.nodes && k in s'.nodes[y].relays
      ensures KnownEntry(s', g', y, k, s'.nodes[y].relays[k])
    {
      KnownEntryKept(s, g, s', g', y, k, s.nodes[y].relays[k]);
    }
    forall y, m | y in s'.nodes && m in s'.nodes[y].seen
      ensures KnownMsg(s', g', m)
    {
      KnownMsgKept(s, g, s', g', m);
    }
    forall m | m in s'.accepted
      ensures KnownFinal(s', m)
    {
      FinalKept(s, s', m);
    }
  }

  lemma FinalKept(s: State, s': State, m: Accept)
    requires s.attempts <= s'.attempts && KnownFinal(s, m)
    ensures KnownFinal(s', m)
  {
    var b :| 0 <= b < |s.attempts| && AcceptOf(s.attempts[b]) == m;
    assert AcceptOf(s'.attempts[b]) == m;
  }

  lemma LaunchAcks(s: State, l: Label)
    requires AcksOK(s) && Enabled(s, l) && l.Launch?
    ensures AcksOK(Next(s, l))
  {
    var s' := Next(s, l);
    var c := |s.attempts|;
    forall x, k | x in s'.nodes && k in s'.nodes[x].acks
      ensures s'.nodes[x].acks[k] < |s'.attempts| && AckOf(s'.attempts[s'.nodes[x].acks[k]], x, k)
    {
      if x == s.sends[l.x].sender && (k == l.msgID || k == l.nacks[0]) {
        assert s'.nodes[x].acks[k] == c;
      } else {
        assert k in s.nodes[x].acks && s'.nodes[x].acks[k] == s.nodes[x].acks[k];
        assert AckOf(s.attempts[s.nodes[x].acks[k]], x, k);
      }
    }
  }

  lemma LaunchSends(s: State, g: Ghost, l: Label)
    requires |g.at| == |s.attempts| == |s.chans| && SendsOK(s, g) && Enabled(s, l) && l.Launch?
    requires forall a :: 0 <= a < |s.attempts| ==> s.attempts[a].send < |s.sends|
    requires var att := Next(s, l).attempts[|s.attempts|];
      Sized(att) && att.boxes[0] == Next(s, l).sends[l.x].phase.onion
    ensures SendsOK(Next(s, l), LaunchGhost(g))
  {
    var s' := Next(s, l);
    var g' := LaunchGhost(g);
    var c := |s.attempts|;
    hide NewAttempt, AttemptOnion, FreshIds, Unused, HasKeys, AttemptOK, SendOK, Next;
    assert SendOK(s, g, l.x);
    forall y | 0 <= y < |s.sends|
      ensures |s'.sends| == |s.sends| && SendOK(s', g', y)
    {
      assert SendOK(s, g, y);
      LaunchSend(s, g, l, y);
    }
    LaunchOthers(s, g, l);
  }

  lemma LaunchSend(s: State, g: Ghost, l: Label, y: nat)
    requires |g.at| == |s.attempts| == |s.chans| && Enabled(s, l) && l.Launch? && y < |s.sends| && SendOK(s, g, y)
    requires var att := Next(s, l).attempts[|s.attempts|];
      Sized(att) && att.boxes[0] == Next(s, l).sends[l.x].phase.onion
    ensures |Next(s, l).sends| == |s.sends| && SendOK(Next(s, l), LaunchGhost(g), y)
  {
    hide AttemptOnion, FreshIds, Unused, HasKeys;
    if y == l.x {
      assert Group(Next(s, l).attempts[|s.attempts|], 0) == l.relays[0];
    }
  }

  lemma LaunchOthers(s: State, g: Ghost, l: Label)
    requires |g.at| == |s.attempts| == |s.chans| && Enabled(s, l) && l.Launch? && SendOK(s, g, l.x) && OthersDead(s, g)
    requires forall a :: 0 <= a < |s.attempts| ==> s.attempts[a].send < |s.sends|
    ensures OthersDead(Next(s, l), LaunchGhost(g))
  {
    hide AttemptOnion, FreshIds, Unused, HasKeys, ValidRoute;
  }

  lemma LaunchKeeps(s: State, g: Ghost, l: Label)
    requires Inv(s, g) && Enabled(s, l) && l.Launch?
    ensures Inv(Next(s, l), LaunchGhost(g))
  {
    assert SendOK(s, g, l.x);
    NewAttemptValid(l.x, s.sends[l.x], l.relays, l.keyOf, l.msgID, l.nacks);
    LaunchAttempts(s, l);
    LaunchTasks(s, g, l);
    LaunchTracks(s, g, l);
    LaunchNodes(s, g, l);
    LaunchAcks(s, l);
    LaunchSends(s, g, l);
  }

  // ---- all steps, all runs -----------------------------------------------------------------

  /** A step of the sender or of the environment: tracks stay, start or fade. */
  ghost function QuietGhost(s: State, g: Ghost, l: Label): Ghost
    requires Enabled(s, l) && !l.Run?
    requires |g.at| == |s.attempts|
  {
    match l
    case Launch(_, _, _, _, _) => LaunchGhost(g)
    case Dial(x, ok) =>
      if s.sends[x].cur.Some? && s.sends[x].cur.value < |g.at| then DialGhost(s, g, x, ok) else g
    case Lose(t) => Faded(g, s.tasks.Keys - {t}, {})
    case Crash(a, _) => Faded(g, Next(s, l).tasks.Keys, CutShort(s, g, a))
    case _ => g
  }

  lemma LaunchingHasCur(s: State, g: Ghost, x: nat)
    requires |g.at| == |s.attempts| == |s.chans| && SendsOK(s, g) && x < |s.sends| && s.sends[x].phase.Launching?
    ensures s.sends[x].cur.Some? && s.sends[x].cur.value < |g.at|
  {
    assert SendOK(s, g, x);
  }

  lemma InvSizes(s: State, g: Ghost)
    requires Inv(s, g)
    ensures |g.at| == |s.attempts| == |s.chans| && SendsOK(s, g)
  {
  }

  lemma QuietInv(s: State, g: Ghost, l: Label)
    requires Inv(s, g) && Enabled(s, l) && !l.Run?
    ensures Inv(Next(s, l), QuietGhost(s, g, l))
  {
    hide Inv, StepTask;
    InvSizes(s, g);
    match l
    case NewSend(_, _, _, _, _) => NewSendKeeps(s, g, l);
    case Abandon(_) => QuitKeeps(s, g, l);
    case Stop(_) => QuitKeeps(s, g, l);
    case Expire(_) => QuitKeeps(s, g, l);
    case Clear(_) => QuitKeeps(s, g, l);
    case Launch(_, _, _, _, _) => LaunchKeeps(s, g, l);
    case Dial(x, ok) =>
      DialKeeps(s, g, x, ok);
      LaunchingHasCur(s, g, x);
    case Consume(x) => ConsumeKeeps(s, g, x);
    case Lose(t) =>
      LoseKeeps(s, g, t, Next(s, l));
      assert Next(s, l).tasks.Keys == s.tasks.Keys - {t};
    case Crash(a, key) => CrashKeeps(s, g, a, key, Next(s, l));
    case Rotate(a, key) => RotateKeeps(s, g, a, key, Next(s, l));
    case Evict(a, ids) => EvictKeeps(s, g, a, ids);
  }

  lemma QuietStarts(s: State, g: Ghost, l: Label)
    requires Enabled(s, l) && !l.Run? && |g.at| == |s.attempts| == |s.chans|
    requires l.Dial? ==> SendOK(s, g, l.x)
    ensures var g' := QuietGhost(s, g, l);
      |g.at| <= |g'.at| && forall b :: 0 <= b < |g.at| ==> g'.at[b] == g.at[b] || Starts(g.at[b], g'.at[b])
  {
  }

  predicate Starts(ga: Track, ga': Track) {
    ga'.pos.Gone? || (ga.pos.AtStart? && ga'.pos == Flying(0))
  }

  lemma NothingSpent(s: State, g: Ghost, g': Ghost, l: Label)
    requires TracksOK(s, g) && |g.at| <= |g'.at| && !l.Run?
    requires forall a :: 0 <= a < |s.attempts| ==> Hops(s.attempts[a]) >= 2
    requires forall b :: 0 <= b < |g.at| ==> g'.at[b] == g.at[b] || Starts(g.at[b], g'.at[b])
    ensures Paid(s, g, g', l)
  {
    forall b | 0 <= b < |g.at|
      ensures Budget(s.attempts[b], g'.at[b].pos) <= Budget(s.attempts[b], g.at[b].pos)
    {
      BudgetNonNegative(s.attempts[b], g.at[b], s.chans[b], Accepted(s.accepted, s.attempts[b]));
    }
  }

  lemma BudgetNonNegative(att: Attempt, ga: Track, ch: Chan, count: nat)
    requires AttemptOK(att, ga, ch, count) && Hops(att) >= 2
    ensures 0 <= Budget(att, ga.pos) <= 3 * Hops(att) - 2
  {
  }

  lemma StepKeeps(s: State, g: Ghost, l: Label) returns (g': Ghost)
    requires Inv(s, g) && Enabled(s, l)
    ensures Inv(Next(s, l), g')
    ensures Paid(s, g, g', l)
  {
    if l.Run? {
      g' := RunKeeps(s, g, l);
    } else {
      g' := QuietGhost(s, g, l);
      QuietInv(s, g, l);
      assert l.Dial? ==> SendOK(s, g, l.x);
      QuietStarts(s, g, l);
      NothingSpent(s, g, g', l);
    }
  }

  lemma {:induction false} RunInv(states: seq<State>, labels: seq<Label>, k: nat) returns (g: Ghost)
    requires IsRun(states, labels) && k <= |labels|
    ensures Inv(states[k], g)
  {
    if k == 0 {
      g := Ghost([], map[]);
    } else {
      g := RunInv(states, labels, k - 1);
      assert IsStep(states[k - 1], labels[k - 1], states[k]);
      g := StepKeeps(states[k - 1], g, labels[k - 1]);
    }
  }
}
