/**
 What became of each try: a send tries again exactly after a NACK or when nobody of the first group
 answered, and a timeout is reported exactly when nothing came.
 */
module Tries {
  import opened Wrappers
  import opened Layers
  import opened Handler
  import opened Protocol
  import opened Invariant
  import opened Preservation
  import opened Retries
  import opened Endings
  import opened Sends

  // ---- the story of the current try --------------------------------------------------------

  /** Whether the onion left, the value received, whether the time ran out, whether the keys were cleared. */
  datatype Story = Story(left: bool, heard: Option<bool>, expired: bool, cleared: bool)

  const FRESH: Story := Story(false, None, false, false)

  ghost function NextStory(s: State, l: Label, x: nat, story: Story): Story {
    match l
    case Launch(y, _, _, _, _) => if y == x then FRESH else story
    case Dial(y, ok) => if y == x && ok then story.(left := true) else story
    case Consume(y) => if y == x && Enabled(s, l) then story.(heard := s.chans[s.sends[x].cur.value].buf) else story
    case Expire(y) => if y == x then story.(expired := true) else story
    case Clear(y) => if y == x then story.(cleared := true) else story
    case _ => story
  }

  /** What has happened to send x since its latest launch before state k. */
  ghost function StoryOf(states: seq<State>, labels: seq<Label>, x: nat, k: nat): Story
    requires |states| == |labels| + 1 && k <= |labels|
  {
    if k == 0 then FRESH else NextStory(states[k - 1], labels[k - 1], x, StoryOf(states, labels, x, k - 1))
  }

  /** The latest launch of send x before state k, or -1. */
  function LastLaunch(labels: seq<Label>, x: nat, k: nat): (j: int)
    requires k <= |labels|
    ensures -1 <= j < k
    ensures j >= 0 ==> labels[j].Launch? && labels[j].x == x
    ensures forall m :: j < m < k ==> !(labels[m].Launch? && labels[m].x == x)
  {
    if k == 0 then -1
    else if labels[k - 1].Launch? && labels[k - 1].x == x then k - 1
    else LastLaunch(labels, x, k - 1)
  }

  /** This step has been taken since the launch. */
  ghost predicate Since(labels: seq<Label>, j: int, k: nat, l: Label)
    requires -1 <= j && k <= |labels|
  {
    exists m :: j < m < k && labels[m] == l
  }

  lemma SinceNext(labels: seq<Label>, j: int, k: nat, l: Label)
    requires -1 <= j < k <= |labels| && k >= 1
    ensures Since(labels, j, k, l) <==> Since(labels, j, k - 1, l) || (j < k - 1 && labels[k - 1] == l)
  {
    if Since(labels, j, k - 1, l) {
      var m :| j < m < k - 1 && labels[m] == l;
    }
  }

  /** The story in terms of the run: a successful dial, a value received, the timeout, since the launch. */
  lemma {:induction false} StoryMeans(states: seq<State>, labels: seq<Label>, x: nat, k: nat)
    requires IsRun(states, labels) && k <= |labels|
    ensures var story, j := StoryOf(states, labels, x, k), LastLaunch(labels, x, k);
      && (story.left <==> Since(labels, j, k, Dial(x, true)))
      && (story.heard.Some? <==> Since(labels, j, k, Consume(x)))
      && (story.expired <==> Since(labels, j, k, Expire(x)))
  {
    hide Next, Enabled, Init, Since, NextStory;
    var j := LastLaunch(labels, x, k);
    if k == 0 || j == k - 1 {
      NothingSince(labels, j, k, Dial(x, true));
      NothingSince(labels, j, k, Consume(x));
      NothingSince(labels, j, k, Expire(x));
      if k > 0 {
        Restarts(states[k - 1], labels[k - 1], x, StoryOf(states, labels, x, k - 1));
      }
    } else {
      StoryMeans(states, labels, x, k - 1);
      SinceNext(labels, j, k, Dial(x, true));
      SinceNext(labels, j, k, Consume(x));
      SinceNext(labels, j, k, Expire(x));
      assert IsStep(states[k - 1], labels[k - 1], states[k]);
      GoesOn(states[k - 1], labels[k - 1], states[k], x, StoryOf(states, labels, x, k - 1));
    }
  }

  lemma NothingSince(labels: seq<Label>, j: int, k: nat, l: Label)
    requires -1 <= j && j + 1 >= k && k <= |labels|
    ensures !Since(labels, j, k, l)
  {
  }

  lemma Restarts(s: State, l: Label, x: nat, story: Story)
    requires l.Launch? && l.x == x
    ensures NextStory(s, l, x, story) == FRESH
  {
  }

  lemma GoesOn(s: State, l: Label, s': State, x: nat, story: Story)
    requires IsStep(s, l, s') && !(l.Launch? && l.x == x)
    ensures var story' := NextStory(s, l, x, story);
      && (story'.left <==> story.left || l == Dial(x, true))
      && (story'.heard.Some? <==> story.heard.Some? || l == Consume(x))
      && (story'.expired <==> story.expired || l == Expire(x))
  {
    hide Next;
  }

  /** No answer can come to this try any more, and none of the time ran out. */
  predicate Failed(story: Story) {
    !story.expired && story.heard == if story.left then Some(false) else None
  }

  predicate Over(e: Send, story: Story) {
    if e.cur.None? then story == FRESH else story.cleared && Failed(story)
  }

  /** What each phase says about the latest try. */
  predicate Tells(e: Send, story: Story) {
    match e.phase
    case Ready => Over(e, story)
    case Launching(_, _) => story == FRESH
    case Waiting => story == Story(true, None, false, false)
    case Clearing(expired) =>
      !story.cleared && if expired then story.left && story.expired && story.heard == None else Failed(story)
    case Done(outcome) =>
      match outcome
      case Acked => story == Story(true, Some(true), false, false)
      case TimedOut => story == Story(true, None, true, true)
      case Abandoned => Over(e, story)
      case Stopped => Over(e, story)
      case Crashed => true
  }

  lemma StepTells(s: State, g: Ghost, l: Label, x: nat, story: Story)
    requires Inv(s, g) && Enabled(s, l) && x < |Next(s, l).sends|
    requires if x < |s.sends| then Tells(s.sends[x], story) else story == FRESH
    ensures Tells(Next(s, l).sends[x], NextStory(s, l, x, story))
  {
    hide Inv, StepTask, NewAttempt, AttemptOnion, ValidRoute, FreshIds, Unused, HasKeys;
  }

  lemma NotYet(s: State, l: Label, x: nat)
    requires Enabled(s, l) && x >= |s.sends|
    ensures NextStory(s, l, x, FRESH) == FRESH
  {
    hide NewAttempt, ValidRoute, FreshIds, Unused, HasKeys;
  }

  lemma {:induction false} NoStoryYet(states: seq<State>, labels: seq<Label>, x: nat, k: nat)
    requires IsRun(states, labels) && k <= |labels| && x >= |states[k].sends|
    ensures StoryOf(states, labels, x, k) == FRESH
  {
    hide Next, Enabled, NextStory, Init;
    if k > 0 {
      assert IsStep(states[k - 1], labels[k - 1], states[k]);
      FewerBefore(states[k - 1], labels[k - 1], states[k]);
      NoStoryYet(states, labels, x, k - 1);
      NotYet(states[k - 1], labels[k - 1], x);
    }
  }

  lemma FewerBefore(s: State, l: Label, s': State)
    requires IsStep(s, l, s')
    ensures |s.sends| <= |s'.sends|
  {
    hide StepTask, AttemptOnion;
  }

  /** Over every run the outcome tells what became of the last try: ACK that its onion left and `true`
      came; TIMEOUT that it left, nothing was received and the time ran out; ABANDON, a stop and a new
      try that the last one never left, or left and was answered `false`. */
  lemma {:induction false} OutcomeTells(states: seq<State>, labels: seq<Label>, x: nat, k: nat)
    requires IsRun(states, labels) && k <= |labels| && x < |states[k].sends|
    ensures Tells(states[k].sends[x], StoryOf(states, labels, x, k))
  {
    hide Next, Enabled, Inv, Tells, NextStory, Init;
    if k > 0 {
      var s, l := states[k - 1], labels[k - 1];
      assert IsStep(s, l, states[k]);
      var g := RunInv(states, labels, k - 1);
      if x < |s.sends| {
        OutcomeTells(states, labels, x, k - 1);
      } else {
        NoStoryYet(states, labels, x, k - 1);
      }
      StepTells(s, g, l, x, StoryOf(states, labels, x, k - 1));
    } else {
      NoneAtFirst(states[0]);
    }
  }

  lemma NoneAtFirst(s: State)
    requires Init(s)
    ensures s.sends == []
  {
  }

  // ---- from the timeout and the NACK to the next try ---------------------------------------

  /** Clearing the keys ends the send after a timeout and starts the next try after anything else. */
  lemma RetriesExactly(states: seq<State>, labels: seq<Label>, x: nat, k: nat)
    requires IsRun(states, labels) && k < |labels| && labels[k] == Clear(x)
    ensures x < |states[k].sends| && x < |states[k + 1].sends|
    ensures var e, e', story := states[k].sends[x], states[k + 1].sends[x], StoryOf(states, labels, x, k);
      if Failed(story) then e'.phase == Ready && e'.tries == e.tries + 1
      else story == Story(true, None, true, false) && e'.phase == Done(TimedOut) && e'.tries == e.tries
  {
    hide Init, StepTask;
    assert IsStep(states[k], labels[k], states[k + 1]);
    OutcomeTells(states, labels, x, k);
  }

  /** A send that reports TIMEOUT had its last onion taken by somebody, received no value and waited
      until the time was over. */
  lemma TimeoutTells(states: seq<State>, labels: seq<Label>, x: nat, k: nat)
    requires IsRun(states, labels) && k <= |labels|
    requires x < |states[k].sends| && states[k].sends[x].phase == Done(TimedOut)
    ensures var j := LastLaunch(labels, x, k);
      && Since(labels, j, k, Dial(x, true)) && Since(labels, j, k, Expire(x)) && !Since(labels, j, k, Consume(x))
  {
    hide Init, IsStep, StoryOf, Since;
    OutcomeTells(states, labels, x, k);
    StoryMeans(states, labels, x, k);
  }

  // ---- all tries fail ----------------------------------------------------------------------

  /** At this step send x is neither stopped nor timed out, its sender does not crash, and what it
      receives, if anything, is `false`. */
  ghost predicate NoHelp(s: State, l: Label, x: nat) {
    && l != Stop(x) && l != Expire(x)
    && (l.Crash? && x < |s.sends| ==> l.a != s.sends[x].sender)
    && (l == Consume(x) && Enabled(s, l) ==> s.chans[s.sends[x].cur.value].buf == Some(false))
  }

  /** So it is on its way through its tries, or has used them all. */
  predicate Struggles(p: Phase) {
    p.Ready? || p.Launching? || p.Waiting? || p == Clearing(false) || p == Done(Abandoned)
  }

  lemma StepStruggles(s: State, l: Label, x: nat)
    requires Enabled(s, l) && NoHelp(s, l, x) && x < |Next(s, l).sends|
    requires x < |s.sends| ==> Struggles(s.sends[x].phase)
    ensures Struggles(Next(s, l).sends[x].phase)
  {
    hide StepTask, NewAttempt, AttemptOnion, ValidRoute, FreshIds, Unused, HasKeys;
  }

  ghost predicate NoHelpAt(run: nat -> State, steps: nat -> Label, m: nat, x: nat) {
    NoHelp(run(m), steps(m), x)
  }

  /** Every try of send x is answered `false` or never leaves. */
  ghost predicate AllFail(run: nat -> State, steps: nat -> Label, x: nat) {
    forall m: nat :: NoHelpAt(run, steps, m, x)
  }

  lemma {:induction false} AlwaysStruggles(run: nat -> State, steps: nat -> Label, x: nat, k: nat)
    requires Endless(run, steps) && AllFail(run, steps, x) && x < |run(k).sends|
    ensures Struggles(run(k).sends[x].phase)
  {
    hide Next, Enabled, NoHelp, Struggles;
    if k > 0 {
      assert StepAt(run, steps, k - 1) && NoHelpAt(run, steps, k - 1, x);
      if x < |run(k - 1).sends| {
        AlwaysStruggles(run, steps, x, k - 1);
      }
      StepStruggles(run(k - 1), steps(k - 1), x);
    }
  }

  /** A send whose every try is answered by a NACK or finds nobody, and that is neither stopped nor
      timed out, ends in ABANDON under fair scheduling, after exactly maxRetries launches. */
  lemma AbandonsAtLast(run: nat -> State, steps: nat -> Label, x: nat, i: nat) returns (k: nat)
    requires Endless(run, steps) && FairToSend(run, steps, x) && AllFail(run, steps, x) && x < |run(i).sends|
    ensures i <= k
    ensures forall m: nat :: m >= k ==>
              && x < |run(m).sends| && run(m).sends[x].phase == Done(Abandoned)
              && Launches(run(m).attempts, x) == if run(m).sends[x].maxRetries < 0 then 0
                 else run(m).sends[x].maxRetries
  {
    hide Init, StepAt, AllFail, FairToSend, Launches;
    k := SendEnds(run, steps, x, i);
    forall m: nat | m >= k
      ensures x < |run(m).sends| && run(m).sends[x].phase == Done(Abandoned)
      ensures Launches(run(m).attempts, x) == if run(m).sends[x].maxRetries < 0 then 0 else run(m).sends[x].maxRetries
    {
      AlwaysStruggles(run, steps, x, m);
      PrefixIsRun(run, steps, m);
      LaunchesAtMost(StatesTo(run, m), LabelsTo(steps, m), m, x);
    }
  }

  // ---- the waiter as the program has it ----------------------------------------------------

  ghost predicate WaitsFor(s: State, x: nat) {
    && x < |s.sends| && s.sends[x].phase.Waiting? && s.sends[x].cur.Some?
    && s.sends[x].cur.value < |s.attempts| && s.sends[x].cur.value < |s.chans|
    && s.sends[x].sender in s.nodes && s.attempts[s.sends[x].cur.value].nacks != []
  }

  /** The state once the waiter has run to its end: the value received or the timeout, then the clearing
      of the keys, if there is one. */
  ghost function AfterWaiting(s: State, x: nat, expired: bool): State
    requires WaitsFor(s, x) && (expired || s.chans[s.sends[x].cur.value].buf.Some?)
  {
    var first := Next(s, if expired then Expire(x) else Consume(x));
    if first.sends[x].phase.Clearing? then Next(first, Clear(x)) else first
  }

  /** The steps of the waiter, one after the other, come to what the waiter of Nodes.Node.AwaitResult
      reports, starts and leaves behind. */
  lemma WaiterAgrees(s: State, x: nat, expired: bool)
    requires WaitsFor(s, x) && (expired || s.chans[s.sends[x].cur.value].buf.Some?)
    ensures var e, att := s.sends[x], s.attempts[s.sends[x].cur.value];
      var v := Waited(s.nodes[e.sender], att.msgID, att.nacks[0], if expired then None else s.chans[e.cur.value].buf);
      var s' := AfterWaiting(s, x, expired);
      && s'.nodes == s.nodes[e.sender := v.node]
      && (v.retry <==> v.outcome.None?)
      && s'.sends == s.sends[x := if v.retry then e.(phase := Ready, tries := e.tries + 1)
                                  else e.(phase := Done(v.outcome.value))]
      && s'.tasks == s.tasks && s'.attempts == s.attempts && s'.accepted == s.accepted
      && s'.chans == if expired then s.chans else s.chans[e.cur.value := s.chans[e.cur.value].(buf := None)]
  {
  }

  // ---- the first half of a try as the program has it ---------------------------------------

  ghost predicate Dials(s: State, x: nat) {
    x < |s.sends| && s.sends[x].phase.Launching? && s.sends[x].phase.cands != []
  }

  /** The state once the dialling loop has ended, when exactly the addresses in `up` answer. */
  ghost function AfterDialling(s: State, x: nat, up: set<Addr>): State
    requires Dials(s, x) && up <= s.nodes.Keys
    decreases |s.sends[x].phase.cands|
  {
    var s' := Next(s, Dial(x, s.sends[x].phase.cands[0] in up));
    if Dials(s', x) then AfterDialling(s', x, up) else s'
  }

  /** The dials, one after the other, put on the wire what the loop of Nodes.Node.StartTry puts there;
      the send then waits, or is about to clear its keys for the next try. */
  lemma {:induction false} DialsAgree(s: State, x: nat, up: set<Addr>)
    requires Dials(s, x) && up <= s.nodes.Keys
    ensures var e := s.sends[x];
      var sent := FirstUp(e.phase.cands, Onion(e.phase.onion), up);
      var s' := AfterDialling(s, x, up);
      && s'.nodes == s.nodes && s'.attempts == s.attempts && s'.chans == s.chans
      && s'.sends == s.sends[x := e.(phase := if sent != [] then Waiting else Clearing(false))]
      && s'.tasks == if sent != [] then s.tasks[s.nextTask := sent[0]] else s.tasks
    decreases |s.sends[x].phase.cands|
  {
    hide FirstUp;
    var e := s.sends[x];
    FirstUpNext(e.phase.cands, Onion(e.phase.onion), up);
    if e.phase.cands[0] !in up && |e.phase.cands| > 1 {
      var s' := Next(s, Dial(x, false));
      DialsAgree(s', x, up);
    }
  }

  lemma TryBegins(s: State, l: Label)
    requires l.Launch? && Enabled(s, l)
    ensures var first, e, c := Next(s, l), s.sends[l.x], |s.attempts|;
      && Dials(first, l.x) && first.sends[l.x].phase.cands == l.relays[0]
      && first.sends == s.sends[l.x := e.(cur := Some(c), phase := first.sends[l.x].phase)]
      && first.nodes == s.nodes[e.sender := Register(s.nodes[e.sender], l.msgID, l.nacks[0], c)]
      && first.tasks == s.tasks && first.nextTask == s.nextTask
      && |first.attempts| == c + 1 && first.attempts[c].msgID == l.msgID && first.attempts[c].nacks == l.nacks
  {
    hide AttemptOnion, FreshIds, Unused, HasKeys;
    assert l.relays[0] != [];
  }

  lemma TryClears(s: State, x: nat)
    requires x < |s.sends| && s.sends[x].phase == Clearing(false) && s.sends[x].cur.Some?
    requires s.sends[x].cur.value < |s.attempts| && s.attempts[s.sends[x].cur.value].nacks != []
             && s.sends[x].sender in s.nodes
    ensures Enabled(s, Clear(x))
    ensures var s', e, att := Next(s, Clear(x)), s.sends[x], s.attempts[s.sends[x].cur.value];
      && s'.nodes == s.nodes[e.sender := Deregister(s.nodes[e.sender], att.msgID, att.nacks[0])]
      && s'.sends == s.sends[x := e.(phase := Ready, tries := e.tries + 1)]
  {
  }

  /** A whole first half: launch and dials leave the node, and the wire, as Nodes.Node.StartTry does;
      when nobody answers the clearing that follows makes the send ready for its next try. */
  lemma TryAgrees(s: State, l: Label, up: set<Addr>) returns (s': State)
    requires l.Launch? && Enabled(s, l) && up <= s.nodes.Keys
    ensures Dials(Next(s, l), l.x)
    ensures var e, c, first := s.sends[l.x], |s.attempts|, AfterDialling(Next(s, l), l.x, up);
      var registered := Register(s.nodes[e.sender], l.msgID, l.nacks[0], c);
      var sent := FirstUp(l.relays[0], Onion(Next(s, l).sends[l.x].phase.onion), up);
      && first.tasks == (if sent != [] then s.tasks[s.nextTask := sent[0]] else s.tasks)
      && s'.nodes == s.nodes[e.sender := if sent != [] then registered else Deregister(registered, l.msgID, l.nacks[0])]
      && s'.sends == s.sends[l.x := if sent != [] then e.(cur := Some(c), phase := Waiting)
                                    else e.(cur := Some(c), phase := Ready, tries := e.tries + 1)]
      && (if sent != [] then s' == first else Enabled(first, Clear(l.x)) && s' == Next(first, Clear(l.x)))
  {
    hide FirstUp, AfterDialling, Next;
    TryBegins(s, l);
    DialsAgree(Next(s, l), l.x, up);
    s' := AfterDialling(Next(s, l), l.x, up);
    if FirstUp(l.relays[0], Onion(Next(s, l).sends[l.x].phase.onion), up) == [] {
      TryClears(s', l.x);
      s' := Next(s', Clear(l.x));
    }
  }
}
