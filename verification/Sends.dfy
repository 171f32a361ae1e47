/**
 Every send ends.  Nothing is asked of the network: as long as the goroutine of the send itself gets
 its turns, it reports an outcome, and where everybody can be reached that is ACK.
 */
module Sends {
  import opened Layers
  import opened Handler
  import opened Protocol
  import opened Invariant
  import opened Preservation
  import opened Outcomes
  import opened Retries
  import opened Paths
  import opened Delivery
  import opened Cascade
  import opened Endings

  /** A step of send x itself. */
  predicate ActsFor(l: Label, x: nat) {
    match l
    case Abandon(y) => y == x
    case Stop(y) => y == x
    case Launch(y, _, _, _, _) => y == x
    case Dial(y, _) => y == x
    case Consume(y) => y == x
    case Expire(y) => y == x
    case Clear(y) => y == x
    case _ => false
  }

  predicate Going(s: State, x: nat) {
    x < |s.sends| && !s.sends[x].phase.Done?
  }

  /** A send that is going on always has a step of its own to take. */
  lemma SendCanAct(states: seq<State>, labels: seq<Label>, k: nat, x: nat) returns (l: Label)
    requires IsRun(states, labels) && k <= |labels| && Going(states[k], x)
    ensures Enabled(states[k], l) && ActsFor(l, x)
  {
    hide IsStep, Init, Inv;
    var g := RunInv(states, labels, k);
    l := OwnAct(states[k], g, x);
  }

  lemma OwnAct(s: State, g: Ghost, x: nat) returns (l: Label)
    requires Inv(s, g) && Going(s, x)
    ensures Enabled(s, l) && ActsFor(l, x)
  {
    assert SendOK(s, g, x);
    var e := s.sends[x];
    match e.phase
    case Ready => l := if e.tries >= e.maxRetries then Abandon(x) else Stop(x);
    case Launching(_, _) => l := Dial(x, false);
    case Waiting => l := Expire(x);
    case Clearing(_) => l := Clear(x);
  }

  // ---- what is left to do ------------------------------------------------------------------

  /** Tries to come, places to pass in this try, members of the first group to dial. */
  function Remaining(e: Send): nat {
    if e.tries < e.maxRetries then e.maxRetries - e.tries else 0
  }

  function Rank(p: Phase): nat {
    match p
    case Ready => 4
    case Launching(_, _) => 3
    case Waiting => 2
    case Clearing(_) => 1
    case Done(_) => 0
  }

  function ToDial(p: Phase): nat {
    if p.Launching? then |p.cands| else 0
  }

  predicate Nearer(e: Send, e': Send) {
    || Remaining(e') < Remaining(e)
    || (Remaining(e') == Remaining(e) && Rank(e'.phase) < Rank(e.phase))
    || (Remaining(e') == Remaining(e) && Rank(e'.phase) == Rank(e.phase) && ToDial(e'.phase) < ToDial(e.phase))
  }

  lemma ActBrings(s: State, l: Label, x: nat)
    requires Enabled(s, l) && ActsFor(l, x) && x < |s.sends| && TriesOK(s.sends[x], Launches(s.attempts, x))
    ensures x < |Next(s, l).sends| && Nearer(s.sends[x], Next(s, l).sends[x])
  {
    hide StepTask, AttemptOnion, NewAttempt, ValidRoute, FreshIds, Unused, HasKeys, Launches;
  }

  lemma OthersLeave(s: State, l: Label, x: nat)
    requires Enabled(s, l) && !ActsFor(l, x) && x < |s.sends|
    ensures x < |Next(s, l).sends| && (Next(s, l).sends[x] == s.sends[x] || Next(s, l).sends[x].phase.Done?)
  {
    hide StepTask, AttemptOnion, NewAttempt, ValidRoute, FreshIds, Unused, HasKeys;
  }

  // ---- endless runs ------------------------------------------------------------------------

  ghost predicate ActsLater(steps: nat -> Label, i: nat, x: nat) {
    exists m: nat :: m >= i && ActsFor(steps(m), x)
  }

  /** The goroutine of send x gets its turns: while it is going on, one of its steps comes at some time. */
  ghost predicate FairToSend(run: nat -> State, steps: nat -> Label, x: nat) {
    forall i: nat :: Going(run(i), x) ==> ActsLater(steps, i, x)
  }

  lemma StepOfRun(run: nat -> State, steps: nat -> Label, i: nat, x: nat)
    requires Endless(run, steps) && x < |run(i).sends|
    ensures x < |run(i + 1).sends|
    ensures if ActsFor(steps(i), x) then Nearer(run(i).sends[x], run(i + 1).sends[x])
            else run(i + 1).sends[x] == run(i).sends[x] || run(i + 1).sends[x].phase.Done?
  {
    hide Init, Enabled, Next, Nearer, TriesOK;
    assert StepAt(run, steps, i);
    if ActsFor(steps(i), x) {
      PrefixIsRun(run, steps, i);
      RunTries(StatesTo(run, i), LabelsTo(steps, i), i, x);
      ActBrings(run(i), steps(i), x);
    } else {
      OthersLeave(run(i), steps(i), x);
    }
  }

  /** The next own step brings the send nearer to its end. */
  lemma {:induction false} NextAct(run: nat -> State, steps: nat -> Label, x: nat, i: nat, m: nat) returns (n: nat)
    requires Endless(run, steps) && Going(run(i), x) && i <= m && ActsFor(steps(m), x)
    ensures i < n && x < |run(n).sends| && (Going(run(n), x) ==> Nearer(run(i).sends[x], run(n).sends[x]))
    decreases m - i
  {
    hide Endless, Nearer, ActsFor;
    StepOfRun(run, steps, i, x);
    n := i + 1;
    if Going(run(n), x) && !ActsFor(steps(i), x) {
      n := NextAct(run, steps, x, i + 1, m);
    }
  }

  lemma {:induction false} ComesToEnd(run: nat -> State, steps: nat -> Label, x: nat, i: nat) returns (k: nat)
    requires Endless(run, steps) && FairToSend(run, steps, x) && x < |run(i).sends|
    ensures i <= k && x < |run(k).sends| && run(k).sends[x].phase.Done?
    decreases Remaining(run(i).sends[x]), Rank(run(i).sends[x].phase), ToDial(run(i).sends[x].phase)
  {
    hide Endless, ActsFor;
    k := i;
    if Going(run(i), x) {
      assert ActsLater(steps, i, x);
      var m: nat :| m >= i && ActsFor(steps(m), x);
      k := NextAct(run, steps, x, i, m);
      if Going(run(k), x) {
        k := ComesToEnd(run, steps, x, k);
      }
    }
  }

  lemma {:induction false} DoneForGood(run: nat -> State, steps: nat -> Label, x: nat, k: nat, i: nat)
    requires Endless(run, steps) && k <= i && x < |run(k).sends| && run(k).sends[x].phase.Done?
    ensures x < |run(i).sends| && run(i).sends[x] == run(k).sends[x]
    decreases i
  {
    hide Init, Enabled, Next;
    if k < i {
      DoneForGood(run, steps, x, k, i - 1);
      assert StepAt(run, steps, i - 1);
      OutcomeIsFinal(run(i - 1), steps(i - 1), x);
    }
  }

  /** Whatever the network does, under a fair scheduler every send reports an outcome, for good. */
  lemma SendEnds(run: nat -> State, steps: nat -> Label, x: nat, i: nat) returns (k: nat)
    requires Endless(run, steps) && FairToSend(run, steps, x) && x < |run(i).sends|
    ensures i <= k && x < |run(k).sends| && run(k).sends[x].phase.Done?
    ensures forall m: nat :: m >= k ==> x < |run(m).sends| && run(m).sends[x] == run(k).sends[x]
  {
    hide Endless, FairToSend;
    k := ComesToEnd(run, steps, x, i);
    forall m: nat | m >= k
      ensures x < |run(m).sends| && run(m).sends[x] == run(k).sends[x]
    {
      DoneForGood(run, steps, x, k, m);
    }
  }

  // ---- what the sender is told -------------------------------------------------------------

  lemma SameAttempt(run: nat -> State, steps: nat -> Label, j: nat, a: nat, up: set<Addr>, i: nat)
    requires CalmEver(run, steps, j, a, up) && j < i
    ensures a < |run(i).attempts| && run(i).attempts[a] == run(j + 1).attempts[a]
  {
    hide Init, IsStep, CalmAt, KeysCurrent;
    PrefixIsRun(run, steps, i);
    RunGrows(StatesTo(run, i), LabelsTo(steps, i), j + 1, i);
  }

  /** Every group reachable: under fair scheduling the send reports ACK, for good, and the message has
      been received once. */
  lemma AckIsReported(run: nat -> State, steps: nat -> Label, j: nat, a: nat, up: set<Addr>) returns (k: nat)
    requires CalmEver(run, steps, j, a, up) && Fair(run, steps, a) && AllMeet(run(j + 1).attempts[a], up)
    requires FairToSend(run, steps, run(j + 1).attempts[a].send)
    ensures j < k
    ensures forall i: nat :: i >= k ==>
              && a < |run(i).attempts| && Delivered(run(i), a, OpenersTo(run, steps, a, i))
              && run(j + 1).attempts[a].send < |run(i).sends|
                 && run(i).sends[run(j + 1).attempts[a].send].phase == Done(Acked)
  {
    hide Endless, CalmAt, KeysCurrent, Fair, FairToSend, AllMeet;
    var x := run(j + 1).attempts[a].send;
    var rest := AnycastCompletes(run, steps, j, a, up);
    assert Delivered(run(rest), a, OpenersTo(run, steps, a, rest));
    SameAttempt(run, steps, j, a, up, rest);
    k := SendEnds(run, steps, x, rest);
    assert Delivered(run(k), a, OpenersTo(run, steps, a, k));
    SameAttempt(run, steps, j, a, up, k);
  }

  /** A broken hop with one reachable member in each group before it, the first excepted: under fair
      scheduling nothing is left of the attempt, neither on the way nor at its sender. */
  lemma NothingIsLeft(run: nat -> State, steps: nat -> Label, j: nat, a: nat, up: set<Addr>, f: int) returns (k: nat)
    requires CalmEver(run, steps, j, a, up) && Fair(run, steps, a)
    requires FairToSend(run, steps, run(j + 1).attempts[a].send)
    requires BrokenAt(run(j + 1).attempts[a], up, f) && OneReachable(run(j + 1).attempts[a], up, f)
    ensures j < k
    ensures forall i: nat :: i >= k ==>
              && a < |run(i).attempts| && a < |run(i).chans| && CleanedUp(run(i), a, f)
              && !AwaitsAck(run(i), a) && !AwaitsNack(run(i), a)
  {
    hide Endless, CalmAt, KeysCurrent, Fair, FairToSend, BrokenAt, OneReachable;
    var x := run(j + 1).attempts[a].send;
    var rest := CascadeCompletes(run, steps, j, a, up, f);
    assert CleanedUp(run(rest), a, f);
    SameAttempt(run, steps, j, a, up, rest);
    k := SendEnds(run, steps, x, rest);
    forall i: nat | i >= k
      ensures a < |run(i).attempts| && a < |run(i).chans| && CleanedUp(run(i), a, f)
      ensures !AwaitsAck(run(i), a) && !AwaitsNack(run(i), a)
    {
      SameAttempt(run, steps, j, a, up, i);
    }
  }
}
