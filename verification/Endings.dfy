/**
 Every attempt ends: any calm run can be led to its end by the attempt's own moves, and an endless run
 that is fair to the attempt gets there by itself.  So what holds at rest does come about.
 */
module Endings {
  import opened Wrappers
  import opened Layers
  import opened Protocol
  import opened Invariant
  import opened Preservation
  import opened Outcomes
  import opened Paths
  import opened Delivery
  import opened Cascade
  import opened Progress

  // ---- prefixes ----------------------------------------------------------------------------

  lemma {:induction false} MovesSame(states: seq<State>, labels: seq<Label>, states': seq<State>, labels': seq<Label>,
                                     a: nat, k: nat)
    requires |states| == |labels| + 1 && |states'| == |labels'| + 1 && states <= states' && labels <= labels'
             && k <= |labels|
    ensures MovesOf(states', labels', a, k) == MovesOf(states, labels, a, k)
    ensures Openers(states', labels', a, k) == Openers(states, labels, a, k)
  {
    hide RunsFor, DialsFor, NextOpeners;
    if k > 0 {
      MovesSame(states, labels, states', labels', a, k - 1);
    }
  }

  lemma {:induction false} MovesGrow(states: seq<State>, labels: seq<Label>, a: nat, j: nat, k: nat)
    requires |states| == |labels| + 1 && j <= k <= |labels|
    ensures MovesOf(states, labels, a, j) <= MovesOf(states, labels, a, k)
    decreases k
  {
    hide RunsFor, DialsFor;
    if j < k {
      MovesGrow(states, labels, a, j, k - 1);
    }
  }

  // ---- leading a run to the end ------------------------------------------------------------

  lemma OneStepMore(states: seq<State>, labels: seq<Label>, j: nat, a: nat, up: set<Addr>, lead: Option<Lead>, l: Label)
    requires CalmRun(states, labels, j, |labels|, a, up) && FollowsFrom(states, labels, j, |labels|, a, lead)
    requires a < |states[|labels|].attempts| && Enabled(states[|labels|], l)
    requires Calm(states[|labels|], l, a, up) && Follows(states[|labels|], l, a, lead)
    ensures CalmRun(states + [Next(states[|labels|], l)], labels + [l], j, |labels| + 1, a, up)
    ensures FollowsFrom(states + [Next(states[|labels|], l)], labels + [l], j, |labels| + 1, a, lead)
  {
    hide Next, Enabled, Calm, Follows, Init, KeysCurrent;
    var states', labels' := states + [Next(states[|labels|], l)], labels + [l];
    forall m | 0 <= m < |labels'|
      ensures IsStep(states'[m], labels'[m], states'[m + 1])
    {
      if m < |labels| {
        assert IsStep(states[m], labels[m], states[m + 1]);
      }
    }
    forall m | j < m < |labels'|
      ensures a < |states'[m].attempts| && Calm(states'[m], labels'[m], a, up)
              && Follows(states'[m], labels'[m], a, lead)
    {
      if m < |labels| {
        assert Calm(states[m], labels[m], a, up) && Follows(states[m], labels[m], a, lead);
      }
    }
  }

  lemma OneMoveMore(states: seq<State>, labels: seq<Label>, a: nat, l: Label, s': State)
    requires |states| == |labels| + 1
    requires RunsFor(states[|labels|], l, a) || DialsFor(states[|labels|], l, a)
    ensures MovesOf(states + [s'], labels + [l], a, |labels| + 1) == MovesOf(states, labels, a, |labels|) + 1
  {
    MovesSame(states, labels, states + [s'], labels + [l], a, |labels|);
  }

  /** Any calm run goes on, by moves of the attempt alone and in at most as many as its limit leaves,
      to a state where the attempt is at rest; any lead can be followed on the way. */
  lemma {:induction false} LeadsToRest(states: seq<State>, labels: seq<Label>, j: nat, a: nat, up: set<Addr>,
                                       lead: Option<Lead>)
    returns (states': seq<State>, labels': seq<Label>)
    requires CalmRun(states, labels, j, |labels|, a, up) && FollowsFrom(states, labels, j, |labels|, a, lead)
    requires up <= states[|labels|].nodes.Keys
    ensures states <= states' && labels <= labels'
    ensures CalmRun(states', labels', j, |labels'|, a, up) && FollowsFrom(states', labels', j, |labels'|, a, lead)
    ensures a < |states'[|labels'|].attempts| && !Pending(states'[|labels'|], a)
    ensures MovesOf(states', labels', a, |labels'|) == MovesOf(states, labels, a, |labels|) + |labels'| - |labels|
    ensures |labels'| - |labels| <= MoveLimit(states[j + 1].attempts[a]) - MovesOf(states, labels, a, |labels|)
    decreases MoveLimit(states[j + 1].attempts[a]) - MovesOf(states, labels, a, |labels|)
  {
    hide Next, Enabled, Calm, Follows, Init, KeysCurrent, Pending, RunsFor, DialsFor, MoveLimit, MovesOf;
    var k := |labels|;
    RunGrows(states, labels, j + 1, k);
    MovesAtMost(states, labels, a, k);
    if Pending(states[k], a) {
      var l := PendingCanStep(states, labels, k, a, up, lead);
      OneStepMore(states, labels, j, a, up, lead, l);
      OneMoveMore(states, labels, a, l, Next(states[k], l));
      NodesStay(states[k], l);
      StepGrows(states[k], l);
      MovesAtMost(states + [Next(states[k], l)], labels + [l], a, k + 1);
      states', labels' := LeadsToRest(states + [Next(states[k], l)], labels + [l], j, a, up, lead);
    } else {
      states', labels' := states, labels;
    }
  }

  // ---- endless runs ------------------------------------------------------------------------

  ghost predicate StepAt(run: nat -> State, steps: nat -> Label, i: nat) {
    IsStep(run(i), steps(i), run(i + 1))
  }

  ghost predicate Endless(run: nat -> State, steps: nat -> Label) {
    && Init(run(0))
    && forall i: nat :: StepAt(run, steps, i)
  }

  function StatesTo(run: nat -> State, k: nat): (states: seq<State>)
    ensures |states| == k + 1
  {
    seq(k + 1, i requires 0 <= i => run(i))
  }

  function LabelsTo(steps: nat -> Label, k: nat): (labels: seq<Label>)
    ensures |labels| == k
  {
    seq(k, i requires 0 <= i => steps(i))
  }

  ghost predicate CalmAt(run: nat -> State, steps: nat -> Label, m: nat, a: nat, up: set<Addr>) {
    a < |run(m).attempts| && Calm(run(m), steps(m), a, up)
  }

  /** Attempt a is launched in step j, for keys its reachable stations have, and is left in calm for ever. */
  ghost predicate CalmEver(run: nat -> State, steps: nat -> Label, j: nat, a: nat, up: set<Addr>) {
    && Endless(run, steps)
    && steps(j).Launch? && a == |run(j).attempts| && a < |run(j + 1).attempts|
    && KeysCurrent(run(j + 1), run(j + 1).attempts[a], up)
    && forall m: nat :: m > j ==> CalmAt(run, steps, m, a, up)
  }

  ghost predicate MovesAt(run: nat -> State, steps: nat -> Label, m: nat, a: nat) {
    RunsFor(run(m), steps(m), a) || DialsFor(run(m), steps(m), a)
  }

  ghost predicate MovesLater(run: nat -> State, steps: nat -> Label, i: nat, a: nat) {
    exists m: nat :: m >= i && MovesAt(run, steps, m, a)
  }

  ghost predicate PendingAt(run: nat -> State, i: nat, a: nat) {
    a < |run(i).attempts| && Pending(run(i), a)
  }

  /** The scheduler never forgets the attempt: while it is pending, one of its moves comes at some time. */
  ghost predicate Fair(run: nat -> State, steps: nat -> Label, a: nat) {
    forall i: nat :: PendingAt(run, i, a) ==> MovesLater(run, steps, i, a)
  }

  lemma PrefixIsRun(run: nat -> State, steps: nat -> Label, k: nat)
    requires Endless(run, steps)
    ensures IsRun(StatesTo(run, k), LabelsTo(steps, k))
  {
    hide Init, IsStep;
    forall i | 0 <= i < k
      ensures IsStep(StatesTo(run, k)[i], LabelsTo(steps, k)[i], StatesTo(run, k)[i + 1])
    {
      assert StepAt(run, steps, i);
    }
  }

  lemma PrefixIsCalm(run: nat -> State, steps: nat -> Label, j: nat, a: nat, up: set<Addr>, k: nat)
    requires CalmEver(run, steps, j, a, up) && j < k
    ensures CalmRun(StatesTo(run, k), LabelsTo(steps, k), j, k, a, up)
  {
    hide Init, IsStep, Calm, KeysCurrent;
    PrefixIsRun(run, steps, k);
    forall m | j < m < k
      ensures a < |StatesTo(run, k)[m].attempts| && Calm(StatesTo(run, k)[m], LabelsTo(steps, k)[m], a, up)
    {
      assert CalmAt(run, steps, m, a, up);
    }
  }

  ghost function MovesTo(run: nat -> State, steps: nat -> Label, a: nat, k: nat): nat {
    MovesOf(StatesTo(run, k), LabelsTo(steps, k), a, k)
  }

  lemma MovesLonger(run: nat -> State, steps: nat -> Label, a: nat, k: nat, m: nat)
    requires k <= m
    ensures MovesTo(run, steps, a, k) <= MovesTo(run, steps, a, m)
    ensures MovesAt(run, steps, m, a) ==> MovesTo(run, steps, a, m + 1) == MovesTo(run, steps, a, m) + 1
  {
    hide Carries;
    MovesSame(StatesTo(run, k), LabelsTo(steps, k), StatesTo(run, m), LabelsTo(steps, m), a, k);
    MovesGrow(StatesTo(run, m), LabelsTo(steps, m), a, k, m);
    MovesSame(StatesTo(run, m), LabelsTo(steps, m), StatesTo(run, m + 1), LabelsTo(steps, m + 1), a, m);
    assert StatesTo(run, m + 1)[m] == run(m) && LabelsTo(steps, m + 1)[m] == steps(m);
  }

  /** Unless it comes to rest, it makes any number of moves. */
  lemma {:induction false} MovesOn(run: nat -> State, steps: nat -> Label, j: nat, a: nat, up: set<Addr>, n: nat)
    returns (k: nat)
    requires CalmEver(run, steps, j, a, up) && Fair(run, steps, a)
    ensures j < k && (PendingAt(run, k, a) ==> MovesTo(run, steps, a, k) >= n)
  {
    hide Endless, CalmAt, KeysCurrent, Pending, MovesAt, MovesTo;
    if n == 0 {
      k := j + 1;
    } else {
      k := MovesOn(run, steps, j, a, up, n - 1);
      if PendingAt(run, k, a) {
        assert MovesLater(run, steps, k, a);
        var m: nat :| m >= k && MovesAt(run, steps, m, a);
        MovesLonger(run, steps, a, k, m);
        k := m + 1;
      }
    }
  }

  /** Under fair scheduling a calm attempt comes to rest. */
  lemma FairEnds(run: nat -> State, steps: nat -> Label, j: nat, a: nat, up: set<Addr>) returns (k: nat)
    requires CalmEver(run, steps, j, a, up) && Fair(run, steps, a)
    ensures j < k && a < |run(k).attempts| && !Pending(run(k), a)
  {
    hide Init, IsStep, Calm, KeysCurrent, Pending, Fair, MoveLimit, MovesOf, StepAt;
    var att := run(j + 1).attempts[a];
    var n: nat := if MoveLimit(att) < 0 then 0 else MoveLimit(att) + 1;
    k := MovesOn(run, steps, j, a, up, n);
    PrefixIsCalm(run, steps, j, a, up, k);
    RunGrows(StatesTo(run, k), LabelsTo(steps, k), j + 1, k);
    MovesAtMost(StatesTo(run, k), LabelsTo(steps, k), a, k);
  }

  // ---- at rest for good --------------------------------------------------------------------

  lemma RestStays(s: State, g: Ghost, l: Label, a: nat)
    requires Inv(s, g) && Enabled(s, l) && a < |s.attempts| && !Pending(s, a)
    ensures a < |Next(s, l).attempts| && !Pending(Next(s, l), a)
  {
    hide Next, Pending, AttemptsOK, TasksOK, RelaysOK, SeenOK, AcksOK, AcceptedOK, SendsOK, Accepted;
    PendingIs(s, g, a);
    var g' := StepKeeps(s, g, l);
    StepGrows(s, l);
    GoneStays(s, g, g', l, a, Next(s, l));
    PendingIs(Next(s, l), g', a);
  }

  lemma GoneStays(s: State, g: Ghost, g': Ghost, l: Label, a: nat, s': State)
    requires Inv(s, g) && Inv(s', g') && Paid(s, g, g', l) && a < |s.attempts| && s.attempts <= s'.attempts
             && g.at[a].pos.Gone?
    ensures g'.at[a].pos.Gone?
  {
    hide RelaysOK, SeenOK, AcksOK, AcceptedOK, SendsOK, TasksOK, Accepted, BoxOK, FreshIds;
    assert AttemptOK(s'.attempts[a], g'.at[a], s'.chans[a], Accepted(s'.accepted, s'.attempts[a]));
    assert Hops(s.attempts[a]) >= 2;
  }

  lemma {:induction false} AtRestForGood(run: nat -> State, steps: nat -> Label, a: nat, k: nat, i: nat)
    requires Endless(run, steps) && k <= i && a < |run(k).attempts| && !Pending(run(k), a)
    ensures a < |run(i).attempts| && !Pending(run(i), a)
    decreases i
  {
    hide Init, IsStep, Pending, Inv;
    if k < i {
      AtRestForGood(run, steps, a, k, i - 1);
      PrefixIsRun(run, steps, i - 1);
      var g := RunInv(StatesTo(run, i - 1), LabelsTo(steps, i - 1), i - 1);
      assert StepAt(run, steps, i - 1);
      StepStays(run(i - 1), g, steps(i - 1), run(i), a);
    }
  }

  lemma StepStays(s: State, g: Ghost, l: Label, s': State, a: nat)
    requires Inv(s, g) && IsStep(s, l, s') && a < |s.attempts| && !Pending(s, a)
    ensures a < |s'.attempts| && !Pending(s', a)
  {
    hide Inv, Enabled, Next, Pending;
    RestStays(s, g, l, a);
  }

  // ---- what comes about --------------------------------------------------------------------

  ghost function OpenersTo(run: nat -> State, steps: nat -> Label, a: nat, k: nat): seq<Addr> {
    Openers(StatesTo(run, k), LabelsTo(steps, k), a, k)
  }

  /** Every group reachable: under fair scheduling the message is received once and the sender is
      told so, for good. */
  lemma AnycastCompletes(run: nat -> State, steps: nat -> Label, j: nat, a: nat, up: set<Addr>) returns (k: nat)
    requires CalmEver(run, steps, j, a, up) && Fair(run, steps, a) && AllMeet(run(j + 1).attempts[a], up)
    ensures j < k
    ensures forall i: nat :: i >= k ==> a < |run(i).attempts| && Delivered(run(i), a, OpenersTo(run, steps, a, i))
  {
    hide Init, StepAt, CalmAt, KeysCurrent, Pending, AllMeet, Delivered, Fair;
    k := FairEnds(run, steps, j, a, up);
    forall i: nat | i >= k
      ensures a < |run(i).attempts| && Delivered(run(i), a, OpenersTo(run, steps, a, i))
    {
      AtRestForGood(run, steps, a, k, i);
      PrefixIsCalm(run, steps, j, a, up, i);
      AnycastDelivers(StatesTo(run, i), LabelsTo(steps, i), j, i, a, up);
    }
  }

  /** A broken hop with one reachable member in each group before it, the first excepted: under fair
      scheduling the NACK comes home, for good. */
  lemma CascadeCompletes(run: nat -> State, steps: nat -> Label, j: nat, a: nat, up: set<Addr>, f: int) returns (k: nat)
    requires CalmEver(run, steps, j, a, up) && Fair(run, steps, a)
    requires BrokenAt(run(j + 1).attempts[a], up, f) && OneReachable(run(j + 1).attempts[a], up, f)
    ensures j < k
    ensures forall i: nat :: i >= k ==> a < |run(i).attempts| && a < |run(i).chans| && CleanedUp(run(i), a, f)
  {
    hide Init, StepAt, CalmAt, KeysCurrent, Pending, BrokenAt, OneReachable, CleanedUp, Fair;
    k := FairEnds(run, steps, j, a, up);
    forall i: nat | i >= k
      ensures a < |run(i).attempts| && a < |run(i).chans| && CleanedUp(run(i), a, f)
    {
      AtRestForGood(run, steps, a, k, i);
      PrefixIsCalm(run, steps, j, a, up, i);
      NackComesHome(StatesTo(run, i), LabelsTo(steps, i), j, i, a, up, f);
    }
  }
}
