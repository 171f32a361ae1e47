/**
 How often a send tries.
 */
module Retries {
  import opened Handler
  import opened Protocol
  import opened Invariant
  import opened Preservation

  /** Attempts launched by send x. */
  function Launches(attempts: seq<Attempt>, x: nat): nat {
    if attempts == [] then 0
    else Launches(attempts[..|attempts| - 1], x) + if attempts[|attempts| - 1].send == x then 1 else 0
  }

  /** At most this many, also for a negative limit. */
  function Limit(e: Send): nat {
    if e.maxRetries < 0 then 0 else e.maxRetries
  }

  /** Each try has launched one attempt, the current one included once it is under way. */
  predicate TriesOK(e: Send, launches: nat) {
    && 0 <= e.tries && launches <= Limit(e)
    && (e.phase.Ready? ==> launches == e.tries)
    && (e.phase.Launching? || e.phase.Waiting? || e.phase.Clearing? ==> launches == e.tries + 1)
    && (e.phase == Done(Abandoned) ==> launches == Limit(e))
  }

  lemma LaunchedOne(attempts: seq<Attempt>, att: Attempt, x: nat)
    ensures Launches(attempts + [att], x) == Launches(attempts, x) + if att.send == x then 1 else 0
  {
    assert (attempts + [att])[..|attempts|] == attempts;
  }

  lemma {:induction false} NoneLaunched(attempts: seq<Attempt>, x: nat)
    requires forall a :: 0 <= a < |attempts| ==> attempts[a].send < x
    ensures Launches(attempts, x) == 0
  {
    if attempts != [] {
      NoneLaunched(attempts[..|attempts| - 1], x);
    }
  }

  lemma StepTries(s: State, l: Label, x: nat)
    requires Enabled(s, l) && x < |Next(s, l).sends|
    requires if x < |s.sends| then TriesOK(s.sends[x], Launches(s.attempts, x)) else Launches(s.attempts, x) == 0
    ensures TriesOK(Next(s, l).sends[x], Launches(Next(s, l).attempts, x))
  {
    hide StepTask, NewAttempt, AttemptOnion, ValidRoute, FreshIds, Unused, Launches, HasKeys;
    if l.Launch? {
      LaunchTries(s, l, x);
    }
  }

  lemma LaunchTries(s: State, l: Label, x: nat)
    requires l.Launch? && Enabled(s, l) && x < |s.sends| && TriesOK(s.sends[x], Launches(s.attempts, x))
    ensures TriesOK(Next(s, l).sends[x], Launches(Next(s, l).attempts, x))
  {
    hide AttemptOnion, ValidRoute, FreshIds, Unused, Launches, HasKeys;
    LaunchedOne(s.attempts, NewAttempt(l.x, s.sends[l.x], l.relays, l.keyOf, l.msgID, l.nacks), x);
  }

  lemma {:induction false} RunTries(states: seq<State>, labels: seq<Label>, k: nat, x: nat)
    requires IsRun(states, labels) && k <= |labels| && x < |states[k].sends|
    ensures TriesOK(states[k].sends[x], Launches(states[k].attempts, x))
  {
    hide Next, Enabled, Inv, TriesOK, Launches;
    if k > 0 {
      var s, l := states[k - 1], labels[k - 1];
      assert IsStep(s, l, states[k]);
      var g := RunInv(states, labels, k - 1);
      if x < |s.sends| {
        RunTries(states, labels, k - 1, x);
      } else {
        SendsExist(s, g);
        NoneLaunched(s.attempts, x);
      }
      StepTries(s, l, x);
    }
  }

  lemma SendsExist(s: State, g: Ghost)
    requires Inv(s, g)
    ensures forall a :: 0 <= a < |s.attempts| ==> s.attempts[a].send < |s.sends|
  {
  }

  /** Over every run a send launches at most maxRetries attempts, none for a limit of zero or less,
      and it reports ABANDON exactly after that many. */
  lemma LaunchesAtMost(states: seq<State>, labels: seq<Label>, k: nat, x: nat)
    requires IsRun(states, labels) && k <= |labels| && x < |states[k].sends|
    ensures var e, launches := states[k].sends[x], Launches(states[k].attempts, x);
      && launches <= (if e.maxRetries < 0 then 0 else e.maxRetries)
      && (e.phase == Done(Abandoned) ==> launches == if e.maxRetries < 0 then 0 else e.maxRetries)
  {
    RunTries(states, labels, k, x);
  }
}
