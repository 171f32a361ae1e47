/**
 When the cascade can be trusted.  A NACK goes to the first reachable member of the previous group,
 which need not be the one that took the onion: with two reachable members at some hop between the
 first and the broken one there is a calm run in which it gets lost, and without there is none.
 */
module Strays {
  import opened Wrappers
  import opened Layers
  import opened Handler
  import opened Protocol
  import opened Frames
  import opened Paths
  import opened Delivery
  import opened Cascade
  import opened Progress
  import opened Endings

  /** A calm continuation of a run, with the attempt at rest in the end. */
  ghost predicate ComesToRest(states: seq<State>, labels: seq<Label>, states': seq<State>, labels': seq<Label>, j: nat,
                              a: nat, up: set<Addr>) {
    && |states'| == |labels'| + 1 && states <= states' && labels <= labels'
    && CalmRun(states', labels', j, |labels'|, a, up)
    && a < |states'[|labels'|].attempts| && a < |states'[|labels'|].chans|
    && !Pending(states'[|labels'|], a)
  }

  /** Every calm continuation that comes to rest leaves no trace. */
  ghost predicate AlwaysCleans(states: seq<State>, labels: seq<Label>, j: nat, a: nat, up: set<Addr>, f: int) {
    forall states', labels' :: ComesToRest(states, labels, states', labels', j, a, up) ==>
             CleanedUp(states'[|labels'|], a, f)
  }

  /** A reachable member of group i that is not the first. */
  predicate Second(att: Attempt, up: set<Addr>, i: int, who: Addr) {
    0 <= i < Stations(att) && who in Group(att, i) && who in up && FirstIn(Group(att, i), up) != Some(who)
  }

  lemma TwoReachable(att: Attempt, up: set<Addr>, f: int) returns (i: int, who: Addr)
    requires BrokenAt(att, up, f) && !OneReachable(att, up, f)
    ensures 0 < i < f && Second(att, up, i, who)
  {
    var x, y;
    i, x, y :| 0 < i < f && i < Stations(att) && x in Group(att, i) && y in Group(att, i) && x in up && y in up
      && x != y;
    who := if FirstIn(Group(att, i), up) == Some(x) then y else x;
  }

  /** If the broken hop's way back leads through a group with two reachable members, the run goes on,
      calm, to a state where the attempt is stranded, whatever has been sent elsewhere. */
  lemma CanStrand(states: seq<State>, labels: seq<Label>, j: nat, a: nat, up: set<Addr>, f: int, i: int, who: Addr)
    returns (states': seq<State>, labels': seq<Label>)
    requires CalmRun(states, labels, j, j + 1, a, up) && |labels| == j + 1 && up <= states[j + 1].nodes.Keys
    requires BrokenAt(states[j + 1].attempts[a], up, f) && 0 < i < f && Second(states[j + 1].attempts[a], up, i, who)
    ensures ComesToRest(states, labels, states', labels', j, a, up)
    ensures states'[|labels'|].attempts[a] == states[j + 1].attempts[a]
    ensures var o := Openers(states', labels', a, |labels'|);
      && |o| == f + 1 && OpenersOK(states[j + 1].attempts[a], up, o, None) && o[i] == who
      && Stranded(states'[|labels'|], a, up, f, o)
  {
    hide IsStep, Init, Calm, Follows, KeysCurrent, Pending, CleanedUp, Stranded, Openers, MovesOf, MoveLimit, OnPath;
    var lead := Some(Lead(i, who));
    states', labels' := LeadsToRest(states, labels, j, a, up, lead);
    CleanExactly(states', labels', j, |labels'|, a, up, f);
    PathRunInv(states', labels', j, |labels'|, a, up, lead);
    AtRest(states'[|labels'|], a, up, Openers(states', labels', a, |labels'|), lead);
  }

  /** The exact condition, known at the launch once it is known who answers: the NACK of a broken hop f
      always comes home and cleans up if and only if none of the groups 1 to f - 1 has two reachable
      members. */
  lemma CleansExactlyWhen(states: seq<State>, labels: seq<Label>, j: nat, a: nat, up: set<Addr>, f: int)
    requires CalmRun(states, labels, j, j + 1, a, up) && |labels| == j + 1 && up <= states[j + 1].nodes.Keys
    requires BrokenAt(states[j + 1].attempts[a], up, f)
    ensures AlwaysCleans(states, labels, j, a, up, f) <==> OneReachable(states[j + 1].attempts[a], up, f)
  {
    hide IsStep, Init, Calm, KeysCurrent, Pending, CleanedUp, Stranded, Openers, BrokenAt, OneReachable, Second;
    var att := states[j + 1].attempts[a];
    if OneReachable(att, up, f) {
      forall states', labels' | ComesToRest(states, labels, states', labels', j, a, up)
        ensures CleanedUp(states'[|labels'|], a, f)
      {
        NackComesHome(states', labels', j, |labels'|, a, up, f);
      }
    } else {
      var i, who := TwoReachable(att, up, f);
      var states', labels' := CanStrand(states, labels, j, a, up, f, i, who);
      NotBoth(states'[|labels'|], a, up, f, Openers(states', labels', a, |labels'|));
    }
  }

  lemma NotBoth(s: State, a: nat, up: set<Addr>, f: int, o: seq<Addr>)
    requires a < |s.attempts| && a < |s.chans| && Stranded(s, a, up, f, o)
    ensures !CleanedUp(s, a, f)
  {
  }

  // ---- one that gets lost ------------------------------------------------------------------

  const S: Addr := "s:1"
  const A: Addr := "a:1"
  const B: Addr := "b:1"
  const C: Addr := "c:1"
  const D: Addr := "d:1"
  const E: Addr := "e:1"

  /** Everybody but the destination answers. */
  const UP: set<Addr> := {S, A, B, C, D}

  const RELAYS: seq<seq<Addr>> := [[A], [B, C], [D]]

  const KEYS: map<Addr, Key> := map[S := S, A := A, B := B, C := C, D := D, E := E]

  const EMPTY: State := State(map a: Addr | a in KEYS :: BlankNode(a), [], [], map[], 0, [], [])

  const SENDING: Label := NewSend(S, E, "hello", "", 3)

  const LAUNCHING: Label := Launch(0, RELAYS, KEYS, "m", ["n0", "n1", "n2", "n3"])

  lemma RouteIsValid()
    ensures ValidRoute(RELAYS, S) && FreshIds("m", ["n0", "n1", "n2", "n3"])
  {
  }

  lemma FirstTwoSteps() returns (states: seq<State>)
    ensures |states| == 3 && states[0] == EMPTY && states[2].nodes.Keys == KEYS.Keys
    ensures IsRun(states, [SENDING, LAUNCHING])
    ensures states[1].attempts == [] && |states[2].attempts| == 1
    ensures var att := states[2].attempts[0];
      att.relays == RELAYS && att.sender == S && att.dest == E && att.keyOf == KEYS
        && att.nacks == ["n0", "n1", "n2", "n3"] && Sized(att)
    ensures forall x :: x in KEYS ==> states[2].nodes[x].key == x
  {
    hide ValidRoute, FreshIds, AttemptOnion;
    RouteIsValid();
    states := [EMPTY, Next(EMPTY, SENDING), Next(Next(EMPTY, SENDING), LAUNCHING)];
  }

  lemma {:induction false} SameNodesAlong(states: seq<State>, labels: seq<Label>, j: nat, k: nat)
    requires IsRun(states, labels) && j <= k <= |labels|
    ensures states[k].nodes.Keys == states[j].nodes.Keys
    decreases k
  {
    hide Enabled, Next, Init;
    if j < k {
      SameNodesAlong(states, labels, j, k - 1);
      assert IsStep(states[k - 1], labels[k - 1], states[k]);
      NodesStay(states[k - 1], labels[k - 1]);
    }
  }

  lemma BrokenHere(att: Attempt)
    requires att.relays == RELAYS && att.sender == S && att.dest == E
    ensures BrokenAt(att, UP, 2) && Second(att, UP, 1, C)
  {
  }

  lemma CalmBegins(states: seq<State>)
    requires |states| == 3 && states[0] == EMPTY && IsRun(states, [SENDING, LAUNCHING])
    requires states[1].attempts == [] && |states[2].attempts| == 1 && states[2].attempts[0].keyOf == KEYS
    requires forall x :: x in KEYS ==> x in states[2].nodes && states[2].nodes[x].key == x
    ensures CalmRun(states, [SENDING, LAUNCHING], 1, 2, 0, UP)
  {
    hide IsStep, Calm, Involved;
  }

  lemma StrandedHere(s: State, o: seq<Addr>)
    requires |s.attempts| >= 1 && |s.chans| >= 1 && s.nodes.Keys == KEYS.Keys
    requires var att := s.attempts[0];
      && att.relays == RELAYS && att.sender == S && att.dest == E && att.nacks == ["n0", "n1", "n2", "n3"] && Sized(att)
      && OpenersOK(att, UP, o, None) && |o| == 3 && o[1] == C
    requires Stranded(s, 0, UP, 2, o)
    ensures s.chans[0].sent == []
    ensures A in s.nodes && B in s.nodes && C in s.nodes
    ensures "n1" in s.nodes[A].relays && "n2" in s.nodes[C].relays && "n2" !in s.nodes[B].relays
  {
    var att := s.attempts[0];
    assert Group(att, 0) == [A] && Group(att, 1) == [B, C];
    assert o[0] in Group(att, 0) && o[0] == A;
    var m :| DroppedAt(att, UP, 2, o, m) && LeftBelow(s, att, 2, o, m);
    assert FirstIn(Group(att, 0), UP) == Some(A);
    assert m == 2;
    assert IdIn(att, 1) == "n1" && IdIn(att, 2) == "n2";
    assert A in Group(att, 0) && B in Group(att, 1) && C in Group(att, 1);
  }

  /** A calm run on the route A, then B or C, then D, with the destination offline, that ends with the
      sender told nothing and two entries left: C took the onion, the NACK went to B. */
  lemma NackGetsLost() returns (states: seq<State>, labels: seq<Label>)
    ensures CalmRun(states, labels, 1, |labels|, 0, UP)
    ensures |states| == |labels| + 1 && states[0] == EMPTY && |labels| >= 2 && labels[0] == SENDING
            && labels[1] == LAUNCHING
    ensures |states[|labels|].attempts| >= 1 && |states[|labels|].chans| >= 1 && !Pending(states[|labels|], 0)
    ensures var s := states[|labels|];
      && s.chans[0].sent == []
      && A in s.nodes && B in s.nodes && C in s.nodes
      && "n1" in s.nodes[A].relays && "n2" in s.nodes[C].relays && "n2" !in s.nodes[B].relays
  {
    hide IsStep, Init, Calm, KeysCurrent, Pending, Stranded, Openers, BrokenAt, Second, OpenersOK;
    var begin := FirstTwoSteps();
    var att := begin[2].attempts[0];
    BrokenHere(att);
    CalmBegins(begin);
    states, labels := CanStrand(begin, [SENDING, LAUNCHING], 1, 0, UP, 2, 1, C);
    SameNodesAlong(states, labels, 2, |labels|);
    StrandedHere(states[|labels|], Openers(states, labels, 0, |labels|));
  }
}
