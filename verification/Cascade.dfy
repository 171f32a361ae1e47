/**
 The way back after a failure.  A NACK goes to the first reachable member of the group before, in
 listed order; it comes home exactly when that is, at every hop, the member that holds the entry.
 */
module Cascade {
  import opened Wrappers
  import opened Layers
  import opened Handler
  import opened Protocol
  import opened Frames
  import opened Paths
  import opened Delivery

  /** Forward hop f reaches nobody of the next group; every group before has a reachable member, and
      the sender is reachable. */
  predicate BrokenAt(att: Attempt, up: set<Addr>, f: int) {
    && 0 <= f < Hops(att) - 1
    && att.sender in up
    && (forall i :: 0 <= i <= f ==> Meets(Group(att, i), up))
    && !Meets(Group(att, f + 1), up)
  }

  /** Between the first hop and hop f no group has two reachable members. */
  predicate OneReachable(att: Attempt, up: set<Addr>, f: int) {
    forall i, x, y ::
      0 < i < f && i < Stations(att) && x in Group(att, i) && y in Group(att, i) && x in up && y in up ==>
        x == y
  }

  /** Before hop f every box was opened by the first reachable member of its group. */
  predicate FirstsOpened(att: Attempt, up: set<Addr>, f: int, o: seq<Addr>) {
    && f <= |o| && f <= Stations(att)
    && forall i :: 0 <= i < f ==> FirstIn(Group(att, i), up) == Some(o[i])
  }

  /** The attempt is over: the sender knows, no trace is left on the way, and of its own two keys only
      the MsgID, until the send clears it. */
  ghost predicate CleanedUp(s: State, a: nat, f: int)
    requires a < |s.attempts| && a < |s.chans|
  {
    var att := s.attempts[a];
    && s.chans[a].sent == [false] && AfterNack(s, a)
    && Accepted(s.accepted, att) == 0
    && forall l, x :: Sized(att) && 0 <= l <= f && f < Hops(att) - 1 && x in Group(att, l) && x in s.nodes ==>
         IdIn(att, l + 1) !in s.nodes[x].relays
  }

  /** The NACK sent by hop m is dropped: the first reachable member of the group before is not the one
      that opened its box, while from there up to hop f they are the same. */
  predicate DroppedAt(att: Attempt, up: set<Addr>, f: int, o: seq<Addr>, m: int) {
    && 0 < m <= f < |o| <= Stations(att)
    && FirstIn(Group(att, m - 1), up) != Some(o[m - 1])
    && forall i :: m <= i < f ==> FirstIn(Group(att, i), up) == Some(o[i])
  }

  /** The entries at hops 0 to f are those below hop m, at the members that opened the boxes. */
  ghost predicate LeftBelow(s: State, att: Attempt, f: int, o: seq<Addr>, m: int) {
    forall l, x :: Sized(att) && 0 <= l <= f && f < Hops(att) - 1 && l < |o| && x in Group(att, l) && x in s.nodes ==>
      (IdIn(att, l + 1) in s.nodes[x].relays <==> l < m && o[l] == x)
  }

  /** The sender hears nothing and can only time out, with both its keys registered until then, and the
      entries below some hop stay. */
  ghost predicate Stranded(s: State, a: nat, up: set<Addr>, f: int, o: seq<Addr>)
    requires a < |s.attempts| && a < |s.chans|
  {
    var att := s.attempts[a];
    && s.chans[a].sent == [] && HearsNothing(s, a)
    && Accepted(s.accepted, att) == 0
    && exists m :: DroppedAt(att, up, f, o, m) && LeftBelow(s, att, f, o, m)
  }

  lemma {:induction false} UnwoundTo(att: Attempt, up: set<Addr>, o: seq<Addr>, i: int)
    requires 0 <= i < |o| <= Stations(att) && i < Hops(att)
    ensures var m := Unwound(att, up, o, i); if m == 0 then FirstsOpened(att, up, i, o) else DroppedAt(att, up, i, o, m)
  {
    hide Group, FirstIn;
    if i > 0 {
      UnwoundTo(att, up, o, i - 1);
    }
  }

  lemma OpenersStop(s: State, a: nat, up: set<Addr>, o: seq<Addr>, f: int)
    requires a < |s.attempts| && Settled(s, a, up, o) && BrokenAt(s.attempts[a], up, f)
    ensures |o| == f + 1
  {
  }

  lemma SettledEntries(s: State, a: nat, up: set<Addr>, o: seq<Addr>, f: int)
    requires a < |s.attempts| && Settled(s, a, up, o) && |o| == f + 1 && f < Hops(s.attempts[a]) - 1
    ensures LeftBelow(s, s.attempts[a], f, o, EndLevel(s.attempts[a], up, o))
  {
    var att := s.attempts[a];
    var m := EndLevel(att, up, o);
    forall l, x | Sized(att) && 0 <= l <= f && x in Group(att, l) && x in s.nodes
      ensures IdIn(att, l + 1) in s.nodes[x].relays <==> l < m && o[l] == x
    {
      assert Involved(att, x);
      assert EntryAt(att, x, s.nodes[x].relays, l, m, o);
    }
  }

  /** At a broken hop an attempt at rest is clean or stranded, as its openers decide. */
  lemma SettledBroken(s: State, a: nat, up: set<Addr>, o: seq<Addr>, f: int)
    requires a < |s.attempts| && Settled(s, a, up, o) && BrokenAt(s.attempts[a], up, f)
    ensures |o| == f + 1 && OpenersOK(s.attempts[a], up, o, None)
    ensures CleanedUp(s, a, f) <==> FirstsOpened(s.attempts[a], up, f, o)
    ensures !CleanedUp(s, a, f) ==> Stranded(s, a, up, f, o)
  {
    hide EntriesStand, Unwound, OpenersOK, Group, IdIn;
    OpenersStop(s, a, up, o, f);
    UnwoundTo(s.attempts[a], up, o, f);
    SettledEntries(s, a, up, o, f);
  }

  /** Wherever a calm attempt with a broken hop comes to rest: it is cleaned up if and only if, at
      every hop before f, the member that opened the box is the first reachable one in listed order;
      otherwise the entries stay and the sender can only time out. */
  lemma CleanExactly(states: seq<State>, labels: seq<Label>, j: nat, k: nat, a: nat, up: set<Addr>, f: int)
    requires CalmRun(states, labels, j, k, a, up) && BrokenAt(states[j + 1].attempts[a], up, f)
    requires a < |states[k].attempts| && !Pending(states[k], a)
    ensures a < |states[k].chans| && states[k].attempts[a] == states[j + 1].attempts[a]
    ensures var o := Openers(states, labels, a, k);
      && |o| == f + 1 && OpenersOK(states[k].attempts[a], up, o, None)
      && (CleanedUp(states[k], a, f) <==> FirstsOpened(states[k].attempts[a], up, f, o))
      && (!CleanedUp(states[k], a, f) ==> Stranded(states[k], a, up, f, o))
  {
    hide IsStep, Init, Calm, KeysCurrent, BrokenAt, Pending, CleanedUp, Stranded, FirstsOpened, Openers;
    RestIsSettled(states, labels, j, k, a, up);
    SettledBroken(states[k], a, up, Openers(states, labels, a, k), f);
  }

  lemma OnlyOneOpens(att: Attempt, up: set<Addr>, f: int, o: seq<Addr>)
    requires OneReachable(att, up, f) && OpenersOK(att, up, o, None) && 0 <= f < |o|
    ensures FirstsOpened(att, up, f, o)
  {
  }

  /** If forward hop f cannot reach its successor, the groups before it and the sender can be reached,
      and from the second group on only one member of each, an attempt that has come to rest has
      handed the sender exactly one `false`, was never accepted, and has left no PendingRelays entry
      at hops 0 to f. */
  lemma NackComesHome(states: seq<State>, labels: seq<Label>, j: nat, k: nat, a: nat, up: set<Addr>, f: int)
    requires CalmRun(states, labels, j, k, a, up)
    requires BrokenAt(states[j + 1].attempts[a], up, f) && OneReachable(states[j + 1].attempts[a], up, f)
    ensures a < |states[k].attempts| && a < |states[k].chans| && states[k].attempts[a] == states[j + 1].attempts[a]
    ensures Pending(states[k], a) || CleanedUp(states[k], a, f)
  {
    hide IsStep, Init, Calm, KeysCurrent, OneReachable, Meets, Pending, CleanedUp, Stranded, FirstsOpened, Openers;
    RestIsSettled(states, labels, j, k, a, up);
    if !Pending(states[k], a) {
      CleanExactly(states, labels, j, k, a, up, f);
      OnlyOneOpens(states[k].attempts[a], up, f, Openers(states, labels, a, k));
    }
  }
}
