/**
 How a calm attempt ends.  Once it has come to rest, who opened its boxes tells what the sender heard,
 what the destination took in and which entries are left; with a reachable member in every group that
 is one acceptance and an acknowledgement.
 */
module Delivery {
  import opened Wrappers
  import opened Layers
  import opened Handler
  import opened Protocol
  import opened Invariant
  import opened Outcomes
  import opened Frames
  import opened Paths

  /** Attempt a is still being dialled for or has a thread. */
  ghost predicate Pending(s: State, a: nat)
    requires a < |s.attempts|
  {
    || (s.attempts[a].send < |s.sends| && s.sends[s.attempts[a].send].cur == Some(a)
        && s.sends[s.attempts[a].send].phase.Launching?)
    || exists t :: t in s.tasks && Carries(s.attempts[a], s.tasks[t])
  }

  /** Attempt a was launched in step j, for keys its reachable stations had, and was left in calm up
      to state k. */
  ghost predicate CalmRun(states: seq<State>, labels: seq<Label>, j: nat, k: nat, a: nat, up: set<Addr>) {
    && IsRun(states, labels) && j < k <= |labels|
    && labels[j].Launch? && a == |states[j].attempts| && a < |states[j + 1].attempts|
    && KeysCurrent(states[j + 1], states[j + 1].attempts[a], up)
    && CalmFrom(states, labels, j, k, a, up)
  }

  // ---- at rest -----------------------------------------------------------------------------

  /** Attempt a, its sender and its send are all there. */
  predicate HasSender(s: State, a: nat) {
    && a < |s.attempts| && s.attempts[a].send < |s.sends|
    && s.attempts[a].sender in s.nodes && s.attempts[a].nacks != []
  }

  function SendOf(s: State, a: nat): Send
    requires HasSender(s, a)
  {
    s.sends[s.attempts[a].send]
  }

  /** Whether the sender has the MsgID, and the first NACK identifier, in PendingACKs. */
  predicate AwaitsAck(s: State, a: nat)
    requires HasSender(s, a)
  {
    s.attempts[a].msgID in s.nodes[s.attempts[a].sender].acks
  }

  predicate AwaitsNack(s: State, a: nat)
    requires HasSender(s, a)
  {
    s.attempts[a].nacks[0] in s.nodes[s.attempts[a].sender].acks
  }

  /** After an ACK the key of the first NACK identifier stays for good. */
  predicate AfterAck(s: State, a: nat) {
    && HasSender(s, a) && !AwaitsAck(s, a) && AwaitsNack(s, a)
    && SendOf(s, a).cur == Some(a) && (SendOf(s, a).phase.Waiting? || SendOf(s, a).phase == Done(Acked))
  }

  /** A NACK has taken its key along; the MsgID goes when the send clears its keys. */
  predicate AfterNack(s: State, a: nat) {
    && HasSender(s, a) && !AwaitsNack(s, a) && (AwaitsAck(s, a) <==> HoldsKeys(SendOf(s, a), a))
    && (HoldsKeys(SendOf(s, a), a) ==> SendOf(s, a).phase.Waiting? || SendOf(s, a).phase == Clearing(false))
  }

  /** Nothing has been heard and nothing will be: the waiter waits, with both keys. */
  predicate HearsNothing(s: State, a: nat) {
    HasSender(s, a) && AwaitsAck(s, a) && AwaitsNack(s, a) && SendOf(s, a).cur == Some(a) && SendOf(s, a).phase.Waiting?
  }

  /** The onion never left; both keys go when the send clears them. */
  predicate NeverLeft(s: State, a: nat) {
    && HasSender(s, a)
    && (AwaitsAck(s, a) <==> HoldsKeys(SendOf(s, a), a)) && (AwaitsNack(s, a) <==> HoldsKeys(SendOf(s, a), a))
    && (HoldsKeys(SendOf(s, a), a) ==> SendOf(s, a).phase == Clearing(false))
  }

  /** What is left at the sender, by what it has heard. */
  predicate SenderLeft(s: State, a: nat, o: seq<Addr>, sent: seq<bool>) {
    if sent == [true] then AfterAck(s, a)
    else if sent == [false] then AfterNack(s, a)
    else if o == [] then NeverLeft(s, a)
    else HearsNothing(s, a)
  }

  /** The attempt is over; `o` opened its boxes, and nobody of the next group could be reached.  The
      entries left are those of the stations below EndLevel, at their openers. */
  ghost predicate Settled(s: State, a: nat, up: set<Addr>, o: seq<Addr>)
    requires a < |s.attempts|
  {
    var att := s.attempts[a];
    && a < |s.chans| && OpenersOK(att, up, o, None)
    && Over(att, up, o, s.chans[a].sent)
    && Accepted(s.accepted, att) == (if |o| < Hops(att) then 0 else 1)
    && EntriesStand(s, att, EndLevel(att, up, o), o)
    && SenderLeft(s, a, o, s.chans[a].sent)
  }

  lemma AtRest(s: State, a: nat, up: set<Addr>, o: seq<Addr>, lead: Option<Lead>)
    requires OnPath(s, a, up, o, lead)
    ensures a < |s.attempts| && a < |s.chans| && OpenersOK(s.attempts[a], up, o, lead)
    ensures Pending(s, a) || Settled(s, a, up, o)
    ensures Settled(s, a, up, o) || s.chans[a].sent == []
  {
    hide Inv, Path, Pending, Settled, OpenersOK;
    var g :| Inv(s, g) && Path(s, g, a, up, o, lead);
    PathEnds(s, g, a, up, o, lead);
    if Active(g.at[a].pos) {
      ThreadPending(s, g, a);
    }
  }

  lemma PathEnds(s: State, g: Ghost, a: nat, up: set<Addr>, o: seq<Addr>, lead: Option<Lead>)
    requires Inv(s, g) && Path(s, g, a, up, o, lead)
    ensures a < |s.attempts| == |s.chans| == |g.at| && OpenersOK(s.attempts[a], up, o, lead)
    ensures g.at[a].pos.Gone? ==> Settled(s, a, up, o)
    ensures g.at[a].pos.AtStart? ==> Pending(s, a)
    ensures !g.at[a].pos.Gone? ==> s.chans[a].sent == []
  {
    hide AttemptsOK, TasksOK, RelaysOK, SeenOK, AcksOK, AcceptedOK, SendsOK, EntriesStand, PosOK, ThreadAt, EndLevel,
         Unwound, KeysCurrent, Accepted, Carries;
    assert AttemptOK(s.attempts[a], g.at[a], s.chans[a], Accepted(s.accepted, s.attempts[a]));
  }

  lemma ThreadPending(s: State, g: Ghost, a: nat)
    requires Inv(s, g) && a < |s.attempts| && Active(g.at[a].pos)
    ensures Pending(s, a)
  {
    OwnerCarries(s, g, g.at[a].tid, a);
  }

  /** An attempt is over exactly when it is at no place any more. */
  lemma PendingIs(s: State, g: Ghost, a: nat)
    requires Inv(s, g) && a < |s.attempts|
    ensures Pending(s, a) <==> !g.at[a].pos.Gone?
  {
    hide TracksOK, RelaysOK, SeenOK, AcksOK, AcceptedOK, TaskAt, Carries, ValidAttempt;
    assert SendOK(s, g, s.attempts[a].send);
    if Active(g.at[a].pos) {
      ThreadPending(s, g, a);
    } else if t :| t in s.tasks && Carries(s.attempts[a], s.tasks[t]) {
      OwnerCarries(s, g, t, a);
    }
  }

  lemma NoLead(states: seq<State>, labels: seq<Label>, j: nat, k: nat, a: nat)
    requires |states| == |labels| + 1 && k <= |labels| && forall m :: j < m < k ==> a < |states[m].attempts|
    ensures FollowsFrom(states, labels, j, k, a, None)
  {
  }

  /** A calm attempt at rest is settled, and hears nothing from the network before. */
  lemma RestIsSettled(states: seq<State>, labels: seq<Label>, j: nat, k: nat, a: nat, up: set<Addr>)
    requires CalmRun(states, labels, j, k, a, up)
    ensures a < |states[k].attempts| && a < |states[k].chans| && states[k].attempts[a] == states[j + 1].attempts[a]
    ensures Pending(states[k], a) || Settled(states[k], a, up, Openers(states, labels, a, k))
    ensures Settled(states[k], a, up, Openers(states, labels, a, k)) || states[k].chans[a].sent == []
  {
    hide Next, Enabled, Init, Calm, Follows, KeysCurrent, Pending, Settled, Openers, OnPath;
    NoLead(states, labels, j, k, a);
    PathRunInv(states, labels, j, k, a, up, None);
    AtRest(states[k], a, up, Openers(states, labels, a, k), None);
    RunGrows(states, labels, j + 1, k);
  }

  // ---- every group reachable ---------------------------------------------------------------

  predicate AllMeet(att: Attempt, up: set<Addr>) {
    forall i :: 0 <= i < Stations(att) ==> Meets(Group(att, i), up)
  }

  /** Received once, the sender told so, and the traces a completed round trip leaves: every relay
      entry, at the member that opened the box, and the key of the first NACK identifier. */
  ghost predicate Delivered(s: State, a: nat, o: seq<Addr>)
    requires a < |s.attempts|
  {
    var att := s.attempts[a];
    && a < |s.chans| && s.chans[a].sent == [true] && Accepted(s.accepted, att) == 1
    && |o| == Stations(att) && (forall i :: 0 <= i < |o| ==> o[i] in Group(att, i))
    && (forall l, x :: Sized(att) && IsRelay(att, l) && x in Group(att, l) && x in s.nodes ==>
          (IdIn(att, l + 1) in s.nodes[x].relays <==> o[l] == x))
    && AfterAck(s, a)
  }

  lemma SettledDelivers(s: State, a: nat, up: set<Addr>, o: seq<Addr>)
    requires a < |s.attempts| && Settled(s, a, up, o) && AllMeet(s.attempts[a], up)
    ensures Delivered(s, a, o)
  {
    var att := s.attempts[a];
    forall l, x | Sized(att) && IsRelay(att, l) && x in Group(att, l) && x in s.nodes
      ensures IdIn(att, l + 1) in s.nodes[x].relays <==> o[l] == x
    {
      assert Involved(att, x);
      assert EntryAt(att, x, s.nodes[x].relays, l, EndLevel(att, up, o), o);
    }
  }

  /** With a reachable member in every group on the way out and back, whatever the shuffles choose
      and whatever other sends do, an attempt that has come to rest has been accepted exactly once and
      has put `true` on its channel; no NACK ever comes in between. */
  lemma AnycastDelivers(states: seq<State>, labels: seq<Label>, j: nat, k: nat, a: nat, up: set<Addr>)
    requires CalmRun(states, labels, j, k, a, up) && AllMeet(states[j + 1].attempts[a], up)
    ensures a < |states[k].attempts| && a < |states[k].chans| && states[k].attempts[a] == states[j + 1].attempts[a]
    ensures Pending(states[k], a) || Delivered(states[k], a, Openers(states, labels, a, k))
    ensures states[k].chans[a].sent == [] || Delivered(states[k], a, Openers(states, labels, a, k))
  {
    hide IsStep, Init, Calm, KeysCurrent, AllMeet, Settled, Pending, Delivered, Openers;
    RestIsSettled(states, labels, j, k, a, up);
    if Settled(states[k], a, up, Openers(states, labels, a, k)) {
      SettledDelivers(states[k], a, up, Openers(states, labels, a, k));
    }
  }
}
