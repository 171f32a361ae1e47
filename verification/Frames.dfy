/**
 One attempt among the others: what a step that is not its own leaves alone.
 */
module Frames {
  import opened Wrappers
  import opened Layers
  import opened Fragments
  import opened Handler
  import opened Protocol
  import opened Attempts
  import opened Invariant
  import opened Advance
  import opened Steps
  import opened Preservation
  import opened Outcomes

  // ---- what a handler step touches ---------------------------------------------------------

  /** The one key of PendingACKs or PendingRelays a step may change. */
  function Touched(t: Task): string {
    match t
    case Opened(_, layer) => if ParseIds(layer.MsgID).Some? then ParseIds(layer.MsgID).value.1 else layer.MsgID
    case Unregister(_, layer) => if ParseIds(layer.MsgID).Some? then ParseIds(layer.MsgID).value.1 else layer.MsgID
    case _ => Shown(t)
  }

  predicate SameKey(nd: NodeState, nd': NodeState, k: Id) {
    && (k in nd.relays <==> k in nd'.relays)
    && (k in nd.acks <==> k in nd'.acks)
    && (k in nd.acks ==> nd.acks[k] == nd'.acks[k])
  }

  lemma ReceiveTouches(nd: NodeState, t: Task, now: int, k: Id)
    requires t.Packet? && k != Touched(t)
    ensures SameKey(nd, Receive(t.dst, nd, t.msg, now).node, k)
  {
    hide ParseAddresses, ParseIds;
  }

  lemma StepTouches(nd: NodeState, t: Task, ok: bool, order: seq<Addr>, now: int, k: Id)
    requires k != Touched(t)
    ensures SameKey(nd, StepTask(nd, t, ok, order, now).node, k)
  {
    hide ParseAddresses, ParseIds, Deliver, Receive, TrySend;
    if t.Packet? {
      ReceiveTouches(nd, t, now, k);
    }
  }

  /** A thread touches identifiers of its own attempt, or none at all. */
  lemma TouchesOwn(att: Attempt, p: Pos, t: Task, bt: Attempt)
    requires ValidAttempt(att) && TaskAt(att, p, t) && ValidAttempt(bt) && IdsOf(att) !! IdsOf(bt)
    ensures Touched(t) !in IdsOf(bt)
  {
    hide BoxOK, ValidRoute, Back, JoinAddresses, ParseAddresses;
    ShownIs(att, p, t);
    IdInOwn(att, p.i);
    assert att.msgID in IdsOf(att);
    if IsRelay(att, p.i) {
      RelayLayerReads(att, p.i);
      IdInOwn(att, p.i + 1);
      PairIdHasColon(IdIn(att, p.i), IdIn(att, p.i + 1));
      IdsColonFree(bt, MsgIdAt(att, p.i));
    } else if p.Opening? {
      NoPair(att.msgID);
    }
  }

  lemma IdsColonFree(bt: Attempt, k: string)
    requires ValidAttempt(bt)
    ensures k in IdsOf(bt) ==> ColonFree(k)
  {
  }

  lemma NoPair(msgID: Id)
    requires ColonFree(msgID)
    ensures ParseIds(msgID).None?
  {
  }

  // ---- steps of others ---------------------------------------------------------------------

  predicate Involved(att: Attempt, x: Addr) {
    exists i :: 0 <= i < Stations(att) && x in Group(att, i)
  }

  /** The attempt's own step: its thread runs, its sender dials for it, or its keys are cleared. */
  ghost predicate OwnStep(s: State, l: Label, a: nat)
    requires a < |s.attempts|
  {
    || (l.Run? && l.t in s.tasks && Carries(s.attempts[a], s.tasks[l.t]))
    || (l.Dial? && l.x < |s.sends| && s.sends[l.x].cur == Some(a))
    || (l.Clear? && l.x < |s.sends| && s.sends[l.x].cur == Some(a))
  }

  /** Its thread is not lost and none of its stations crashes or changes its key. */
  ghost predicate Spared(s: State, l: Label, a: nat)
    requires a < |s.attempts|
  {
    && (l.Lose? && l.t in s.tasks ==> !Carries(s.attempts[a], s.tasks[l.t]))
    && (l.Crash? || l.Rotate? ==> !Involved(s.attempts[a], l.a))
  }

  /** Nothing of attempt a has changed, at its stations, on its channel, in its thread and in what
      was accepted of it. */
  ghost predicate Untouched(s: State, g: Ghost, s': State, g': Ghost, a: nat) {
    && a < |s.attempts| == |g.at| == |s.chans| && s.attempts <= s'.attempts && |s'.attempts| == |g'.at| == |s'.chans|
    && s'.chans[a].sent == s.chans[a].sent
    && Accepted(s'.accepted, s.attempts[a]) == Accepted(s.accepted, s.attempts[a])
    && g'.at[a] == g.at[a]
    && (Active(g.at[a].pos) ==>
          g.at[a].tid in s.tasks && g.at[a].tid in s'.tasks && s'.tasks[g.at[a].tid] == s.tasks[g.at[a].tid])
    && s.nodes.Keys <= s'.nodes.Keys
    && (forall x, k :: x in s.nodes && Involved(s.attempts[a], x) && k in IdsOf(s.attempts[a]) ==>
          SameKey(s.nodes[x], s'.nodes[x], k))
    && KeysStay(s, s', s.attempts[a])
  }

  /** No station of the attempt has changed its key pair. */
  ghost predicate KeysStay(s: State, s': State, att: Attempt) {
    forall x :: x in s.nodes && Involved(att, x) ==> x in s'.nodes && s'.nodes[x].key == s.nodes[x].key
  }

  lemma SparedKeys(s: State, l: Label, a: nat)
    requires Enabled(s, l) && a < |s.attempts| && Spared(s, l, a)
    ensures KeysStay(s, Next(s, l), s.attempts[a])
  {
    forall x | x in s.nodes && Involved(s.attempts[a], x)
      ensures x in Next(s, l).nodes && Next(s, l).nodes[x].key == s.nodes[x].key
    {
      StepKey(s, l, x);
    }
  }

  /** What the invariant says about two attempts when a thread of one of them steps. */
  lemma OtherFacts(s: State, g: Ghost, t: nat, a: nat)
    requires Inv(s, g) && t in s.tasks && a < |s.attempts| && g.owner[t] != a
    ensures |g.at| == |s.attempts| == |s.chans| && t in g.owner && g.owner[t] < |s.attempts|
    ensures var b := g.owner[t];
      && ValidAttempt(s.attempts[a]) && ValidAttempt(s.attempts[b]) && IdsOf(s.attempts[b]) !! IdsOf(s.attempts[a])
      && s.attempts[b].msgID != s.attempts[a].msgID && TaskAt(s.attempts[b], g.at[b].pos, s.tasks[t])
    ensures Active(g.at[a].pos) ==> g.at[a].tid in s.tasks && g.at[a].tid != t && g.at[a].tid < s.nextTask
  {
    hide TracksOK, RelaysOK, SeenOK, AcksOK, AcceptedOK, SendsOK, TaskAt, ValidAttempt;
    OtherMsgIds(s, a);
    assert Active(g.at[a].pos) ==> g.at[a].tid in s.tasks && g.owner[g.at[a].tid] == a;
  }

  lemma OtherRun(s: State, g: Ghost, l: Label, a: nat) returns (g': Ghost)
    requires Inv(s, g) && Enabled(s, l) && l.Run? && a < |s.attempts| && g.owner[l.t] != a
    ensures Inv(Next(s, l), g') && Untouched(s, g, Next(s, l), g', a)
  {
    hide Inv, Next, CanMove, Here, TaskAt, ValidAttempt, SameKey, KeysStay;
    OtherFacts(s, g, l.t, a);
    HereHolds(s, g, l.t);
    var x, b := Place(s.tasks[l.t]), g.owner[l.t];
    RunCanMove(s, l.t, l.ok, l.order, l.now, x, b, g.at[b]);
    var ga';
    g', ga' := MoveKeeps(s, g, Next(s, l), l.t, x, b);
    OtherRunNodes(s, l, x, s.attempts[b], g.at[b].pos, s.attempts[a]);
    OtherRunRest(s, l, x, b, a, g.at[b], g.at[a]);
    SparedKeys(s, l, a);
  }

  lemma OtherRunNodes(s: State, l: Label, x: Addr, bt: Attempt, p: Pos, att: Attempt)
    requires l.Run? && Enabled(s, l) && x == Place(s.tasks[l.t])
    requires ValidAttempt(bt) && TaskAt(bt, p, s.tasks[l.t]) && ValidAttempt(att) && IdsOf(bt) !! IdsOf(att)
    ensures s.nodes.Keys <= Next(s, l).nodes.Keys
    ensures forall y, k :: y in s.nodes && k in IdsOf(att) ==> SameKey(s.nodes[y], Next(s, l).nodes[y], k)
  {
    hide BoxOK, ValidRoute, FreshIds, LayerAt, TaskAt, Touched, ValidAttempt, StepTask, IdsOf;
    TouchesOwn(bt, p, s.tasks[l.t], att);
    forall y, k | y in s.nodes && k in IdsOf(att)
      ensures SameKey(s.nodes[y], Next(s, l).nodes[y], k)
    {
      StepTouches(s.nodes[x], s.tasks[l.t], l.ok, l.order, l.now, k);
    }
  }

  lemma OtherRunRest(s: State, l: Label, x: Addr, b: nat, a: nat, gb: Track, ga: Track)
    requires l.Run? && Enabled(s, l) && x == Place(s.tasks[l.t])
    requires a != b && a < |s.chans| == |s.attempts| && b < |s.attempts| && s.attempts[b].msgID != s.attempts[a].msgID
    requires CanMove(s, Next(s, l), l.t, x, b, gb)
    requires Active(ga.pos) ==> ga.tid in s.tasks && ga.tid != l.t && ga.tid < s.nextTask
    ensures var s' := Next(s, l);
      && s'.attempts == s.attempts && |s'.chans| == |s.chans| && s'.chans[a].sent == s.chans[a].sent
      && Accepted(s'.accepted, s.attempts[a]) == Accepted(s.accepted, s.attempts[a])
      && (Active(ga.pos) ==> ga.tid in s'.tasks && s'.tasks[ga.tid] == s.tasks[ga.tid])
  {
  }

  lemma OtherQuiet(s: State, g: Ghost, l: Label, a: nat) returns (g': Ghost)
    requires Inv(s, g) && Enabled(s, l) && !l.Run? && a < |s.attempts| && !OwnStep(s, l, a) && Spared(s, l, a)
    ensures Inv(Next(s, l), g') && Untouched(s, g, Next(s, l), g', a)
  {
    QuietInv(s, g, l);
    g' := QuietGhost(s, g, l);
    assert Active(g.at[a].pos) ==> g.at[a].tid in s.tasks && g.owner[g.at[a].tid] == a;
    if Active(g.at[a].pos) {
      OwnerCarries(s, g, g.at[a].tid, a);
      PlaceInvolved(s.attempts[a], g.at[a].pos, s.tasks[g.at[a].tid]);
    }
    assert s.attempts[a].sender in Group(s.attempts[a], Stations(s.attempts[a]) - 1);
    assert l.Dial? || l.Consume? ==> SendOK(s, g, l.x);
    QuietTrack(s, g, l, a);
    QuietNodes(s, g, l, a);
    SparedKeys(s, l, a);
  }

  lemma PlaceInvolved(att: Attempt, p: Pos, t: Task)
    requires ValidAttempt(att) && TaskAt(att, p, t)
    ensures Involved(att, Place(t))
  {
    if p.NackFlying? {
      if p.i == 0 || p.i == Hops(att) {
        assert Place(t) in Group(att, Stations(att) - 1);
      } else {
        assert Place(t) in Group(att, p.i - 1);
      }
    } else {
      assert Place(t) in Group(att, p.i);
    }
  }

  lemma QuietTrack(s: State, g: Ghost, l: Label, a: nat)
    requires Enabled(s, l) && !l.Run? && a < |s.attempts| == |g.at| == |s.chans| && !OwnStep(s, l, a) && Spared(s, l, a)
    requires l.Dial? ==> SendOK(s, g, l.x)
    requires l.Consume? ==> SendOK(s, g, l.x)
    requires Active(g.at[a].pos) ==>
               g.at[a].tid in s.tasks && g.at[a].tid < s.nextTask && Carries(s.attempts[a], s.tasks[g.at[a].tid])
               && Involved(s.attempts[a], Place(s.tasks[g.at[a].tid]))
    requires Involved(s.attempts[a], s.attempts[a].sender)
    ensures var s' := Next(s, l);
      var g' := QuietGhost(s, g, l);
      && s.attempts <= s'.attempts && |s'.attempts| == |g'.at| == |s'.chans|
      && s'.accepted == s.accepted
      && s'.chans[a].sent == s.chans[a].sent && g'.at[a] == g.at[a]
      && (Active(g.at[a].pos) ==> g.at[a].tid in s'.tasks && s'.tasks[g.at[a].tid] == s.tasks[g.at[a].tid])
  {
    hide RunTask, NewAttempt, AttemptOnion, TaskAt;
  }

  lemma QuietNodes(s: State, g: Ghost, l: Label, a: nat)
    requires Inv(s, g) && Enabled(s, l) && !l.Run? && a < |s.attempts| && !OwnStep(s, l, a) && Spared(s, l, a)
    ensures s.nodes.Keys <= Next(s, l).nodes.Keys
    ensures forall x, k :: x in s.nodes && Involved(s.attempts[a], x) && k in IdsOf(s.attempts[a]) ==>
              SameKey(s.nodes[x], Next(s, l).nodes[x], k)
  {
    if l.Launch? {
      LaunchNodesKept(s, l, s.attempts[a]);
    } else if l.Clear? {
      var c := s.sends[l.x].cur.value;
      assert IdsOf(s.attempts[a]) !! IdsOf(s.attempts[c]);
      assert Sized(s.attempts[c]);
      ClearNodesKept(s, l, s.attempts[a], s.attempts[c]);
    } else {
      RestNodesKept(s, l, s.attempts[a]);
    }
  }

  lemma LaunchNodesKept(s: State, l: Label, att: Attempt)
    requires l.Launch? && Enabled(s, l) && att in s.attempts
    ensures s.nodes.Keys <= Next(s, l).nodes.Keys
    ensures forall x, k :: x in s.nodes && k in IdsOf(att) ==> SameKey(s.nodes[x], Next(s, l).nodes[x], k)
  {
    hide NewAttempt, AttemptOnion, ValidRoute;
    assert forall k :: k in IdsOf(att) ==> k != l.msgID && k != l.nacks[0];
  }

  lemma ClearNodesKept(s: State, l: Label, att: Attempt, ct: Attempt)
    requires l.Clear? && Enabled(s, l) && ct == s.attempts[s.sends[l.x].cur.value] && Sized(ct)
             && IdsOf(att) !! IdsOf(ct)
    ensures s.nodes.Keys <= Next(s, l).nodes.Keys
    ensures forall x, k :: x in s.nodes && k in IdsOf(att) ==> SameKey(s.nodes[x], Next(s, l).nodes[x], k)
  {
    assert ct.msgID in IdsOf(ct) && ct.nacks[0] in IdsOf(ct);
  }

  lemma RestNodesKept(s: State, l: Label, att: Attempt)
    requires Enabled(s, l) && !l.Run? && !l.Launch? && !l.Clear? && (l.Crash? || l.Rotate? ==> !Involved(att, l.a))
    ensures s.nodes.Keys <= Next(s, l).nodes.Keys
    ensures forall x, k :: x in s.nodes && Involved(att, x) && k in IdsOf(att) ==>
              SameKey(s.nodes[x], Next(s, l).nodes[x], k)
  {
  }
}
