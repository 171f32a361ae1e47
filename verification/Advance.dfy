/**
 One thread moves: if the step is right for its own attempt and its own node, the whole invariant
 survives it.
 */
module Advance {
  import opened Wrappers
  import opened Layers
  import opened Handler
  import opened Protocol
  import opened Attempts
  import opened Invariant

  // ---- what a thread may do, part by part --------------------------------------------------

  ghost predicate RelayMoves(att: Attempt, ga': Track, x: Addr, was: map<Id, Nackstruct>, now: map<Id, Nackstruct>) {
    forall k :: k in now ==>
      (k in was && was[k] == now[k]) || exists i :: EntryOf(att, i, x, k, now[k]) && Registered(ga', i)
  }

  ghost predicate SeenMoves(att: Attempt, ga': Track, was: map<string, int>, now: map<string, int>) {
    forall m :: m in now ==> m in was || exists i :: SeenOf(att, i, m) && i < ga'.top
  }

  predicate AckMoves(was: map<Id, nat>, now: map<Id, nat>) {
    forall k :: k in now ==> k in was && was[k] == now[k]
  }

  ghost predicate TrackMoves(ga: Track, ga': Track) {
    && ga.top <= ga'.top
    && (forall i :: Registered(ga, i) ==> Registered(ga', i))
    && !ga'.pos.AtStart?
  }

  predicate NextFits(att: Attempt, ga': Track, nextTask: nat, next: seq<Task>) {
    if next == [] then ga'.pos.Gone?
    else |next| == 1 && Active(ga'.pos) && ga'.tid == nextTask && Sized(att) && TaskAt(att, ga'.pos, next[0])
  }

  ghost predicate ChanMoves(ch: Chan, ch': Chan) {
    ch' == ch || (ch.sent == [] && exists v :: ch' == Chan(Some(v), [v]))
  }

  /** The bookkeeping after thread t of attempt a has moved. */
  function MovedGhost(g: Ghost, t: nat, nextTask: nat, next: seq<Task>, a: nat, ga': Track): Ghost
    requires a < |g.at|
  {
    Ghost(g.at[a := ga'], if next == [] then g.owner - {t} else (g.owner - {t})[nextTask := a])
  }

  // ---- part by part ------------------------------------------------------------------------

  lemma MovedTasks(s: State, g: Ghost, s': State, t: nat, next: seq<Task>, a: nat, ga': Track)
    requires TasksOK(s, g) && t in s.tasks && g.owner[t] == a
    requires s'.attempts == s.attempts && s'.nextTask == s.nextTask + 1
    requires s'.tasks == ReplaceTask(s.tasks, s.nextTask, t, next)
    requires NextFits(s.attempts[a], ga', s.nextTask, next)
    ensures TasksOK(s', MovedGhost(g, t, s.nextTask, next, a, ga'))
  {
    hide TaskAt;
    var g' := MovedGhost(g, t, s.nextTask, next, a, ga');
    assert g'.owner.Keys == s'.tasks.Keys;
    forall u | u in s'.tasks
      ensures u < s'.nextTask && g'.owner[u] < |s'.attempts| && g'.at[g'.owner[u]].tid == u
      ensures Active(g'.at[g'.owner[u]].pos) && TaskAt(s'.attempts[g'.owner[u]], g'.at[g'.owner[u]].pos, s'.tasks[u])
    {
      if u != s.nextTask {
        assert u in s.tasks && u != t && g'.owner[u] == g.owner[u];
        assert g.owner[u] != a;
      }
    }
    forall b | 0 <= b < |s'.attempts| && Active(g'.at[b].pos)
      ensures g'.at[b].tid in s'.tasks && g'.owner[g'.at[b].tid] == b
    {
      if b != a {
        assert g.at[b].tid in s.tasks && g.owner[g.at[b].tid] == b;
        assert g.at[b].tid != t && g.at[b].tid != s.nextTask;
      }
    }
  }

  lemma MovedTracks(s: State, g: Ghost, s': State, g': Ghost, a: nat, ga': Track, ch': Chan, accepts: bool)
    requires TracksOK(s, g) && a < |s.attempts|
    requires s'.attempts == s.attempts && s'.chans == s.chans[a := ch'] && g'.at == g.at[a := ga']
    requires s'.accepted == if accepts then s.accepted + [AcceptOf(s.attempts[a])] else s.accepted
    requires forall b :: 0 <= b < |s.attempts| && b != a ==> s.attempts[b].msgID != s.attempts[a].msgID
    requires AttemptOK(s.attempts[a], ga', ch', Accepted(s.accepted, s.attempts[a]) + if accepts then 1 else 0)
    ensures TracksOK(s', g')
  {
    forall b | 0 <= b < |s.attempts|
      ensures AttemptOK(s'.attempts[b], g'.at[b], s'.chans[b], Accepted(s'.accepted, s'.attempts[b]))
    {
      if b != a {
        assert Accepted(s'.accepted, s.attempts[b]) == Accepted(s.accepted, s.attempts[b]);
      }
    }
  }

  lemma KnownEntryKept(s: State, g: Ghost, s': State, g': Ghost, x: Addr, k: Id, v: Nackstruct)
    requires |g.at| == |s.attempts| <= |s'.attempts| == |g'.at|
    requires s.attempts <= s'.attempts
    requires forall b, i :: 0 <= b < |s.attempts| && Registered(g.at[b], i) ==> Registered(g'.at[b], i)
    requires KnownEntry(s, g, x, k, v)
    ensures KnownEntry(s', g', x, k, v)
  {
    var b, i :| 0 <= b < |s.attempts| && EntryOf(s.attempts[b], i, x, k, v) && Registered(g.at[b], i);
    assert EntryOf(s'.attempts[b], i, x, k, v) && Registered(g'.at[b], i);
  }

  lemma KnownMsgKept(s: State, g: Ghost, s': State, g': Ghost, m: string)
    requires |g.at| == |s.attempts| <= |s'.attempts| == |g'.at|
    requires s.attempts <= s'.attempts
    requires forall b :: 0 <= b < |s.attempts| ==> g.at[b].top <= g'.at[b].top
    requires KnownMsg(s, g, m)
    ensures KnownMsg(s', g', m)
  {
    var b, i :| 0 <= b < |s.attempts| && SeenOf(s.attempts[b], i, m) && i < g.at[b].top;
    assert SeenOf(s'.attempts[b], i, m) && i < g'.at[b].top;
  }

  lemma MovedRelays(s: State, g: Ghost, s': State, g': Ghost, x: Addr, nd': NodeState, a: nat, ga': Track)
    requires |g.at| == |s.attempts| && RelaysOK(s, g) && a < |s.attempts| && x in s.nodes
    requires s'.attempts == s.attempts && s'.nodes == s.nodes[x := nd'] && g'.at == g.at[a := ga']
    requires TrackMoves(g.at[a], ga')
    requires RelayMoves(s.attempts[a], ga', x, s.nodes[x].relays, nd'.relays)
    ensures RelaysOK(s', g')
  {
    forall y, k | y in s'.nodes && k in s'.nodes[y].relays
      ensures KnownEntry(s', g', y, k, s'.nodes[y].relays[k])
    {
      if k in s.nodes[y].relays && s.nodes[y].relays[k] == s'.nodes[y].relays[k] {
        KnownEntryKept(s, g, s', g', y, k, s.nodes[y].relays[k]);
      } else {
        var i :| EntryOf(s.attempts[a], i, x, k, nd'.relays[k]) && Registered(ga', i);
        assert EntryOf(s'.attempts[a], i, y, k, s'.nodes[y].relays[k]) && Registered(g'.at[a], i);
      }
    }
  }

  lemma MovedSeen(s: State, g: Ghost, s': State, g': Ghost, x: Addr, nd': NodeState, a: nat, ga': Track)
    requires |g.at| == |s.attempts| && SeenOK(s, g) && a < |s.attempts| && x in s.nodes
    requires s'.attempts == s.attempts && s'.nodes == s.nodes[x := nd'] && g'.at == g.at[a := ga']
    requires g.at[a].top <= ga'.top
    requires SeenMoves(s.attempts[a], ga', s.nodes[x].seen, nd'.seen)
    ensures SeenOK(s', g')
  {
    forall y, m | y in s'.nodes && m in s'.nodes[y].seen
      ensures KnownMsg(s', g', m)
    {
      if m in s.nodes[y].seen {
        KnownMsgKept(s, g, s', g', m);
      } else {
        var i :| SeenOf(s.attempts[a], i, m) && i < ga'.top;
        assert SeenOf(s'.attempts[a], i, m) && i < g'.at[a].top;
      }
    }
  }

  lemma MovedAcks(s: State, s': State, x: Addr, nd': NodeState)
    requires AcksOK(s) && x in s.nodes && s'.attempts == s.attempts && s'.nodes == s.nodes[x := nd']
    requires AckMoves(s.nodes[x].acks, nd'.acks)
    ensures AcksOK(s')
  {
  }

  lemma MovedAccepted(s: State, s': State, a: nat, accepts: bool)
    requires AcceptedOK(s) && a < |s.attempts| && s'.attempts == s.attempts
    requires s'.accepted == if accepts then s.accepted + [AcceptOf(s.attempts[a])] else s.accepted
    ensures AcceptedOK(s')
  {
    forall m | m in s'.accepted
      ensures KnownFinal(s', m)
    {
      if m in s.accepted {
        assert KnownFinal(s, m);
        var b :| 0 <= b < |s.attempts| && AcceptOf(s.attempts[b]) == m;
        assert AcceptOf(s'.attempts[b]) == m;
      } else {
        assert AcceptOf(s'.attempts[a]) == m;
      }
    }
  }

  lemma MovedSends(s: State, g: Ghost, s': State, g': Ghost, x: Addr, nd': NodeState, a: nat, ga': Track, ch': Chan)
    requires |g.at| == |s.attempts| == |s.chans| && SendsOK(s, g) && a < |s.attempts| && x in s.nodes
    requires s'.attempts == s.attempts && s'.nodes == s.nodes[x := nd'] && s'.chans == s.chans[a := ch']
             && s'.sends == s.sends
    requires g'.at == g.at[a := ga'] && Active(g.at[a].pos) && !ga'.pos.AtStart?
    requires s.chans[a].sent == [] && ChanMoves(s.chans[a], ch')
    ensures SendsOK(s', g')
  {
    forall y | 0 <= y < |s'.sends|
      ensures SendOK(s', g', y)
    {
      assert SendOK(s, g, y);
    }
  }

  // ---- together ----------------------------------------------------------------------------

  /** The state after thread t of attempt a has moved at node x. */
  ghost predicate IsMove(s: State, s': State, t: nat, x: Addr, nd': NodeState, next: seq<Task>, a: nat, ch': Chan,
                         accepts: bool)
    requires a < |s.chans| && a < |s.attempts|
  {
    s' == s.(nodes := s.nodes[x := nd'],
             tasks := ReplaceTask(s.tasks, s.nextTask, t, next),
             nextTask := s.nextTask + 1,
             chans := s.chans[a := ch'],
             accepted := if accepts then s.accepted + [AcceptOf(s.attempts[a])] else s.accepted)
  }

  /** Everything asked of a step, about its own attempt, channel and node alone. */
  ghost predicate GoodMove(att: Attempt, ga: Track, ga': Track, ch: Chan, ch': Chan, x: Addr, nd: NodeState,
                           nd': NodeState, nextTask: nat, next: seq<Task>, count: nat, accepts: bool) {
    && RelayMoves(att, ga', x, nd.relays, nd'.relays)
    && SeenMoves(att, ga', nd.seen, nd'.seen)
    && AckMoves(nd.acks, nd'.acks)
    && TrackMoves(ga, ga')
    && NextFits(att, ga', nextTask, next)
    && ChanMoves(ch, ch')
    && AttemptOK(att, ga', ch', count + if accepts then 1 else 0)
  }

  lemma ActiveChan(att: Attempt, ga: Track, ch: Chan, count: nat)
    requires AttemptOK(att, ga, ch, count) && Active(ga.pos)
    ensures ch == Chan(None, [])
  {
  }

  lemma OtherMsgIds(s: State, a: nat)
    requires AttemptsOK(s) && a < |s.attempts|
    ensures forall b :: 0 <= b < |s.attempts| && b != a ==> s.attempts[b].msgID != s.attempts[a].msgID
  {
    forall b | 0 <= b < |s.attempts| && b != a
      ensures s.attempts[b].msgID != s.attempts[a].msgID
    {
      assert IdsOf(s.attempts[a]) !! IdsOf(s.attempts[b]);
      assert s.attempts[a].msgID in IdsOf(s.attempts[a]) && s.attempts[b].msgID in IdsOf(s.attempts[b]);
    }
  }

  lemma Move(s: State, g: Ghost, s': State, t: nat, x: Addr, nd': NodeState, next: seq<Task>, a: nat, ga': Track,
             ch': Chan, accepts: bool)
    requires Inv(s, g) && t in s.tasks && g.owner[t] == a && x in s.nodes
    requires IsMove(s, s', t, x, nd', next, a, ch', accepts)
    requires GoodMove(s.attempts[a], g.at[a], ga', s.chans[a], ch', x, s.nodes[x], nd', s.nextTask, next,
                      Accepted(s.accepted, s.attempts[a]), accepts)
    ensures Inv(s', MovedGhost(g, t, s.nextTask, next, a, ga'))
  {
    var g' := MovedGhost(g, t, s.nextTask, next, a, ga');
    OtherMsgIds(s, a);
    ActiveChan(s.attempts[a], g.at[a], s.chans[a], Accepted(s.accepted, s.attempts[a]));
    MovedTasks(s, g, s', t, next, a, ga');
    MovedTracks(s, g, s', g', a, ga', ch', accepts);
    MovedRelays(s, g, s', g', x, nd', a, ga');
    MovedSeen(s, g, s', g', x, nd', a, ga');
    MovedAcks(s, s', x, nd');
    MovedAccepted(s, s', a, accepts);
    MovedSends(s, g, s', g', x, nd', a, ga', ch');
    AttemptsKept(s, s');
  }

  lemma AttemptsKept(s: State, s': State)
    requires AttemptsOK(s) && s'.attempts == s.attempts && |s'.chans| == |s.chans| && s'.sends == s.sends
    ensures AttemptsOK(s')
  {
  }
}
