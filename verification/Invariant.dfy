/**
 The global invariant.  It places every attempt's single thread of activity (a message or a handler)
 at one station of its route, and explains every map entry by the station that made it.
 */
module Invariant {
  import opened Wrappers
  import opened Layers
  import opened Handler
  import opened Protocol
  import opened Attempts

  /** Where an attempt's thread is. */
  datatype Pos =
    | AtStart               // registered, the sender is dialling the first group
    | Flying(i: int)        // box i is on the wire
    | Opening(i: int)       // a member of group i has opened it
    | Sending(i: int)       // and is dialling group i + 1
    | Giving(i: int)        // or has found group i + 1 offline
    | Nacking(i: int)       // a member of group i is sending a NACK back
    | NackFlying(i: int)    // the NACK of station i is on the wire
    | Gone

  /** `top` counts the layers opened so far; `tid` names the thread while there is one. */
  datatype Track = Track(pos: Pos, top: int, tid: nat)

  /** Proof-only bookkeeping: one track per attempt, and the attempt behind every task. */
  datatype Ghost = Ghost(at: seq<Track>, owner: map<nat, nat>)

  predicate Active(p: Pos) {
    !p.Gone? && !p.AtStart?
  }

  predicate AmongAll(cands: seq<Addr>, group: seq<Addr>) {
    forall a :: a in cands ==> a in group
  }

  /** The task a thread is when it is at p. */
  predicate TaskAt(att: Attempt, p: Pos, t: Task)
    requires Sized(att)
  {
    match p
    case Flying(i) =>
      0 <= i < Stations(att) && t.Packet? && t.dst in Group(att, i) && t.msg == Onion(att.boxes[i])
    case Opening(i) =>
      0 <= i < Stations(att) - 1 && t.Opened? && t.at in Group(att, i) && t.layer == LayerAt(att, i)
    case Sending(i) =>
      0 <= i < Stations(att) - 1
      && ((IsRelay(att, i) && t.Forward? && t.at in Group(att, i) && t.layer == LayerAt(att, i)
           && AmongAll(t.cands, Group(att, i + 1)))
          || (i == Hops(att) - 1 && t.Reply? && t.at in Group(att, i) && t.layer == LayerAt(att, i)
              && AmongAll(t.cands, Group(att, i + 1))))
    case Giving(i) => IsRelay(att, i) && t.Unregister? && t.at in Group(att, i) && t.layer == LayerAt(att, i)
    case Nacking(i) =>
      IsRelay(att, i) && t.Propagate? && t.at in Group(att, i) && t.cands != [] && AmongAll(t.cands, Back(att, i))
        && t.id == IdIn(att, i)
    case NackFlying(i) => IsRelay(att, i) && t.Packet? && t.dst in Back(att, i) && t.msg == Nack(IdIn(att, i))
    case _ => false
  }

  predicate PosOK(att: Attempt, ga: Track) {
    var n := Hops(att);
    match ga.pos
    case AtStart => ga.top == 0
    case Flying(i) => 0 <= i < Stations(att) && ga.top == i
    case Opening(i) => 0 <= i < Stations(att) - 1 && ga.top == i + 1
    case Sending(i) => 0 <= i < Stations(att) - 1 && ga.top == i + 1
    case Giving(i) => IsRelay(att, i) && ga.top == i + 1
    case Nacking(i) => IsRelay(att, i) && i < ga.top && (i < n - 1 ==> ga.top < n)
    case NackFlying(i) => IsRelay(att, i) && i < ga.top && (i < n - 1 ==> ga.top < n)
    case Gone => 0 <= ga.top
  }

  /** Messages this thread may still cause to be handled, counting forward and return stations and
      then the way back along one leg. */
  function Budget(att: Attempt, p: Pos): int {
    var n := Hops(att);
    match p
    case AtStart => 3 * n - 2
    case Flying(i) => 3 * n - 2 - i
    case Opening(i) => 3 * n - 3 - i
    case Sending(i) => 3 * n - 3 - i
    case Giving(i) => 3 * n - 3 - i
    case Nacking(i) => 1 + if i < n then i else i - n
    case NackFlying(i) => 1 + if i < n then i else i - n
    case Gone => 0
  }

  function Held(sent: seq<bool>): Option<bool> {
    if sent == [] then None else Some(sent[0])
  }

  /** One attempt: at most one value ever went on its channel, true only after the whole round trip,
      false only while the destination was not reached; `count` is how often its FINAL was accepted. */
  predicate AttemptOK(att: Attempt, ga: Track, ch: Chan, count: nat) {
    var n := Hops(att);
    && ga.top <= Stations(att)
    && PosOK(att, ga)
    && (ch.sent == []
        || (ch.sent == [true] && ga.pos.Gone? && ga.top == Stations(att))
        || (ch.sent == [false] && ga.pos.Gone? && ga.top < n))
    && (ch.buf == None || ch.buf == Held(ch.sent))
    && count <= 1
    && (ga.top < n ==> count == 0)
    && (ga.top > n ==> count == 1)
    && (ga.pos == Opening(n - 1) ==> count == 0)
    && (ga.pos == Sending(n - 1) || ga.pos == Flying(n) ==> count == 1)
  }

  /** The attempt is over and its FINAL layer was never opened. */
  predicate Dead(att: Attempt, ga: Track) {
    ga.pos.Gone? && ga.top < Hops(att)
  }

  /** Station i has made its PendingRelays entry. */
  predicate Registered(ga: Track, i: int) {
    i < ga.top && ga.pos != Opening(i)
  }

  predicate SeenOf(att: Attempt, i: int, m: string) {
    Sized(att) && 0 <= i < Stations(att) - 1 && m == MsgIdAt(att, i)
  }

  predicate AckOf(att: Attempt, x: Addr, k: Id) {
    att.sender == x && (k == att.msgID || (att.nacks != [] && k == att.nacks[0]))
  }

  // ---- the parts of the invariant ----------------------------------------------------------

  ghost predicate AttemptsOK(s: State) {
    && |s.chans| == |s.attempts|
    && (forall a :: 0 <= a < |s.attempts| ==>
          && ValidAttempt(s.attempts[a])
          && s.attempts[a].send < |s.sends|
          && s.attempts[a].sender == s.sends[s.attempts[a].send].sender)
    && (forall a, b :: 0 <= a < |s.attempts| && 0 <= b < |s.attempts| && a != b ==>
          IdsOf(s.attempts[a]) !! IdsOf(s.attempts[b]))
  }

  ghost predicate AllSized(s: State) {
    forall a :: 0 <= a < |s.attempts| ==> Sized(s.attempts[a])
  }

  ghost predicate TasksOK(s: State, g: Ghost) {
    && |g.at| == |s.attempts| && AllSized(s)
    && g.owner.Keys == s.tasks.Keys
    && (forall t :: t in s.tasks ==>
          && t < s.nextTask
          && g.owner[t] < |s.attempts|
          && g.at[g.owner[t]].tid == t
          && Active(g.at[g.owner[t]].pos)
          && TaskAt(s.attempts[g.owner[t]], g.at[g.owner[t]].pos, s.tasks[t]))
    && (forall a :: 0 <= a < |s.attempts| && Active(g.at[a].pos) ==>
          g.at[a].tid in s.tasks && g.owner[g.at[a].tid] == a)
  }

  ghost predicate TracksOK(s: State, g: Ghost) {
    && |s.chans| == |s.attempts| == |g.at|
    && forall a :: 0 <= a < |s.attempts| ==>
         AttemptOK(s.attempts[a], g.at[a], s.chans[a], Accepted(s.accepted, s.attempts[a]))
  }

  ghost predicate KnownEntry(s: State, g: Ghost, x: Addr, k: Id, v: Nackstruct)
    requires |g.at| == |s.attempts|
  {
    exists a, i :: 0 <= a < |s.attempts| && EntryOf(s.attempts[a], i, x, k, v) && Registered(g.at[a], i)
  }

  ghost predicate RelaysOK(s: State, g: Ghost)
    requires |g.at| == |s.attempts|
  {
    forall x, k :: x in s.nodes && k in s.nodes[x].relays ==> KnownEntry(s, g, x, k, s.nodes[x].relays[k])
  }

  ghost predicate KnownMsg(s: State, g: Ghost, m: string)
    requires |g.at| == |s.attempts|
  {
    exists a, i :: 0 <= a < |s.attempts| && SeenOf(s.attempts[a], i, m) && i < g.at[a].top
  }

  ghost predicate SeenOK(s: State, g: Ghost)
    requires |g.at| == |s.attempts|
  {
    forall x, m :: x in s.nodes && m in s.nodes[x].seen ==> KnownMsg(s, g, m)
  }

  ghost predicate AcksOK(s: State) {
    forall x, k :: x in s.nodes && k in s.nodes[x].acks ==>
      s.nodes[x].acks[k] < |s.attempts| && AckOf(s.attempts[s.nodes[x].acks[k]], x, k)
  }

  ghost predicate KnownFinal(s: State, e: Accept) {
    exists a :: 0 <= a < |s.attempts| && AcceptOf(s.attempts[a]) == e
  }

  ghost predicate AcceptedOK(s: State) {
    forall e :: e in s.accepted ==> KnownFinal(s, e)
  }

  ghost predicate PhaseOK(s: State, g: Ghost, e: Send)
    requires |g.at| == |s.attempts| == |s.chans|
    requires e.cur.Some? ==> e.cur.value < |s.attempts|
  {
    match e.phase
    case Ready => e.cur.Some? ==> Dead(s.attempts[e.cur.value], g.at[e.cur.value])
    case Launching(cands, onion) =>
      && e.cur.Some?
      && var c := e.cur.value;
      && g.at[c].pos.AtStart? && s.chans[c] == Chan(None, [])
      && Sized(s.attempts[c]) && onion == s.attempts[c].boxes[0]
      && cands != [] && AmongAll(cands, Group(s.attempts[c], 0))
    case Waiting =>
      && e.cur.Some? && s.chans[e.cur.value].buf == Held(s.chans[e.cur.value].sent)
    case Clearing(expired) =>
      e.cur.Some? && (!expired ==> Dead(s.attempts[e.cur.value], g.at[e.cur.value]))
    case Done(outcome) =>
      match outcome
      case Acked => e.cur.Some? && s.chans[e.cur.value].sent == [true]
      case Abandoned => e.cur.Some? ==> Dead(s.attempts[e.cur.value], g.at[e.cur.value])
      case Stopped => e.cur.Some? ==> Dead(s.attempts[e.cur.value], g.at[e.cur.value])
      case _ => true
  }

  ghost predicate SendOK(s: State, g: Ghost, x: int)
    requires |g.at| == |s.attempts| == |s.chans| && 0 <= x < |s.sends|
  {
    var e := s.sends[x];
    && e.sender in s.nodes && ValidAddr(e.sender) && ValidAddr(e.dest) && FragOK(e.frag)
    && (e.cur.Some? ==> e.cur.value < |s.attempts| && s.attempts[e.cur.value].send == x)
    && (e.phase.Done? && e.phase.outcome.Abandoned? ==> e.tries >= e.maxRetries)
    && (e.cur.Some? && !e.phase.Launching? ==> !g.at[e.cur.value].pos.AtStart?)
    && PhaseOK(s, g, e)
  }

  /** All earlier tries of a send are dead. */
  ghost predicate OthersDead(s: State, g: Ghost)
    requires |g.at| == |s.attempts|
  {
    forall a ::
      0 <= a < |s.attempts| && s.attempts[a].send < |s.sends| && s.sends[s.attempts[a].send].cur != Some(a) ==>
        Dead(s.attempts[a], g.at[a])
  }

  ghost predicate SendsOK(s: State, g: Ghost)
    requires |g.at| == |s.attempts| == |s.chans|
  {
    && (forall x :: 0 <= x < |s.sends| ==> SendOK(s, g, x))
    && OthersDead(s, g)
  }

  ghost predicate Inv(s: State, g: Ghost) {
    && AttemptsOK(s) && TasksOK(s, g) && TracksOK(s, g)
    && RelaysOK(s, g) && SeenOK(s, g) && AcksOK(s) && AcceptedOK(s) && SendsOK(s, g)
  }
}
