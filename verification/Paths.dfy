/**
 One attempt while it is known who can be reached: its thread is not lost, its stations neither crash
 nor change their keys, its waiter does not time out.  Who opened the boxes then decides everything:
 where the thread is, which entries stand, and how the attempt ends.  Other attempts go on meanwhile,
 unconstrained.
 */
module Paths {
  import opened Wrappers
  import opened Layers
  import opened Handler
  import opened Protocol
  import opened Attempts
  import opened Invariant
  import opened Advance
  import opened Steps
  import opened Preservation
  import opened Outcomes
  import opened Frames

  // ---- calm steps --------------------------------------------------------------------------

  /** For attempt a, a SendTo succeeds exactly towards `up`; its thread is not lost, its stations keep
      their maps and keys, and its waiter does not time out. */
  ghost predicate Calm(s: State, l: Label, a: nat, up: set<Addr>)
    requires a < |s.attempts|
  {
    && Spared(s, l, a)
    && (l.Run? && l.t in s.tasks && Carries(s.attempts[a], s.tasks[l.t]) && Dialled(s.tasks[l.t]).Some? ==>
          (l.ok <==> Dialled(s.tasks[l.t]).value in up))
    && (l.Dial? && l.x < |s.sends| && s.sends[l.x].cur == Some(a) && s.sends[l.x].phase.Launching?
        && s.sends[l.x].phase.cands != [] ==>
          (l.ok <==> s.sends[l.x].phase.cands[0] in up))
    && (l.Expire? && l.x < |s.sends| ==> s.sends[l.x].cur != Some(a))
  }

  function CandsOf(t: Task): seq<Addr> {
    match t
    case Forward(_, cands, _) => cands
    case Reply(_, cands, _) => cands
    case Propagate(_, cands, _) => cands
    case _ => []
  }

  /** A wish for the shuffles: at station `at` this reachable member is to be dialled first. */
  datatype Lead = Lead(at: int, who: Addr)

  // ---- what the openers decide -------------------------------------------------------------

  /** o[i] is who received and opened box i. */
  predicate OpenersOK(att: Attempt, up: set<Addr>, o: seq<Addr>, lead: Option<Lead>) {
    && |o| <= Stations(att)
    && (forall i :: 0 <= i < |o| ==> o[i] in Group(att, i) && o[i] in up)
    && (|o| >= 1 ==> FirstIn(Group(att, 0), up) == Some(o[0]))
    && (lead.Some? && 0 <= lead.value.at < |o| ==> o[lead.value.at] == lead.value.who)
  }

  /** Where a NACK that sets out from station i ends: it goes on as long as the first reachable member
      of the group before is the one that holds the entry. */
  function Unwound(att: Attempt, up: set<Addr>, o: seq<Addr>, i: int): (level: int)
    requires 0 <= i < |o| <= Stations(att)
    ensures 0 <= level <= i
    decreases i
  {
    if i == 0 || i == Hops(att) then i
    else if FirstIn(Group(att, i - 1), up) == Some(o[i - 1]) then Unwound(att, up, o, i - 1)
    else i
  }

  /** The stations whose entries are left when the attempt is over are those below this number. */
  function EndLevel(att: Attempt, up: set<Addr>, o: seq<Addr>): int
    requires |o| <= Stations(att)
  {
    if |o| == 0 || |o| == Hops(att) || |o| == Stations(att) then |o| else Unwound(att, up, o, |o| - 1)
  }

  /** What the sender has been told by then. */
  function EndSent(att: Attempt, up: set<Addr>, o: seq<Addr>): seq<bool>
    requires |o| <= Stations(att)
  {
    if |o| == Stations(att) then [true]
    else if 1 <= |o| < Hops(att) && EndLevel(att, up, o) == 0 && att.sender in up then [false]
    else []
  }

  /** The attempt has stopped where it had to. */
  predicate Over(att: Attempt, up: set<Addr>, o: seq<Addr>, sent: seq<bool>) {
    && |o| <= Stations(att)
    && (|o| < Stations(att) ==> !Meets(Group(att, |o|), up))
    && sent == EndSent(att, up, o)
  }

  function Level(att: Attempt, up: set<Addr>, o: seq<Addr>, p: Pos): int {
    match p
    case AtStart => 0
    case Flying(i) => i
    case Opening(i) => i
    case Sending(i) => i + 1
    case Giving(i) => i + 1
    case Nacking(i) => i
    case NackFlying(i) => i
    case Gone => if |o| <= Stations(att) then EndLevel(att, up, o) else 0
  }

  /** Below the level the entry of station l stands, at the one that opened box l. */
  predicate Stands(l: int, level: int, o: seq<Addr>, x: Addr) {
    0 <= l < level && l < |o| && o[l] == x
  }

  predicate EntryAt(att: Attempt, x: Addr, relays: map<Id, Nackstruct>, l: int, level: int, o: seq<Addr>) {
    Sized(att) && IsRelay(att, l) && x in Group(att, l) ==> (IdIn(att, l + 1) in relays <==> Stands(l, level, o, x))
  }

  ghost predicate EntriesAt(att: Attempt, x: Addr, relays: map<Id, Nackstruct>, level: int, o: seq<Addr>) {
    forall l :: EntryAt(att, x, relays, l, level, o)
  }

  /** The hop after the last opener has failed, and the NACK's way back from there leads through i. */
  predicate ComesBack(att: Attempt, up: set<Addr>, o: seq<Addr>, i: int) {
    && 0 <= i < |o| < Stations(att)
    && IsRelay(att, |o| - 1) && (i < Hops(att) - 1 <==> |o| - 1 < Hops(att) - 1)
    && !Meets(Group(att, |o|), up)
    && Unwound(att, up, o, |o| - 1) == Unwound(att, up, o, i)
  }

  /** The thread at each place. */
  predicate ThreadAt(att: Attempt, up: set<Addr>, p: Pos, t: Task, o: seq<Addr>, lead: Option<Lead>) {
    match p
    case Flying(i) =>
      && |o| == i < Stations(att) && t.Packet? && t.dst in up
      && (i == 0 ==> FirstIn(Group(att, 0), up) == Some(t.dst))
      && (lead.Some? && lead.value.at == i ==> t.dst == lead.value.who)
    case Opening(i) => 0 <= i && |o| == i + 1 <= Stations(att) && o[i] == Place(t)
    case Sending(i) =>
      && 0 <= i && |o| == i + 1 < Stations(att) && o[i] == Place(t)
      && (Meets(CandsOf(t), up) <==> Meets(Group(att, i + 1), up))
      && (lead.Some? && lead.value.at == i + 1 ==> FirstIn(CandsOf(t), up) == Some(lead.value.who))
    case Giving(i) => 0 <= i && |o| == i + 1 < Stations(att) && o[i] == Place(t) && !Meets(Group(att, i + 1), up)
    case Nacking(i) => ComesBack(att, up, o, i) && FirstIn(CandsOf(t), up) == FirstIn(Back(att, i), up)
    case NackFlying(i) => ComesBack(att, up, o, i) && t.Packet? && FirstIn(Back(att, i), up) == Some(t.dst)
    case _ => true
  }

  /** The lead is a reachable member of its group. */
  predicate LeadOK(att: Attempt, up: set<Addr>, lead: Option<Lead>) {
    lead.Some? ==>
        1 <= lead.value.at < Stations(att) && lead.value.who in Group(att, lead.value.at) && lead.value.who in up
  }

  /** Entries of other nodes are not concerned by a change at x. */
  ghost predicate SameElsewhere(att: Attempt, x: Addr, level: int, o: seq<Addr>, level': int, o': seq<Addr>) {
    forall l, y :: IsRelay(att, l) && y != x && y in Group(att, l) ==>
             (Stands(l, level, o, y) <==> Stands(l, level', o', y))
  }

  /** The sender's two keys until they are cleared: whatever was told took its own key with it. */
  predicate KeysAt(att: Attempt, acks: map<Id, nat>, p: Pos, sent: seq<bool>) {
    && att.nacks != []
    && (att.msgID in acks <==> !(p.Gone? && sent == [true]))
    && (att.nacks[0] in acks <==> !(p.Gone? && sent == [false]))
  }

  /** The send has the keys of attempt a registered: it has neither finished nor gone on. */
  predicate HoldsKeys(e: Send, a: nat) {
    e.cur == Some(a) && (e.phase.Launching? || e.phase.Waiting? || e.phase.Clearing?)
  }

  /** And after they are cleared, which does not happen after an ACK. */
  predicate KeysNow(att: Attempt, acks: map<Id, nat>, p: Pos, sent: seq<bool>, held: bool) {
    if held || sent == [true] then KeysAt(att, acks, p, sent)
    else att.nacks != [] && att.msgID !in acks && att.nacks[0] !in acks
  }

  /** How often the destination has accepted the message. */
  predicate Counts(att: Attempt, p: Pos, o: seq<Addr>, count: nat) {
    && (|o| < Hops(att) ==> count == 0)
    && (|o| > Hops(att) || (|o| == Hops(att) && p.Gone?) ==> count == 1)
  }

  /** All that one step of the thread owes, about its own node and attempt. */
  ghost predicate PathResult(att: Attempt, up: set<Addr>, lead: Option<Lead>, x: Addr, o: seq<Addr>, o': seq<Addr>,
                       ga: Track, ga': Track, sent': seq<bool>, nd': NodeState, next: seq<Task>) {
    var level, level' := Level(att, up, o, ga.pos), Level(att, up, o', ga'.pos);
    && OpenersOK(att, up, o', lead)
    && (next != [] ==> ThreadAt(att, up, ga'.pos, next[0], o', lead))
    && (ga'.pos.Gone? ==> Over(att, up, o', sent') && o' != [])
    && EntriesAt(att, x, nd'.relays, level', o')
    && SameElsewhere(att, x, level, o, level', o')
    && (x == att.sender ==> KeysAt(att, nd'.acks, ga'.pos, sent'))
    && (ga'.pos.Gone? && sent' != [] ==> x == att.sender)
  }

  // ---- the openers while the onion goes on -------------------------------------------------

  lemma OneMoreOpener(att: Attempt, up: set<Addr>, lead: Option<Lead>, o: seq<Addr>, x: Addr)
    requires OpenersOK(att, up, o, lead) && |o| < Stations(att) && x in Group(att, |o|) && x in up
    requires |o| == 0 ==> FirstIn(Group(att, 0), up) == Some(x)
    requires lead.Some? && lead.value.at == |o| ==> x == lead.value.who
    ensures OpenersOK(att, up, o + [x], lead)
  {
  }

  /** Opening changes no entry yet. */
  lemma OpenedEntries(att: Attempt, x: Addr, relays: map<Id, Nackstruct>, o: seq<Addr>)
    requires EntriesAt(att, x, relays, |o|, o)
    ensures EntriesAt(att, x, relays, |o|, o + [x])
    ensures SameElsewhere(att, x, |o|, o, |o|, o + [x])
  {
    forall l, y
      ensures Stands(l, |o|, o, y) <==> Stands(l, |o|, o + [x], y)
    {
    }
    forall l
      ensures EntryAt(att, x, relays, l, |o|, o + [x])
    {
      assert EntryAt(att, x, relays, l, |o|, o);
    }
  }

  /** A change of the level across i, at the opener of box i, that comes with a change at the key of
      station i and no other key. */
  lemma OwnEntry(att: Attempt, x: Addr, i: int, was: map<Id, Nackstruct>, now: map<Id, Nackstruct>, level: int,
                 level': int, o: seq<Addr>)
    requires ValidAttempt(att) && IsRelay(att, i) && x in Group(att, i) && i < |o| && o[i] == x
    requires EntriesAt(att, x, was, level, o)
    requires (level == i && level' == i + 1) || (level == i + 1 && level' == i)
    requires IdIn(att, i + 1) in now <==> i < level'
    requires forall k :: k != IdIn(att, i + 1) ==> (k in now <==> k in was)
    ensures EntriesAt(att, x, now, level', o)
    ensures SameElsewhere(att, x, level, o, level', o)
  {
    hide EntryAt, ValidAttempt;
    forall l
      ensures EntryAt(att, x, now, l, level', o)
    {
      assert EntryAt(att, x, was, l, level, o);
      OtherEntry(att, x, i, was, now, level, level', o, l);
    }
  }

  lemma OtherEntry(att: Attempt, x: Addr, i: int, was: map<Id, Nackstruct>, now: map<Id, Nackstruct>, level: int,
                   level': int, o: seq<Addr>, l: int)
    requires ValidAttempt(att) && IsRelay(att, i) && x in Group(att, i) && i < |o| && o[i] == x
    requires EntryAt(att, x, was, l, level, o)
    requires (level == i && level' == i + 1) || (level == i + 1 && level' == i)
    requires IdIn(att, i + 1) in now <==> i < level'
    requires forall k :: k != IdIn(att, i + 1) ==> (k in now <==> k in was)
    ensures EntryAt(att, x, now, l, level', o)
  {
    hide Group, IdIn, BoxOK, ValidRoute, FreshIds;
    if IsRelay(att, l) && x in Group(att, l) && l != i {
      SameRelay(att, i, l, x);
      if IdIn(att, l + 1) == IdIn(att, i + 1) {
        IdInEqual(att, l + 1, i + 1);
      }
    }
  }

  lemma EntriesSame(att: Attempt, x: Addr, relays: map<Id, Nackstruct>, level: int, o: seq<Addr>)
    ensures SameElsewhere(att, x, level, o, level, o)
  {
  }

  /** A level that moves over a station without entries. */
  lemma LevelOverNone(att: Attempt, x: Addr, relays: map<Id, Nackstruct>, level: int, level': int, o: seq<Addr>,
                      o': seq<Addr>)
    requires EntriesAt(att, x, relays, level, o) && o <= o'
    requires forall l :: IsRelay(att, l) ==> (l < level && l < |o| <==> l < level' && l < |o'|)
    ensures EntriesAt(att, x, relays, level', o')
    ensures SameElsewhere(att, x, level, o, level', o')
  {
    forall l, y | IsRelay(att, l)
      ensures Stands(l, level, o, y) <==> Stands(l, level', o', y)
    {
    }
    forall l
      ensures EntryAt(att, x, relays, l, level', o')
    {
      assert EntryAt(att, x, relays, l, level, o);
    }
  }

  lemma ShuffleMeets(order: seq<Addr>, group: seq<Addr>, up: set<Addr>)
    requires Shuffled(order, group)
    ensures Meets(order, up) <==> Meets(group, up)
  {
    ShuffledAmong(order, group);
    if Meets(group, up) {
      var c :| c in group && c in up;
      assert c in order;
    }
  }

  // ---- one step of the thread --------------------------------------------------------------

  lemma FlyingPath(att: Attempt, up: set<Addr>, lead: Option<Lead>, o: seq<Addr>, a: nat, ga: Track, ch: Chan, x: Addr,
                   nd: NodeState, t: Task, count: nat, ok: bool, order: seq<Addr>, now: int, nextTask: nat)
                     returns (ga': Track, ch': Chan)
    requires Here(att, a, ga, ch, x, nd, t, count) && ga.pos.Flying? && Fits(att, ga.pos.i, nd.key)
    requires OpenersOK(att, up, o, lead) && ThreadAt(att, up, ga.pos, t, o, lead)
    requires EntriesAt(att, x, nd.relays, Level(att, up, o, ga.pos), o)
             && (x == att.sender ==> KeysAt(att, nd.acks, ga.pos, ch.sent))
    ensures var e := StepTask(nd, t, ok, order, now);
      && StepFits(att, a, ga, ga', ch, ch', x, nd, e, nextTask, count, false)
      && PathResult(att, up, lead, x, o, o + [x], ga, ga', ch'.sent, e.node, e.next)
    ensures ga'.pos == if ga.pos.i < Stations(att) - 1 then Opening(ga.pos.i) else Gone
  {
    hide AttemptOK, SeenPast, AcksOwn, RelaysOwn, StepTask, LayerAt, ValidRoute, FreshIds, BoxOK, EntryAt, StepFits;
    var i := ga.pos.i;
    ch' := ch;
    OneMoreOpener(att, up, lead, o, x);
    if i < Stations(att) - 1 {
      ga' := OpenStep(att, a, ga, ch, x, nd, t, count, ok, order, now, nextTask, i);
      OpenedEntries(att, x, nd.relays, o);
    } else {
      ga', ch' := AckStep(att, a, ga, ch, x, nd, t, count, ok, order, now, nextTask);
      AckPath(att, up, lead, o, x, ga, nd, ch, ch');
      AckEnds(att, nd, t, ok, order, now);
    }
  }

  lemma AckEnds(att: Attempt, nd: NodeState, t: Task, ok: bool, order: seq<Addr>, now: int)
    requires ValidAttempt(att) && TaskAt(att, Flying(Stations(att) - 1), t)
    ensures StepTask(nd, t, ok, order, now).next == []
  {
    assert BoxOK(att, Stations(att) - 1);
  }

  lemma AckPath(att: Attempt, up: set<Addr>, lead: Option<Lead>, o: seq<Addr>, x: Addr, ga: Track, nd: NodeState,
                ch: Chan, ch': Chan)
    requires ValidAttempt(att) && |o| == Stations(att) - 1 && ga.pos == Flying(|o|) && x == att.sender
    requires OpenersOK(att, up, o + [x], lead) && EntriesAt(att, x, nd.relays, |o|, o)
    requires KeysAt(att, nd.acks, ga.pos, ch.sent) && ch' == Chan(Some(true), [true])
    ensures PathResult(att, up, lead, x, o, o + [x], ga, Track(Gone, Stations(att), 0), ch'.sent,
                       nd.(acks := nd.acks - {att.msgID}), [])
  {
    LevelOverNone(att, x, nd.relays, |o|, Stations(att), o, o + [x]);
    assert att.nacks[0] in att.nacks;
  }

  lemma OpeningPath(att: Attempt, up: set<Addr>, lead: Option<Lead>, o: seq<Addr>, a: nat, ga: Track, ch: Chan, x: Addr,
                    nd: NodeState, t: Task, count: nat, ok: bool, order: seq<Addr>, now: int, nextTask: nat)
                      returns (ga': Track, accepts: bool)
    requires Here(att, a, ga, ch, x, nd, t, count) && ga.pos.Opening?
    requires Shuffled(order, ParseAddresses(t.layer.Next))
    requires LeadOK(att, up, lead)
             && (lead.Some? && lead.value.who in ParseAddresses(t.layer.Next) ==>
                   order != [] && order[0] == lead.value.who)
    requires OpenersOK(att, up, o, lead) && ThreadAt(att, up, ga.pos, t, o, lead)
    requires EntriesAt(att, x, nd.relays, Level(att, up, o, ga.pos), o)
             && (x == att.sender ==> KeysAt(att, nd.acks, ga.pos, ch.sent))
    ensures var e := StepTask(nd, t, ok, order, now);
      && StepFits(att, a, ga, ga', ch, ch, x, nd, e, nextTask, count, accepts)
      && PathResult(att, up, lead, x, o, o, ga, ga', ch.sent, e.node, e.next)
    ensures ga'.pos == Sending(ga.pos.i) && (accepts ==> ga.pos.i == Hops(att) - 1)
  {
    hide AttemptOK, SeenPast, AcksOwn, RelaysOwn, StepTask, LayerAt, ValidRoute, FreshIds, BoxOK, EntryAt, StepFits,
         ParseAddresses, PathResult, OpenersOK,
         EntriesAt, KeysAt;
    var i := ga.pos.i;
    accepts := i == Hops(att) - 1;
    if accepts {
      ga' := AcceptStep(att, a, ga, ch, x, nd, t, count, ok, order, now, nextTask);
      AcceptEffect(att, nd, t, ok, order, now);
      AcceptPath(att, up, lead, o, x, ga, ga', ch, nd, StepTask(nd, t, ok, order, now).node, order);
    } else {
      ga' := RegisterStep(att, a, ga, ch, x, nd, t, count, ok, order, now, nextTask, i);
      RegisterEffect(att, nd, t, ok, order, now, i);
      RegisterPath(att, up, lead, o, x, ga, ga', ch, nd, Nackstruct(IdIn(att, i), JoinAddresses(Back(att, i))), order,
                   i);
    }
  }

  lemma AcceptPath(att: Attempt, up: set<Addr>, lead: Option<Lead>, o: seq<Addr>, x: Addr, ga: Track, ga': Track,
                   ch: Chan, nd: NodeState, nd': NodeState, order: seq<Addr>)
    requires Sized(att) && LeadOK(att, up, lead) && OpenersOK(att, up, o, lead) && ga.pos == Opening(Hops(att) - 1)
             && ga'.pos == Sending(Hops(att) - 1)
    requires |o| == Hops(att) && o[Hops(att) - 1] == x && Shuffled(order, Group(att, Hops(att)))
    requires lead.Some? && lead.value.who in Group(att, Hops(att)) ==> order != [] && order[0] == lead.value.who
    requires EntriesAt(att, x, nd.relays, Level(att, up, o, ga.pos), o)
             && (x == att.sender ==> KeysAt(att, nd.acks, ga.pos, ch.sent))
    requires nd'.relays == nd.relays && nd'.acks == nd.acks
    ensures PathResult(att, up, lead, x, o, o, ga, ga', ch.sent, nd', [Reply(x, order, LayerAt(att, Hops(att) - 1))])
  {
    LevelOverNone(att, x, nd.relays, Hops(att) - 1, Hops(att), o, o);
    ShuffleMeets(order, Group(att, Hops(att)), up);
  }

  lemma RegisterPath(att: Attempt, up: set<Addr>, lead: Option<Lead>, o: seq<Addr>, x: Addr, ga: Track, ga': Track,
                     ch: Chan, nd: NodeState, entry: Nackstruct, order: seq<Addr>, i: int)
    requires ValidAttempt(att) && Sized(att) && IsRelay(att, i) && x in Group(att, i)
    requires LeadOK(att, up, lead) && OpenersOK(att, up, o, lead) && ga.pos == Opening(i) && ga'.pos == Sending(i)
    requires |o| == i + 1 && o[i] == x && Shuffled(order, Group(att, i + 1))
    requires lead.Some? && lead.value.who in Group(att, i + 1) ==> order != [] && order[0] == lead.value.who
    requires EntriesAt(att, x, nd.relays, Level(att, up, o, ga.pos), o)
             && (x == att.sender ==> KeysAt(att, nd.acks, ga.pos, ch.sent))
    ensures PathResult(att, up, lead, x, o, o, ga, ga', ch.sent, nd.(relays := nd.relays[IdIn(att, i + 1) := entry]),
                       [Forward(x, order, LayerAt(att, i))])
  {
    hide ValidAttempt, LayerAt, EntryAt, OpenersOK, SameElsewhere, IdIn, Unwound, EndLevel, Over;
    OwnEntry(att, x, i, nd.relays, nd.relays[IdIn(att, i + 1) := entry], i, i + 1, o);
    ShuffleMeets(order, Group(att, i + 1), up);
  }

  // ---- dialling ----------------------------------------------------------------------------

  lemma SendingPath(att: Attempt, up: set<Addr>, lead: Option<Lead>, o: seq<Addr>, a: nat, ga: Track, ch: Chan, x: Addr,
                    nd: NodeState, t: Task, count: nat, ok: bool, order: seq<Addr>, now: int, nextTask: nat)
                      returns (ga': Track)
    requires Here(att, a, ga, ch, x, nd, t, count) && ga.pos.Sending?
             && (Dialled(t).Some? ==> (ok <==> Dialled(t).value in up))
    requires OpenersOK(att, up, o, lead) && ThreadAt(att, up, ga.pos, t, o, lead) && ch.sent == []
    requires EntriesAt(att, x, nd.relays, Level(att, up, o, ga.pos), o)
             && (x == att.sender ==> KeysAt(att, nd.acks, ga.pos, ch.sent))
    ensures var e := StepTask(nd, t, ok, order, now);
      && StepFits(att, a, ga, ga', ch, ch, x, nd, e, nextTask, count, false)
      && PathResult(att, up, lead, x, o, o, ga, ga', ch.sent, e.node, e.next)
  {
    hide AttemptOK, SeenPast, AcksOwn, RelaysOwn, ValidRoute, FreshIds, BoxOK, StepFits, PathResult, OpenersOK,
         EntriesAt, KeysAt;
    var i := ga.pos.i;
    if i == Hops(att) - 1 {
      ga' := DialReplyStep(att, a, ga, ch, x, nd, t, count, ok, order, now, nextTask);
      ReplyEnds(att, nd, t, ok, order, now);
      SentPath(att, up, lead, o, x, ga, ga', ch, nd, t, ok, StepTask(nd, t, ok, order, now).next, i);
    } else {
      ga' := DialRelayStep(att, a, ga, ch, x, nd, t, count, ok, order, now, nextTask, i);
      SentPath(att, up, lead, o, x, ga, ga', ch, nd, t, ok, StepTask(nd, t, ok, order, now).next, i);
    }
  }

  /** The destination's own failure ends the thread: its From field is empty. */
  lemma ReplyEnds(att: Attempt, nd: NodeState, t: Task, ok: bool, order: seq<Addr>, now: int)
    requires ValidAttempt(att) && TaskAt(att, Sending(Hops(att) - 1), t)
    ensures CandsOf(t) == [] ==> StepTask(nd, t, ok, order, now).next == []
  {
  }

  lemma SentPath(att: Attempt, up: set<Addr>, lead: Option<Lead>, o: seq<Addr>, x: Addr, ga: Track, ga': Track,
                 ch: Chan, nd: NodeState, t: Task, ok: bool, next: seq<Task>, i: int)
    requires Sized(att) && ga.pos == Sending(i) && TaskAt(att, ga.pos, t) && OpenersOK(att, up, o, lead)
             && ThreadAt(att, up, ga.pos, t, o, lead)
    requires ga'.pos == if CandsOf(t) != [] then (if ok then Flying(i + 1) else Sending(i))
             else if i == Hops(att) - 1 then Gone else Giving(i)
    requires CandsOf(t) != [] ==> (ok <==> CandsOf(t)[0] in up)
    requires next == if CandsOf(t) == [] && i == Hops(att) - 1 then [] else TrySend(t, ok)
    requires EntriesAt(att, x, nd.relays, Level(att, up, o, ga.pos), o)
             && (x == att.sender ==> KeysAt(att, nd.acks, ga.pos, ch.sent)) && ch.sent == []
    ensures PathResult(att, up, lead, x, o, o, ga, ga', ch.sent, nd, next)
  {
    hide LayerAt, EntryAt, OpenersOK, Back, Unwound;
    EntriesSame(att, x, nd.relays, i + 1, o);
    if CandsOf(t) != [] && !ok {
      MeetsRest(CandsOf(t), up);
    }
  }

  // ---- going back --------------------------------------------------------------------------

  lemma GivingPath(att: Attempt, up: set<Addr>, lead: Option<Lead>, o: seq<Addr>, a: nat, ga: Track, ch: Chan, x: Addr,
                   nd: NodeState, t: Task, count: nat, ok: bool, order: seq<Addr>, now: int, nextTask: nat)
                     returns (ga': Track)
    requires Here(att, a, ga, ch, x, nd, t, count) && ga.pos.Giving?
    requires OpenersOK(att, up, o, lead) && ThreadAt(att, up, ga.pos, t, o, lead)
    requires EntriesAt(att, x, nd.relays, Level(att, up, o, ga.pos), o)
             && (x == att.sender ==> KeysAt(att, nd.acks, ga.pos, ch.sent))
    ensures var e := StepTask(nd, t, ok, order, now);
      && StepFits(att, a, ga, ga', ch, ch, x, nd, e, nextTask, count, false)
      && PathResult(att, up, lead, x, o, o, ga, ga', ch.sent, e.node, e.next)
  {
    hide AttemptOK, SeenPast, AcksOwn, RelaysOwn, StepTask, LayerAt, ValidRoute, FreshIds, BoxOK, EntryAt, StepFits,
         OpenersOK;
    var i := ga.pos.i;
    ga' := GiveUpStep(att, a, ga, ch, x, nd, t, count, ok, order, now, nextTask, i);
    OwnEntry(att, x, i, nd.relays, nd.relays - {IdIn(att, i + 1)}, i + 1, i, o);
  }

  lemma NackingPath(att: Attempt, up: set<Addr>, lead: Option<Lead>, o: seq<Addr>, a: nat, ga: Track, ch: Chan, x: Addr,
                    nd: NodeState, t: Task, count: nat, ok: bool, order: seq<Addr>, now: int, nextTask: nat)
                      returns (ga': Track)
    requires Here(att, a, ga, ch, x, nd, t, count) && ga.pos.Nacking?
             && (Dialled(t).Some? ==> (ok <==> Dialled(t).value in up))
    requires OpenersOK(att, up, o, lead) && ThreadAt(att, up, ga.pos, t, o, lead) && ch.sent == []
    requires EntriesAt(att, x, nd.relays, Level(att, up, o, ga.pos), o)
             && (x == att.sender ==> KeysAt(att, nd.acks, ga.pos, ch.sent))
    ensures var e := StepTask(nd, t, ok, order, now);
      && StepFits(att, a, ga, ga', ch, ch, x, nd, e, nextTask, count, false)
      && PathResult(att, up, lead, x, o, o, ga, ga', ch.sent, e.node, e.next)
  {
    hide AttemptOK, SeenPast, AcksOwn, RelaysOwn, ValidRoute, FreshIds, BoxOK, StepFits, PathResult, OpenersOK,
         EntriesAt, KeysAt;
    var i := ga.pos.i;
    ga' := PropagateStep(att, a, ga, ch, x, nd, t, count, ok, order, now, nextTask, i);
    NackedPath(att, up, lead, o, x, ga, ga', ch, nd, t, ok, i);
  }

  lemma NackedPath(att: Attempt, up: set<Addr>, lead: Option<Lead>, o: seq<Addr>, x: Addr, ga: Track, ga': Track,
                   ch: Chan, nd: NodeState, t: Task, ok: bool, i: int)
    requires Sized(att) && ga.pos == Nacking(i) && TaskAt(att, ga.pos, t) && OpenersOK(att, up, o, lead)
             && ThreadAt(att, up, ga.pos, t, o, lead)
    requires ga'.pos == if ok then NackFlying(i) else if |t.cands| == 1 then Gone else Nacking(i)
    requires ok <==> t.cands[0] in up
    requires EntriesAt(att, x, nd.relays, Level(att, up, o, ga.pos), o)
             && (x == att.sender ==> KeysAt(att, nd.acks, ga.pos, ch.sent)) && ch.sent == []
    ensures PathResult(att, up, lead, x, o, o, ga, ga', ch.sent, nd, TrySend(t, ok))
  {
    hide EntryAt, OpenersOK, ComesBack, Unwound, EndLevel, Over, Group, IdIn, IsRelay, EntriesAt;
    EntriesSame(att, x, nd.relays, i, o);
    if !ok {
      MeetsRest(t.cands, up);
      if |t.cands| == 1 {
        NoWayBack(att, up, lead, o, i);
      }
    }
  }

  /** Only the sender can be out of reach of a NACK: every other opener answers. */
  lemma NoWayBack(att: Attempt, up: set<Addr>, lead: Option<Lead>, o: seq<Addr>, i: int)
    requires OpenersOK(att, up, o, lead) && ComesBack(att, up, o, i) && !Meets(Back(att, i), up)
    ensures 0 < |o| <= Stations(att) && Over(att, up, o, []) && EndLevel(att, up, o) == i
  {
    forall j | 0 <= j < |o|
      ensures Meets(Group(att, j), up)
    {
      assert o[j] in Group(att, j) && o[j] in up;
    }
    assert i == 0 || i == Hops(att) ==> att.sender in Back(att, i);
  }

  lemma NackFlyingPath(att: Attempt, up: set<Addr>, lead: Option<Lead>, o: seq<Addr>, a: nat, ga: Track, ch: Chan,
                       x: Addr, nd: NodeState, t: Task, count: nat, ok: bool, order: seq<Addr>, now: int, nextTask: nat)
                         returns (ga': Track, ch': Chan)
    requires Here(att, a, ga, ch, x, nd, t, count) && ga.pos.NackFlying? && ch.sent == []
    requires OpenersOK(att, up, o, lead) && ThreadAt(att, up, ga.pos, t, o, lead)
    requires EntriesAt(att, x, nd.relays, Level(att, up, o, ga.pos), o)
             && (x == att.sender ==> KeysAt(att, nd.acks, ga.pos, ch.sent))
    ensures var e := StepTask(nd, t, ok, order, now);
      && StepFits(att, a, ga, ga', ch, ch', x, nd, e, nextTask, count, false)
      && PathResult(att, up, lead, x, o, o, ga, ga', ch'.sent, e.node, e.next)
  {
    hide AttemptOK, SeenPast, AcksOwn, RelaysOwn, StepTask, LayerAt, ValidRoute, FreshIds, BoxOK, StepFits, PathResult,
         OpenersOK, EntriesAt;
    var i := ga.pos.i;
    if i == 0 || i == Hops(att) {
      ga', ch' := NackHomeStep(att, a, ga, ch, x, nd, t, count, ok, order, now, nextTask, i);
      NackHomePath(att, up, lead, o, x, ga, ga', ch, ch', nd, StepTask(nd, t, ok, order, now).node, i);
    } else {
      ch' := ch;
      ga' := NackRelayStep(att, a, ga, ch, x, nd, t, count, ok, order, now, nextTask, i);
      NackRelayEffect(att, a, ga, x, nd, t, ok, order, now, i);
      NackRelayPath(att, up, lead, o, x, ga, ga', ch, nd, i);
    }
  }

  lemma NackHomePath(att: Attempt, up: set<Addr>, lead: Option<Lead>, o: seq<Addr>, x: Addr, ga: Track, ga': Track,
                     ch: Chan, ch': Chan, nd: NodeState, nd': NodeState, i: int)
    requires ValidAttempt(att) && ga.pos == NackFlying(i) && ga'.pos.Gone? && x == att.sender && x in up
             && (i == 0 || i == Hops(att))
    requires OpenersOK(att, up, o, lead) && ComesBack(att, up, o, i) && ch.sent == []
    requires EntriesAt(att, x, nd.relays, i, o) && KeysAt(att, nd.acks, ga.pos, ch.sent)
    requires ch' == if i == 0 && att.nacks[0] in nd.acks then Chan(Some(false), [false]) else ch
    requires nd' == if i == 0 then nd.(acks := nd.acks - {att.nacks[0]}) else nd
    ensures PathResult(att, up, lead, x, o, o, ga, ga', ch'.sent, nd', [])
  {
    hide BoxOK, ValidRoute, ComesBack, Over, EndLevel, OpenersOK, EntriesAt, SameElsewhere;
    assert att.nacks[0] in att.nacks;
    HomeEnds(att, up, lead, o, i);
    EntriesSame(att, x, nd.relays, i, o);
  }

  lemma HomeEnds(att: Attempt, up: set<Addr>, lead: Option<Lead>, o: seq<Addr>, i: int)
    requires OpenersOK(att, up, o, lead) && ComesBack(att, up, o, i) && att.sender in up && (i == 0 || i == Hops(att))
    ensures 0 < |o| <= Stations(att) && EndLevel(att, up, o) == i && Over(att, up, o, if i == 0 then [false] else [])
  {
    hide Group, FirstIn, Meets;
  }

  lemma NackRelayPath(att: Attempt, up: set<Addr>, lead: Option<Lead>, o: seq<Addr>, x: Addr, ga: Track, ga': Track,
                      ch: Chan, nd: NodeState, i: int)
    requires ValidAttempt(att) && ga.pos == NackFlying(i) && IsRelay(att, i) && i != 0 && i != Hops(att)
    requires OpenersOK(att, up, o, lead) && ComesBack(att, up, o, i) && FirstIn(Group(att, i - 1), up) == Some(x)
             && ch.sent == []
    requires ga'.pos == if IdIn(att, i) in nd.relays then Nacking(i - 1) else Gone
    requires EntriesAt(att, x, nd.relays, i, o) && (x == att.sender ==> KeysAt(att, nd.acks, ga.pos, ch.sent))
    ensures PathResult(att, up, lead, x, o, o, ga, ga', ch.sent, nd.(relays := nd.relays - {IdIn(att, i)}),
                       if IdIn(att, i) in nd.relays then [Propagate(x, Back(att, i - 1), IdIn(att, i - 1))] else [])
  {
    hide BoxOK, ValidRoute, FreshIds, ComesBack, PathResult, OpenersOK, EntriesAt, Back, KeysAt;
    StandsBefore(att, up, o, i, x, nd.relays);
    if IdIn(att, i) in nd.relays {
      PassedOn(att, up, lead, o, x, ga, ga', nd, i);
    } else {
      Dropped(att, up, lead, o, x, ga, ga', nd, i);
    }
  }

  lemma PassedOn(att: Attempt, up: set<Addr>, lead: Option<Lead>, o: seq<Addr>, x: Addr, ga: Track, ga': Track,
                 nd: NodeState, i: int)
    requires ValidAttempt(att) && ga.pos == NackFlying(i) && IsRelay(att, i) && i != 0 && i != Hops(att)
             && ga'.pos == Nacking(i - 1)
    requires OpenersOK(att, up, o, lead) && ComesBack(att, up, o, i) && FirstIn(Group(att, i - 1), up) == Some(x)
             && i <= |o| && o[i - 1] == x
    requires EntriesAt(att, x, nd.relays, i, o) && (x == att.sender ==> KeysAt(att, nd.acks, ga.pos, []))
    ensures PathResult(att, up, lead, x, o, o, ga, ga', [], nd.(relays := nd.relays - {IdIn(att, i)}),
                       [Propagate(x, Back(att, i - 1), IdIn(att, i - 1))])
  {
    hide ValidRoute, FreshIds, BoxOK, ComesBack, OpenersOK, EntriesAt, SameElsewhere, Group, Back, IdIn;
    BackOnce(att, up, o, i);
    OwnEntry(att, x, i - 1, nd.relays, nd.relays - {IdIn(att, i)}, i, i - 1, o);
  }

  lemma Dropped(att: Attempt, up: set<Addr>, lead: Option<Lead>, o: seq<Addr>, x: Addr, ga: Track, ga': Track,
                nd: NodeState, i: int)
    requires Sized(att) && ga.pos == NackFlying(i) && IsRelay(att, i) && i != 0 && i != Hops(att) && ga'.pos == Gone
             && IdIn(att, i) !in nd.relays
    requires OpenersOK(att, up, o, lead) && ComesBack(att, up, o, i) && FirstIn(Group(att, i - 1), up) == Some(x)
             && i <= |o| && o[i - 1] != x
    requires EntriesAt(att, x, nd.relays, i, o) && (x == att.sender ==> KeysAt(att, nd.acks, ga.pos, []))
    ensures PathResult(att, up, lead, x, o, o, ga, ga', [], nd.(relays := nd.relays - {IdIn(att, i)}), [])
  {
    hide ComesBack, EndLevel, Over, OpenersOK, EntriesAt, SameElsewhere, Group, Back, IdIn;
    assert nd.relays - {IdIn(att, i)} == nd.relays;
    DropsHere(att, up, lead, o, i);
    EntriesSame(att, x, nd.relays, i, o);
  }

  lemma StandsBefore(att: Attempt, up: set<Addr>, o: seq<Addr>, i: int, x: Addr, relays: map<Id, Nackstruct>)
    requires Sized(att) && ComesBack(att, up, o, i) && i != 0 && IsRelay(att, i - 1) && x in Group(att, i - 1)
    requires EntriesAt(att, x, relays, i, o)
    ensures 0 < i < |o| && (IdIn(att, i) in relays <==> o[i - 1] == x)
  {
    assert EntryAt(att, x, relays, i - 1, i, o);
  }

  /** The holder of the entry passes the NACK on. */
  lemma BackOnce(att: Attempt, up: set<Addr>, o: seq<Addr>, i: int)
    requires ComesBack(att, up, o, i) && IsRelay(att, i) && i != 0 && i != Hops(att)
             && FirstIn(Group(att, i - 1), up) == Some(o[i - 1])
    ensures ComesBack(att, up, o, i - 1)
  {
  }

  /** Anybody else drops it. */
  lemma DropsHere(att: Attempt, up: set<Addr>, lead: Option<Lead>, o: seq<Addr>, i: int)
    requires OpenersOK(att, up, o, lead) && ComesBack(att, up, o, i) && i != 0 && i != Hops(att)
    requires FirstIn(Group(att, i - 1), up) != Some(o[i - 1])
    ensures 0 < |o| <= Stations(att) && Over(att, up, o, []) && EndLevel(att, up, o) == i
  {
  }

  // ---- any step of the thread --------------------------------------------------------------

  /** The thread moves on along its path; a box that arrives adds its opener. */
  lemma PathStepLocal(att: Attempt, up: set<Addr>, lead: Option<Lead>, o: seq<Addr>, a: nat, ga: Track, ch: Chan,
                      x: Addr, nd: NodeState, t: Task, count: nat, ok: bool, order: seq<Addr>, now: int, nextTask: nat)
    returns (ga': Track, ch': Chan, accepts: bool)
    requires Here(att, a, ga, ch, x, nd, t, count) && ch.sent == [] && LeadOK(att, up, lead)
    requires t.Opened? ==> Shuffled(order, ParseAddresses(t.layer.Next))
    requires t.Opened? && lead.Some? && lead.value.who in ParseAddresses(t.layer.Next) ==>
               order != [] && order[0] == lead.value.who
    requires Dialled(t).Some? ==> (ok <==> Dialled(t).value in up)
    requires ga.pos.Flying? ==> Fits(att, ga.pos.i, nd.key)
    requires OpenersOK(att, up, o, lead) && ThreadAt(att, up, ga.pos, t, o, lead)
    requires EntriesAt(att, x, nd.relays, Level(att, up, o, ga.pos), o)
             && (x == att.sender ==> KeysAt(att, nd.acks, ga.pos, ch.sent))
    requires Counts(att, ga.pos, o, count)
    ensures var e := StepTask(nd, t, ok, order, now);
      && StepFits(att, a, ga, ga', ch, ch', x, nd, e, nextTask, count, accepts)
      && PathResult(att, up, lead, x, o, Onward(o, t), ga, ga', ch'.sent, e.node, e.next)
    ensures Counts(att, ga'.pos, Onward(o, t), count + if accepts then 1 else 0)
  {
    hide StepTask, StepFits, PathResult, OpenersOK, EntriesAt, KeysAt, AttemptOK, SeenPast, AcksOwn, RelaysOwn,
         ValidAttempt, LayerAt;
    ch', accepts := ch, false;
    if ga.pos.Flying? {
      ga', ch' := FlyingPath(att, up, lead, o, a, ga, ch, x, nd, t, count, ok, order, now, nextTask);
    } else if ga.pos.Opening? {
      ga', accepts := OpeningPath(att, up, lead, o, a, ga, ch, x, nd, t, count, ok, order, now, nextTask);
    } else if ga.pos.Sending? {
      ga' := SendingPath(att, up, lead, o, a, ga, ch, x, nd, t, count, ok, order, now, nextTask);
    } else if ga.pos.Giving? {
      ga' := GivingPath(att, up, lead, o, a, ga, ch, x, nd, t, count, ok, order, now, nextTask);
    } else if ga.pos.Nacking? {
      ga' := NackingPath(att, up, lead, o, a, ga, ch, x, nd, t, count, ok, order, now, nextTask);
    } else {
      ga', ch' := NackFlyingPath(att, up, lead, o, a, ga, ch, x, nd, t, count, ok, order, now, nextTask);
    }
    CountsOn(att, up, lead, ga, ch, t, o, count, ga', accepts);
  }

  lemma CountsOn(att: Attempt, up: set<Addr>, lead: Option<Lead>, ga: Track, ch: Chan, t: Task, o: seq<Addr>,
                 count: nat, ga': Track, accepts: bool)
    requires ValidAttempt(att) && AttemptOK(att, ga, ch, count) && TaskAt(att, ga.pos, t)
    requires ThreadAt(att, up, ga.pos, t, o, lead) && Counts(att, ga.pos, o, count)
    requires accepts ==> ga.pos == Opening(Hops(att) - 1)
    requires ga.pos.Flying? ==> ga'.pos == if ga.pos.i < Stations(att) - 1 then Opening(ga.pos.i) else Gone
    requires ga.pos.Opening? ==> ga'.pos == Sending(ga.pos.i)
    ensures Counts(att, ga'.pos, Onward(o, t), count + if accepts then 1 else 0)
  {
    hide LayerAt, Group, Unwound, BoxOK, ValidRoute, FreshIds;
  }

  /** The openers after a step of this task. */
  function Onward(o: seq<Addr>, t: Task): seq<Addr> {
    if t.Packet? && t.msg.Onion? then o + [t.dst] else o
  }

  // ---- the whole attempt -------------------------------------------------------------------

  /** Every reachable station still has the key it was sealed for. */
  ghost predicate KeysCurrent(s: State, att: Attempt, up: set<Addr>) {
    forall x :: x in s.nodes && x in up && Involved(att, x) ==> s.nodes[x].key == KeyFor(att.keyOf, x)
  }

  ghost predicate EntriesStand(s: State, att: Attempt, level: int, o: seq<Addr>) {
    forall x :: x in s.nodes && Involved(att, x) ==> EntriesAt(att, x, s.nodes[x].relays, level, o)
  }

  /** The send's own record of the attempt. */
  predicate PhaseAt(e: Send, a: nat, att: Attempt, up: set<Addr>, p: Pos, sent: seq<bool>, o: seq<Addr>) {
    && (p.AtStart? ==> e.phase.Launching? && FirstIn(e.phase.cands, up) == FirstIn(Group(att, 0), up))
    && (!p.Gone? ==> e.cur == Some(a))
    && (Active(p) ==> e.phase.Waiting?)
    && (p.Gone? && sent == [true] ==> e.cur == Some(a) && (e.phase.Waiting? || e.phase == Done(Acked)))
    && (p.Gone? && sent == [] && o != [] ==> e.cur == Some(a) && e.phase.Waiting?)
    && (p.Gone? && sent == [] && o == [] && HoldsKeys(e, a) ==> e.phase == Clearing(false))
    && (p.Gone? && sent == [false] && HoldsKeys(e, a) ==> e.phase.Waiting? || e.phase == Clearing(false))
  }

  ghost predicate Path(s: State, g: Ghost, a: nat, up: set<Addr>, o: seq<Addr>, lead: Option<Lead>) {
    && a < |s.attempts| == |g.at| == |s.chans|
    && var att, p, sent := s.attempts[a], g.at[a].pos, s.chans[a].sent;
    && LeadOK(att, up, lead) && OpenersOK(att, up, o, lead) && KeysCurrent(s, att, up)
    && (p.AtStart? ==> o == [])
    && (Active(p) ==> g.at[a].tid in s.tasks && ThreadAt(att, up, p, s.tasks[g.at[a].tid], o, lead))
    && (p.Gone? ==> Over(att, up, o, sent))
    && Counts(att, p, o, Accepted(s.accepted, att))
    && EntriesStand(s, att, Level(att, up, o, p), o)
    && att.send < |s.sends| && PhaseAt(s.sends[att.send], a, att, up, p, sent, o)
    && att.sender in s.nodes && KeysNow(att, s.nodes[att.sender].acks, p, sent, HoldsKeys(s.sends[att.send], a))
  }

  /** The shuffle of the group before the lead's puts the lead first. */
  ghost predicate Follows(s: State, l: Label, a: nat, lead: Option<Lead>)
    requires a < |s.attempts|
  {
    (lead.Some? && l.Run? && l.t in s.tasks && s.tasks[l.t].Opened? && Carries(s.attempts[a], s.tasks[l.t])
     && lead.value.who in ParseAddresses(s.tasks[l.t].layer.Next))
    ==> l.order != [] && l.order[0] == lead.value.who
  }

  /** The openers after step l. */
  ghost function NextOpeners(s: State, l: Label, a: nat, o: seq<Addr>): seq<Addr>
    requires a < |s.attempts|
  {
    if l.Run? && l.t in s.tasks && Carries(s.attempts[a], s.tasks[l.t]) then Onward(o, s.tasks[l.t]) else o
  }

  /** A move whose result satisfies what is asked of the track, the channel, the next task and the node. */
  ghost predicate OwnMove(s: State, s': State, t: nat, x: Addr, a: nat, ga: Track, ga': Track, ch': Chan, e: Effect,
                          accepts: bool)
    requires a < |s.attempts| == |s.chans| && x in s.nodes && t in s.tasks
  {
    && IsMove(s, s', t, x, e.node, e.next, a, ch', accepts)
    && StepFits(s.attempts[a], a, ga, ga', s.chans[a], ch', x, s.nodes[x], e, s.nextTask,
                Accepted(s.accepted, s.attempts[a]), accepts)
    && e.node.key == s.nodes[x].key
  }

  lemma OwnMoveKeeps(s: State, g: Ghost, s': State, t: nat, x: Addr, a: nat, ga': Track, ch': Chan, e: Effect,
                     accepts: bool)
    returns (g': Ghost)
    requires Inv(s, g) && t in s.tasks && g.owner[t] == a && x in s.nodes
    requires OwnMove(s, s', t, x, a, g.at[a], ga', ch', e, accepts)
    ensures Inv(s', g') && g'.at == g.at[a := ga']
  {
    Move(s, g, s', t, x, e.node, e.next, a, ga', ch', accepts);
    g' := MovedGhost(g, t, s.nextTask, e.next, a, ga');
  }

  ghost predicate PathMove(s: State, s': State, t: nat, x: Addr, a: nat, ga: Track, up: set<Addr>, o: seq<Addr>,
                           o': seq<Addr>, lead: Option<Lead>)
    requires a < |s.attempts| == |s.chans| && x in s.nodes && t in s.tasks
  {
    exists e: Effect, ga': Track, ch': Chan, accepts: bool ::
      && OwnMove(s, s', t, x, a, ga, ga', ch', e, accepts)
      && PathResult(s.attempts[a], up, lead, x, o, o', ga, ga', ch'.sent, e.node, e.next)
      && Counts(s.attempts[a], ga'.pos, o', Accepted(s.accepted, s.attempts[a]) + if accepts then 1 else 0)
  }

  lemma PathCanMove(s: State, l: Label, x: Addr, a: nat, ga: Track, up: set<Addr>, o: seq<Addr>, lead: Option<Lead>)
    requires l.Run? && Enabled(s, l) && x == Place(s.tasks[l.t])
    requires a < |s.attempts| == |s.chans| && s.chans[a] == Chan(None, []) && LeadOK(s.attempts[a], up, lead)
    requires Here(s.attempts[a], a, ga, s.chans[a], x, s.nodes[x], s.tasks[l.t], Accepted(s.accepted, s.attempts[a]))
    requires s.tasks[l.t].Opened? && lead.Some? && lead.value.who in ParseAddresses(s.tasks[l.t].layer.Next) ==>
               l.order != [] && l.order[0] == lead.value.who
    requires Dialled(s.tasks[l.t]).Some? ==> (l.ok <==> Dialled(s.tasks[l.t]).value in up)
    requires ga.pos.Flying? ==> Fits(s.attempts[a], ga.pos.i, s.nodes[x].key)
    requires OpenersOK(s.attempts[a], up, o, lead) && ThreadAt(s.attempts[a], up, ga.pos, s.tasks[l.t], o, lead)
    requires EntriesAt(s.attempts[a], x, s.nodes[x].relays, Level(s.attempts[a], up, o, ga.pos), o)
    requires x == s.attempts[a].sender ==> KeysAt(s.attempts[a], s.nodes[x].acks, ga.pos, [])
    requires Counts(s.attempts[a], ga.pos, o, Accepted(s.accepted, s.attempts[a]))
    ensures PathMove(s, Next(s, l), l.t, x, a, ga, up, o, Onward(o, s.tasks[l.t]), lead)
  {
    hide StepTask, StepFits, PathResult, OpenersOK, EntriesAt, KeysAt, AttemptOK, SeenPast, AcksOwn, RelaysOwn,
         ValidAttempt, ThreadAt, TaskAt,
         IsMove, RunTask, LeadOK;
    var att := s.attempts[a];
    var ga', ch', accepts := PathStepLocal(att, up, lead, o, a, ga, s.chans[a], x, s.nodes[x], s.tasks[l.t],
                                           Accepted(s.accepted, att),
                                           l.ok, l.order, l.now, s.nextTask);
    FitsIsMove(s, l.t, l.ok, l.order, l.now, a, ga, ga', ch', accepts);
    TaskKey(s.nodes[x], s.tasks[l.t], l.ok, l.order, l.now);
    var e := StepTask(s.nodes[x], s.tasks[l.t], l.ok, l.order, l.now);
    assert OwnMove(s, Next(s, l), l.t, x, a, ga, ga', ch', e, accepts);
  }

  lemma PathMoved(s: State, g: Ghost, s': State, t: nat, x: Addr, a: nat, up: set<Addr>, o: seq<Addr>, o': seq<Addr>,
                  lead: Option<Lead>)
    returns (g': Ghost)
    requires Inv(s, g) && t in s.tasks && g.owner[t] == a && x in s.nodes && Path(s, g, a, up, o, lead)
    requires PathMove(s, s', t, x, a, g.at[a], up, o, o', lead)
    ensures Inv(s', g') && Path(s', g', a, up, o', lead)
  {
    hide RelaysOK, SeenOK, AcksOK, AcceptedOK, SendsOK, TracksOK, PathResult, TaskAt, StepFits, IsMove;
    var e: Effect, ga': Track, ch': Chan, accepts: bool :|
      && OwnMove(s, s', t, x, a, g.at[a], ga', ch', e, accepts)
      && PathResult(s.attempts[a], up, lead, x, o, o', g.at[a], ga', ch'.sent, e.node, e.next)
      && Counts(s.attempts[a], ga'.pos, o', Accepted(s.accepted, s.attempts[a]) + if accepts then 1 else 0);
    g' := OwnMoveKeeps(s, g, s', t, x, a, ga', ch', e, accepts);
    PathAfterMove(s, g, s', g', t, x, a, up, o, o', lead, e, ga', ch', accepts);
  }

  lemma PathAfterMove(s: State, g: Ghost, s': State, g': Ghost, t: nat, x: Addr, a: nat, up: set<Addr>, o: seq<Addr>,
                      o': seq<Addr>, lead: Option<Lead>, e: Effect, ga': Track, ch': Chan, accepts: bool)
    requires Path(s, g, a, up, o, lead) && t in s.tasks && x in s.nodes && Active(g.at[a].pos)
    requires OwnMove(s, s', t, x, a, g.at[a], ga', ch', e, accepts)
    requires PathResult(s.attempts[a], up, lead, x, o, o', g.at[a], ga', ch'.sent, e.node, e.next)
    requires Counts(s.attempts[a], ga'.pos, o', Accepted(s.accepted, s.attempts[a]) + if accepts then 1 else 0)
    requires g'.at == g.at[a := ga']
    ensures Path(s', g', a, up, o', lead)
  {
    hide Over, OpenersOK, LeadOK, ThreadAt, EntriesAt, EntriesStand, SameElsewhere, Level, TaskAt, AttemptOK;
    MovedEntries(s, s', s.attempts[a], x, Level(s.attempts[a], up, o, g.at[a].pos), o,
                 Level(s.attempts[a], up, o', ga'.pos), o', e.node);
  }

  lemma MovedEntries(s: State, s': State, att: Attempt, x: Addr, level: int, o: seq<Addr>, level': int, o': seq<Addr>,
                     nd': NodeState)
    requires EntriesStand(s, att, level, o) && x in s.nodes && s'.nodes == s.nodes[x := nd']
    requires EntriesAt(att, x, nd'.relays, level', o') && SameElsewhere(att, x, level, o, level', o')
    ensures EntriesStand(s', att, level', o')
  {
    forall y | y in s'.nodes && Involved(att, y)
      ensures EntriesAt(att, y, s'.nodes[y].relays, level', o')
    {
      if y != x {
        forall l
          ensures EntryAt(att, y, s.nodes[y].relays, l, level', o')
        {
          assert EntryAt(att, y, s.nodes[y].relays, l, level, o);
        }
      }
    }
  }

  // ---- its own steps -----------------------------------------------------------------------

  lemma PathFits(s: State, g: Ghost, t: nat, a: nat, up: set<Addr>, o: seq<Addr>, lead: Option<Lead>)
    requires Inv(s, g) && t in s.tasks && g.owner[t] == a && g.at[a].pos.Flying? && Path(s, g, a, up, o, lead)
             && Place(s.tasks[t]) in s.nodes
    ensures Fits(s.attempts[a], g.at[a].pos.i, s.nodes[Place(s.tasks[t])].key)
  {
    hide RelaysOK, SeenOK, AcksOK, AcceptedOK, SendsOK, TracksOK, EntriesStand, OpenersOK, LeadOK;
    var att, x, i := s.attempts[a], Place(s.tasks[t]), g.at[a].pos.i;
    assert x in Group(att, i) && x in up;
    assert Involved(att, x);
    FitsMember(att, i, x);
  }

  lemma PathRun(s: State, g: Ghost, l: Label, a: nat, up: set<Addr>, o: seq<Addr>, lead: Option<Lead>)
    returns (g': Ghost)
    requires Enabled(s, l) && l.Run? && a < |s.attempts| && l.t in g.owner && g.owner[l.t] == a
    requires Inv(s, g) && Path(s, g, a, up, o, lead) && Calm(s, l, a, up) && Follows(s, l, a, lead)
    ensures Inv(Next(s, l), g') && Path(Next(s, l), g', a, up, NextOpeners(s, l, a, o), lead)
  {
    hide Inv, Next, Here, Carries, Path;
    InvSizes(s, g);
    HereHolds(s, g, l.t);
    var x := Place(s.tasks[l.t]);
    OwnThread(s, g, l.t, x, a, up, o, lead);
    PathCanMove(s, l, x, a, g.at[a], up, o, lead);
    g' := PathMoved(s, g, Next(s, l), l.t, x, a, up, o, NextOpeners(s, l, a, o), lead);
  }

  /** What the path says to the thread about to step. */
  lemma OwnThread(s: State, g: Ghost, t: nat, x: Addr, a: nat, up: set<Addr>, o: seq<Addr>, lead: Option<Lead>)
    requires t in s.tasks && t in g.owner && g.owner[t] == a && a < |s.attempts| && x == Place(s.tasks[t])
             && x in s.nodes
    requires Inv(s, g) && Path(s, g, a, up, o, lead)
    ensures |g.at| == |s.attempts| == |s.chans| && Carries(s.attempts[a], s.tasks[t])
    ensures var att, p := s.attempts[a], g.at[a].pos;
      && LeadOK(att, up, lead) && OpenersOK(att, up, o, lead) && ThreadAt(att, up, p, s.tasks[t], o, lead)
      && (p.Flying? ==> 0 <= p.i < Stations(att) && Fits(att, p.i, s.nodes[x].key))
      && EntriesAt(att, x, s.nodes[x].relays, Level(att, up, o, p), o)
         && (x == att.sender ==> KeysAt(att, s.nodes[x].acks, p, s.chans[a].sent))
      && Counts(att, p, o, Accepted(s.accepted, att))
  {
    hide TracksOK, RelaysOK, SeenOK, AcksOK, AcceptedOK, SendsOK, TaskAt, OpenersOK, ThreadAt, EntriesAt, Level, LeadOK,
         Over, KeysAt, KeysCurrent, Counts,
         ValidAttempt, Carries, Involved;
    OwnerCarries(s, g, t, a);
    PlaceInvolved(s.attempts[a], g.at[a].pos, s.tasks[t]);
    if g.at[a].pos.Flying? {
      PathFits(s, g, t, a, up, o, lead);
      FlyingIn(s.attempts[a], g.at[a].pos, s.tasks[t]);
    }
  }

  lemma FlyingIn(att: Attempt, p: Pos, t: Task)
    requires Sized(att) && TaskAt(att, p, t) && p.Flying?
    ensures 0 <= p.i < Stations(att)
  {
  }

  lemma PathDial(s: State, g: Ghost, l: Label, a: nat, up: set<Addr>, o: seq<Addr>, lead: Option<Lead>)
    returns (g': Ghost)
    requires Inv(s, g) && Path(s, g, a, up, o, lead) && Enabled(s, l) && Calm(s, l, a, up)
    requires l.Dial? && s.sends[l.x].cur == Some(a)
    ensures Inv(Next(s, l), g') && Path(Next(s, l), g', a, up, o, lead)
  {
    hide Calm;
    DialKeeps(s, g, l.x, l.ok);
    g' := DialGhost(s, g, l.x, l.ok);
    assert l.x == s.attempts[a].send;
    assert l.ok <==> s.sends[l.x].phase.cands[0] in up by { CalmDial(s, l, a, up); }
    PathDialled(s, g, l, a, up, o, lead);
  }

  lemma CalmDial(s: State, l: Label, a: nat, up: set<Addr>)
    requires a < |s.attempts| && Calm(s, l, a, up) && Enabled(s, l) && l.Dial? && s.sends[l.x].cur == Some(a)
    ensures l.ok <==> s.sends[l.x].phase.cands[0] in up
  {
  }

  lemma PathDialled(s: State, g: Ghost, l: Label, a: nat, up: set<Addr>, o: seq<Addr>, lead: Option<Lead>)
    requires Path(s, g, a, up, o, lead) && Enabled(s, l) && l.Dial? && (l.ok <==> s.sends[l.x].phase.cands[0] in up)
    requires l.x == s.attempts[a].send && SendOK(s, g, l.x) && s.sends[l.x].cur == Some(a)
    ensures Path(Next(s, l), DialGhost(s, g, l.x, l.ok), a, up, o, lead)
  {
    hide Path, Enabled, SendOK, Next, DialGhost;
    if l.ok {
      PathReached(s, g, l, a, up, o, lead);
    } else {
      PathMissed(s, g, l, a, up, o, lead);
    }
  }

  /** Somebody of the first group answers. */
  lemma PathReached(s: State, g: Ghost, l: Label, a: nat, up: set<Addr>, o: seq<Addr>, lead: Option<Lead>)
    requires Path(s, g, a, up, o, lead) && Enabled(s, l) && l.Dial? && l.ok && s.sends[l.x].phase.cands[0] in up
    requires l.x == s.attempts[a].send && SendOK(s, g, l.x) && s.sends[l.x].cur == Some(a)
    ensures Path(Next(s, l), DialGhost(s, g, l.x, l.ok), a, up, o, lead)
  {
    hide OpenersOK, EntriesStand, KeysCurrent, Group, LayerAt, BoxOK, IdIn, AttemptOK, Over;
    SameNodes(s, Next(s, l), s.attempts[a], up, o);
  }

  lemma PathMissed(s: State, g: Ghost, l: Label, a: nat, up: set<Addr>, o: seq<Addr>, lead: Option<Lead>)
    requires Path(s, g, a, up, o, lead) && Enabled(s, l) && l.Dial? && !l.ok && s.sends[l.x].phase.cands[0] !in up
    requires l.x == s.attempts[a].send && SendOK(s, g, l.x) && s.sends[l.x].cur == Some(a)
    ensures Path(Next(s, l), DialGhost(s, g, l.x, l.ok), a, up, o, lead)
  {
    hide OpenersOK, EntriesStand, KeysCurrent, Group, LayerAt, BoxOK, IdIn, AttemptOK, ThreadAt;
    SameNodes(s, Next(s, l), s.attempts[a], up, o);
    MeetsRest(s.sends[l.x].phase.cands, up);
  }

  lemma SameNodes(s: State, s': State, att: Attempt, up: set<Addr>, o: seq<Addr>)
    requires s'.nodes == s.nodes
    ensures KeysCurrent(s, att, up) ==> KeysCurrent(s', att, up)
    ensures forall level :: EntriesStand(s, att, level, o) ==> EntriesStand(s', att, level, o)
  {
    hide EntriesAt;
  }

  /** The keys are cleared after the attempt has ended without an acknowledgement. */
  lemma PathClear(s: State, g: Ghost, l: Label, a: nat, up: set<Addr>, o: seq<Addr>, lead: Option<Lead>)
    requires Inv(s, g) && Path(s, g, a, up, o, lead) && Enabled(s, l) && l.Clear? && s.sends[l.x].cur == Some(a)
    ensures Inv(Next(s, l), g) && Path(Next(s, l), g, a, up, o, lead)
  {
    QuietInv(s, g, l);
    PathCleared(s, g, l, a, up, o, lead);
  }

  lemma PathCleared(s: State, g: Ghost, l: Label, a: nat, up: set<Addr>, o: seq<Addr>, lead: Option<Lead>)
    requires Path(s, g, a, up, o, lead) && Enabled(s, l) && l.Clear? && SendOK(s, g, l.x)
    requires s.sends[l.x].cur == Some(a) && s.sends[l.x].sender == s.attempts[a].sender
    ensures Path(Next(s, l), g, a, up, o, lead)
  {
    hide OpenersOK, EntriesAt, LeadOK, Level, Over, Counts, ThreadAt;
  }

  // ---- steps of others ---------------------------------------------------------------------

  lemma NodesStay(s: State, l: Label)
    requires Enabled(s, l)
    ensures Next(s, l).nodes.Keys == s.nodes.Keys
  {
    hide StepTask, AttemptOnion;
  }

  /** The send is left alone, or its waiter receives the value. */
  lemma SendStays(s: State, l: Label, a: nat, up: set<Addr>, x: nat)
    requires a < |s.attempts| && Enabled(s, l) && Calm(s, l, a, up) && !OwnStep(s, l, a)
    requires x < |s.sends| && s.sends[x].cur == Some(a) && !s.sends[x].phase.Ready?
             && Involved(s.attempts[a], s.sends[x].sender)
    ensures x < |Next(s, l).sends|
    ensures Next(s, l).sends[x] == s.sends[x]
            || (s.sends[x].phase.Waiting? && a < |s.chans| && s.chans[a].buf.Some?
                && Next(s, l).sends[x] == s.sends[x].(phase := if s.chans[a].buf.value then Done(Acked)
                                                      else Clearing(false)))
  {
    hide StepTask, AttemptOnion, Involved;
  }

  lemma PathPhase(s: State, g: Ghost, l: Label, a: nat, up: set<Addr>, o: seq<Addr>, lead: Option<Lead>)
    requires Inv(s, g) && Path(s, g, a, up, o, lead) && Enabled(s, l) && Calm(s, l, a, up) && !OwnStep(s, l, a)
    ensures var att, s' := s.attempts[a], Next(s, l);
      && att.send < |s'.sends| && PhaseAt(s'.sends[att.send], a, att, up, g.at[a].pos, s.chans[a].sent, o)
      && (s.chans[a].sent != [true] ==> (HoldsKeys(s'.sends[att.send], a) <==> HoldsKeys(s.sends[att.send], a)))
  {
    hide TasksOK, RelaysOK, SeenOK, AcksOK, AcceptedOK, TaskAt, PosOK, Accepted, BoxOK, EntriesStand, OpenersOK,
         KeysCurrent, LeadOK, Next, Calm, Enabled;
    var x := s.attempts[a].send;
    assert SendOK(s, g, x);
    assert AttemptOK(s.attempts[a], g.at[a], s.chans[a], Accepted(s.accepted, s.attempts[a]));
    assert s.attempts[a].sender in Group(s.attempts[a], Stations(s.attempts[a]) - 1);
    SendsGrow(s, l);
    if s.sends[x].cur == Some(a) && !s.sends[x].phase.Ready? {
      SendStays(s, l, a, up, x);
    } else {
      KeysStayGone(s, l, a, x);
    }
  }

  /** Once a send has let go of an attempt it never takes it up again. */
  lemma KeysStayGone(s: State, l: Label, a: nat, x: nat)
    requires Enabled(s, l) && a < |s.attempts| && x < |s.sends|
             && (s.sends[x].cur != Some(a) || s.sends[x].phase.Ready?)
    ensures x < |Next(s, l).sends| && !HoldsKeys(Next(s, l).sends[x], a)
    ensures Next(s, l).sends[x].cur == s.sends[x].cur || Next(s, l).sends[x].cur != Some(a)
  {
    hide StepTask, AttemptOnion, ValidRoute, FreshIds, Unused, HasKeys;
  }

  lemma SendsGrow(s: State, l: Label)
    requires Enabled(s, l)
    ensures |s.sends| <= |Next(s, l).sends|
  {
    hide StepTask, AttemptOnion;
  }

  lemma PathUntouched(s: State, g: Ghost, s': State, g': Ghost, a: nat, up: set<Addr>, o: seq<Addr>, lead: Option<Lead>)
    requires Path(s, g, a, up, o, lead) && Untouched(s, g, s', g', a) && ValidAttempt(s.attempts[a])
             && s'.nodes.Keys == s.nodes.Keys
    requires var att := s.attempts[a];
      && att.send < |s'.sends| && PhaseAt(s'.sends[att.send], a, att, up, g.at[a].pos, s.chans[a].sent, o)
      && (s.chans[a].sent != [true] ==> (HoldsKeys(s'.sends[att.send], a) <==> HoldsKeys(s.sends[att.send], a)))
    ensures Path(s', g', a, up, o, lead)
  {
    hide OpenersOK, LeadOK, Level, Over, ThreadAt, BoxOK, ValidRoute;
    var att := s.attempts[a];
    assert att.sender in Group(att, Stations(att) - 1);
    assert att.msgID in IdsOf(att) && att.nacks[0] in IdsOf(att);
    assert s'.attempts[a] == att;
    assert Involved(att, att.sender);
    UntouchedEntries(s, g, s', g', a, Level(att, up, o, g.at[a].pos), o);
  }

  lemma UntouchedEntries(s: State, g: Ghost, s': State, g': Ghost, a: nat, level: int, o: seq<Addr>)
    requires Untouched(s, g, s', g', a) && ValidAttempt(s.attempts[a]) && s'.nodes.Keys == s.nodes.Keys
    requires EntriesStand(s, s.attempts[a], level, o)
    ensures EntriesStand(s', s.attempts[a], level, o)
  {
    hide ValidRoute, FreshIds, BoxOK;
    var att := s.attempts[a];
    forall x, l | x in s'.nodes && Involved(att, x)
      ensures EntryAt(att, x, s'.nodes[x].relays, l, level, o)
    {
      assert EntryAt(att, x, s.nodes[x].relays, l, level, o);
      if IsRelay(att, l) {
        IdInOwn(att, l + 1);
        assert SameKey(s.nodes[x], s'.nodes[x], IdIn(att, l + 1));
      }
    }
  }

  // ---- any calm step -----------------------------------------------------------------------

  lemma PathStep(s: State, g: Ghost, l: Label, a: nat, up: set<Addr>, o: seq<Addr>, lead: Option<Lead>)
    returns (g': Ghost)
    requires Inv(s, g) && Path(s, g, a, up, o, lead) && Enabled(s, l) && Calm(s, l, a, up) && Follows(s, l, a, lead)
    ensures Inv(Next(s, l), g') && Path(Next(s, l), g', a, up, NextOpeners(s, l, a, o), lead)
  {
    hide Next, RelaysOK, SeenOK, AcksOK, AcceptedOK, SendsOK, TracksOK, TaskAt, Path, Follows;
    InvValid(s, g, a, up, o, lead);
    if l.Run? {
      OwnerCarries(s, g, l.t, a);
      if g.owner[l.t] == a {
        g' := PathRun(s, g, l, a, up, o, lead);
      } else {
        g' := OtherRun(s, g, l, a);
        PathOther(s, g, l, g', a, up, o, lead);
      }
    } else if l.Dial? && s.sends[l.x].cur == Some(a) {
      g' := PathDial(s, g, l, a, up, o, lead);
    } else if l.Clear? && s.sends[l.x].cur == Some(a) {
      PathClear(s, g, l, a, up, o, lead);
      g' := g;
    } else {
      g' := OtherQuiet(s, g, l, a);
      PathOther(s, g, l, g', a, up, o, lead);
    }
  }

  lemma PathOther(s: State, g: Ghost, l: Label, g': Ghost, a: nat, up: set<Addr>, o: seq<Addr>, lead: Option<Lead>)
    requires Inv(s, g) && Path(s, g, a, up, o, lead) && Enabled(s, l) && Calm(s, l, a, up) && !OwnStep(s, l, a)
    requires Untouched(s, g, Next(s, l), g', a)
    ensures Path(Next(s, l), g', a, up, NextOpeners(s, l, a, o), lead)
  {
    hide Next, RelaysOK, SeenOK, AcksOK, AcceptedOK, SendsOK, TracksOK, TasksOK, Path, Untouched;
    PathPhase(s, g, l, a, up, o, lead);
    NodesStay(s, l);
    InvValid(s, g, a, up, o, lead);
    PathUntouched(s, g, Next(s, l), g', a, up, o, lead);
  }

  lemma InvValid(s: State, g: Ghost, a: nat, up: set<Addr>, o: seq<Addr>, lead: Option<Lead>)
    requires Inv(s, g) && Path(s, g, a, up, o, lead)
    ensures a < |s.attempts| && ValidAttempt(s.attempts[a])
  {
  }

  // ---- from the launch on ------------------------------------------------------------------

  lemma NoEntriesYet(s: State, g: Ghost, a: nat)
    requires AttemptsOK(s) && |g.at| == |s.attempts| && RelaysOK(s, g) && a < |s.attempts|
             && g.at[a] == Track(AtStart, 0, 0)
    ensures EntriesStand(s, s.attempts[a], 0, [])
  {
    var att := s.attempts[a];
    forall x, l | x in s.nodes && Involved(att, x)
      ensures EntryAt(att, x, s.nodes[x].relays, l, 0, [])
    {
      RelaysLocal(s, g, a, x);
      if IsRelay(att, l) {
        IdInOwn(att, l + 1);
      }
    }
  }

  lemma PathLaunched(s: State, g: Ghost, l: Label, up: set<Addr>, lead: Option<Lead>)
    requires Inv(s, g) && Enabled(s, l) && l.Launch?
    requires var att := Next(s, l).attempts[|s.attempts|]; KeysCurrent(Next(s, l), att, up) && LeadOK(att, up, lead)
    ensures Inv(Next(s, l), LaunchGhost(g)) && Path(Next(s, l), LaunchGhost(g), |s.attempts|, up, [], lead)
  {
    hide Inv, Path, KeysCurrent, LeadOK, AttemptOnion, FreshIds, Unused, ValidRoute;
    InvSizes(s, g);
    LaunchKeeps(s, g, l);
    FreshEntries(Next(s, l), LaunchGhost(g), |s.attempts|);
    PathBegins(s, g, l, up, lead);
  }

  lemma FreshEntries(s: State, g: Ghost, a: nat)
    requires Inv(s, g) && a < |s.attempts| && g.at[a] == Track(AtStart, 0, 0)
    ensures EntriesStand(s, s.attempts[a], 0, []) && |g.at| == |s.attempts| == |s.chans|
    ensures s.attempts[a].send < |s.sends| && Accepted(s.accepted, s.attempts[a]) == 0
  {
    hide EntriesStand, RelaysOK, SeenOK, AcksOK, AcceptedOK, SendsOK, TasksOK;
    NoEntriesYet(s, g, a);
    assert AttemptOK(s.attempts[a], g.at[a], s.chans[a], Accepted(s.accepted, s.attempts[a]));
  }

  lemma PathBegins(s: State, g: Ghost, l: Label, up: set<Addr>, lead: Option<Lead>)
    requires Enabled(s, l) && l.Launch? && |g.at| == |s.attempts| == |s.chans|
    requires var s', a := Next(s, l), |s.attempts|;
      var att := s'.attempts[a];
      && KeysCurrent(s', att, up) && LeadOK(att, up, lead) && EntriesStand(s', att, 0, [])
         && Accepted(s'.accepted, att) == 0
    ensures Path(Next(s, l), LaunchGhost(g), |s.attempts|, up, [], lead)
  {
    hide EntriesStand, KeysCurrent, LeadOK, AttemptOnion, FreshIds, Unused, Accepted;
  }

  /** Steps j + 1 to k - 1 are calm for a. */
  ghost predicate CalmFrom(states: seq<State>, labels: seq<Label>, j: nat, k: nat, a: nat, up: set<Addr>)
    requires |states| == |labels| + 1 && k <= |labels|
  {
    forall m :: j < m < k ==> a < |states[m].attempts| && Calm(states[m], labels[m], a, up)
  }

  ghost predicate FollowsFrom(states: seq<State>, labels: seq<Label>, j: nat, k: nat, a: nat, lead: Option<Lead>)
    requires |states| == |labels| + 1 && k <= |labels|
  {
    forall m :: j < m < k ==> a < |states[m].attempts| && Follows(states[m], labels[m], a, lead)
  }

  /** Who opened the boxes of attempt a, in order, in the steps before k. */
  ghost function Openers(states: seq<State>, labels: seq<Label>, a: nat, k: nat): seq<Addr>
    requires |states| == |labels| + 1 && k <= |labels|
  {
    if k == 0 then []
    else if a < |states[k - 1].attempts| then NextOpeners(states[k - 1], labels[k - 1], a,
                                                          Openers(states, labels, a, k - 1))
    else []
  }

  /** Some placing of the threads explains the state and has attempt a on its path. */
  ghost predicate OnPath(s: State, a: nat, up: set<Addr>, o: seq<Addr>, lead: Option<Lead>) {
    exists g :: Inv(s, g) && Path(s, g, a, up, o, lead)
  }

  lemma OnPathNext(s: State, l: Label, a: nat, up: set<Addr>, o: seq<Addr>, lead: Option<Lead>)
    requires a < |s.attempts| && OnPath(s, a, up, o, lead) && Enabled(s, l) && Calm(s, l, a, up)
             && Follows(s, l, a, lead)
    ensures OnPath(Next(s, l), a, up, NextOpeners(s, l, a, o), lead)
  {
    hide Next, Inv, Path, Calm, Follows;
    var g :| Inv(s, g) && Path(s, g, a, up, o, lead);
    var g' := PathStep(s, g, l, a, up, o, lead);
  }

  lemma {:induction false} PathRunInv(states: seq<State>, labels: seq<Label>, j: nat, k: nat, a: nat, up: set<Addr>,
                                      lead: Option<Lead>)
    requires IsRun(states, labels) && j < k <= |labels|
    requires labels[j].Launch? && a == |states[j].attempts| && a < |states[j + 1].attempts|
    requires KeysCurrent(states[j + 1], states[j + 1].attempts[a], up) && LeadOK(states[j + 1].attempts[a], up, lead)
    requires CalmFrom(states, labels, j, k, a, up) && FollowsFrom(states, labels, j, k, a, lead)
    ensures OnPath(states[k], a, up, Openers(states, labels, a, k), lead)
    decreases k
  {
    hide Next, Enabled, Inv, Path, Calm, Follows, KeysCurrent, LeadOK, NextOpeners;
    if k == j + 1 {
      var g := RunInv(states, labels, j);
      assert IsStep(states[j], labels[j], states[k]);
      PathLaunched(states[j], g, labels[j], up, lead);
    } else {
      PathRunInv(states, labels, j, k - 1, a, up, lead);
      assert IsStep(states[k - 1], labels[k - 1], states[k]);
      assert Calm(states[k - 1], labels[k - 1], a, up) && Follows(states[k - 1], labels[k - 1], a, lead);
      OnPathNext(states[k - 1], labels[k - 1], a, up, Openers(states, labels, a, k - 1), lead);
    }
  }
}
