/**
 Handler steps, one lemma for each place a thread can be at.
 */
module Steps {
  import opened Wrappers
  import opened Layers
  import opened Fragments
  import opened Handler
  import opened Protocol
  import opened Attempts
  import opened Invariant
  import opened Advance

  // ---- what the maps of one node say about one attempt -------------------------------------

  /** MsgIDs of the attempt in SeenMsgs belong to stations already passed. */
  ghost predicate SeenPast(att: Attempt, ga: Track, seen: map<string, int>) {
    forall i :: Sized(att) && 0 <= i < Stations(att) - 1 && MsgIdAt(att, i) in seen ==> i < ga.top
  }

  /** Identifiers of the attempt in PendingACKs are the sender's two, and lead to channel a. */
  ghost predicate AcksOwn(att: Attempt, a: nat, x: Addr, acks: map<Id, nat>) {
    forall k :: k in acks && k in IdsOf(att) ==> acks[k] == a && AckOf(att, x, k)
  }

  /** Identifiers of the attempt in PendingRelays stand for entries it has made at this node. */
  ghost predicate RelaysOwn(att: Attempt, ga: Track, x: Addr, relays: map<Id, Nackstruct>) {
    forall k :: k in relays && k in IdsOf(att) ==> exists j :: EntryOf(att, j, x, k, relays[k]) && Registered(ga, j)
  }

  lemma SeenLocal(s: State, g: Ghost, a: nat, x: Addr)
    requires AttemptsOK(s) && |g.at| == |s.attempts| && SeenOK(s, g) && a < |s.attempts| && x in s.nodes
    ensures SeenPast(s.attempts[a], g.at[a], s.nodes[x].seen)
  {
    var att := s.attempts[a];
    forall i | Sized(att) && 0 <= i < Stations(att) - 1 && MsgIdAt(att, i) in s.nodes[x].seen
      ensures i < g.at[a].top
    {
      var m := MsgIdAt(att, i);
      assert KnownMsg(s, g, m);
      var b, j :| 0 <= b < |s.attempts| && SeenOf(s.attempts[b], j, m) && j < g.at[b].top;
      if b != a {
        MsgIdApart(att, s.attempts[b], i, j);
      } else {
        MsgIdEqual(att, i, j);
      }
    }
  }

  lemma AcksLocal(s: State, a: nat, x: Addr)
    requires AttemptsOK(s) && AcksOK(s) && a < |s.attempts| && x in s.nodes
    ensures AcksOwn(s.attempts[a], a, x, s.nodes[x].acks)
  {
    var acks := s.nodes[x].acks;
    assert forall b :: 0 <= b < |s.attempts| && b != a ==> IdsOf(s.attempts[a]) !! IdsOf(s.attempts[b]);
    forall k | k in acks && k in IdsOf(s.attempts[a])
      ensures acks[k] == a && AckOf(s.attempts[a], x, k)
    {
      var c := acks[k];
      assert AckOf(s.attempts[c], x, k);
      assert k in IdsOf(s.attempts[c]);
    }
  }

  lemma RelaysLocal(s: State, g: Ghost, a: nat, x: Addr)
    requires AttemptsOK(s) && |g.at| == |s.attempts| && RelaysOK(s, g) && a < |s.attempts| && x in s.nodes
    ensures RelaysOwn(s.attempts[a], g.at[a], x, s.nodes[x].relays)
  {
    hide BoxOK, LayerAt, ValidRoute, FreshIds;
    var relays := s.nodes[x].relays;
    assert forall b :: 0 <= b < |s.attempts| && b != a ==> IdsOf(s.attempts[a]) !! IdsOf(s.attempts[b]);
    forall k | k in relays && k in IdsOf(s.attempts[a])
      ensures exists j :: EntryOf(s.attempts[a], j, x, k, relays[k]) && Registered(g.at[a], j)
    {
      assert KnownEntry(s, g, x, k, relays[k]);
      var b, j :| 0 <= b < |s.attempts| && EntryOf(s.attempts[b], j, x, k, relays[k]) && Registered(g.at[b], j);
      IdInOwn(s.attempts[b], j + 1);
    }
  }

  /** What a handler step of attempt a must look like. */
  ghost predicate StepFits(att: Attempt, a: nat, ga: Track, ga': Track, ch: Chan, ch': Chan, x: Addr, nd: NodeState,
                           e: Effect, nextTask: nat, count: nat, accepts: bool) {
    && GoodMove(att, ga, ga', ch, ch', x, nd, e.node, nextTask, e.next, count, accepts)
    && e.accepted == (if accepts then Some(AcceptOf(att)) else None)
    && ((e.notify == None && ch' == ch) || exists v :: e.notify == Some((a, v)) && ch' == Chan(Some(v), [v]))
  }

  /** The situation of a thread about to step. */
  ghost predicate Here(att: Attempt, a: nat, ga: Track, ch: Chan, x: Addr, nd: NodeState, t: Task, count: nat) {
    && ValidAttempt(att) && AttemptOK(att, ga, ch, count) && TaskAt(att, ga.pos, t) && x == Place(t)
    && SeenPast(att, ga, nd.seen) && AcksOwn(att, a, x, nd.acks) && RelaysOwn(att, ga, x, nd.relays)
  }

  // ---- a box arrives -----------------------------------------------------------------------

  /** A node whose key is none of those the box was sealed for drops it. */
  lemma LostBoxStep(att: Attempt, a: nat, ga: Track, ch: Chan, x: Addr, nd: NodeState, t: Task, count: nat,
                    ok: bool, order: seq<Addr>, now: int, nextTask: nat, i: int) returns (ga': Track)
    requires Here(att, a, ga, ch, x, nd, t, count) && ga.pos == Flying(i) && !Fits(att, i, nd.key)
    ensures ga' == Track(Gone, ga.top, 0)
    ensures StepTask(nd, t, ok, order, now) == Quiet(nd, [])
    ensures StepFits(att, a, ga, ga', ch, ch, x, nd, StepTask(nd, t, ok, order, now), nextTask, count, false)
  {
    ga' := Track(Gone, ga.top, 0);
    assert BoxOK(att, i);
    LostBoxMove(att, a, ga, ch, x, nd, count, nextTask, i);
  }

  lemma LostBoxMove(att: Attempt, a: nat, ga: Track, ch: Chan, x: Addr, nd: NodeState, count: nat, nextTask: nat,
                    i: int)
    requires AttemptOK(att, ga, ch, count) && ga.pos == Flying(i)
    ensures StepFits(att, a, ga, Track(Gone, ga.top, 0), ch, ch, x, nd, Quiet(nd, []), nextTask, count, false)
  {
  }

  /** A relay or the destination opens its layer: never taken for a replay. */
  lemma OpenStep(att: Attempt, a: nat, ga: Track, ch: Chan, x: Addr, nd: NodeState, t: Task, count: nat,
                 ok: bool, order: seq<Addr>, now: int, nextTask: nat, i: int) returns (ga': Track)
    requires Here(att, a, ga, ch, x, nd, t, count) && ga.pos == Flying(i) && i < Stations(att) - 1
             && Fits(att, i, nd.key)
    ensures LayerAt(att, i).MsgID !in nd.seen
    ensures ga' == Track(Opening(i), i + 1, nextTask)
    ensures StepTask(nd, t, ok, order, now) == Quiet(nd.(seen := nd.seen[LayerAt(att, i).MsgID := now]),
                                                     [Opened(x, LayerAt(att, i))])
    ensures StepFits(att, a, ga, ga', ch, ch, x, nd, StepTask(nd, t, ok, order, now), nextTask, count, false)
  {
    ga' := Track(Opening(i), i + 1, nextTask);
    OpenEffect(att, ga, nd, t, ok, order, now, i);
    OpenMove(att, a, ga, ch, x, nd, t, count, now, nextTask, i);
  }

  lemma OpenEffect(att: Attempt, ga: Track, nd: NodeState, t: Task, ok: bool, order: seq<Addr>, now: int, i: int)
    requires ValidAttempt(att) && 0 <= i < Stations(att) - 1 && TaskAt(att, Flying(i), t)
    requires SeenPast(att, ga, nd.seen) && ga.top == i && Fits(att, i, nd.key)
    ensures LayerAt(att, i).MsgID !in nd.seen
    ensures StepTask(nd, t, ok, order, now)
         == Quiet(nd.(seen := nd.seen[LayerAt(att, i).MsgID := now]), [Opened(t.dst, LayerAt(att, i))])
  {
    assert BoxOK(att, i);
    assert LayerAt(att, i).MsgID == MsgIdAt(att, i);
  }

  lemma OpenMove(att: Attempt, a: nat, ga: Track, ch: Chan, x: Addr, nd: NodeState, t: Task, count: nat,
                 now: int, nextTask: nat, i: int)
    requires Sized(att) && AttemptOK(att, ga, ch, count) && ga.pos == Flying(i) && i < Stations(att) - 1
    requires TaskAt(att, ga.pos, t) && x == t.dst
    ensures StepFits(att, a, ga, Track(Opening(i), i + 1, nextTask), ch, ch, x, nd,
                     Quiet(nd.(seen := nd.seen[LayerAt(att, i).MsgID := now]), [Opened(x, LayerAt(att, i))]),
                     nextTask, count, false)
  {
    assert SeenOf(att, i, LayerAt(att, i).MsgID);
  }

  /** The sender reads the acknowledgement. */
  lemma AckStep(att: Attempt, a: nat, ga: Track, ch: Chan, x: Addr, nd: NodeState, t: Task, count: nat,
                ok: bool, order: seq<Addr>, now: int, nextTask: nat) returns (ga': Track, ch': Chan)
    requires Here(att, a, ga, ch, x, nd, t, count) && ga.pos == Flying(Stations(att) - 1)
             && Fits(att, Stations(att) - 1, nd.key)
    ensures ga' == Track(Gone, Stations(att), 0)
    ensures ch' == if att.msgID in nd.acks then Chan(Some(true), [true]) else ch
    ensures var e := StepTask(nd, t, ok, order, now);
      && StepFits(att, a, ga, ga', ch, ch', x, nd, e, nextTask, count, false)
      && e.node == nd.(acks := nd.acks - {att.msgID})
  {
    ga' := Track(Gone, Stations(att), 0);
    ch' := if att.msgID in nd.acks then Chan(Some(true), [true]) else ch;
    assert BoxOK(att, Stations(att) - 1);
    assert att.msgID in IdsOf(att);
    var e := StepTask(nd, t, ok, order, now);
    if att.msgID in nd.acks {
      assert e.notify == Some((a, true));
    } else {
      assert nd.acks - {att.msgID} == nd.acks;
    }
  }

  // ---- a layer is processed ----------------------------------------------------------------

  /** The relay registers under a key not in use. */
  lemma RegisterStep(att: Attempt, a: nat, ga: Track, ch: Chan, x: Addr, nd: NodeState, t: Task, count: nat,
                     ok: bool, order: seq<Addr>, now: int, nextTask: nat, i: int) returns (ga': Track)
    requires Here(att, a, ga, ch, x, nd, t, count) && ga.pos == Opening(i) && IsRelay(att, i)
    requires Shuffled(order, ParseAddresses(t.layer.Next))
    ensures IdIn(att, i + 1) !in nd.relays
    ensures ga' == Track(Sending(i), i + 1, nextTask)
    ensures StepTask(nd, t, ok, order, now)
         == Quiet(nd.(relays := nd.relays[IdIn(att, i + 1) := Nackstruct(IdIn(att, i), JoinAddresses(Back(att, i)))]),
                  [Forward(x, order, LayerAt(att, i))])
    ensures Shuffled(order, Group(att, i + 1))
    ensures StepFits(att, a, ga, ga', ch, ch, x, nd, StepTask(nd, t, ok, order, now), nextTask, count, false)
  {
    ga' := Track(Sending(i), i + 1, nextTask);
    RegisterEffect(att, nd, t, ok, order, now, i);
    KeyNotInUse(att, ga, x, nd.relays, i);
    ShuffledAmong(order, Group(att, i + 1));
    RegisterMove(att, a, ga, ch, x, nd, count, order, nextTask, i);
  }

  lemma RegisterEffect(att: Attempt, nd: NodeState, t: Task, ok: bool, order: seq<Addr>, now: int, i: int)
    requires ValidAttempt(att) && IsRelay(att, i) && TaskAt(att, Opening(i), t)
    ensures StepTask(nd, t, ok, order, now)
         == Quiet(nd.(relays := nd.relays[IdIn(att, i + 1) := Nackstruct(IdIn(att, i), JoinAddresses(Back(att, i)))]),
                  [Forward(t.at, order, LayerAt(att, i))])
    ensures ParseAddresses(t.layer.Next) == Group(att, i + 1)
  {
    RelayLayerReads(att, i);
  }

  lemma KeyNotInUse(att: Attempt, ga: Track, x: Addr, relays: map<Id, Nackstruct>, i: int)
    requires ValidAttempt(att) && IsRelay(att, i) && x in Group(att, i) && ga.pos == Opening(i)
    requires RelaysOwn(att, ga, x, relays)
    ensures IdIn(att, i + 1) !in relays
  {
    var k := IdIn(att, i + 1);
    IdInOwn(att, i + 1);
    if k in relays {
      var j :| EntryOf(att, j, x, k, relays[k]) && Registered(ga, j);
      EntryKeyAtOwnGroup(att, i, j, x, relays[k]);
    }
  }

  lemma RegisterMove(att: Attempt, a: nat, ga: Track, ch: Chan, x: Addr, nd: NodeState, count: nat,
                     order: seq<Addr>, nextTask: nat, i: int)
    requires Sized(att) && AttemptOK(att, ga, ch, count) && ga.pos == Opening(i) && IsRelay(att, i)
    requires x in Group(att, i) && AmongAll(order, Group(att, i + 1))
    ensures StepFits(att, a, ga, Track(Sending(i), i + 1, nextTask), ch, ch, x, nd,
                     Quiet(nd.(relays := nd.relays[IdIn(att, i + 1) := Nackstruct(IdIn(att, i),
                         JoinAddresses(Back(att, i)))]),
                           [Forward(x, order, LayerAt(att, i))]),
                     nextTask, count, false)
  {
    assert EntryOf(att, i, x, IdIn(att, i + 1), Nackstruct(IdIn(att, i), JoinAddresses(Back(att, i))));
    assert Registered(Track(Sending(i), i + 1, nextTask), i);
  }

  lemma ShuffledAmong(order: seq<Addr>, group: seq<Addr>)
    requires Shuffled(order, group)
    ensures AmongAll(order, group) && |order| == |group|
    ensures forall a :: a in group ==> a in order
  {
    forall a | a in order
      ensures a in group
    {
      assert a in multiset(order);
    }
    forall a | a in group
      ensures a in order
    {
      assert a in multiset(group);
    }
    assert |multiset(order)| == |order|;
  }

  /** The destination takes the message. */
  lemma AcceptStep(att: Attempt, a: nat, ga: Track, ch: Chan, x: Addr, nd: NodeState, t: Task, count: nat,
                   ok: bool, order: seq<Addr>, now: int, nextTask: nat) returns (ga': Track)
    requires Here(att, a, ga, ch, x, nd, t, count) && ga.pos == Opening(Hops(att) - 1)
    requires Shuffled(order, ParseAddresses(t.layer.Next))
    ensures ga' == Track(Sending(Hops(att) - 1), Hops(att), nextTask)
    ensures StepFits(att, a, ga, ga', ch, ch, x, nd, StepTask(nd, t, ok, order, now), nextTask, count, true)
  {
    ga' := Track(Sending(Hops(att) - 1), Hops(att), nextTask);
    AcceptEffect(att, nd, t, ok, order, now);
    ShuffledAmong(order, Group(att, Hops(att)));
    AcceptMove(att, a, ga, ch, x, nd, count, order, nextTask, Deliver(nd.inbox, att.frag, att.message).value);
  }

  lemma AcceptMove(att: Attempt, a: nat, ga: Track, ch: Chan, x: Addr, nd: NodeState, count: nat,
                   order: seq<Addr>, nextTask: nat, inbox: Inbox)
    requires Sized(att) && AttemptOK(att, ga, ch, count) && ga.pos == Opening(Hops(att) - 1) && |att.relays| >= 1
    requires x == att.dest && AmongAll(order, Group(att, Hops(att)))
    ensures StepFits(att, a, ga, Track(Sending(Hops(att) - 1), Hops(att), nextTask), ch, ch, x, nd,
                     Effect(nd.(inbox := inbox), [Reply(x, order, LayerAt(att, Hops(att) - 1))], None,
                            Some(AcceptOf(att))),
                     nextTask, count, true)
  {
  }

  lemma AcceptEffect(att: Attempt, nd: NodeState, t: Task, ok: bool, order: seq<Addr>, now: int)
    requires ValidAttempt(att) && TaskAt(att, Opening(Hops(att) - 1), t)
    ensures Deliver(nd.inbox, att.frag, att.message).Some?
    ensures StepTask(nd, t, ok, order, now)
         == Effect(nd.(inbox := Deliver(nd.inbox, att.frag, att.message).value),
                   [Reply(t.at, order, LayerAt(att, Hops(att) - 1))], None, Some(AcceptOf(att)))
    ensures ParseAddresses(t.layer.Next) == Group(att, Hops(att))
  {
    FinalLayerReads(att);
  }

  // ---- dialling ----------------------------------------------------------------------------

  lemma DataIs(att: Attempt, i: int)
    requires Sized(att) && 0 <= i < Stations(att) - 1
    ensures LayerAt(att, i).Data == att.boxes[i + 1]
  {
  }

  lemma FinalFrom(att: Attempt)
    requires Sized(att)
    ensures ParseAddresses(LayerAt(att, Hops(att) - 1).From) == []
  {
  }

  lemma DialRelayStep(att: Attempt, a: nat, ga: Track, ch: Chan, x: Addr, nd: NodeState, t: Task, count: nat,
                      ok: bool, order: seq<Addr>, now: int, nextTask: nat, i: int) returns (ga': Track)
    requires Here(att, a, ga, ch, x, nd, t, count) && ga.pos == Sending(i) && IsRelay(att, i)
    ensures ga' == Track(if t.cands == [] then Giving(i) else if ok then Flying(i + 1) else Sending(i), i + 1, nextTask)
    ensures StepFits(att, a, ga, ga', ch, ch, x, nd, StepTask(nd, t, ok, order, now), nextTask, count, false)
  {
    hide BoxOK, ValidRoute, FreshIds, LayerAt, IdIn, Back, SeenPast, AcksOwn, RelaysOwn;
    DataIs(att, i);
    ga' := Track(if t.cands == [] then Giving(i) else if ok then Flying(i + 1) else Sending(i), i + 1, nextTask);
    if t.cands != [] {
      assert t.cands[0] in t.cands;
      assert forall c :: c in t.cands[1..] ==> c in t.cands;
    }
  }

  /** The destination's own failure has nobody to go to: its From field is empty. */
  lemma DialReplyStep(att: Attempt, a: nat, ga: Track, ch: Chan, x: Addr, nd: NodeState, t: Task, count: nat,
                      ok: bool, order: seq<Addr>, now: int, nextTask: nat) returns (ga': Track)
    requires Here(att, a, ga, ch, x, nd, t, count) && ga.pos == Sending(Hops(att) - 1)
    ensures ga' == Track(if t.cands == [] then Gone else if ok then Flying(Hops(att))
                         else Sending(Hops(att) - 1), Hops(att), nextTask)
    ensures StepFits(att, a, ga, ga', ch, ch, x, nd, StepTask(nd, t, ok, order, now), nextTask, count, false)
  {
    hide BoxOK, ValidRoute, FreshIds, LayerAt, IdIn, Back, SeenPast, AcksOwn, RelaysOwn;
    var n := Hops(att);
    DataIs(att, n - 1);
    FinalFrom(att);
    ga' := Track(if t.cands == [] then Gone else if ok then Flying(n) else Sending(n - 1), n, nextTask);
    if t.cands != [] {
      assert t.cands[0] in t.cands;
      assert forall c :: c in t.cands[1..] ==> c in t.cands;
    }
  }

  // ---- going back --------------------------------------------------------------------------

  lemma GiveUpStep(att: Attempt, a: nat, ga: Track, ch: Chan, x: Addr, nd: NodeState, t: Task, count: nat,
                   ok: bool, order: seq<Addr>, now: int, nextTask: nat, i: int) returns (ga': Track)
    requires Here(att, a, ga, ch, x, nd, t, count) && ga.pos == Giving(i)
    ensures ga' == Track(Nacking(i), ga.top, nextTask)
    ensures StepTask(nd, t, ok, order, now)
         == Quiet(nd.(relays := nd.relays - {IdIn(att, i + 1)}), [Propagate(x, Back(att, i), IdIn(att, i))])
    ensures StepFits(att, a, ga, ga', ch, ch, x, nd, StepTask(nd, t, ok, order, now), nextTask, count, false)
  {
    ga' := Track(Nacking(i), ga.top, nextTask);
    GiveUpEffect(att, nd, t, ok, order, now, i);
    BackOK(att, i);
    GiveUpMove(att, a, ga, ch, x, nd, count, nextTask, i);
  }

  lemma GiveUpEffect(att: Attempt, nd: NodeState, t: Task, ok: bool, order: seq<Addr>, now: int, i: int)
    requires ValidAttempt(att) && TaskAt(att, Giving(i), t)
    ensures StepTask(nd, t, ok, order, now)
         == Quiet(nd.(relays := nd.relays - {IdIn(att, i + 1)}), [Propagate(t.at, Back(att, i), IdIn(att, i))])
  {
    RelayLayerReads(att, i);
    BackOK(att, i);
  }

  lemma GiveUpMove(att: Attempt, a: nat, ga: Track, ch: Chan, x: Addr, nd: NodeState, count: nat, nextTask: nat, i: int)
    requires Sized(att) && AttemptOK(att, ga, ch, count) && ga.pos == Giving(i)
    requires x in Group(att, i) && Back(att, i) != []
    ensures StepFits(att, a, ga, Track(Nacking(i), ga.top, nextTask), ch, ch, x, nd,
                     Quiet(nd.(relays := nd.relays - {IdIn(att, i + 1)}), [Propagate(x, Back(att, i), IdIn(att, i))]),
                     nextTask, count, false)
  {
  }

  lemma PropagateStep(att: Attempt, a: nat, ga: Track, ch: Chan, x: Addr, nd: NodeState, t: Task, count: nat,
                      ok: bool, order: seq<Addr>, now: int, nextTask: nat, i: int) returns (ga': Track)
    requires Here(att, a, ga, ch, x, nd, t, count) && ga.pos == Nacking(i)
    ensures ga' == Track(if ok then NackFlying(i) else if |t.cands| == 1 then Gone else Nacking(i), ga.top, nextTask)
    ensures StepFits(att, a, ga, ga', ch, ch, x, nd, StepTask(nd, t, ok, order, now), nextTask, count, false)
  {
    hide BoxOK, LayerAt, MsgIdAt, ValidRoute, FreshIds;
    ga' := Track(if ok then NackFlying(i) else if |t.cands| == 1 then Gone else Nacking(i), ga.top, nextTask);
    assert t.cands[0] in t.cands;
    assert forall c :: c in t.cands[1..] ==> c in t.cands;
  }

  /** A NACK at the sender: station 0's reaches the channel, the one of the first return hop finds
      nothing registered. */
  lemma NackHomeStep(att: Attempt, a: nat, ga: Track, ch: Chan, x: Addr, nd: NodeState, t: Task, count: nat,
                     ok: bool, order: seq<Addr>, now: int, nextTask: nat, i: int) returns (ga': Track, ch': Chan)
    requires Here(att, a, ga, ch, x, nd, t, count) && ga.pos == NackFlying(i) && (i == 0 || i == Hops(att))
    ensures ga' == Track(Gone, ga.top, 0)
    ensures ch' == if i == 0 && att.nacks[0] in nd.acks then Chan(Some(false), [false]) else ch
    ensures var e := StepTask(nd, t, ok, order, now);
      && StepFits(att, a, ga, ga', ch, ch', x, nd, e, nextTask, count, false)
      && e.node == (if i == 0 then nd.(acks := nd.acks - {att.nacks[0]}) else nd)
    ensures StepTask(nd, t, ok, order, now).next == []
  {
    hide BoxOK, LayerAt, ValidRoute, FreshIds, StepTask, SeenPast;
    ga' := Track(Gone, ga.top, 0);
    ch' := if i == 0 && att.nacks[0] in nd.acks then Chan(Some(false), [false]) else ch;
    NackHomeEffect(att, a, ga, x, nd, t, ok, order, now, i);
    NackHomeMove(att, a, ga, ch, x, nd, count, nextTask, i);
    assert i == 0 && att.nacks[0] !in nd.acks ==> nd.acks - {att.nacks[0]} == nd.acks;
  }

  lemma NackHomeEffect(att: Attempt, a: nat, ga: Track, x: Addr, nd: NodeState, t: Task,
                       ok: bool, order: seq<Addr>, now: int, i: int)
    requires ValidAttempt(att) && TaskAt(att, NackFlying(i), t) && x == t.dst && (i == 0 || i == Hops(att))
    requires AcksOwn(att, a, x, nd.acks) && RelaysOwn(att, ga, x, nd.relays)
    ensures StepTask(nd, t, ok, order, now)
         == if i == 0 && att.nacks[0] in nd.acks then Effect(nd.(acks := nd.acks - {att.nacks[0]}), [],
                                                             Some((a, false)), None)
            else Quiet(nd, [])
  {
    hide BoxOK, LayerAt, ValidRoute, FreshIds, RelaysOwn, AcksOwn;
    SenderRelaysNothing(att, ga, x, nd, i);
    if IdIn(att, i) in nd.acks {
      SenderAck(att, a, x, nd.acks, i);
    }
  }

  lemma SenderAck(att: Attempt, a: nat, x: Addr, acks: map<Id, nat>, i: int)
    requires ValidAttempt(att) && (i == 0 || i == Hops(att)) && AcksOwn(att, a, x, acks) && IdIn(att, i) in acks
    ensures i == 0 && acks[IdIn(att, i)] == a
  {
    hide BoxOK, ValidRoute, FreshIds;
    IdInOwn(att, i);
    assert AckOf(att, x, IdIn(att, i));
    FirstNackOnly(att, i);
  }

  lemma SenderRelaysNothing(att: Attempt, ga: Track, x: Addr, nd: NodeState, i: int)
    requires ValidAttempt(att) && 0 <= i < Stations(att) && x == att.sender && RelaysOwn(att, ga, x, nd.relays)
    ensures IdIn(att, i) !in nd.relays
  {
    hide BoxOK, LayerAt, ValidRoute, FreshIds;
    var id := IdIn(att, i);
    IdInOwn(att, i);
    if id in nd.relays {
      var j :| EntryOf(att, j, x, id, nd.relays[id]) && Registered(ga, j);
      GroupOK(att, j);
      assert false;
    }
  }

  /** The identifier of the first return hop's NACK is not the sender's key. */
  lemma FirstNackOnly(att: Attempt, i: int)
    requires ValidAttempt(att) && (i == 0 || i == Hops(att)) && IdIn(att, i) == att.nacks[0]
    ensures i == 0
  {
    assert Hops(att) >= 2;
    IdInEqual(att, i, 0);
  }

  lemma NackHomeMove(att: Attempt, a: nat, ga: Track, ch: Chan, x: Addr, nd: NodeState, count: nat, nextTask: nat,
                     i: int)
    requires Sized(att) && AttemptOK(att, ga, ch, count) && ga.pos == NackFlying(i) && (i == 0 || i == Hops(att))
    ensures if i == 0 && att.nacks[0] in nd.acks
            then StepFits(att, a, ga, Track(Gone, ga.top, 0), ch, Chan(Some(false), [false]), x, nd,
                          Effect(nd.(acks := nd.acks - {att.nacks[0]}), [], Some((a, false)),
                                 None), nextTask, count, false)
            else StepFits(att, a, ga, Track(Gone, ga.top, 0), ch, ch, x, nd, Quiet(nd, []), nextTask, count, false)
  {
  }

  /** A NACK at a relay: the member holding the entry passes it on, any other drops it. */
  lemma NackRelayStep(att: Attempt, a: nat, ga: Track, ch: Chan, x: Addr, nd: NodeState, t: Task, count: nat,
                      ok: bool, order: seq<Addr>, now: int, nextTask: nat, i: int) returns (ga': Track)
    requires Here(att, a, ga, ch, x, nd, t, count) && ga.pos == NackFlying(i) && i != 0 && i != Hops(att)
    ensures ga' == Track(if IdIn(att, i) in nd.relays then Nacking(i - 1) else Gone, ga.top, nextTask)
    ensures var e := StepTask(nd, t, ok, order, now);
      && StepFits(att, a, ga, ga', ch, ch, x, nd, e, nextTask, count, false)
      && e.node == nd.(relays := nd.relays - {IdIn(att, i)})
      && (IdIn(att, i) in nd.relays ==> e.next == [Propagate(x, Back(att, i - 1), IdIn(att, i - 1))])
  {
    var id := IdIn(att, i);
    ga' := Track(if id in nd.relays then Nacking(i - 1) else Gone, ga.top, nextTask);
    NackRelayEffect(att, a, ga, x, nd, t, ok, order, now, i);
    if id in nd.relays {
      BackOK(att, i - 1);
    }
    NackRelayMove(att, a, ga, ga', ch, x, nd, count, nextTask, i);
  }

  lemma NackRelayEffect(att: Attempt, a: nat, ga: Track, x: Addr, nd: NodeState, t: Task,
                        ok: bool, order: seq<Addr>, now: int, i: int)
    requires ValidAttempt(att) && TaskAt(att, NackFlying(i), t) && x == t.dst && i != 0 && i != Hops(att)
    requires AcksOwn(att, a, x, nd.acks) && RelaysOwn(att, ga, x, nd.relays)
    ensures StepTask(nd, t, ok, order, now)
         == Quiet(nd.(relays := nd.relays - {IdIn(att, i)}),
                  if IdIn(att, i) in nd.relays then [Propagate(x, Back(att, i - 1), IdIn(att, i - 1))] else [])
  {
    var id := IdIn(att, i);
    NackRelayEntry(att, a, ga, x, nd, i);
    if id in nd.relays {
      BackOK(att, i - 1);
      ParseJoinAddresses(Back(att, i - 1));
    } else {
      assert nd.relays - {id} == nd.relays;
    }
  }

  lemma NackRelayEntry(att: Attempt, a: nat, ga: Track, x: Addr, nd: NodeState, i: int)
    requires ValidAttempt(att) && IsRelay(att, i) && i != 0 && i != Hops(att) && x in Back(att, i)
    requires AcksOwn(att, a, x, nd.acks) && RelaysOwn(att, ga, x, nd.relays)
    ensures IdIn(att, i) !in nd.acks
    ensures IdIn(att, i) in nd.relays ==>
              nd.relays[IdIn(att, i)] == Nackstruct(IdIn(att, i - 1), JoinAddresses(Back(att, i - 1)))
  {
    hide BoxOK, LayerAt, ValidRoute, FreshIds;
    var id := IdIn(att, i);
    IdInOwn(att, i);
    GroupOK(att, i - 1);
    assert id in nd.acks ==> AckOf(att, x, id);
    if id in nd.relays {
      var j :| EntryOf(att, j, x, id, nd.relays[id]) && Registered(ga, j);
      EntryKeyAtBack(att, i, j, x, nd.relays[id]);
    }
  }

  lemma NackRelayMove(att: Attempt, a: nat, ga: Track, ga': Track, ch: Chan, x: Addr, nd: NodeState, count: nat,
                      nextTask: nat, i: int)
    requires Sized(att) && AttemptOK(att, ga, ch, count) && ga.pos == NackFlying(i) && i != 0 && i != Hops(att)
    requires x in Group(att, i - 1)
    requires IdIn(att, i) in nd.relays ==> Back(att, i - 1) != []
    requires ga' == Track(if IdIn(att, i) in nd.relays then Nacking(i - 1) else Gone, ga.top, nextTask)
    ensures StepFits(att, a, ga, ga', ch, ch, x, nd,
                     Quiet(nd.(relays := nd.relays - {IdIn(att, i)}),
                           if IdIn(att, i) in nd.relays then [Propagate(x, Back(att, i - 1), IdIn(att, i - 1))]
                              else []),
                     nextTask, count, false)
  {
  }
}
