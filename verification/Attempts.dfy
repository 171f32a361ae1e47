/**
 Facts about one attempt: how its identifiers, groups and layers hang together.
 */
module Attempts {
  import opened Wrappers
  import opened Strings
  import opened Layers
  import opened Encapsulation
  import opened Handler
  import opened Protocol

  // ---- identifiers -------------------------------------------------------------------------

  /** The same identifier serves two stations only when they mirror each other. */
  lemma IdInEqual(att: Attempt, i: int, j: int)
    requires ValidAttempt(att) && 0 <= i < Stations(att) && 0 <= j < Stations(att)
    requires IdIn(att, i) == IdIn(att, j)
    ensures i == j || i + j == Stations(att) - 1
  {
    var n := Hops(att);
    var p := if i < n then i else Stations(att) - 1 - i;
    var q := if j < n then j else Stations(att) - 1 - j;
    assert att.nacks[p] == att.nacks[q];
  }

  lemma IdInOwn(att: Attempt, i: int)
    requires ValidAttempt(att) && 0 <= i < Stations(att)
    ensures IdIn(att, i) in IdsOf(att) && IdIn(att, i) in att.nacks && ColonFree(IdIn(att, i))
            && IdIn(att, i) != att.msgID
  {
    var n := Hops(att);
    var p := if i < n then i else Stations(att) - 1 - i;
    assert IdIn(att, i) == att.nacks[p];
  }

  lemma PairIdEqual(a: Id, b: Id, c: Id, d: Id)
    requires ColonFree(a) && ColonFree(c)
    ensures PairId(a, b) == PairId(c, d) ==> a == c && b == d
  {
    IndexOfPrefix(a, ':', b);
    IndexOfPrefix(c, ':', d);
    assert PairId(a, b)[..|a|] == a && PairId(a, b)[|a| + 1..] == b;
    assert PairId(c, d)[..|c|] == c && PairId(c, d)[|c| + 1..] == d;
  }

  lemma PairIdHasColon(a: Id, b: Id)
    ensures !ColonFree(PairId(a, b))
  {
    assert PairId(a, b)[|a|] == ':';
  }

  /** No two stations of an attempt share a MsgID: the forward pair of a relay differs from its
      return pair, and both from the destination's. */
  lemma MsgIdEqual(att: Attempt, i: int, j: int)
    requires ValidAttempt(att) && 0 <= i < Stations(att) - 1 && 0 <= j < Stations(att) - 1
    requires MsgIdAt(att, i) == MsgIdAt(att, j)
    ensures i == j
  {
    var n := Hops(att);
    forall k | 0 <= k < Stations(att) - 1 && k != n - 1
      ensures !ColonFree(MsgIdAt(att, k))
    {
      PairIdHasColon(IdIn(att, k), IdIn(att, k + 1));
    }
    if i != n - 1 && j != n - 1 {
      IdInOwn(att, i);
      IdInOwn(att, j);
      PairIdEqual(IdIn(att, i), IdIn(att, i + 1), IdIn(att, j), IdIn(att, j + 1));
      IdInEqual(att, i, j);
      IdInEqual(att, i + 1, j + 1);
    }
  }

  /** Two attempts with fresh identifiers never share one. */
  lemma MsgIdApart(att: Attempt, bt: Attempt, i: int, j: int)
    requires ValidAttempt(att) && ValidAttempt(bt) && IdsOf(att) !! IdsOf(bt)
    requires 0 <= i < Stations(att) && 0 <= j < Stations(bt)
    ensures MsgIdAt(att, i) != MsgIdAt(bt, j)
  {
    if IsRelay(att, i) {
      IdInOwn(att, i);
      PairIdHasColon(IdIn(att, i), IdIn(att, i + 1));
    }
    if IsRelay(bt, j) {
      IdInOwn(bt, j);
      PairIdHasColon(IdIn(bt, j), IdIn(bt, j + 1));
    }
    if IsRelay(att, i) && IsRelay(bt, j) {
      PairIdEqual(IdIn(att, i), IdIn(att, i + 1), IdIn(bt, j), IdIn(bt, j + 1));
    } else if !IsRelay(att, i) && !IsRelay(bt, j) {
      assert att.msgID in IdsOf(att) && bt.msgID in IdsOf(bt);
    }
  }

  // ---- groups ------------------------------------------------------------------------------

  lemma GroupOK(att: Attempt, i: int)
    requires ValidAttempt(att) && 0 <= i < Stations(att)
    ensures Group(att, i) != [] && ValidAddrs(Group(att, i))
    ensures IsRelay(att, i) ==> att.sender !in Group(att, i)
  {
  }

  lemma BackOK(att: Attempt, i: int)
    requires ValidAttempt(att) && IsRelay(att, i)
    ensures Back(att, i) != [] && ValidAddrs(Back(att, i))
  {
    if i != 0 && i != Hops(att) {
      GroupOK(att, i - 1);
    }
  }

  /** An address relays at one station on the way out and at its mirror image on the way back. */
  lemma SameRelay(att: Attempt, i: int, j: int, x: Addr)
    requires ValidAttempt(att) && IsRelay(att, i) && IsRelay(att, j)
    requires x in Group(att, i) && x in Group(att, j)
    ensures i == j || i + j == Stations(att) - 2
  {
    var n := Hops(att);
    var p := if i < n - 1 then i else 2 * n - 2 - i;
    var q := if j < n - 1 then j else 2 * n - 2 - j;
    OneGroupEach(att.relays, att.sender, p, q, x);
  }

  lemma OneGroupEach(relays: seq<seq<Addr>>, sender: Addr, p: nat, q: nat, x: Addr)
    requires ValidRoute(relays, sender) && p < |relays| && q < |relays| && x in relays[p] && x in relays[q]
    ensures p == q
  {
  }

  // ---- entries in PendingRelays ------------------------------------------------------------

  /** The entry that the RELAY layer at station i makes at a member x of its group. */
  predicate EntryOf(att: Attempt, i: int, x: Addr, k: Id, v: Nackstruct) {
    && Sized(att) && IsRelay(att, i)
    && x in Group(att, i) && k == IdIn(att, i + 1)
    && v == Nackstruct(IdIn(att, i), JoinAddresses(Back(att, i)))
  }

  /** Both visits of a relay register under different keys. */
  lemma EntryKeyAtOwnGroup(att: Attempt, i: int, j: int, x: Addr, v: Nackstruct)
    requires ValidAttempt(att) && IsRelay(att, i) && x in Group(att, i)
    requires EntryOf(att, j, x, IdIn(att, i + 1), v)
    ensures j == i
  {
    IdInEqual(att, i + 1, j + 1);
    SameRelay(att, i, j, x);
  }

  /** A NACK from station i meets, at whoever it was sent to, no entry but the one station i - 1 made. */
  lemma EntryKeyAtBack(att: Attempt, i: int, j: int, x: Addr, v: Nackstruct)
    requires ValidAttempt(att) && IsRelay(att, i) && x in Back(att, i)
    requires EntryOf(att, j, x, IdIn(att, i), v)
    ensures i != 0 && i != Hops(att) && j == i - 1
  {
    var n := Hops(att);
    GroupOK(att, j);
    IdInEqual(att, i, j + 1);
    if i != 0 && i != n {
      SameRelay(att, i - 1, j, x);
    }
  }

  // ---- reading the layers ------------------------------------------------------------------

  lemma RelayLayerReads(att: Attempt, i: int)
    requires ValidAttempt(att) && IsRelay(att, i)
    ensures var l := LayerAt(att, i);
      && ParseIds(l.MsgID) == Some((IdIn(att, i), IdIn(att, i + 1)))
      && ':' in l.Next
      && ParseAddresses(l.Next) == Group(att, i + 1)
      && ParseAddresses(l.From) == Back(att, i)
  {
    IdInOwn(att, i);
    SplitAtFirst(IdIn(att, i), IdIn(att, i + 1), ':');
    GroupOK(att, i + 1);
    BackOK(att, i);
    ParseJoinAddresses(Group(att, i + 1));
    ParseJoinAddresses(Back(att, i));
  }

  lemma FinalLayerReads(att: Attempt)
    requires ValidAttempt(att)
    ensures var n := Hops(att);
      var l := LayerAt(att, n - 1);
      && l.Next != "" && l.Data != NoData
      && ParseAddresses(l.Next) == Group(att, n)
  {
    hide ValidRoute, FreshIds, IdIn, PairId, ParseAddresses;
    var n := Hops(att);
    GroupOK(att, n);
    ParseJoinAddresses(Group(att, n));
    assert BoxOK(att, n);
  }

  // ---- the builder's onion has exactly these boxes -------------------------------------------

  lemma BuiltForward(x: nat, e: Send, relays: seq<seq<Addr>>, keyOf: map<Addr, Key>, msgID: Id, nacks: seq<Id>, i: nat)
    requires |nacks| == |relays| + 1 && |relays| >= 1
    requires i < |relays| + 1
    ensures BoxOK(NewAttempt(x, e, relays, keyOf, msgID, nacks), i)
  {
    hide WrapFrom, DoubleOnion, ReturnOnion, Peel;
    var route := ForwardRoute(relays, e.dest, keyOf);
    var back := ReturnRoute(relays, e.sender, keyOf);
    PeelForward(e.message, e.frag, route, Some(back), e.sender, msgID, nacks, i);
    PeelOnce(AttemptOnion(e, relays, keyOf, msgID, nacks), i);
  }

  lemma BuiltReturn(x: nat, e: Send, relays: seq<seq<Addr>>, keyOf: map<Addr, Key>, msgID: Id, nacks: seq<Id>, j: nat)
    requires |nacks| == |relays| + 1 && |relays| >= 1
    requires j < |relays| + 1
    ensures BoxOK(NewAttempt(x, e, relays, keyOf, msgID, nacks), |relays| + 1 + j)
  {
    hide WrapFrom, DoubleOnion, ReturnOnion, Peel, ForwardRoute, ReturnRoute, JoinAddresses, PairId;
    var route := ForwardRoute(relays, e.dest, keyOf);
    var back := ReturnRoute(relays, e.sender, keyOf);
    PeelReturn(e.message, e.frag, route, back, e.sender, msgID, nacks, j);
    ReturnGroups(x, e, relays, keyOf, msgID, nacks);
  }

  lemma ReturnGroups(x: nat, e: Send, relays: seq<seq<Addr>>, keyOf: map<Addr, Key>, msgID: Id, nacks: seq<Id>)
    requires |nacks| == |relays| + 1 && |relays| >= 1
    ensures var att, back := NewAttempt(x, e, relays, keyOf, msgID, nacks), ReturnRoute(relays, e.sender, keyOf);
      forall j :: 0 <= j <= |relays| ==> back[j] == GroupWith(keyOf, Group(att, |relays| + 1 + j))
  {
    hide AttemptOnion;
  }

  lemma BuiltBox(x: nat, e: Send, relays: seq<seq<Addr>>, keyOf: map<Addr, Key>, msgID: Id, nacks: seq<Id>, i: nat)
    requires |nacks| == |relays| + 1 && |relays| >= 1
    requires i < 2 * |relays| + 2
    ensures BoxOK(NewAttempt(x, e, relays, keyOf, msgID, nacks), i)
  {
    hide BoxOK;
    if i < |relays| + 1 {
      BuiltForward(x, e, relays, keyOf, msgID, nacks, i);
    } else {
      BuiltReturn(x, e, relays, keyOf, msgID, nacks, i - |relays| - 1);
    }
  }

  lemma NewAttemptValid(x: nat, e: Send, relays: seq<seq<Addr>>, keyOf: map<Addr, Key>, msgID: Id, nacks: seq<Id>)
    requires ValidRoute(relays, e.sender) && ValidAddr(e.sender) && ValidAddr(e.dest) && FragOK(e.frag)
    requires |nacks| == |relays| + 1 && FreshIds(msgID, nacks)
    ensures var att := NewAttempt(x, e, relays, keyOf, msgID, nacks);
      ValidAttempt(att) && att.boxes[0] == AttemptOnion(e, relays, keyOf, msgID, nacks)
  {
    var att := NewAttempt(x, e, relays, keyOf, msgID, nacks);
    forall i | 0 <= i < Stations(att)
      ensures BoxOK(att, i)
    {
      BuiltBox(x, e, relays, keyOf, msgID, nacks, i);
    }
  }
}
