/**
 Building the double onion: the forward layers end in a FINAL layer whose Data is a complete
 return onion that ends in an ACK.  Both builders of the node are modelled, the single-relay one
 and the group one, with key rings and identifiers as parameters.
 */
module Encapsulation {
  import opened Wrappers
  import opened Layers

  datatype LayerGroup = LayerGroup(addrs: seq<Addr>, keys: seq<Key>)

  function PairId(toSend: Id, toReceive: Id): string {
    toSend + ":" + toReceive
  }

  function AckLayer(msgID: Id): Layer {
    OnionLayer("ACK", msgID, "", "", NoData, "", "")
  }

  // ---- group builder -----------------------------------------------------------------------

  function PrevHop(route: seq<LayerGroup>, sender: string, i: nat): string
    requires i < |route|
  {
    if i > 0 then JoinAddresses(route[i - 1].addrs) else sender
  }

  /** The box for hop i; each box holds the next one. */
  function WrapFrom(inner: Layer, route: seq<LayerGroup>, sender: string, nacks: seq<Id>, i: nat): Payload
    requires i < |route| <= |nacks|
    decreases |route| - i
  {
    if i == |route| - 1 then
      Sealed(route[i].keys, inner)
    else
      Sealed(route[i].keys, OnionLayer("RELAY", PairId(nacks[i], nacks[i + 1]),
                                       JoinAddresses(route[i + 1].addrs), PrevHop(route, sender, i),
                                       WrapFrom(inner, route, sender, nacks, i + 1), "", ""))
  }

  predicate AllHaveKeys(route: seq<LayerGroup>) {
    forall i :: 0 <= i < |route| ==> route[i].keys != []
  }

  method EncryptOnionLayersGroup(inner: Layer, route: seq<LayerGroup>, sender: string, nacks: seq<Id>)
    returns (r: Result<Payload>)
    requires 1 <= |route| <= |nacks|
    ensures r.Ok? <==> AllHaveKeys(route)
    ensures r.Ok? ==> r.value == WrapFrom(inner, route, sender, nacks, 0)
  {
    r := BroadcastEncrypt(inner, route[|route| - 1].keys);
    if r.Err? {
      return;
    }
    var payload := r.value;
    var i := |route| - 2;
    while i >= 0
      invariant -1 <= i <= |route| - 2
      invariant payload == WrapFrom(inner, route, sender, nacks, i + 1)
      invariant forall k :: i < k < |route| ==> route[k].keys != []
    {
      var prev := sender;
      if i > 0 {
        prev := JoinAddresses(route[i - 1].addrs);
      }
      var layer := OnionLayer("RELAY", nacks[i] + ":" + nacks[i + 1],
                              JoinAddresses(route[i + 1].addrs), prev, payload, "", "");
      r := BroadcastEncrypt(layer, route[i].keys);
      if r.Err? {
        return;
      }
      payload := r.value;
      i := i - 1;
    }
    return Ok(payload);
  }

  function Reversed(nacks: seq<Id>): (inv: seq<Id>)
    ensures |inv| == |nacks|
    ensures forall i :: 0 <= i < |nacks| ==> inv[i] == nacks[|nacks| - 1 - i]
  {
    seq(|nacks|, i requires 0 <= i < |nacks| => nacks[|nacks| - 1 - i])
  }

  /** The whole return onion; its outermost From is the address list of the last return hop. */
  function ReturnOnion(msgID: Id, returnRoute: seq<LayerGroup>, nacks: seq<Id>): Payload
    requires |returnRoute| <= |nacks|
  {
    if returnRoute == [] then NoData
    else WrapFrom(AckLayer(msgID), returnRoute,
                  JoinAddresses(returnRoute[|returnRoute| - 1].addrs), Reversed(nacks), 0)
  }

  function FinalLayer(message: string, frag: string, returnRoute: Option<seq<LayerGroup>>, msgID: Id,
                      nacks: seq<Id>): Layer
    requires returnRoute.Some? ==> |returnRoute.value| <= |nacks|
  {
    if returnRoute.None? then
      OnionLayer("FINAL", msgID, "", "", NoData, frag, message)
    else
      var back := returnRoute.value;
      OnionLayer("FINAL", msgID, if back == [] then "" else JoinAddresses(back[0].addrs), "",
                 ReturnOnion(msgID, back, nacks), frag, message)
  }

  function DoubleOnion(message: string, frag: string, route: seq<LayerGroup>, returnRoute: Option<seq<LayerGroup>>,
                 sender: string, msgID: Id, nacks: seq<Id>): Payload
    requires 1 <= |route| == |nacks|
    requires returnRoute.Some? ==> |returnRoute.value| <= |route|
  {
    WrapFrom(FinalLayer(message, frag, returnRoute, msgID, nacks), route, sender, nacks, 0)
  }

  datatype Encapsulated = Encapsulated(onion: Payload, msgID: Id, firstNackID: Id)

  /** `ids` is what the identifier supply hands out: first the message's, then one per hop. */
  method EncapsulatorFuncSuper(message: string, route: seq<LayerGroup>, returnRoute: Option<seq<LayerGroup>>,
                               sender: string, ids: seq<Id>)
    returns (r: Result<Encapsulated>)
    requires |route| >= 1 && |ids| == |route| + 1
    requires returnRoute.Some? ==> |returnRoute.value| <= |route|
    ensures r.Ok? <==> AllHaveKeys(route) && (returnRoute.Some? ==> AllHaveKeys(returnRoute.value))
    ensures r.Ok? ==>
              r.value == Encapsulated(DoubleOnion(message, "", route, returnRoute, sender, ids[0], ids[1..]), ids[0],
                                      ids[1])
  {
    var msgID := ids[0];
    var nackArray: seq<Id> := [];
    for i := 0 to |route|
      invariant nackArray == ids[1..i + 1]
    {
      nackArray := nackArray + [ids[i + 1]];
    }
    assert nackArray == ids[1..];
    var returnOnion := NoData;
    var firstReturnHop := "";
    if returnRoute.Some? && |returnRoute.value| > 0 {
      var back := returnRoute.value;
      firstReturnHop := JoinAddresses(back[0].addrs);
      var invNack: seq<Id> := [];
      for i := 0 to |route|
        invariant |invNack| == i
        invariant forall k :: 0 <= k < i ==> invNack[k] == nackArray[|nackArray| - k - 1]
      {
        invNack := invNack + [nackArray[|nackArray| - i - 1]];
      }
      assert invNack == Reversed(nackArray);
      var e := EncryptOnionLayersGroup(OnionLayer("ACK", msgID, "", "", NoData, "", ""), back,
                                       JoinAddresses(back[|back| - 1].addrs), invNack);
      if e.Err? {
        return Err(e.error);
      }
      returnOnion := e.value;
    }
    var inner := if returnRoute.Some?
      then OnionLayer("FINAL", msgID, firstReturnHop, "", returnOnion, "", message)
      else OnionLayer("FINAL", msgID, "", "", NoData, "", message);
    assert inner == FinalLayer(message, "", returnRoute, msgID, nackArray);
    var f := EncryptOnionLayersGroup(inner, route, sender, nackArray);
    if f.Err? {
      return Err(f.error);
    }
    return Ok(Encapsulated(f.value, msgID, nackArray[0]));
  }

  // ---- single-relay builder ----------------------------------------------------------------

  predicate Cached(route: seq<Addr>, keyOf: map<Addr, Key>) {
    forall a :: a in route ==> a in keyOf
  }

  /** As WrapFrom, with plain addresses for hops and the keys looked up by address. */
  function WrapSingleFrom(inner: Layer, route: seq<Addr>, keyOf: map<Addr, Key>, sender: string, nacks: seq<Id>,
                          i: nat): Payload
    requires i < |route| <= |nacks| && Cached(route, keyOf)
    decreases |route| - i
  {
    if i == |route| - 1 then
      Sealed([keyOf[route[i]]], inner)
    else
      Sealed([keyOf[route[i]]], OnionLayer("RELAY", PairId(nacks[i], nacks[i + 1]), route[i + 1],
                                           if i > 0 then route[i - 1] else sender,
                                           WrapSingleFrom(inner, route, keyOf, sender, nacks, i + 1), "", ""))
  }

  method EncryptOnionLayers(inner: Layer, route: seq<Addr>, keyOf: map<Addr, Key>, sender: string, nacks: seq<Id>)
    returns (payload: Payload)
    requires 1 <= |route| <= |nacks| && Cached(route, keyOf)
    ensures payload == WrapSingleFrom(inner, route, keyOf, sender, nacks, 0)
  {
    payload := Sealed([keyOf[route[|route| - 1]]], inner);
    var i := |route| - 2;
    while i >= 0
      invariant -1 <= i <= |route| - 2
      invariant payload == WrapSingleFrom(inner, route, keyOf, sender, nacks, i + 1)
    {
      var prevNode := sender;
      if i > 0 {
        prevNode := route[i - 1];
      }
      payload := Sealed([keyOf[route[i]]],
                        OnionLayer("RELAY", nacks[i] + ":" + nacks[i + 1], route[i + 1], prevNode, payload, "", ""));
      i := i - 1;
    }
  }

  function SingleFinalLayer(message: string, frag: string, returnRoute: Option<seq<Addr>>, keyOf: map<Addr, Key>,
                            msgID: Id, nacks: seq<Id>): Layer
    requires returnRoute.Some? ==> |returnRoute.value| <= |nacks| && Cached(returnRoute.value, keyOf)
  {
    if returnRoute.None? then
      OnionLayer("FINAL", msgID, "", "", NoData, frag, message)
    else
      var back := returnRoute.value;
      OnionLayer("FINAL", msgID, if back == [] then "" else back[0], "",
                 if back == [] then NoData
                 else WrapSingleFrom(AckLayer(msgID), back, keyOf, back[|back| - 1], Reversed(nacks), 0),
                 frag, message)
  }

  function SingleOnion(message: string, frag: string, route: seq<Addr>, returnRoute: Option<seq<Addr>>,
                       keyOf: map<Addr, Key>, sender: string, msgID: Id, nacks: seq<Id>): Payload
    requires 1 <= |route| == |nacks| && Cached(route, keyOf)
    requires returnRoute.Some? ==> |returnRoute.value| <= |route| && Cached(returnRoute.value, keyOf)
  {
    WrapSingleFrom(SingleFinalLayer(message, frag, returnRoute, keyOf, msgID, nacks), route, keyOf, sender, nacks, 0)
  }

  method EncapsulatorFunc(message: string, frag: string, route: seq<Addr>, returnRoute: Option<seq<Addr>>,
                          keyOf: map<Addr, Key>, sender: string, ids: seq<Id>)
    returns (r: Encapsulated)
    requires |route| >= 1 && |ids| == |route| + 1 && Cached(route, keyOf)
    requires returnRoute.Some? ==> |returnRoute.value| <= |route| && Cached(returnRoute.value, keyOf)
    ensures r == Encapsulated(SingleOnion(message, frag, route, returnRoute, keyOf, sender, ids[0], ids[1..]), ids[0],
                              ids[1])
  {
    var msgID := ids[0];
    var nackArray: seq<Id> := [];
    for i := 0 to |route|
      invariant nackArray == ids[1..i + 1]
    {
      nackArray := nackArray + [ids[i + 1]];
    }
    assert nackArray == ids[1..];
    var returnOnion := NoData;
    var firstReturnHop := "";
    if returnRoute.Some? && |returnRoute.value| > 0 {
      var back := returnRoute.value;
      firstReturnHop := back[0];
      var invNackArray: seq<Id> := [];
      for i := 0 to |route|
        invariant |invNackArray| == i
        invariant forall k :: 0 <= k < i ==> invNackArray[k] == nackArray[|nackArray| - k - 1]
      {
        invNackArray := invNackArray + [nackArray[|nackArray| - i - 1]];
      }
      assert invNackArray == Reversed(nackArray);
      returnOnion := EncryptOnionLayers(OnionLayer("ACK", msgID, "", "", NoData, "", ""), back, keyOf, back[|back| - 1],
                                        invNackArray);
    }
    var inner := if returnRoute.Some?
      then OnionLayer("FINAL", msgID, firstReturnHop, "", returnOnion, frag, message)
      else OnionLayer("FINAL", msgID, "", "", NoData, frag, message);
    assert inner == SingleFinalLayer(message, frag, returnRoute, keyOf, msgID, nackArray);
    var onion := EncryptOnionLayers(inner, route, keyOf, sender, nackArray);
    return Encapsulated(onion, msgID, nackArray[0]);
  }

  // ---- the single-relay builder is the group builder on one-member groups -------------------

  function Singletons(route: seq<Addr>, keyOf: map<Addr, Key>): (groups: seq<LayerGroup>)
    requires Cached(route, keyOf)
    ensures |groups| == |route|
    ensures forall i :: 0 <= i < |route| ==> groups[i] == LayerGroup([route[i]], [keyOf[route[i]]])
  {
    seq(|route|, i requires 0 <= i < |route| => LayerGroup([route[i]], [keyOf[route[i]]]))
  }

  lemma {:induction false} WrapSingleIsWrap(inner: Layer, route: seq<Addr>, keyOf: map<Addr, Key>, sender: string,
                                            nacks: seq<Id>, i: nat)
    requires i < |route| <= |nacks| && Cached(route, keyOf)
    ensures WrapSingleFrom(inner, route, keyOf, sender, nacks, i) == WrapFrom(inner, Singletons(route, keyOf), sender,
              nacks, i)
    decreases |route| - i
  {
    if i < |route| - 1 {
      WrapSingleIsWrap(inner, route, keyOf, sender, nacks, i + 1);
    }
  }

  /** Same onion from both builders, for every route, return route and fragment tag. */
  lemma SingleBuilderRefinesGroupBuilder(message: string, frag: string, route: seq<Addr>,
                                         returnRoute: Option<seq<Addr>>, keyOf: map<Addr, Key>, sender: string,
                                         msgID: Id, nacks: seq<Id>)
    requires 1 <= |route| == |nacks| && Cached(route, keyOf)
    requires returnRoute.Some? ==> |returnRoute.value| <= |route| && Cached(returnRoute.value, keyOf)
    ensures SingleOnion(message, frag, route, returnRoute, keyOf, sender, msgID, nacks)
         == DoubleOnion(message, frag, Singletons(route, keyOf),
                  if returnRoute.None? then None else Some(Singletons(returnRoute.value, keyOf)), sender, msgID, nacks)
  {
    if returnRoute.Some? && returnRoute.value != [] {
      var back := returnRoute.value;
      WrapSingleIsWrap(AckLayer(msgID), back, keyOf, back[|back| - 1], Reversed(nacks), 0);
    }
    WrapSingleIsWrap(SingleFinalLayer(message, frag, returnRoute, keyOf, msgID, nacks), route, keyOf, sender, nacks, 0);
  }

  // ---- peeling -----------------------------------------------------------------------------

  /** What is left after i hops have each taken their layer off. */
  function Peel(p: Payload, i: nat): Payload {
    if i == 0 then p else if p.NoData? then NoData else Peel(p.layer.Data, i - 1)
  }

  lemma {:induction false} PeelOnce(p: Payload, i: nat)
    ensures Peel(p, i + 1) == if Peel(p, i).NoData? then NoData else Peel(p, i).layer.Data
  {
    if i > 0 && p.Sealed? {
      PeelOnce(p.layer.Data, i - 1);
    }
  }

  lemma {:induction false} PeelWrap(inner: Layer, route: seq<LayerGroup>, sender: string, nacks: seq<Id>, i: nat,
                                    j: nat)
    requires j + i < |route| <= |nacks|
    ensures Peel(WrapFrom(inner, route, sender, nacks, j), i) == WrapFrom(inner, route, sender, nacks, j + i)
    decreases i
  {
    if i > 0 {
      PeelWrap(inner, route, sender, nacks, i - 1, j + 1);
    }
  }

  lemma {:induction false} PeelThrough(p: Payload, i: nat, j: nat)
    ensures Peel(p, i + j) == Peel(Peel(p, i), j)
  {
    if i > 0 && p.Sealed? {
      PeelThrough(p.layer.Data, i - 1, j);
    } else if i > 0 {
      PeelNothing(j);
      PeelNothing(i + j);
    }
  }

  lemma {:induction false} PeelNothing(j: nat)
    ensures Peel(NoData, j) == NoData
  {
  }

  /** The forward leg, hop by hop: exactly the members of group i open box i, and read this. */
  lemma PeelForward(message: string, frag: string, route: seq<LayerGroup>, returnRoute: Option<seq<LayerGroup>>,
                    sender: string, msgID: Id, nacks: seq<Id>, i: nat)
    requires 1 <= |route| == |nacks| && i < |route|
    requires returnRoute.Some? ==> |returnRoute.value| <= |route|
    ensures var onion := DoubleOnion(message, frag, route, returnRoute, sender, msgID, nacks);
      && Peel(onion, i).Sealed?
      && (forall k: Key :: Open(Peel(onion, i), k).Ok? <==> k in route[i].keys)
      && Peel(onion, i) == Sealed(route[i].keys,
           if i == |route| - 1 then FinalLayer(message, frag, returnRoute, msgID, nacks)
           else OnionLayer("RELAY", PairId(nacks[i], nacks[i + 1]), JoinAddresses(route[i + 1].addrs),
                           if i == 0 then sender else JoinAddresses(route[i - 1].addrs), Peel(onion, i + 1), "", ""))
  {
    var inner := FinalLayer(message, frag, returnRoute, msgID, nacks);
    PeelWrap(inner, route, sender, nacks, i, 0);
    if i + 1 < |route| {
      PeelWrap(inner, route, sender, nacks, i + 1, 0);
    }
  }

  /** The return leg, from inside the FINAL layer: the pairs come back reversed and the last box
      holds the acknowledgement of the identifier the sender registered. */
  lemma PeelReturn(message: string, frag: string, route: seq<LayerGroup>, back: seq<LayerGroup>,
                   sender: string, msgID: Id, nacks: seq<Id>, j: nat)
    requires 1 <= |route| == |nacks| && j < |back| <= |route|
    ensures var onion := DoubleOnion(message, frag, route, Some(back), sender, msgID, nacks);
      var n := |route|;
      && Peel(onion, n + j).Sealed?
      && (forall k: Key :: Open(Peel(onion, n + j), k).Ok? <==> k in back[j].keys)
      && Peel(onion, n + j) == Sealed(back[j].keys,
           if j == |back| - 1 then AckLayer(msgID)
           else OnionLayer("RELAY", PairId(nacks[n - 1 - j], nacks[n - 2 - j]), JoinAddresses(back[j + 1].addrs),
                           JoinAddresses(back[if j == 0 then |back| - 1 else j - 1].addrs), Peel(onion,
                               n + j + 1), "", ""))
  {
    var onion := DoubleOnion(message, frag, route, Some(back), sender, msgID, nacks);
    var n := |route|;
    PeelForward(message, frag, route, Some(back), sender, msgID, nacks, n - 1);
    PeelOnce(onion, n - 1);
    hide DoubleOnion;
    assert Peel(onion, n) == ReturnOnion(msgID, back, nacks);
    PeelThrough(onion, n, j);
    PeelThrough(onion, n, j + 1);
    var last := JoinAddresses(back[|back| - 1].addrs);
    PeelWrap(AckLayer(msgID), back, last, Reversed(nacks), j, 0);
    if j + 1 < |back| {
      PeelWrap(AckLayer(msgID), back, last, Reversed(nacks), j + 1, 0);
    }
  }
}
