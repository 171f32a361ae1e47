/**
 The seven-field onion layer, its pipe-separated wire form, address lists, and encryption as a
 symbolic box: a box lists the keys it was sealed for and opens for the owner of any of them.
 */
module Layers {
  import opened Wrappers
  import opened Strings

  type Addr = string   // "ip:port"
  type Id = string     // what GenerateMsgID returns
  type Key = string    // names a key pair

  /** `Data` is text on the wire and a symbolic box in the protocol. */
  datatype OnionLayer<D> = OnionLayer(
    Type: string, MsgID: string, Next: string, From: string, Data: D, Frag: string, Message: string)

  datatype Payload = NoData | Sealed(keys: seq<Key>, layer: OnionLayer<Payload>)

  type Layer = OnionLayer<Payload>
  type WireLayer = OnionLayer<string>

  // ---- OnionlayerToString and StringToOnionLayer -------------------------------------------

  /** SplitN's limit, so that a message may hold the separator. */
  const WIRE_FIELDS: nat := 7

  function Fields(l: WireLayer): (parts: seq<string>)
    ensures |parts| == 7
  {
    [l.Type, l.MsgID, l.Next, l.From, l.Data, l.Frag, l.Message]
  }

  function OnionlayerToString(l: WireLayer): string {
    Join(Fields(l), '|')
  }

  function LayerOfFields(parts: seq<string>): Result<WireLayer> {
    if |parts| < 6 then
      Err("OnionLayer StringToOnionLayer Error Split")
    else if |parts| == 6 then
      Ok(OnionLayer(parts[0], parts[1], parts[2], parts[3], parts[4], "", parts[5]))
    else
      Ok(OnionLayer(parts[0], parts[1], parts[2], parts[3], parts[4], parts[5], parts[6]))
  }

  function StringToOnionLayer(str: string): Result<WireLayer> {
    LayerOfFields(SplitN(str, '|', WIRE_FIELDS))
  }

  /** The first six fields hold no separator; the message may hold any number. */
  predicate HeaderPipeFree(l: WireLayer) {
    '|' !in l.Type && '|' !in l.MsgID && '|' !in l.Next && '|' !in l.From && '|' !in l.Data && '|' !in l.Frag
  }

  /** Whatever is accepted has a pipe-free header, in the seven-field and in the legacy form. */
  lemma AcceptedHeader(str: string)
    requires StringToOnionLayer(str).Ok?
    ensures HeaderPipeFree(StringToOnionLayer(str).value)
  {
    SplitNParts(str, '|', WIRE_FIELDS);
    var parts := SplitN(str, '|', WIRE_FIELDS);
    assert InnerFree(parts, '|', WIRE_FIELDS);
  }

  /** Reading back what was printed succeeds exactly on the layers with a pipe-free header. */
  lemma ParsePrint(l: WireLayer)
    ensures StringToOnionLayer(OnionlayerToString(l)) == Ok(l) <==> HeaderPipeFree(l)
  {
    if HeaderPipeFree(l) {
      SplitNJoin(Fields(l), '|', WIRE_FIELDS);
    } else if StringToOnionLayer(OnionlayerToString(l)) == Ok(l) {
      AcceptedHeader(OnionlayerToString(l));
    }
  }

  /** Printing is stable: an accepted string, legacy or not, reads the same after one more round. */
  lemma ParsePrintParse(str: string)
    requires StringToOnionLayer(str).Ok?
    ensures StringToOnionLayer(OnionlayerToString(StringToOnionLayer(str).value)) == StringToOnionLayer(str)
  {
    AcceptedHeader(str);
    ParsePrint(StringToOnionLayer(str).value);
  }

  lemma PrintedHasSevenFields(l: WireLayer)
    requires HeaderPipeFree(l)
    ensures |SplitN(OnionlayerToString(l), '|', WIRE_FIELDS)| == 7
  {
    SplitNJoin(Fields(l), '|', WIRE_FIELDS);
  }

  lemma SevenFields(parts: seq<string>)
    requires |parts| == 7
    ensures LayerOfFields(parts).Ok? && Fields(LayerOfFields(parts).value) == parts
  {
  }

  /** Printing restores the very string read exactly when it had seven fields, not the legacy six. */
  lemma PrintParse(str: string)
    requires StringToOnionLayer(str).Ok?
    ensures OnionlayerToString(StringToOnionLayer(str).value) == str <==> |SplitN(str, '|', WIRE_FIELDS)| == 7
  {
    var parts := SplitN(str, '|', WIRE_FIELDS);
    if |parts| == 7 {
      SevenFields(parts);
      SplitNParts(str, '|', WIRE_FIELDS);
    } else {
      AcceptedHeader(str);
      PrintedHasSevenFields(StringToOnionLayer(str).value);
    }
  }

  /** The order of the seven fields; the message may hold the separator. */
  lemma ReadsSeven(a: string, b: string, c: string, d: string, e: string, f: string, message: string)
    requires '|' !in a && '|' !in b && '|' !in c && '|' !in d && '|' !in e && '|' !in f
    ensures var str := Join([a, b, c, d, e, f, message], '|');
      && StringToOnionLayer(str) == Ok(OnionLayer(a, b, c, d, e, f, message))
      && OnionlayerToString(OnionLayer(a, b, c, d, e, f, message)) == str
  {
    hide StringToOnionLayer;
    ParsePrint(OnionLayer(a, b, c, d, e, f, message));
  }

  /** The legacy form has no Frag: its sixth field is the message. */
  lemma ReadsSix(a: string, b: string, c: string, d: string, e: string, message: string)
    requires '|' !in a && '|' !in b && '|' !in c && '|' !in d && '|' !in e && '|' !in message
    ensures StringToOnionLayer(Join([a, b, c, d, e, message], '|')) == Ok(OnionLayer(a, b, c, d, e, "", message))
  {
    hide Join, SplitN;
    SplitNShort([a, b, c, d, e, message], '|', WIRE_FIELDS);
  }

  /** A text is accepted exactly when it has six fields or more. */
  lemma AcceptsSix(fields: seq<string>)
    requires |fields| >= 1 && forall f :: f in fields ==> '|' !in f
    ensures StringToOnionLayer(Join(fields, '|')).Ok? <==> |fields| >= 6
  {
    SplitNCount(fields, '|', WIRE_FIELDS);
  }

  // ---- ParseAddresses and JoinAddresses ----------------------------------------------------

  function ParseAddresses(next: string): seq<Addr> {
    if next == "" then [] else Split(next, ',')
  }

  function JoinAddresses(addrs: seq<Addr>): string {
    Join(addrs, ',')
  }

  /** An "ip:port" text: it has the port separator and none of the list and field separators. */
  predicate ValidAddr(a: Addr) {
    ':' in a && ',' !in a && '|' !in a
  }

  predicate ValidAddrs(addrs: seq<Addr>) {
    forall a :: a in addrs ==> ValidAddr(a)
  }

  lemma ParseJoinAddresses(addrs: seq<Addr>)
    requires ValidAddrs(addrs)
    ensures ParseAddresses(JoinAddresses(addrs)) == addrs
    ensures addrs != [] ==> ':' in JoinAddresses(addrs)
  {
    if addrs != [] {
      assert addrs[0] in addrs;
      assert JoinAddresses(addrs)[..|addrs[0]|] == addrs[0];
      SplitJoin(addrs, ',');
    }
  }

  lemma {:induction false} JoinAddressesPipeFree(addrs: seq<Addr>)
    requires ValidAddrs(addrs)
    ensures '|' !in JoinAddresses(addrs)
  {
    if |addrs| == 1 {
      assert addrs[0] in addrs;
    } else if |addrs| > 1 {
      assert addrs[0] in addrs;
      JoinAddressesPipeFree(addrs[1..]);
    }
  }

  // ---- symbolic boxes ----------------------------------------------------------------------

  /** What the holder of the private half of `k` gets out of a message. */
  function Open(message: Payload, k: Key): Result<Layer> {
    if message.NoData? then Err("format invalide")
    else if k in message.keys then Ok(message.layer)
    else Err("aucune clé correspondante")
  }

  /** One wrapped copy of the AES key for every member of the group. */
  method BroadcastEncrypt(plaintext: Layer, pubKeys: seq<Key>) returns (r: Result<Payload>)
    ensures r.Err? <==> pubKeys == []
    ensures forall k :: r.Ok? ==> Open(r.value, k) == if k in pubKeys then Ok(plaintext)
            else Err("aucune clé correspondante")
    ensures r.Ok? ==> r.value == Sealed(pubKeys, plaintext)
  {
    if |pubKeys| == 0 {
      return Err("pas de clé publique");
    }
    var encKeys: seq<Key> := [];
    for i := 0 to |pubKeys|
      invariant encKeys == pubKeys[..i]
    {
      encKeys := encKeys + [pubKeys[i]];
    }
    assert pubKeys[..|pubKeys|] == pubKeys;
    return Ok(Sealed(encKeys, plaintext));
  }

  /** Tries every wrapped key until one opens. */
  method BroadcastDecrypt(message: Payload, privateKey: Key) returns (r: Result<Layer>)
    ensures r == Open(message, privateKey)
  {
    if message.NoData? {
      return Err("format invalide");
    }
    var found := false;
    var i := 0;
    while i < |message.keys| && !found
      invariant 0 <= i <= |message.keys|
      invariant found ==> privateKey in message.keys
      invariant !found ==> privateKey !in message.keys[..i]
    {
      if message.keys[i] == privateKey {
        found := true;
      }
      i := i + 1;
    }
    assert !found ==> message.keys[..i] == message.keys;
    return if found then Ok(message.layer) else Err("aucune clé correspondante");
  }
}
