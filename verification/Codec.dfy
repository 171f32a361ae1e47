/**
 The wire form of what the encapsulators build: every layer of every attempt is read back exactly,
 whatever the encrypted payloads look like as long as they are free of the field separator.
 */
module Codec {
  import opened Wrappers
  import opened Strings
  import opened Layers
  import opened Fragments
  import opened Protocol
  import opened Attempts

  // ---- identifiers -------------------------------------------------------------------------

  predicate SeparatorFree(s: string) {
    ':' !in s && '|' !in s && ',' !in s
  }

  /** A prefix, a dash and ten digits. */
  predicate Drawn(id: Id, prefix: string) {
    && |id| == |prefix| + 11 && prefix + "-" <= id
    && forall k :: |prefix| < k < |id| ==> IsDigit(id[k])
  }

  /** The digits are random. */
  method GenerateMsgID(prefix: Option<string>) returns (id: Id)
    ensures Drawn(id, if prefix.Some? && prefix.value != "" then prefix.value else "msg")
    ensures (prefix.Some? ==> SeparatorFree(prefix.value)) ==> SeparatorFree(id)
  {
    var head := if prefix.Some? && prefix.value != "" then prefix.value + "-" else "msg-";
    id := head;
    for i := 0 to 10
      invariant |id| == |head| + i && head <= id
      invariant forall k :: |head| <= k < |id| ==> IsDigit(id[k])
    {
      var n: int :| 0 <= n < 10;
      id := id + [Digit(n)];
    }
    HeadAndDigits(head, id);
  }

  lemma HeadAndDigits(head: string, id: string)
    requires head <= id && forall k :: |head| <= k < |id| ==> IsDigit(id[k])
    ensures SeparatorFree(head) ==> SeparatorFree(id)
  {
    if SeparatorFree(head) {
      forall k | 0 <= k < |id|
        ensures id[k] != ':' && id[k] != '|' && id[k] != ','
      {
        if k < |head| {
          assert id[k] == head[k];
          assert head[k] in head;
        }
      }
    }
  }

  // ---- layers ------------------------------------------------------------------------------

  /** `enc` renders a box; base64 (section 4 of RFC 4648), ';' and ':' are all it uses. */
  function Wire(l: Layer, enc: Payload -> string): WireLayer {
    OnionLayer(l.Type, l.MsgID, l.Next, l.From, enc(l.Data), l.Frag, l.Message)
  }

  predicate PipeFreeAttempt(att: Attempt) {
    '|' !in att.msgID && '|' !in att.frag && forall id :: id in att.nacks ==> '|' !in id
  }

  lemma MsgIdPipeFree(att: Attempt, i: int)
    requires Sized(att) && PipeFreeAttempt(att) && 0 <= i < Stations(att) - 1
    ensures '|' !in MsgIdAt(att, i)
  {
    if i != Hops(att) - 1 {
      assert IdIn(att, i) in att.nacks && IdIn(att, i + 1) in att.nacks;
    }
  }

  lemma HeaderOfBuilt(att: Attempt, i: int, enc: Payload -> string)
    requires ValidAttempt(att) && PipeFreeAttempt(att) && 0 <= i < Stations(att)
    requires forall p: Payload :: '|' !in enc(p)
    ensures HeaderPipeFree(Wire(LayerAt(att, i), enc))
  {
    var l := LayerAt(att, i);
    assert '|' !in enc(l.Data);
    if i < Stations(att) - 1 {
      MsgIdPipeFree(att, i);
      GroupOK(att, i + 1);
      JoinAddressesPipeFree(Group(att, i + 1));
      if i != Hops(att) - 1 {
        if i != 0 && i != Hops(att) {
          GroupOK(att, i - 1);
        }
        JoinAddressesPipeFree(Back(att, i));
      }
    }
  }

  /** Print and parse are inverse on every layer of every onion the senders build, with any message. */
  lemma BuiltLayersParse(att: Attempt, i: int, enc: Payload -> string)
    requires ValidAttempt(att) && PipeFreeAttempt(att) && 0 <= i < Stations(att)
    requires forall p: Payload :: '|' !in enc(p)
    ensures var wire := Wire(LayerAt(att, i), enc);
      StringToOnionLayer(OnionlayerToString(wire)) == Ok(wire)
  {
    HeaderOfBuilt(att, i, enc);
    ParsePrint(Wire(LayerAt(att, i), enc));
  }

  // ---- what the senders draw ---------------------------------------------------------------

  /** No tag, or the one of chunk i of n, with a drawn fragment identifier. */
  ghost predicate DrawnTag(frag: string) {
    frag == "" || exists fragID, i: nat, n: nat :: Drawn(fragID, "frag") && frag == FragTag(fragID, i, n)
  }

  ghost predicate DrawnAttempt(att: Attempt) {
    Drawn(att.msgID, "msg") && DrawnTag(att.frag) && forall id :: id in att.nacks ==> Drawn(id, "nack")
  }

  lemma DrawnFree(id: Id, prefix: string)
    requires Drawn(id, prefix) && SeparatorFree(prefix)
    ensures SeparatorFree(id)
  {
    HeadAndDigits(prefix + "-", id);
  }

  lemma DrawnTagFree(frag: string)
    requires DrawnTag(frag)
    ensures '|' !in frag && FragOK(frag)
  {
    if frag != "" {
      var fragID, i: nat, n: nat :| Drawn(fragID, "frag") && frag == FragTag(fragID, i, n);
      DrawnFree(fragID, "frag");
      FragTagPipeFree(fragID, i, n);
      ParseFragTag(fragID, i, n);
    }
  }

  lemma FragTagPipeFree(fragID: string, i: nat, n: nat)
    requires '|' !in fragID
    ensures '|' !in FragTag(fragID, i, n)
  {
    ItoaFree(i, '|');
    ItoaFree(n, '|');
  }

  /** The identifiers and tags drawn are as the protocol and the layer format ask. */
  lemma DrawnFits(att: Attempt)
    requires DrawnAttempt(att)
    ensures PipeFreeAttempt(att) && FragOK(att.frag) && ColonFree(att.msgID) && forall id :: id in att.nacks ==>
              ColonFree(id)
    ensures att.msgID !in att.nacks
  {
    hide Drawn;
    DrawnFree(att.msgID, "msg");
    DrawnTagFree(att.frag);
    forall id | id in att.nacks
      ensures SeparatorFree(id) && id != att.msgID
    {
      DrawnFree(id, "nack");
      DrawnApart(att.msgID, id);
    }
  }

  lemma DrawnApart(a: Id, b: Id)
    requires Drawn(a, "msg") && Drawn(b, "nack")
    ensures a != b
  {
  }

  /** So every layer of every onion with drawn identifiers is read back exactly. */
  lemma DrawnLayersParse(att: Attempt, i: int, enc: Payload -> string)
    requires ValidAttempt(att) && DrawnAttempt(att) && 0 <= i < Stations(att)
    requires forall p: Payload :: '|' !in enc(p)
    ensures var wire := Wire(LayerAt(att, i), enc);
      StringToOnionLayer(OnionlayerToString(wire)) == Ok(wire)
  {
    DrawnFits(att);
    BuiltLayersParse(att, i, enc);
  }
}
