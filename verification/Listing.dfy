/**
 The directory's list on the wire: what the server prints, both route builders read back.
 */
module Listing {
  import opened Wrappers
  import opened Strings
  import opened Layers
  import opened Clusters
  import opened Routes

  /** "name|ip|port|key|Sa|Sn" */
  function EntryText(n: NodeInfo): string {
    Join([n.Name, n.Ip, Decimal(n.Port), n.PublicKey, Decimal(n.AvailabilityScore), Decimal(n.NetworkScore)], '|')
  }

  function EntryTexts(nodes: seq<NodeInfo>): (texts: seq<string>)
    ensures |texts| == |nodes|
  {
    seq(|nodes|, i requires 0 <= i < |nodes| => EntryText(nodes[i]))
  }

  /** The directory's answer to GETLIST, but for the line end. */
  method GetNodesList(nodes: seq<NodeInfo>) returns (text: string)
    ensures text == if nodes == [] then EMPTY_LIST else LIST_PREFIX + Join(EntryTexts(nodes), ',')
  {
    if nodes == [] {
      return EMPTY_LIST;
    }
    var result := "";
    for i := 0 to |nodes|
      invariant result == Join(EntryTexts(nodes[..i]), ',')
    {
      hide EntryText;
      EntriesNext(nodes, i);
      if i > 0 {
        result := result + ",";
      }
      result := result + EntryText(nodes[i]);
    }
    assert nodes[..|nodes|] == nodes;
    return LIST_PREFIX + result;
  }

  lemma EntriesNext(nodes: seq<NodeInfo>, i: nat)
    requires i < |nodes|
    ensures Join(EntryTexts(nodes[..i + 1]), ',')
         == (if i == 0 then "" else Join(EntryTexts(nodes[..i]), ',') + ",") + EntryText(nodes[i])
  {
    hide EntryText;
    assert EntryTexts(nodes[..i + 1]) == EntryTexts(nodes[..i]) + [EntryText(nodes[i])];
    JoinLast(EntryTexts(nodes[..i]), EntryText(nodes[i]), ',');
  }

  lemma {:induction false} JoinLast(parts: seq<string>, last: string, c: char)
    ensures Join(parts + [last], c) == if parts == [] then last else Join(parts, c) + [c] + last
  {
    if |parts| > 1 {
      JoinLast(parts[1..], last, c);
      assert (parts + [last])[1..] == parts[1..] + [last];
    } else if |parts| == 1 {
      assert (parts + [last])[1..] == [last];
    }
  }

  /** Name, address and key hold neither separator. */
  predicate Plain(n: NodeInfo) {
    && '|' !in n.Name && ',' !in n.Name && '|' !in n.Ip && ',' !in n.Ip && '|' !in n.PublicKey && ',' !in n.PublicKey
  }

  // ---- one entry ---------------------------------------------------------------------------

  /** SSEND reads every field back; SEND reads the address, which is the one SSEND gives the node. */
  lemma EntryReads(n: NodeInfo)
    requires Plain(n)
    ensures EntryInfo(EntryText(n)) == Some(n)
    ensures EntryAddr(EntryText(n)) == Some(n.Ip + ":" + Decimal(n.Port))
    ensures AddrOf(n) == n.Ip + ":" + Decimal(n.Port)
  {
    hide Join, Split, SplitN, Decimal;
    var rest := [n.PublicKey, Decimal(n.AvailabilityScore), Decimal(n.NetworkScore)];
    DecimalsFree(n, '|');
    SplitJoin([n.Name, n.Ip, Decimal(n.Port)] + rest, '|');
    AtoiDecimal(n.Port);
    AtoiDecimal(n.AvailabilityScore);
    AtoiDecimal(n.NetworkScore);
    FourthTakesRest(n.Name, n.Ip, Decimal(n.Port), rest);
    assert [n.Name, n.Ip, Decimal(n.Port)] + rest
        == [n.Name, n.Ip, Decimal(n.Port), n.PublicKey, Decimal(n.AvailabilityScore), Decimal(n.NetworkScore)];
  }

  lemma DecimalsFree(n: NodeInfo, c: char)
    requires c == '|' || c == ','
    ensures c !in Decimal(n.Port) && c !in Decimal(n.AvailabilityScore) && c !in Decimal(n.NetworkScore)
  {
    DecimalFree(n.Port, c);
    DecimalFree(n.AvailabilityScore, c);
    DecimalFree(n.NetworkScore, c);
  }

  lemma FourthTakesRest(a: string, b: string, d: string, rest: seq<string>)
    requires '|' !in a && '|' !in b && '|' !in d && rest != []
    ensures SplitN(Join([a, b, d] + rest, '|'), '|', LIST_FIELDS) == [a, b, d, Join(rest, '|')]
  {
    hide SplitN;
    var tail := Join(rest, '|');
    assert ([a, b, d] + rest)[1..] == [b, d] + rest && ([b, d] + rest)[1..] == [d] + rest && ([d] + rest)[1..] == rest;
    SplitNCons(a, Join([b, d] + rest, '|'), '|', 4);
    SplitNCons(b, Join([d] + rest, '|'), '|', 3);
    SplitNCons(d, tail, '|', 2);
    SplitNWhole(tail, '|', 1);
  }

  /** An entry of separator-free fields is taken by SEND from four fields on and by SSEND from six on. */
  lemma EntryTaken(fields: seq<string>)
    requires |fields| >= 1 && forall f :: f in fields ==> '|' !in f
    ensures EntryAddr(Join(fields, '|')).Some? <==> |fields| >= 4
    ensures EntryInfo(Join(fields, '|')).Some? <==> |fields| >= 6
  {
    hide Join, Split, SplitN;
    SplitNCount(fields, '|', LIST_FIELDS);
    SplitJoin(fields, '|');
  }

  // ---- the whole list ----------------------------------------------------------------------

  lemma EntryHasNoComma(n: NodeInfo)
    requires Plain(n)
    ensures ',' !in EntryText(n)
  {
    hide Join;
    DecimalsFree(n, ',');
    JoinFree([n.Name, n.Ip, Decimal(n.Port), n.PublicKey, Decimal(n.AvailabilityScore), Decimal(n.NetworkScore)], '|',
             ',');
  }

  lemma {:induction false} JoinFree(parts: seq<string>, c: char, d: char)
    requires c != d && forall p :: p in parts ==> d !in p
    ensures d !in Join(parts, c)
  {
    if |parts| == 1 {
      assert parts[0] in parts;
    } else if |parts| > 1 {
      assert parts[0] in parts;
      JoinFree(parts[1..], c, d);
    }
  }

  function AddrsListed(nodes: seq<NodeInfo>): (addrs: seq<Addr>)
    ensures |addrs| == |nodes|
  {
    seq(|nodes|, i requires 0 <= i < |nodes| => AddrOf(nodes[i]))
  }

  lemma {:induction false} TextsRead(nodes: seq<NodeInfo>)
    requires forall n :: n in nodes ==> Plain(n)
    ensures ListedNodes(EntryTexts(nodes)) == nodes && Listed(EntryTexts(nodes)) == AddrsListed(nodes)
  {
    hide EntryText, EntryAddr, EntryInfo, AddrOf, Plain;
    if nodes != [] {
      var rest, n := nodes[..|nodes| - 1], nodes[|nodes| - 1];
      TextsRead(rest);
      EntryReads(n);
      assert EntryTexts(nodes)[..|nodes| - 1] == EntryTexts(rest);
      assert nodes == rest + [n] && AddrsListed(nodes) == AddrsListed(rest) + [AddrOf(n)];
    }
  }

  /** What the directory prints is what the senders read, node by node and in order. */
  lemma ListReads(nodes: seq<NodeInfo>)
    requires nodes != [] && forall n :: n in nodes ==> Plain(n)
    ensures var text := LIST_PREFIX + Join(EntryTexts(nodes), ',');
      ListedNodes(Entries(text)) == nodes && Listed(Entries(text)) == AddrsListed(nodes)
  {
    hide Join, Split, ListedNodes, Listed, EntryText, AddrOf, Plain;
    forall t | t in EntryTexts(nodes)
      ensures ',' !in t
    {
      var i :| 0 <= i < |nodes| && EntryTexts(nodes)[i] == t;
      EntryHasNoComma(nodes[i]);
    }
    var body := Join(EntryTexts(nodes), ',');
    assert (LIST_PREFIX + body)[|LIST_PREFIX|..] == body;
    SplitJoin(EntryTexts(nodes), ',');
    TextsRead(nodes);
  }
}
