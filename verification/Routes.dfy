/**
 The routes of the two sending commands, and what they owe the protocol: SEND draws single relays at
 random from the directory's list, SSEND groups them into clusters; both mirror the way out for the
 way back.
 */
module Routes {
  import opened Wrappers
  import opened Strings
  import opened Layers
  import opened Encapsulation
  import opened Protocol
  import opened Clusters

  const LIST_PREFIX := "LIST:"
  const EMPTY_LIST := "LIST:empty"

  const LIST_FIELDS: nat := 4

  /** strings.TrimPrefix and the split at commas. */
  function Entries(listStr: string): seq<string> {
    Split(if LIST_PREFIX <= listStr then listStr[|LIST_PREFIX|..] else listStr, ',')
  }

  /** "name|ip|port|rest" gives "ip:port"; a shorter entry is skipped. */
  function EntryAddr(entry: string): Option<Addr> {
    var fields := SplitN(entry, '|', LIST_FIELDS);
    if |fields| < 4 then None else Some(fields[1] + ":" + fields[2])
  }

  /** The addresses the directory lists, in order. */
  function Listed(entries: seq<string>): seq<Addr> {
    if entries == [] then []
    else
      var a := EntryAddr(entries[|entries| - 1]);
      Listed(entries[..|entries| - 1]) + if a.Some? then [a.value] else []
  }

  /** Those that are neither the sender nor the destination. */
  function Others(addrs: seq<Addr>, nodeAddr: Addr, destAddr: Addr): seq<Addr> {
    if addrs == [] then []
    else
      var a := addrs[|addrs| - 1];
      Others(addrs[..|addrs| - 1], nodeAddr, destAddr) + if a != nodeAddr && a != destAddr then [a] else []
  }

  predicate Distinct(addrs: seq<Addr>) {
    forall i, j :: 0 <= i < j < |addrs| ==> addrs[i] != addrs[j]
  }

  datatype SendRoute = SendRoute(route: seq<Addr>, returnRoute: seq<Addr>)

  /** relays, then the destination; the relays backward, then the sender. */
  predicate Mirrored(relays: seq<Addr>, r: SendRoute, nodeAddr: Addr, destAddr: Addr) {
    && r.route == relays + [destAddr]
    && |r.returnRoute| == |relays| + 1
    && (forall i :: 0 <= i < |relays| ==> r.returnRoute[i] == relays[|relays| - 1 - i])
    && r.returnRoute[|relays|] == nodeAddr
  }

  /** What any random draw can give. */
  ghost predicate CanDraw(candidates: seq<Addr>, n: int, nodeAddr: Addr, destAddr: Addr, r: SendRoute) {
    exists relays :: |relays| == n && multiset(relays) <= multiset(candidates)
           && Mirrored(relays, r, nodeAddr, destAddr)
  }

  /** Route choice of SendWithRetry, whatever the random draws. */
  method BuildSendRoute(listStr: string, nodeAddr: Addr, destAddr: Addr, numRelays: int) returns (r: Result<SendRoute>)
    ensures var candidates := Others(Listed(Entries(listStr)), nodeAddr, destAddr);
      && (r.Ok? <==> listStr != EMPTY_LIST && candidates != [] && numRelays >= 1)
      && (r.Ok? ==> CanDraw(candidates, |r.value.route| - 1, nodeAddr, destAddr, r.value))
      && (r.Ok? && numRelays <= |candidates| ==> |r.value.route| - 1 == numRelays)
      && (r.Ok? && numRelays > |candidates| ==> |r.value.route| - 1 == |candidates|)
  {
    if listStr == EMPTY_LIST {
      return Err("no nodes available");
    }
    var candidates := CollectCandidates(Entries(listStr), nodeAddr, destAddr);
    r := DrawRoute(candidates, nodeAddr, destAddr, numRelays);
  }

  lemma ListedNext(entries: seq<string>, i: nat)
    requires i < |entries|
    ensures var a := EntryAddr(entries[i]);
      Listed(entries[..i + 1]) == if a.Some? then Listed(entries[..i]) + [a.value] else Listed(entries[..i])
  {
    assert entries[..i + 1][..i] == entries[..i];
  }

  lemma OthersNext(addrs: seq<Addr>, a: Addr, nodeAddr: Addr, destAddr: Addr)
    ensures var before := Others(addrs, nodeAddr, destAddr);
      Others(addrs + [a], nodeAddr, destAddr) == if a != nodeAddr && a != destAddr then before + [a] else before
  {
    assert (addrs + [a])[..|addrs|] == addrs;
  }

  method CollectCandidates(entries: seq<string>, nodeAddr: Addr, destAddr: Addr) returns (candidates: seq<Addr>)
    ensures candidates == Others(Listed(entries), nodeAddr, destAddr)
  {
    candidates := [];
    ghost var listed: seq<Addr> := [];
    for i := 0 to |entries|
      invariant listed == Listed(entries[..i])
      invariant candidates == Others(listed, nodeAddr, destAddr)
    {
      ListedNext(entries, i);
      var addr := EntryAddr(entries[i]);
      if addr.Some? {
        OthersNext(listed, addr.value, nodeAddr, destAddr);
        listed := listed + [addr.value];
        if addr.value != nodeAddr && addr.value != destAddr {
          candidates := candidates + [addr.value];
        }
      }
    }
    assert entries[..|entries|] == entries;
  }

  method DrawRoute(candidates: seq<Addr>, nodeAddr: Addr, destAddr: Addr, numRelays: int) returns (r: Result<SendRoute>)
    ensures r.Ok? <==> candidates != [] && numRelays >= 1
    ensures r.Ok? ==> CanDraw(candidates, |r.value.route| - 1, nodeAddr, destAddr, r.value)
    ensures r.Ok? && numRelays <= |candidates| ==> |r.value.route| - 1 == numRelays
    ensures r.Ok? && numRelays > |candidates| ==> |r.value.route| - 1 == |candidates|
  {
    var n := numRelays;
    if n > |candidates| {
      n := |candidates|;
    }
    if n == 0 {
      return Err("not enough relay nodes");
    }
    if n < 0 {
      return Err("slice bounds out of range");
    }
    var shuffled := DrawOrder(candidates);
    assert shuffled == shuffled[..n] + shuffled[n..];
    var relays := shuffled[..n];
    var route := Mirror(relays, nodeAddr, destAddr);
    return Ok(route);
  }

  method Mirror(relays: seq<Addr>, nodeAddr: Addr, destAddr: Addr) returns (r: SendRoute)
    ensures Mirrored(relays, r, nodeAddr, destAddr)
  {
    var returnRoute: seq<Addr> := [];
    var i := |relays| - 1;
    while i >= 0
      invariant -1 <= i < |relays| && |returnRoute| == |relays| - 1 - i
      invariant forall k :: 0 <= k < |returnRoute| ==> returnRoute[k] == relays[|relays| - 1 - k]
    {
      returnRoute := returnRoute + [relays[i]];
      i := i - 1;
    }
    return SendRoute(relays + [destAddr], returnRoute + [nodeAddr]);
  }

  /** The in-place Fisher-Yates loop, whatever Intn draws. */
  method DrawOrder(candidates: seq<Addr>) returns (shuffled: seq<Addr>)
    ensures multiset(shuffled) == multiset(candidates) && |shuffled| == |candidates|
  {
    shuffled := candidates;
    var i := |candidates| - 1;
    while i > 0
      invariant i < |candidates| == |shuffled|
      invariant multiset(shuffled) == multiset(candidates)
    {
      var j :| 0 <= j < i + 1;
      shuffled := shuffled[i := shuffled[j]][j := shuffled[i]];
      i := i - 1;
    }
  }

  // ---- the routes meet what the protocol asks for ------------------------------------------

  /** Whatever the directory sends, the addresses read from it hold no list or field separator. */
  lemma EntryAddrValid(entry: string)
    requires ',' !in entry && EntryAddr(entry).Some?
    ensures ValidAddr(EntryAddr(entry).value)
  {
    hide SplitN, AtoiOrZero, Itoa;
    var fields := SplitN(entry, '|', LIST_FIELDS);
    SplitNParts(entry, '|', LIST_FIELDS);
    SplitNFree(entry, '|', LIST_FIELDS, ',');
    assert fields[1] in fields && fields[2] in fields;
    assert InnerFree(fields, '|', LIST_FIELDS);
    assert EntryAddr(entry).value[|fields[1]|] == ':';
  }

  lemma {:induction false} ListedValid(entries: seq<string>)
    requires forall e :: e in entries ==> ',' !in e
    ensures ValidAddrs(Listed(entries))
  {
    if entries != [] {
      ListedValid(entries[..|entries| - 1]);
      var e := entries[|entries| - 1];
      if EntryAddr(e).Some? {
        EntryAddrValid(e);
      }
    }
  }

  lemma {:induction false} OthersOf(addrs: seq<Addr>, nodeAddr: Addr, destAddr: Addr)
    ensures forall a :: a in Others(addrs, nodeAddr, destAddr) <==> a in addrs && a != nodeAddr && a != destAddr
    ensures Distinct(addrs) ==> Distinct(Others(addrs, nodeAddr, destAddr))
  {
    if addrs != [] {
      var rest, a := addrs[..|addrs| - 1], addrs[|addrs| - 1];
      OthersOf(rest, nodeAddr, destAddr);
      assert addrs == rest + [a];
      if Distinct(addrs) {
        assert a !in rest;
        assert Distinct(rest);
        assert a !in Others(rest, nodeAddr, destAddr);
      }
    }
  }

  lemma {:induction false} DistinctCount(addrs: seq<Addr>, a: Addr)
    requires Distinct(addrs)
    ensures multiset(addrs)[a] <= 1
  {
    if addrs != [] {
      var rest := addrs[..|addrs| - 1];
      DistinctCount(rest, a);
      assert addrs == rest + [addrs[|addrs| - 1]];
      if addrs[|addrs| - 1] == a {
        assert a !in rest;
      }
    }
  }

  lemma TwiceCounts(addrs: seq<Addr>, i: nat, j: nat)
    requires i < j < |addrs| && addrs[i] == addrs[j]
    ensures multiset(addrs)[addrs[i]] >= 2
  {
    assert addrs == addrs[..j] + [addrs[j]] + addrs[j + 1..];
    assert addrs[..j][i] == addrs[j];
    assert multiset(addrs[..j])[addrs[j]] >= 1;
  }

  /** The one-member groups of a SEND route. */
  function Alone(relays: seq<Addr>): (groups: seq<seq<Addr>>)
    ensures |groups| == |relays|
  {
    seq(|relays|, i requires 0 <= i < |relays| => [relays[i]])
  }

  lemma DistinctDraw(candidates: seq<Addr>, relays: seq<Addr>)
    requires Distinct(candidates) && multiset(relays) <= multiset(candidates)
    ensures Distinct(relays) && forall a :: a in relays ==> a in candidates
  {
    forall a | a in relays
      ensures a in candidates
    {
      assert a in multiset(relays);
    }
    forall i, j | 0 <= i < j < |relays|
      ensures relays[i] != relays[j]
    {
      DistinctCount(candidates, relays[i]);
      assert multiset(relays)[relays[i]] <= multiset(candidates)[relays[i]];
      if relays[i] == relays[j] {
        TwiceCounts(relays, i, j);
      }
    }
  }

  lemma AloneValid(relays: seq<Addr>, nodeAddr: Addr)
    requires |relays| >= 1 && Distinct(relays) && ValidAddrs(relays) && nodeAddr !in relays
    ensures ValidRoute(Alone(relays), nodeAddr)
  {
    var groups := Alone(relays);
    forall i, j | 0 <= i < |groups| && 0 <= j < |groups| && i != j
      ensures Disjoint(groups[i], groups[j])
    {
      assert i < j || j < i;
    }
    forall i | 0 <= i < |groups|
      ensures groups[i] != [] && ValidAddrs(groups[i]) && nodeAddr !in groups[i]
    {
      assert relays[i] in relays;
    }
  }

  /** Given distinct addresses in the directory, every route SEND can draw consists of disjoint hops
      that are neither the sender nor the destination. */
  lemma SendRouteValid(listStr: string, nodeAddr: Addr, destAddr: Addr, n: int, r: SendRoute)
    returns (relays: seq<Addr>)
    requires Distinct(Listed(Entries(listStr))) && n >= 1
    requires CanDraw(Others(Listed(Entries(listStr)), nodeAddr, destAddr), n, nodeAddr, destAddr, r)
    ensures Mirrored(relays, r, nodeAddr, destAddr) && |relays| == n
    ensures ValidRoute(Alone(relays), nodeAddr) && destAddr !in relays
  {
    var listed := Listed(Entries(listStr));
    var candidates := Others(listed, nodeAddr, destAddr);
    relays :| |relays| == n && multiset(relays) <= multiset(candidates) && Mirrored(relays, r, nodeAddr, destAddr);
    ListedFromList(listStr);
    OthersOf(listed, nodeAddr, destAddr);
    DistinctDraw(candidates, relays);
    AloneValid(relays, nodeAddr);
  }

  lemma ListedFromList(listStr: string)
    ensures ValidAddrs(Listed(Entries(listStr)))
  {
    SplitFree(if LIST_PREFIX <= listStr then listStr[|LIST_PREFIX|..] else listStr, ',');
    ListedValid(Entries(listStr));
  }

  /** The onion SEND builds for a route it has drawn is the onion of the protocol's attempt on
      one-member groups, whatever keys the cache holds. */
  lemma SendOnionIsAttemptOnion(e: Send, relays: seq<Addr>, r: SendRoute, keyOf: map<Addr, Key>, msgID: Id,
                                nacks: seq<Id>)
    requires |nacks| == |relays| + 1 && Mirrored(relays, r, e.sender, e.dest)
    requires Cached(r.route, keyOf) && Cached(r.returnRoute, keyOf)
    ensures SingleOnion(e.message, e.frag, r.route, Some(r.returnRoute), keyOf, e.sender, msgID, nacks)
         == AttemptOnion(e, Alone(relays), keyOf, msgID, nacks)
  {
    SingleBuilderRefinesGroupBuilder(e.message, e.frag, r.route, Some(r.returnRoute), keyOf, e.sender, msgID, nacks);
    forall a | a in keyOf
      ensures KeysFor(keyOf, [a]) == [keyOf[a]]
    {
    }
    assert Singletons(r.route, keyOf) == ForwardRoute(Alone(relays), e.dest, keyOf);
    assert Singletons(r.returnRoute, keyOf) == ReturnRoute(Alone(relays), e.sender, keyOf);
  }

  // ---- SSEND -------------------------------------------------------------------------------

  /** "name|ip|port|key|Sa|Sn"; a shorter entry is skipped, a number that cannot be read is zero. */
  function EntryInfo(entry: string): Option<NodeInfo> {
    InfoOf(Split(entry, '|'))
  }

  function InfoOf(fields: seq<string>): Option<NodeInfo> {
    if |fields| < 6 then None
    else Some(NodeInfo(fields[0], fields[1], AtoiOrZero(fields[2]), fields[3], AtoiOrZero(fields[4]),
                       AtoiOrZero(fields[5])))
  }

  /** The nodes the directory lists, in order. */
  function ListedNodes(entries: seq<string>): seq<NodeInfo> {
    if entries == [] then []
    else
      var n := EntryInfo(entries[|entries| - 1]);
      ListedNodes(entries[..|entries| - 1]) + if n.Some? then [n.value] else []
  }

  /** Candidates so far and the addresses with a cached key. */
  datatype Collected = Collected(candidates: seq<NodeInfo>, cached: set<Addr>)

  /** One listed node: the two ends of the route are left out, and so is a node whose key is neither
      cached nor readable; a key that is read goes into the cache. */
  function CollectOne(c: Collected, n: NodeInfo, nodeAddr: Addr, destAddr: Addr, keyOf: map<string, Key>): Collected {
    var addr := AddrOf(n);
    if addr == nodeAddr || addr == destAddr || (addr !in c.cached && n.PublicKey !in keyOf) then c
    else Collected(c.candidates + [n], c.cached + {addr})
  }

  function CollectFrom(nodes: seq<NodeInfo>, known: set<Addr>, nodeAddr: Addr, destAddr: Addr,
                       keyOf: map<string, Key>): Collected {
    if nodes == [] then Collected([], known)
    else CollectOne(CollectFrom(nodes[..|nodes| - 1], known, nodeAddr, destAddr, keyOf), nodes[|nodes| - 1], nodeAddr,
                    destAddr, keyOf)
  }

  /** Candidate collection of SendWithRetrySuper. */
  method CollectSuperCandidates(entries: seq<string>, known: set<Addr>, nodeAddr: Addr, destAddr: Addr,
                                keyOf: map<string, Key>)
    returns (candidates: seq<NodeInfo>, cached: set<Addr>)
    ensures Collected(candidates, cached) == CollectFrom(ListedNodes(entries), known, nodeAddr, destAddr, keyOf)
  {
    candidates, cached := [], known;
    ghost var listed: seq<NodeInfo> := [];
    for i := 0 to |entries|
      invariant listed == ListedNodes(entries[..i])
      invariant Collected(candidates, cached) == CollectFrom(listed, known, nodeAddr, destAddr, keyOf)
    {
      hide EntryInfo, ListedNodes, CollectFrom, AddrOf;
      ListedNodesNext(entries, i);
      var n := EntryInfo(entries[i]);
      if n.Some? {
        CollectNext(listed, n.value, known, nodeAddr, destAddr, keyOf);
        listed := listed + [n.value];
        candidates, cached := CollectNode(candidates, cached, n.value, nodeAddr, destAddr, keyOf);
      }
    }
    assert entries[..|entries|] == entries;
  }

  method CollectNode(candidates: seq<NodeInfo>, cached: set<Addr>, n: NodeInfo, nodeAddr: Addr, destAddr: Addr,
                     keyOf: map<string, Key>)
    returns (candidates': seq<NodeInfo>, cached': set<Addr>)
    ensures Collected(candidates', cached') == CollectOne(Collected(candidates, cached), n, nodeAddr, destAddr, keyOf)
  {
    candidates', cached' := candidates, cached;
    var addr := AddrOf(n);
    if addr == nodeAddr || addr == destAddr {
      return;
    }
    if addr !in cached {
      if n.PublicKey !in keyOf {
        return;
      }
      cached' := cached + {addr};
    }
    assert addr in cached ==> cached + {addr} == cached;
    candidates' := candidates + [n];
  }

  lemma ListedNodesNext(entries: seq<string>, i: nat)
    requires i < |entries|
    ensures var n := EntryInfo(entries[i]);
      ListedNodes(entries[..i + 1]) == if n.Some? then ListedNodes(entries[..i]) + [n.value]
        else ListedNodes(entries[..i])
  {
    assert entries[..i + 1][..i] == entries[..i];
  }

  lemma CollectNext(nodes: seq<NodeInfo>, n: NodeInfo, known: set<Addr>, nodeAddr: Addr, destAddr: Addr,
                    keyOf: map<string, Key>)
    ensures CollectFrom(nodes + [n], known, nodeAddr, destAddr, keyOf)
         == CollectOne(CollectFrom(nodes, known, nodeAddr, destAddr, keyOf), n, nodeAddr, destAddr, keyOf)
  {
    assert (nodes + [n])[..|nodes|] == nodes;
  }

  predicate DistinctNodes(nodes: seq<NodeInfo>) {
    forall i, j :: 0 <= i < j < |nodes| ==> AddrOf(nodes[i]) != AddrOf(nodes[j])
  }

  /** The candidates are listed nodes other than the two ends. */
  lemma {:induction false} CollectedFrom(nodes: seq<NodeInfo>, known: set<Addr>, nodeAddr: Addr, destAddr: Addr,
                                         keyOf: map<string, Key>)
    ensures forall n :: n in CollectFrom(nodes, known, nodeAddr, destAddr, keyOf).candidates ==>
              n in nodes && AddrOf(n) != nodeAddr && AddrOf(n) != destAddr
  {
    if nodes != [] {
      CollectedFrom(nodes[..|nodes| - 1], known, nodeAddr, destAddr, keyOf);
    }
  }

  /** Not an end of the route, and with a key that is cached or can be read. */
  predicate Takes(n: NodeInfo, known: set<Addr>, nodeAddr: Addr, destAddr: Addr, keyOf: map<string, Key>) {
    AddrOf(n) != nodeAddr && AddrOf(n) != destAddr && (AddrOf(n) in known || n.PublicKey in keyOf)
  }

  /** Exactly those whose key is cached or can be read, when the addresses are distinct. */
  lemma {:induction false} CollectedExactly(nodes: seq<NodeInfo>, known: set<Addr>, nodeAddr: Addr, destAddr: Addr,
                                            keyOf: map<string, Key>)
    requires DistinctNodes(nodes)
    ensures forall n :: n in CollectFrom(nodes, known, nodeAddr, destAddr, keyOf).candidates <==>
              n in nodes && Takes(n, known, nodeAddr, destAddr, keyOf)
    ensures forall a :: a in CollectFrom(nodes, known, nodeAddr, destAddr, keyOf).cached ==>
              a in known || exists n :: n in nodes && AddrOf(n) == a
  {
    hide AddrOf, CollectFrom, DistinctNodes;
    if nodes == [] {
      CollectNone(known, nodeAddr, destAddr, keyOf);
    } else {
      var rest, n := nodes[..|nodes| - 1], nodes[|nodes| - 1];
      assert nodes == rest + [n];
      OthersApart(nodes);
      CollectedExactly(rest, known, nodeAddr, destAddr, keyOf);
      KnownStay(rest, known, nodeAddr, destAddr, keyOf);
      CollectNext(rest, n, known, nodeAddr, destAddr, keyOf);
      OneExactly(rest, n, CollectFrom(rest, known, nodeAddr, destAddr, keyOf), known, nodeAddr, destAddr, keyOf);
    }
  }

  lemma CollectNone(known: set<Addr>, nodeAddr: Addr, destAddr: Addr, keyOf: map<string, Key>)
    ensures CollectFrom([], known, nodeAddr, destAddr, keyOf) == Collected([], known)
  {
  }

  lemma OthersApart(nodes: seq<NodeInfo>)
    requires nodes != [] && DistinctNodes(nodes)
    ensures DistinctNodes(nodes[..|nodes| - 1])
    ensures forall m :: m in nodes[..|nodes| - 1] ==> AddrOf(m) != AddrOf(nodes[|nodes| - 1])
  {
    hide AddrOf;
    var rest, n := nodes[..|nodes| - 1], nodes[|nodes| - 1];
    forall m | m in rest
      ensures AddrOf(m) != AddrOf(n)
    {
      var i :| 0 <= i < |rest| && rest[i] == m;
      assert AddrOf(nodes[i]) != AddrOf(nodes[|nodes| - 1]);
    }
  }

  lemma OneExactly(rest: seq<NodeInfo>, n: NodeInfo, c: Collected, known: set<Addr>, nodeAddr: Addr, destAddr: Addr,
                   keyOf: map<string, Key>)
    requires forall m :: m in rest ==> AddrOf(m) != AddrOf(n)
    requires known <= c.cached && forall a :: a in c.cached ==> a in known || exists m :: m in rest && AddrOf(m) == a
    requires forall m :: m in c.candidates <==> m in rest && Takes(m, known, nodeAddr, destAddr, keyOf)
    ensures var c' := CollectOne(c, n, nodeAddr, destAddr, keyOf);
      && (forall m :: m in c'.candidates <==> m in rest + [n] && Takes(m, known, nodeAddr, destAddr, keyOf))
      && forall a :: a in c'.cached ==> a in known || exists m :: m in rest + [n] && AddrOf(m) == a
  {
    hide AddrOf;
    var c' := CollectOne(c, n, nodeAddr, destAddr, keyOf);
    forall a | a in c'.cached
      ensures a in known || exists m :: m in rest + [n] && AddrOf(m) == a
    {
      if a == AddrOf(n) {
        assert n in rest + [n];
      } else if a !in known {
        var m :| m in rest && AddrOf(m) == a;
        assert m in rest + [n];
      }
    }
  }

  lemma {:induction false} KnownStay(nodes: seq<NodeInfo>, known: set<Addr>, nodeAddr: Addr, destAddr: Addr,
                                     keyOf: map<string, Key>)
    ensures known <= CollectFrom(nodes, known, nodeAddr, destAddr, keyOf).cached
  {
    if nodes != [] {
      KnownStay(nodes[..|nodes| - 1], known, nodeAddr, destAddr, keyOf);
    }
  }

  lemma DistinctMore(nodes: seq<NodeInfo>, n: NodeInfo)
    requires DistinctNodes(nodes) && forall m :: m in nodes ==> AddrOf(m) != AddrOf(n)
    ensures DistinctNodes(nodes + [n])
  {
  }

  lemma {:induction false} CollectedDistinct(nodes: seq<NodeInfo>, known: set<Addr>, nodeAddr: Addr, destAddr: Addr,
                                             keyOf: map<string, Key>)
    requires DistinctNodes(nodes)
    ensures DistinctNodes(CollectFrom(nodes, known, nodeAddr, destAddr, keyOf).candidates)
  {
    if nodes != [] {
      var rest, n := nodes[..|nodes| - 1], nodes[|nodes| - 1];
      CollectedDistinct(rest, known, nodeAddr, destAddr, keyOf);
      CollectedFrom(rest, known, nodeAddr, destAddr, keyOf);
      var before := CollectFrom(rest, known, nodeAddr, destAddr, keyOf).candidates;
      forall m | m in before
        ensures AddrOf(m) != AddrOf(n)
      {
        var i :| 0 <= i < |rest| && rest[i] == m;
        assert AddrOf(nodes[i]) != AddrOf(nodes[|nodes| - 1]);
      }
      DistinctMore(before, n);
    }
  }

  lemma EntryInfoValid(entry: string)
    requires ',' !in entry && EntryInfo(entry).Some?
    ensures ValidAddr(AddrOf(EntryInfo(entry).value))
  {
    var fields := Split(entry, '|');
    SplitFree(entry, '|');
    SplitCharFree(entry, '|', ',');
    InfoValid(fields);
  }

  lemma InfoValid(fields: seq<string>)
    requires |fields| >= 6 && forall f :: f in fields ==> '|' !in f && ',' !in f
    ensures ValidAddr(AddrOf(InfoOf(fields).value))
  {
    var n := InfoOf(fields).value;
    assert fields[1] in fields;
    DecimalFree(n.Port, '|');
    DecimalFree(n.Port, ',');
    assert AddrOf(n)[|n.Ip|] == ':';
  }

  lemma {:induction false} ListedNodesValid(entries: seq<string>)
    requires forall e :: e in entries ==> ',' !in e
    ensures forall n :: n in ListedNodes(entries) ==> ValidAddr(AddrOf(n))
  {
    if entries != [] {
      ListedNodesValid(entries[..|entries| - 1]);
      var e := entries[|entries| - 1];
      if EntryInfo(e).Some? {
        EntryInfoValid(e);
      }
    }
  }

  function AddrsOf(clusters: seq<LayerGroup>): (groups: seq<seq<Addr>>)
    ensures |groups| == |clusters|
    ensures forall i :: 0 <= i < |clusters| ==> groups[i] == clusters[i].addrs
  {
    seq(|clusters|, i requires 0 <= i < |clusters| => clusters[i].addrs)
  }

  lemma MemberIsEligible(clusters: seq<LayerGroup>, scores: seq<int>, members: seq<seq<NodeInfo>>,
                         keyOf: map<string, Key>, nodes: seq<NodeInfo>, blacklist: seq<Addr>, numHops: nat, i: nat,
                         a: Addr)
                           returns (n: NodeInfo)
    requires GoodClusters(clusters, scores, members, keyOf, Eligible(nodes, blacklist, keyOf), numHops)
    requires i < |clusters| && a in clusters[i].addrs
    ensures n in members[i] && AddrOf(n) == a && n in nodes && a !in blacklist
  {
    assert GroupOf(clusters[i], members[i], keyOf);
    var k :| 0 <= k < |clusters[i].addrs| && clusters[i].addrs[k] == a;
    n := members[i][k];
    GatheredHas(members, i, n);
    assert n in multiset(Eligible(nodes, blacklist, keyOf));
    EligibleMember(nodes, blacklist, keyOf, n);
  }

  lemma EligibleMember(nodes: seq<NodeInfo>, blacklist: seq<Addr>, keyOf: map<string, Key>, n: NodeInfo)
    requires n in Eligible(nodes, blacklist, keyOf)
    ensures n in nodes && AddrOf(n) !in blacklist && n.PublicKey in keyOf
  {
    UsablesMember(Available(nodes, blacklist), keyOf, n);
    AvailableCount(nodes, blacklist, n);
    assert n in multiset(Available(nodes, blacklist));
  }

  lemma {:induction false} AvailableCount(nodes: seq<NodeInfo>, blacklist: seq<Addr>, n: NodeInfo)
    ensures multiset(Available(nodes, blacklist))[n] == if AddrOf(n) in blacklist then 0 else multiset(nodes)[n]
  {
    if nodes != [] {
      AvailableCount(nodes[..|nodes| - 1], blacklist, n);
      assert nodes == nodes[..|nodes| - 1] + [nodes[|nodes| - 1]];
    }
  }

  lemma {:induction false} OnceInDistinct(nodes: seq<NodeInfo>, n: NodeInfo)
    requires DistinctNodes(nodes)
    ensures multiset(nodes)[n] <= 1
  {
    hide AddrOf;
    if nodes != [] {
      var rest := nodes[..|nodes| - 1];
      OnceInDistinct(rest, n);
      assert nodes == rest + [nodes[|nodes| - 1]];
      if nodes[|nodes| - 1] == n {
        assert n !in rest;
      }
    }
  }

  lemma {:induction false} TwiceGathered(members: seq<seq<NodeInfo>>, i: nat, j: nat, n: NodeInfo)
    requires i < j < |members| && n in members[i] && n in members[j]
    ensures Gathered(members)[n] >= 2
  {
    var last := |members| - 1;
    if j < last {
      TwiceGathered(members[..last], i, j, n);
    } else {
      GatheredHas(members[..last], i, n);
      assert n in multiset(members[last]);
    }
  }

  lemma ApartInClusters(clusters: seq<LayerGroup>, scores: seq<int>, members: seq<seq<NodeInfo>>,
                        keyOf: map<string, Key>, nodes: seq<NodeInfo>, blacklist: seq<Addr>, numHops: nat, i: nat,
                        j: nat, a: Addr)
    requires GoodClusters(clusters, scores, members, keyOf, Eligible(nodes, blacklist, keyOf), numHops)
    requires DistinctNodes(nodes) && i < j < |clusters| && a in clusters[i].addrs
    ensures a !in clusters[j].addrs
  {
    if a in clusters[j].addrs {
      var n := MemberIsEligible(clusters, scores, members, keyOf, nodes, blacklist, numHops, i, a);
      var m := MemberIsEligible(clusters, scores, members, keyOf, nodes, blacklist, numHops, j, a);
      SameAddrSameNode(nodes, n, m);
      UsablesCount(Available(nodes, blacklist), keyOf, n);
      AvailableCount(nodes, blacklist, n);
      OnceInDistinct(nodes, n);
      TwiceGathered(members, i, j, n);
    }
  }

  lemma SameAddrSameNode(nodes: seq<NodeInfo>, n: NodeInfo, m: NodeInfo)
    requires DistinctNodes(nodes) && n in nodes && m in nodes && AddrOf(n) == AddrOf(m)
    ensures n == m
  {
    var i :| 0 <= i < |nodes| && nodes[i] == n;
    var j :| 0 <= j < |nodes| && nodes[j] == m;
  }

  // ---- the SSEND route ---------------------------------------------------------------------

  /** A super send never uses fewer hops than this. */
  const MIN_CLUSTERS: nat := 3

  function SuperHops(numHops: int): (hops: nat)
    ensures hops >= 3 && hops >= numHops && (hops == 3 || hops == numHops)
  {
    if numHops < MIN_CLUSTERS then MIN_CLUSTERS else numHops
  }

  function SuperCandidates(listStr: string, known: set<Addr>, nodeAddr: Addr, destAddr: Addr,
                           keyOf: map<string, Key>): seq<NodeInfo> {
    CollectFrom(ListedNodes(Entries(listStr)), known, nodeAddr, destAddr, keyOf).candidates
  }

  datatype SuperRoute = SuperRoute(route: seq<LayerGroup>, returnRoute: seq<LayerGroup>)

  function OneGroup(a: Addr, key: Key): LayerGroup {
    LayerGroup([a], [key])
  }

  /** Out through the clusters to the destination, back through the same clusters to the sender. */
  predicate MirroredGroups(clusters: seq<LayerGroup>, r: SuperRoute, own: LayerGroup, dest: LayerGroup) {
    && r.route == clusters + [dest]
    && |r.returnRoute| == |clusters| + 1 && r.returnRoute[|clusters|] == own
    && forall i :: 0 <= i < |clusters| ==> r.returnRoute[i] == clusters[|clusters| - 1 - i]
  }

  method MirrorGroups(clusters: seq<LayerGroup>, own: LayerGroup, dest: LayerGroup) returns (r: SuperRoute)
    ensures MirroredGroups(clusters, r, own, dest)
  {
    var returnRoute: seq<LayerGroup> := [];
    var i := |clusters| - 1;
    while i >= 0
      invariant -1 <= i < |clusters| && |returnRoute| == |clusters| - 1 - i
      invariant forall k :: 0 <= k < |returnRoute| ==> returnRoute[k] == clusters[|clusters| - 1 - k]
    {
      returnRoute := returnRoute + [clusters[i]];
      i := i - 1;
    }
    return SuperRoute(clusters + [dest], returnRoute + [own]);
  }

  /** The route of a super send: at least three hops are asked for, it fails on the empty list, with
      fewer candidates than hops, or without the destination's key, and otherwise takes the clusters
      of the candidates that are not blacklisted, every one of them non-empty exactly when those
      suffice.  `members` and `scores` only explain the clusters. */
  method BuildSuperRoute(listStr: string, known: set<Addr>, nodeAddr: Addr, destAddr: Addr, keyOf: map<string, Key>,
                         numHops: int, blacklist: seq<Addr>, ownKey: Key, destKey: Option<Key>)
    returns (r: Result<SuperRoute>, ghost clusters: seq<LayerGroup>, ghost members: seq<seq<NodeInfo>>,
             ghost scores: seq<int>)
    ensures var candidates := SuperCandidates(listStr, known, nodeAddr, destAddr, keyOf);
      var eligible := Eligible(candidates, blacklist, keyOf);
      && (r.Ok? <==> listStr != EMPTY_LIST && |candidates| >= 3 && |candidates| >= numHops && destKey.Some?)
      && (r.Ok? && numHops >= 3 ==> |r.value.route| == |r.value.returnRoute| == numHops + 1)
      && (r.Ok? && numHops < 3 ==> |r.value.route| == |r.value.returnRoute| == 4)
      && (r.Ok? ==>
            && MirroredGroups(clusters, r.value, OneGroup(nodeAddr, ownKey), OneGroup(destAddr, destKey.value))
            && GoodClusters(clusters, scores, members, keyOf, eligible, SuperHops(numHops))
            && (AllHaveKeys(r.value.route) <==> |eligible| >= SuperHops(numHops))
            && (AllHaveKeys(r.value.returnRoute) <==> |eligible| >= SuperHops(numHops)))
  {
    hide GoodClusters, Eligible, CollectFrom, ListedNodes, Entries, AddrOf;
    clusters, members, scores := [], [], [];
    if listStr == EMPTY_LIST {
      return Err("no nodes available"), [], [], [];
    }
    var candidates, _ := CollectSuperCandidates(Entries(listStr), known, nodeAddr, destAddr, keyOf);
    var hops: nat := if numHops < MIN_CLUSTERS then MIN_CLUSTERS else numHops;
    if |candidates| < hops {
      return Err("not enough nodes for requested hops"), [], [], [];
    }
    var groups, _, m, sc := BuildSmartClusters(candidates, hops, blacklist, keyOf);
    if destKey.None? {
      return Err("destination key not found"), [], [], [];
    }
    var route := MirrorGroups(groups, OneGroup(nodeAddr, ownKey), OneGroup(destAddr, destKey.value));
    KeyedWhenFilled(groups, route, OneGroup(nodeAddr, ownKey), OneGroup(destAddr, destKey.value));
    return Ok(route), groups, m, sc;
  }

  lemma KeyedWhenFilled(clusters: seq<LayerGroup>, r: SuperRoute, own: LayerGroup, dest: LayerGroup)
    requires Paired(clusters) && MirroredGroups(clusters, r, own, dest) && own.keys != [] && dest.keys != []
    ensures AllHaveKeys(r.route) <==> forall i :: 0 <= i < |clusters| ==> clusters[i].addrs != []
    ensures AllHaveKeys(r.returnRoute) <==> forall i :: 0 <= i < |clusters| ==> clusters[i].addrs != []
  {
    if AllHaveKeys(r.route) {
      forall i | 0 <= i < |clusters|
        ensures clusters[i].addrs != []
      {
        assert r.route[i] == clusters[i];
      }
    }
    if AllHaveKeys(r.returnRoute) {
      forall i | 0 <= i < |clusters|
        ensures clusters[i].addrs != []
      {
        assert r.returnRoute[|clusters| - 1 - i] == clusters[i];
      }
    }
  }

  /** Given distinct addresses in the directory and enough eligible nodes, the clusters of a super
      route are disjoint non-empty groups without the sender, the destination and the blacklisted,
      whatever the random draws. */
  lemma SuperRouteValid(listStr: string, known: set<Addr>, nodeAddr: Addr, destAddr: Addr, keyOf: map<string, Key>,
                        blacklist: seq<Addr>, numHops: int, clusters: seq<LayerGroup>, scores: seq<int>,
                        members: seq<seq<NodeInfo>>)
    requires DistinctNodes(ListedNodes(Entries(listStr)))
    requires var eligible := Eligible(SuperCandidates(listStr, known, nodeAddr, destAddr, keyOf), blacklist, keyOf);
      GoodClusters(clusters, scores, members, keyOf, eligible, SuperHops(numHops)) && |eligible| >= SuperHops(numHops)
    ensures |clusters| == SuperHops(numHops) >= 3 && ValidRoute(AddrsOf(clusters), nodeAddr)
    ensures forall i :: 0 <= i < |clusters| ==> destAddr !in clusters[i].addrs && forall a :: a in clusters[i].addrs ==>
              a !in blacklist
  {
    hide GoodClusters, ValidRoute;
    var listed := ListedNodes(Entries(listStr));
    var nodes := SuperCandidates(listStr, known, nodeAddr, destAddr, keyOf);
    SplitFree(if LIST_PREFIX <= listStr then listStr[|LIST_PREFIX|..] else listStr, ',');
    ListedNodesValid(Entries(listStr));
    CollectedFrom(listed, known, nodeAddr, destAddr, keyOf);
    CollectedDistinct(listed, known, nodeAddr, destAddr, keyOf);
    ClustersCount(clusters, scores, members, keyOf, Eligible(nodes, blacklist, keyOf), SuperHops(numHops));
    ClustersValid(clusters, scores, members, keyOf, nodes, blacklist, SuperHops(numHops), nodeAddr, destAddr);
  }

  lemma ClustersCount(clusters: seq<LayerGroup>, scores: seq<int>, members: seq<seq<NodeInfo>>, keyOf: map<string, Key>,
                      eligible: seq<NodeInfo>, numHops: nat)
    requires GoodClusters(clusters, scores, members, keyOf, eligible, numHops)
    ensures |clusters| == numHops
  {
  }

  lemma ClustersValid(clusters: seq<LayerGroup>, scores: seq<int>, members: seq<seq<NodeInfo>>, keyOf: map<string, Key>,
                      nodes: seq<NodeInfo>, blacklist: seq<Addr>, numHops: nat, nodeAddr: Addr, destAddr: Addr)
    requires numHops >= 1 && GoodClusters(clusters, scores, members, keyOf, Eligible(nodes, blacklist, keyOf), numHops)
    requires |Eligible(nodes, blacklist, keyOf)| >= numHops && DistinctNodes(nodes)
    requires forall n :: n in nodes ==> ValidAddr(AddrOf(n)) && AddrOf(n) != nodeAddr && AddrOf(n) != destAddr
    ensures ValidRoute(AddrsOf(clusters), nodeAddr)
    ensures forall i :: 0 <= i < |clusters| ==> destAddr !in clusters[i].addrs && forall a :: a in clusters[i].addrs ==>
              a !in blacklist
  {
    var groups := AddrsOf(clusters);
    forall i | 0 <= i < |groups|
      ensures groups[i] != []
      ensures forall a :: a in groups[i] ==> ValidAddr(a) && a != nodeAddr && a != destAddr && a !in blacklist
    {
      assert members[i] != [] && GroupOf(clusters[i], members[i], keyOf);
      forall a | a in groups[i]
        ensures ValidAddr(a) && a != nodeAddr && a != destAddr && a !in blacklist
      {
        var n := MemberIsEligible(clusters, scores, members, keyOf, nodes, blacklist, numHops, i, a);
      }
    }
    forall i, j | 0 <= i < |groups| && 0 <= j < |groups| && i != j
      ensures Disjoint(groups[i], groups[j])
    {
      forall a | a in groups[i]
        ensures a !in groups[j]
      {
        if a in groups[j] {
          ApartInClusters(clusters, scores, members, keyOf, nodes, blacklist, numHops,
                          if i < j then i else j, if i < j then j else i, a);
        }
      }
    }
  }

  /** The onion built for the clusters is the onion of the protocol's attempt on those groups, for
      keys that give every address the one that stands beside it. */
  lemma SuperOnionIsAttemptOnion(e: Send, clusters: seq<LayerGroup>, back: seq<LayerGroup>, keyOf: map<Addr, Key>,
                                 msgID: Id, nacks: seq<Id>)
    requires e.frag == "" && |nacks| == |clusters| + 1 == |back|
    requires forall i :: 0 <= i < |clusters| ==>
               clusters[i].keys == KeysFor(keyOf, clusters[i].addrs) && back[i] == clusters[|clusters| - 1 - i]
    requires back[|clusters|] == GroupWith(keyOf, [e.sender])
    ensures DoubleOnion(e.message, "", clusters + [GroupWith(keyOf, [e.dest])], Some(back), e.sender, msgID, nacks)
         == AttemptOnion(e, AddrsOf(clusters), keyOf, msgID, nacks)
  {
    assert clusters + [GroupWith(keyOf, [e.dest])] == ForwardRoute(AddrsOf(clusters), e.dest, keyOf);
    assert back == ReturnRoute(AddrsOf(clusters), e.sender, keyOf);
  }

  /** The keys listed with these nodes, by address. */
  function KeyBook(nodes: seq<NodeInfo>, keyOf: map<string, Key>): map<Addr, Key> {
    if nodes == [] then map[]
    else
      var book, n := KeyBook(nodes[..|nodes| - 1], keyOf), nodes[|nodes| - 1];
      if n.PublicKey in keyOf then book[AddrOf(n) := keyOf[n.PublicKey]] else book
  }

  lemma {:induction false} InKeyBook(nodes: seq<NodeInfo>, keyOf: map<string, Key>, i: nat)
    requires DistinctNodes(nodes) && i < |nodes| && nodes[i].PublicKey in keyOf
    ensures AddrOf(nodes[i]) in KeyBook(nodes, keyOf)
            && KeyBook(nodes, keyOf)[AddrOf(nodes[i])] == keyOf[nodes[i].PublicKey]
  {
    hide AddrOf;
    if i < |nodes| - 1 {
      InKeyBook(nodes[..|nodes| - 1], keyOf, i);
      assert nodes[..|nodes| - 1][i] == nodes[i];
    }
  }

  /** With the book of its candidates a cluster is keyed as the protocol keys a group. */
  lemma ClusterKeyed(clusters: seq<LayerGroup>, scores: seq<int>, members: seq<seq<NodeInfo>>, keyOf: map<string, Key>,
                     nodes: seq<NodeInfo>, blacklist: seq<Addr>, numHops: nat, keys: map<Addr, Key>, i: nat)
    requires GoodClusters(clusters, scores, members, keyOf, Eligible(nodes, blacklist, keyOf), numHops)
             && i < |clusters|
    requires forall n :: n in nodes && n.PublicKey in keyOf ==>
               AddrOf(n) in keys && keys[AddrOf(n)] == keyOf[n.PublicKey]
    ensures forall a :: a in clusters[i].addrs ==> a in keys
    ensures clusters[i].keys == KeysFor(keys, clusters[i].addrs)
  {
    assert GroupOf(clusters[i], members[i], keyOf);
    forall k | 0 <= k < |clusters[i].addrs|
      ensures clusters[i].addrs[k] in keys && clusters[i].keys[k] == keys[clusters[i].addrs[k]]
    {
      var n := members[i][k];
      GatheredHas(members, i, n);
      assert n in multiset(Eligible(nodes, blacklist, keyOf));
      EligibleMember(nodes, blacklist, keyOf, n);
    }
  }

  /** A super route is one the protocol launches: with the keys listed for its nodes, its onion is the
      onion of an attempt on the clusters. */
  lemma SuperRouteIsLaunch(listStr: string, known: set<Addr>, keyOf: map<string, Key>, blacklist: seq<Addr>,
                           numHops: int, ownKey: Key, destKey: Key, clusters: seq<LayerGroup>, scores: seq<int>,
                           members: seq<seq<NodeInfo>>, r: SuperRoute, e: Send)
    returns (keys: map<Addr, Key>)
    requires DistinctNodes(ListedNodes(Entries(listStr))) && e.frag == "" && (e.sender == e.dest ==> ownKey == destKey)
    requires var eligible := Eligible(SuperCandidates(listStr, known, e.sender, e.dest, keyOf), blacklist, keyOf);
      GoodClusters(clusters, scores, members, keyOf, eligible, SuperHops(numHops)) && |eligible| >= SuperHops(numHops)
    requires MirroredGroups(clusters, r, OneGroup(e.sender, ownKey), OneGroup(e.dest, destKey))
    ensures ValidRoute(AddrsOf(clusters), e.sender) && HasKeys(AddrsOf(clusters), e, keys)
    ensures forall msgID, nacks: seq<Id> :: |nacks| == |clusters| + 1 ==>
              DoubleOnion(e.message, "", r.route, Some(r.returnRoute), e.sender, msgID, nacks)
              == AttemptOnion(e, AddrsOf(clusters), keys, msgID, nacks)
  {
    hide GoodClusters, ValidRoute, DoubleOnion, AttemptOnion, AddrOf, Eligible, CollectFrom, ListedNodes, Entries,
         KeyBook;
    SuperRouteValid(listStr, known, e.sender, e.dest, keyOf, blacklist, numHops, clusters, scores, members);
    var nodes := SuperCandidates(listStr, known, e.sender, e.dest, keyOf);
    keys := BookFor(listStr, known, keyOf, ownKey, destKey, e);
    forall i | 0 <= i < |clusters|
      ensures forall a :: a in clusters[i].addrs ==> a in keys
      ensures clusters[i].keys == KeysFor(keys, clusters[i].addrs)
    {
      ClusterKeyed(clusters, scores, members, keyOf, nodes, blacklist, SuperHops(numHops), keys, i);
    }
    forall msgID, nacks: seq<Id> | |nacks| == |clusters| + 1
      ensures DoubleOnion(e.message, "", r.route, Some(r.returnRoute), e.sender, msgID, nacks)
           == AttemptOnion(e, AddrsOf(clusters), keys, msgID, nacks)
    {
      assert KeysFor(keys, [e.sender]) == [ownKey] && KeysFor(keys, [e.dest]) == [destKey];
      SuperOnionIsAttemptOnion(e, clusters, r.returnRoute, keys, msgID, nacks);
    }
  }

  lemma BookFor(listStr: string, known: set<Addr>, keyOf: map<string, Key>, ownKey: Key, destKey: Key, e: Send)
    returns (keys: map<Addr, Key>)
    requires DistinctNodes(ListedNodes(Entries(listStr))) && (e.sender == e.dest ==> ownKey == destKey)
    ensures e.sender in keys && keys[e.sender] == ownKey && e.dest in keys && keys[e.dest] == destKey
    ensures forall n :: n in SuperCandidates(listStr, known, e.sender, e.dest, keyOf) && n.PublicKey in keyOf ==>
              AddrOf(n) in keys && keys[AddrOf(n)] == keyOf[n.PublicKey]
  {
    hide AddrOf, ListedNodes, Entries, CollectFrom;
    var nodes := SuperCandidates(listStr, known, e.sender, e.dest, keyOf);
    CollectedFrom(ListedNodes(Entries(listStr)), known, e.sender, e.dest, keyOf);
    CollectedDistinct(ListedNodes(Entries(listStr)), known, e.sender, e.dest, keyOf);
    keys := KeyBook(nodes, keyOf)[e.dest := destKey][e.sender := ownKey];
    forall n | n in nodes && n.PublicKey in keyOf
      ensures AddrOf(n) in keys && keys[AddrOf(n)] == keyOf[n.PublicKey]
    {
      var i :| 0 <= i < |nodes| && nodes[i] == n;
      InKeyBook(nodes, keyOf, i);
    }
  }
}
