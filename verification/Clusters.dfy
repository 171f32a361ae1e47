/**
 Relay groups for the SSEND command: the eligible nodes in descending order of score, the first ones
 dealt out one per group with a little random jitter, every further one to the group that is behind.
 Scores are half-integers in the program; here they are doubled.
 */
module Clusters {
  import opened Strings
  import opened Layers
  import opened Encapsulation

  datatype NodeInfo = NodeInfo(Name: string, Ip: string, Port: int, PublicKey: string,
                               AvailabilityScore: int, NetworkScore: int)

  function AddrOf(n: NodeInfo): Addr {
    n.Ip + ":" + Decimal(n.Port)
  }

  /** Twice calculateNodeScore: both weights are one half. */
  function TwiceScore(n: NodeInfo): int {
    n.AvailabilityScore + n.NetworkScore
  }

  // ---- who is eligible ---------------------------------------------------------------------

  function Available(nodes: seq<NodeInfo>, blacklist: seq<Addr>): seq<NodeInfo> {
    if nodes == [] then []
    else
      var n := nodes[|nodes| - 1];
      Available(nodes[..|nodes| - 1], blacklist) + if AddrOf(n) in blacklist then [] else [n]
  }

  /** `keyOf` holds the key texts that parsePublicKey accepts. */
  function Usables(nodes: seq<NodeInfo>, keyOf: map<string, Key>): seq<NodeInfo> {
    if nodes == [] then []
    else
      var n := nodes[|nodes| - 1];
      Usables(nodes[..|nodes| - 1], keyOf) + if n.PublicKey in keyOf then [n] else []
  }

  function Eligible(nodes: seq<NodeInfo>, blacklist: seq<Addr>, keyOf: map<string, Key>): seq<NodeInfo> {
    Usables(Available(nodes, blacklist), keyOf)
  }

  lemma {:induction false} UsablesCount(nodes: seq<NodeInfo>, keyOf: map<string, Key>, n: NodeInfo)
    ensures multiset(Usables(nodes, keyOf))[n] == if n.PublicKey in keyOf then multiset(nodes)[n] else 0
  {
    if nodes != [] {
      UsablesCount(nodes[..|nodes| - 1], keyOf, n);
      assert nodes == nodes[..|nodes| - 1] + [nodes[|nodes| - 1]];
    }
  }

  lemma UsablesPermuted(a: seq<NodeInfo>, b: seq<NodeInfo>, keyOf: map<string, Key>)
    requires multiset(a) == multiset(b)
    ensures multiset(Usables(a, keyOf)) == multiset(Usables(b, keyOf))
    ensures |Usables(a, keyOf)| == |Usables(b, keyOf)|
  {
    forall n
      ensures multiset(Usables(a, keyOf))[n] == multiset(Usables(b, keyOf))[n]
    {
      UsablesCount(a, keyOf, n);
      UsablesCount(b, keyOf, n);
    }
    assert multiset(Usables(a, keyOf)) == multiset(Usables(b, keyOf));
    assert |Usables(a, keyOf)| == |multiset(Usables(a, keyOf))|;
  }

  lemma UsablesNext(nodes: seq<NodeInfo>, keyOf: map<string, Key>, k: nat)
    requires k < |nodes|
    ensures var before := Usables(nodes[..k], keyOf);
      Usables(nodes[..k + 1], keyOf) == if nodes[k].PublicKey in keyOf then before + [nodes[k]] else before
  {
    assert nodes[..k + 1][..k] == nodes[..k];
  }

  lemma {:induction false} UsablesGrow(nodes: seq<NodeInfo>, keyOf: map<string, Key>, k: nat)
    requires k <= |nodes|
    ensures |Usables(nodes[..k], keyOf)| <= |Usables(nodes, keyOf)|
    decreases |nodes| - k
  {
    if k == |nodes| {
      assert nodes[..k] == nodes;
    } else {
      UsablesNext(nodes, keyOf, k);
      UsablesGrow(nodes, keyOf, k + 1);
    }
  }

  // ---- scores ------------------------------------------------------------------------------

  function TotalScore(nodes: seq<NodeInfo>): int {
    if nodes == [] then 0 else TotalScore(nodes[..|nodes| - 1]) + TwiceScore(nodes[|nodes| - 1])
  }

  function Sum(scores: seq<int>): int {
    if scores == [] then 0 else Sum(scores[..|scores| - 1]) + scores[|scores| - 1]
  }

  lemma TotalScoreNext(nodes: seq<NodeInfo>, n: NodeInfo)
    ensures TotalScore(nodes + [n]) == TotalScore(nodes) + TwiceScore(n)
  {
    assert (nodes + [n])[..|nodes|] == nodes;
  }

  lemma {:induction false} TotalScoreWithout(nodes: seq<NodeInfo>, k: nat)
    requires k < |nodes|
    ensures TotalScore(nodes) == TotalScore(nodes[..k] + nodes[k + 1..]) + TwiceScore(nodes[k])
  {
    hide TwiceScore;
    var last := |nodes| - 1;
    if k == last {
      assert nodes[..k] + nodes[k + 1..] == nodes[..last];
    } else {
      TotalScoreWithout(nodes[..last], k);
      var rest := nodes[..last][..k] + nodes[..last][k + 1..];
      assert nodes[..k] + nodes[k + 1..] == rest + [nodes[last]];
      TotalScoreNext(rest, nodes[last]);
    }
  }

  /** The last of a is somewhere in b, and the rest of both is the same again. */
  lemma TakeOut(a: seq<NodeInfo>, b: seq<NodeInfo>) returns (k: nat)
    requires a != [] && multiset(a) == multiset(b)
    ensures k < |b| && b[k] == a[|a| - 1]
    ensures multiset(a[..|a| - 1]) == multiset(b[..k] + b[k + 1..])
  {
    var last := |a| - 1;
    assert a[last] in multiset(b);
    k :| 0 <= k < |b| && b[k] == a[last];
    assert b == b[..k] + [b[k]] + b[k + 1..];
    assert a == a[..last] + [a[last]];
    assert multiset(b[..k] + b[k + 1..]) == multiset(b) - multiset{b[k]};
    assert multiset(a[..last]) == multiset(a) - multiset{a[last]};
  }

  lemma {:induction false} TotalScorePermuted(a: seq<NodeInfo>, b: seq<NodeInfo>)
    requires multiset(a) == multiset(b)
    ensures TotalScore(a) == TotalScore(b)
    decreases |a|
  {
    if a == [] {
      assert |multiset(b)| == 0;
    } else {
      var k := TakeOut(a, b);
      TotalScorePermuted(a[..|a| - 1], b[..k] + b[k + 1..]);
      TotalScoreWithout(b, k);
    }
  }

  lemma {:induction false} SumUpdate(scores: seq<int>, i: nat, delta: int)
    requires i < |scores|
    ensures Sum(scores[i := scores[i] + delta]) == Sum(scores) + delta
  {
    var last := |scores| - 1;
    if i == last {
      assert scores[i := scores[i] + delta][..last] == scores[..last];
    } else {
      SumUpdate(scores[..last], i, delta);
      assert scores[i := scores[i] + delta][..last] == scores[..last][i := scores[i] + delta];
    }
  }

  lemma {:induction false} SumZeros(scores: seq<int>)
    requires forall i :: 0 <= i < |scores| ==> scores[i] == 0
    ensures Sum(scores) == 0
  {
    if scores != [] {
      SumZeros(scores[..|scores| - 1]);
    }
  }

  predicate NonNegative(nodes: seq<NodeInfo>) {
    forall n :: n in nodes ==> TwiceScore(n) >= 0
  }

  /** The largest score, and zero for no node. */
  function Largest(nodes: seq<NodeInfo>): (m: int)
    ensures forall n :: n in nodes ==> TwiceScore(n) <= m
    ensures m >= 0
    ensures m == 0 || exists n :: n in nodes && TwiceScore(n) == m
  {
    if nodes == [] then 0
    else
      var before, n := Largest(nodes[..|nodes| - 1]), nodes[|nodes| - 1];
      assert nodes == nodes[..|nodes| - 1] + [n];
      if TwiceScore(n) > before then TwiceScore(n) else before
  }

  lemma LargestPermuted(a: seq<NodeInfo>, b: seq<NodeInfo>)
    requires multiset(a) == multiset(b)
    ensures Largest(a) == Largest(b)
    ensures NonNegative(a) <==> NonNegative(b)
  {
    forall n
      ensures n in a <==> n in b
    {
      assert n in a <==> n in multiset(a);
    }
  }

  /** No group is ahead of another by more than m. */
  predicate Balanced(scores: seq<int>, m: int) {
    forall i, j :: 0 <= i < |scores| && 0 <= j < |scores| ==> scores[i] - scores[j] <= m
  }

  /** Then every group is within m of the mean. */
  lemma BalancedMean(scores: seq<int>, m: int, i: nat)
    requires Balanced(scores, m) && i < |scores|
    ensures |scores| * scores[i] - Sum(scores) <= |scores| * m
    ensures Sum(scores) - |scores| * scores[i] <= |scores| * m
  {
    SumBounds(scores, scores[i] - m, scores[i] + m);
    Distribute(|scores|, scores[i], m);
  }

  lemma Distribute(n: nat, x: int, y: int)
    ensures n * (x - y) == n * x - n * y && n * (x + y) == n * x + n * y
  {
  }

  lemma {:induction false} SumBounds(scores: seq<int>, low: int, high: int)
    requires forall j :: 0 <= j < |scores| ==> low <= scores[j] <= high
    ensures |scores| * low <= Sum(scores) <= |scores| * high
  {
    if scores != [] {
      SumBounds(scores[..|scores| - 1], low, high);
    }
  }

  // ---- groups under construction -----------------------------------------------------------

  /** The nodes behind a group, each with its own address and key at the same index. */
  predicate GroupOf(g: LayerGroup, nodes: seq<NodeInfo>, keyOf: map<string, Key>) {
    && |g.addrs| == |g.keys| == |nodes|
    && forall k :: 0 <= k < |nodes| ==>
         && nodes[k].PublicKey in keyOf
         && g.addrs[k] == AddrOf(nodes[k])
         && g.keys[k] == keyOf[nodes[k].PublicKey]
  }

  predicate Built(clusters: seq<LayerGroup>, scores: seq<int>, members: seq<seq<NodeInfo>>, keyOf: map<string, Key>) {
    && |clusters| == |scores| == |members|
    && forall i :: 0 <= i < |clusters| ==>
         GroupOf(clusters[i], members[i], keyOf) && scores[i] == TotalScore(members[i])
  }

  /** All members of all groups. */
  function Gathered(members: seq<seq<NodeInfo>>): multiset<NodeInfo> {
    if members == [] then multiset{} else Gathered(members[..|members| - 1]) + multiset(members[|members| - 1])
  }

  lemma {:induction false} GatheredReplace(members: seq<seq<NodeInfo>>, i: nat, group: seq<NodeInfo>)
    requires i < |members|
    ensures Gathered(members[i := group]) + multiset(members[i]) == Gathered(members) + multiset(group)
  {
    var last := |members| - 1;
    if i == last {
      assert members[i := group][..last] == members[..last];
      assert Gathered(members[i := group]) == Gathered(members[..last]) + multiset(group);
    } else {
      GatheredReplace(members[..last], i, group);
      assert members[i := group][..last] == members[..last][i := group];
      MoveThird(Gathered(members[..last][i := group]), multiset(members[i]), Gathered(members[..last]), multiset(group),
                multiset(members[last]));
    }
  }

  lemma MoveThird<T>(a: multiset<T>, b: multiset<T>, c: multiset<T>, d: multiset<T>, e: multiset<T>)
    requires a + b == c + d
    ensures a + e + b == c + e + d
  {
    assert a + e + b == (a + b) + e;
    assert c + e + d == (c + d) + e;
  }

  lemma CancelFirst<T>(a: multiset<T>, b: multiset<T>, c: multiset<T>, d: multiset<T>)
    requires a + b == c + (b + d)
    ensures a == c + d
  {
    forall x
      ensures a[x] == (c + d)[x]
    {
      assert (a + b)[x] == (c + (b + d))[x];
    }
  }

  lemma {:induction false} GatheredNone(members: seq<seq<NodeInfo>>)
    requires forall i :: 0 <= i < |members| ==> members[i] == []
    ensures Gathered(members) == multiset{}
  {
    if members != [] {
      GatheredNone(members[..|members| - 1]);
    }
  }

  predicate AllFilled(members: seq<seq<NodeInfo>>) {
    forall i :: 0 <= i < |members| ==> members[i] != []
  }

  /** What has been dealt out once the usable ones among `done` have been placed. */
  predicate Dealt(clusters: seq<LayerGroup>, scores: seq<int>, members: seq<seq<NodeInfo>>, keyOf: map<string, Key>,
                  done: seq<NodeInfo>) {
    && Built(clusters, scores, members, keyOf)
    && Gathered(members) == multiset(Usables(done, keyOf))
    && Sum(scores) == TotalScore(Usables(done, keyOf))
  }

  /** append of the address, append of the key, += of the score. */
  method Append(clusters: seq<LayerGroup>, scores: seq<int>, ghost members: seq<seq<NodeInfo>>, keyOf: map<string, Key>,
                i: nat, n: NodeInfo, ghost done: seq<NodeInfo>)
    returns (clusters': seq<LayerGroup>, scores': seq<int>, ghost members': seq<seq<NodeInfo>>)
    requires i < |clusters| && n.PublicKey in keyOf && Dealt(clusters, scores, members, keyOf, done)
    ensures Dealt(clusters', scores', members', keyOf, done + [n]) && |members'| == |members|
            && |clusters'| == |clusters|
    ensures members' == members[i := members[i] + [n]]
    ensures scores' == scores[i := scores[i] + TwiceScore(n)]
  {
    var g := clusters[i];
    clusters' := clusters[i := LayerGroup(g.addrs + [AddrOf(n)], g.keys + [keyOf[n.PublicKey]])];
    scores' := scores[i := scores[i] + TwiceScore(n)];
    members' := members[i := members[i] + [n]];
    BuiltNext(clusters, scores, members, keyOf, i, n);
    GatheredNext(members, keyOf, i, n, done);
    SumNext(scores, keyOf, i, n, done);
  }

  lemma BuiltNext(clusters: seq<LayerGroup>, scores: seq<int>, members: seq<seq<NodeInfo>>, keyOf: map<string, Key>,
                  i: nat, n: NodeInfo)
    requires i < |clusters| && n.PublicKey in keyOf && Built(clusters, scores, members, keyOf)
    ensures Built(clusters[i := LayerGroup(clusters[i].addrs + [AddrOf(n)], clusters[i].keys + [keyOf[n.PublicKey]])],
                  scores[i := scores[i] + TwiceScore(n)], members[i := members[i] + [n]], keyOf)
  {
    TotalScoreNext(members[i], n);
    assert GroupOf(clusters[i], members[i], keyOf);
  }

  lemma GatheredNext(members: seq<seq<NodeInfo>>, keyOf: map<string, Key>, i: nat, n: NodeInfo, done: seq<NodeInfo>)
    requires i < |members| && n.PublicKey in keyOf && Gathered(members) == multiset(Usables(done, keyOf))
    ensures Gathered(members[i := members[i] + [n]]) == multiset(Usables(done + [n], keyOf))
  {
    assert (done + [n])[..|done|] == done;
    GatheredReplace(members, i, members[i] + [n]);
    assert multiset(members[i] + [n]) == multiset(members[i]) + multiset{n};
    CancelFirst(Gathered(members[i := members[i] + [n]]), multiset(members[i]), Gathered(members), multiset{n});
  }

  lemma SumNext(scores: seq<int>, keyOf: map<string, Key>, i: nat, n: NodeInfo, done: seq<NodeInfo>)
    requires i < |scores| && n.PublicKey in keyOf && Sum(scores) == TotalScore(Usables(done, keyOf))
    ensures Sum(scores[i := scores[i] + TwiceScore(n)]) == TotalScore(Usables(done + [n], keyOf))
  {
    hide TotalScore, Sum, TwiceScore;
    assert (done + [n])[..|done|] == done;
    SumUpdate(scores, i, TwiceScore(n));
    TotalScoreNext(Usables(done, keyOf), n);
  }

  lemma DealtSkip(done: seq<NodeInfo>, n: NodeInfo, keyOf: map<string, Key>)
    requires n.PublicKey !in keyOf
    ensures Usables(done + [n], keyOf) == Usables(done, keyOf)
  {
    assert (done + [n])[..|done|] == done;
  }

  // ---- the steps of BuildSmartClusters -----------------------------------------------------

  method FilterBlacklisted(nodes: seq<NodeInfo>, blacklist: seq<Addr>) returns (available: seq<NodeInfo>)
    ensures available == Available(nodes, blacklist)
  {
    available := [];
    for i := 0 to |nodes|
      invariant available == Available(nodes[..i], blacklist)
    {
      var addr := AddrOf(nodes[i]);
      var blacklisted := false;
      var j := 0;
      while j < |blacklist| && !blacklisted
        invariant 0 <= j <= |blacklist|
        invariant blacklisted <==> addr in blacklist[..j]
      {
        blacklisted := blacklist[j] == addr;
        j := j + 1;
      }
      assert blacklisted <==> addr in blacklist;
      AvailableNext(nodes, blacklist, i);
      if !blacklisted {
        available := available + [nodes[i]];
      }
    }
    assert nodes[..|nodes|] == nodes;
  }

  lemma AvailableNext(nodes: seq<NodeInfo>, blacklist: seq<Addr>, k: nat)
    requires k < |nodes|
    ensures var before := Available(nodes[..k], blacklist);
      Available(nodes[..k + 1], blacklist) == if AddrOf(nodes[k]) in blacklist then before else before + [nodes[k]]
  {
    assert nodes[..k + 1][..k] == nodes[..k];
  }

  predicate Descending(nodes: seq<NodeInfo>) {
    forall i, j :: 0 <= i < j < |nodes| ==> TwiceScore(nodes[i]) >= TwiceScore(nodes[j])
  }

  /** sort.Slice by descending score: any sorting algorithm, equal scores in any order. */
  method SortNodesByScore(nodes: seq<NodeInfo>) returns (sorted: seq<NodeInfo>)
    ensures multiset(sorted) == multiset(nodes)
    ensures Descending(sorted)
  {
    sorted := [];
    for i := 0 to |nodes|
      invariant multiset(sorted) == multiset(nodes[..i])
      invariant Descending(sorted)
    {
      assert nodes[..i + 1] == nodes[..i] + [nodes[i]];
      sorted := Insert(sorted, nodes[i]);
    }
    assert nodes[..|nodes|] == nodes;
  }

  method Insert(sorted: seq<NodeInfo>, n: NodeInfo) returns (r: seq<NodeInfo>)
    requires Descending(sorted)
    ensures Descending(r) && multiset(r) == multiset(sorted) + multiset{n}
  {
    hide Descending, TwiceScore;
    var k := 0;
    while k < |sorted| && TwiceScore(sorted[k]) >= TwiceScore(n)
      invariant 0 <= k <= |sorted|
      invariant forall p :: 0 <= p < k ==> TwiceScore(sorted[p]) >= TwiceScore(n)
    {
      k := k + 1;
    }
    InsertedDescends(sorted, n, k);
    InsertedOnce(sorted, n, k);
    r := sorted[..k] + [n] + sorted[k..];
  }

  lemma InsertedOnce(sorted: seq<NodeInfo>, n: NodeInfo, k: nat)
    requires k <= |sorted|
    ensures multiset(sorted[..k] + [n] + sorted[k..]) == multiset(sorted) + multiset{n}
  {
    assert sorted == sorted[..k] + sorted[k..];
  }

  lemma InsertedDescends(sorted: seq<NodeInfo>, n: NodeInfo, k: nat)
    requires Descending(sorted) && k <= |sorted|
    requires forall p :: 0 <= p < k ==> TwiceScore(sorted[p]) >= TwiceScore(n)
    requires k < |sorted| ==> TwiceScore(sorted[k]) < TwiceScore(n)
    ensures Descending(sorted[..k] + [n] + sorted[k..])
  {
    hide TwiceScore;
    var r := sorted[..k] + [n] + sorted[k..];
    forall i, j | 0 <= i < j < |r|
      ensures TwiceScore(r[i]) >= TwiceScore(r[j])
    {
      assert j > k ==> r[j] == sorted[j - 1];
      assert i > k ==> r[i] == sorted[i - 1];
    }
  }

  /** The jitter: rand.Intn(100) against its thresholds. */
  method PickOffset(remaining: nat) returns (offset: nat)
    requires remaining >= 1
    ensures offset <= 3 && offset < remaining
  {
    offset := 0;
    if remaining >= 2 {
      var r: int :| 0 <= r < 100;
      if 70 <= r < 85 {
        offset := 1;
      } else if 85 <= r < 95 && remaining >= 3 {
        offset := 2;
      } else if r >= 95 && remaining >= 4 {
        offset := 3;
      }
    }
  }

  /** `now` is `start` rearranged: position p holds what had rank[p], every rank once. */
  predicate Ranked(start: seq<NodeInfo>, now: seq<NodeInfo>, rank: seq<nat>) {
    && |start| == |now| == |rank|
    && multiset(now) == multiset(start)
    && (forall p :: 0 <= p < |rank| ==> rank[p] < |start| && now[p] == start[rank[p]])
    && (forall p, q :: 0 <= p < q < |rank| ==> rank[p] != rank[q])
  }

  /** Nodes taken so far came from at most three places further right; those left have only moved right. */
  predicate MildlyJittered(rank: seq<nat>, taken: nat) {
    forall p :: 0 <= p < |rank| ==> rank[p] <= p + if p < taken then 3 else 0
  }

  lemma SwapRanked(start: seq<NodeInfo>, now: seq<NodeInfo>, rank: seq<nat>, k: nat, offset: nat)
    requires Ranked(start, now, rank) && k + offset < |rank|
    ensures Ranked(start, now[k := now[k + offset]][k + offset := now[k]],
                   rank[k := rank[k + offset]][k + offset := rank[k]])
  {
  }

  lemma SwapJitter(rank: seq<nat>, k: nat, offset: nat)
    requires MildlyJittered(rank, k) && k + offset < |rank| && offset <= 3
    ensures MildlyJittered(rank[k := rank[k + offset]][k + offset := rank[k]], k + 1)
  {
  }

  /** The first of the smallest scores. */
  method LeastLoaded(scores: seq<int>) returns (target: nat)
    requires scores != []
    ensures target < |scores|
    ensures forall j :: 0 <= j < |scores| ==> scores[target] <= scores[j]
    ensures forall j :: 0 <= j < target ==> scores[target] < scores[j]
  {
    target := 0;
    for i := 0 to |scores|
      invariant 0 <= target < |scores| && (target == 0 || target < i)
      invariant forall j :: 0 <= j < i ==> scores[target] <= scores[j]
      invariant forall j :: 0 <= j < target ==> scores[target] < scores[j]
    {
      if scores[i] < scores[target] {
        target := i;
      }
    }
  }

  /** The swap with a node a few places further right. */
  method Jitter(start: seq<NodeInfo>, sorted: seq<NodeInfo>, nodeIdx: nat, ghost rank: seq<nat>)
    returns (sorted': seq<NodeInfo>, ghost rank': seq<nat>)
    requires nodeIdx < |sorted| && Ranked(start, sorted, rank) && MildlyJittered(rank, nodeIdx)
    ensures Ranked(start, sorted', rank') && MildlyJittered(rank', nodeIdx + 1)
    ensures |sorted'| == |sorted| && sorted'[..nodeIdx + 1] == sorted[..nodeIdx] + [sorted'[nodeIdx]]
  {
    var offset := PickOffset(|sorted| - nodeIdx);
    SwapRanked(start, sorted, rank, nodeIdx, offset);
    SwapJitter(rank, nodeIdx, offset);
    rank' := rank[nodeIdx := rank[nodeIdx + offset]][nodeIdx + offset := rank[nodeIdx]];
    sorted' := sorted[nodeIdx := sorted[nodeIdx + offset]][nodeIdx + offset := sorted[nodeIdx]];
  }

  predicate SeedsPlaced(members: seq<seq<NodeInfo>>, i: nat) {
    forall k :: 0 <= k < |members| ==> |members[k]| == if k < i then 1 else 0
  }

  /** The next node goes to the target group, unless its key cannot be read. */
  method Take(clusters: seq<LayerGroup>, scores: seq<int>, ghost members: seq<seq<NodeInfo>>, keyOf: map<string, Key>,
              target: nat, n: NodeInfo, ghost done: seq<NodeInfo>)
    returns (clusters': seq<LayerGroup>, scores': seq<int>, ghost members': seq<seq<NodeInfo>>, placed: bool)
    requires target < |clusters| && Dealt(clusters, scores, members, keyOf, done)
    ensures Dealt(clusters', scores', members', keyOf, done + [n]) && |members'| == |members|
            && |clusters'| == |clusters|
    ensures placed <==> n.PublicKey in keyOf
    ensures members' == if placed then members[target := members[target] + [n]] else members
    ensures scores' == if placed then scores[target := scores[target] + TwiceScore(n)] else scores
  {
    placed := n.PublicKey in keyOf;
    if placed {
      clusters', scores', members' := Append(clusters, scores, members, keyOf, target, n, done);
    } else {
      clusters', scores', members' := clusters, scores, members;
      DealtSkip(done, n, keyOf);
    }
  }

  lemma UsablesMore(done: seq<NodeInfo>, n: NodeInfo, keyOf: map<string, Key>)
    ensures |Usables(done + [n], keyOf)| == |Usables(done, keyOf)| + if n.PublicKey in keyOf then 1 else 0
  {
    assert (done + [n])[..|done|] == done;
  }

  lemma NothingDealt(clusters: seq<LayerGroup>, scores: seq<int>, members: seq<seq<NodeInfo>>, keyOf: map<string, Key>)
    requires |clusters| == |scores| == |members|
    requires forall i :: 0 <= i < |clusters| ==> clusters[i] == LayerGroup([], []) && scores[i] == 0 && members[i] == []
    ensures Dealt(clusters, scores, members, keyOf, [])
  {
    GatheredNone(members);
    SumZeros(scores);
  }

  method NoGroups(numHops: nat, keyOf: map<string, Key>)
    returns (clusters: seq<LayerGroup>, scores: seq<int>, ghost members: seq<seq<NodeInfo>>)
    ensures |members| == numHops && Dealt(clusters, scores, members, keyOf, []) && SeedsPlaced(members, 0)
  {
    clusters, scores := seq(numHops, i => LayerGroup([], [])), seq(numHops, i => 0);
    members := seq(numHops, i => []);
    NothingDealt(clusters, scores, members, keyOf);
  }

  ghost function Unmoved(start: seq<NodeInfo>): (rank: seq<nat>)
    ensures Ranked(start, start, rank) && MildlyJittered(rank, 0)
  {
    seq(|start|, i => i)
  }

  lemma SeedPlaced(members: seq<seq<NodeInfo>>, i: nat, n: NodeInfo)
    requires i < |members| && SeedsPlaced(members, i)
    ensures SeedsPlaced(members[i := members[i] + [n]], i + 1)
  {
  }

  /** Every group that has a node has one of rank at most `extra` above its own number. */
  ghost predicate WellSeeded(start: seq<NodeInfo>, members: seq<seq<NodeInfo>>, extra: int) {
    forall g :: 0 <= g < |members| && members[g] != [] ==>
      exists r :: 0 <= r < |start| && r <= g + extra && start[r] in members[g]
  }

  lemma SeedWell(start: seq<NodeInfo>, members: seq<seq<NodeInfo>>, i: nat, r: nat, extra: int, extra': int)
    requires i < |members| && SeedsPlaced(members, i) && WellSeeded(start, members, extra)
    requires r < |start| && r <= i + extra' && extra <= extra'
    ensures WellSeeded(start, members[i := members[i] + [start[r]]], extra')
  {
    var members' := members[i := members[i] + [start[r]]];
    forall g | 0 <= g < |members'| && members'[g] != []
      ensures exists q :: 0 <= q < |start| && q <= g + extra' && start[q] in members'[g]
    {
      if g == i {
        assert start[r] in members'[i];
      } else {
        var q :| 0 <= q < |start| && q <= g + extra && start[q] in members[g];
      }
    }
  }

  /** The node at position nodeIdx seeds group i, or is passed over. */
  lemma SeedNext(start: seq<NodeInfo>, members: seq<seq<NodeInfo>>, i: nat, sorted: seq<NodeInfo>, rank: seq<nat>,
                 nodeIdx: nat)
    requires i < |members| && nodeIdx < |sorted| && Ranked(start, sorted, rank) && MildlyJittered(rank, nodeIdx + 1)
    requires SeedsPlaced(members, i) && WellSeeded(start, members, 3 + nodeIdx - i)
    ensures var members' := members[i := members[i] + [sorted[nodeIdx]]];
      SeedsPlaced(members', i + 1) && WellSeeded(start, members', 3 + nodeIdx - i)
    ensures WellSeeded(start, members, 4 + nodeIdx - i)
  {
    hide WellSeeded;
    SeedPlaced(members, i, sorted[nodeIdx]);
    SeedWell(start, members, i, rank[nodeIdx], 3 + nodeIdx - i, 3 + nodeIdx - i);
    SeedWeaker(start, members, 3 + nodeIdx - i, 4 + nodeIdx - i);
  }

  lemma NoSeeds(start: seq<NodeInfo>, members: seq<seq<NodeInfo>>, keyOf: map<string, Key>)
    requires SeedsPlaced(members, 0)
    ensures WellSeeded(start, members, 3) && Usables([], keyOf) == []
  {
  }

  lemma RankSizes(start: seq<NodeInfo>, now: seq<NodeInfo>, rank: seq<nat>)
    requires Ranked(start, now, rank)
    ensures |start| == |now| == |rank|
  {
  }

  lemma SeedWeaker(start: seq<NodeInfo>, members: seq<seq<NodeInfo>>, extra: int, extra': int)
    requires WellSeeded(start, members, extra) && extra <= extra'
    ensures WellSeeded(start, members, extra')
  {
    forall g | 0 <= g < |members| && members[g] != []
      ensures exists q :: 0 <= q < |start| && q <= g + extra' && start[q] in members[g]
    {
      var q :| 0 <= q < |start| && q <= g + extra && start[q] in members[g];
    }
  }

  /** Groups that only grow stay well seeded, as long as none starts late. */
  lemma SeedsKept(start: seq<NodeInfo>, members: seq<seq<NodeInfo>>, members': seq<seq<NodeInfo>>, extra: int)
    requires WellSeeded(start, members, extra) && |members'| == |members|
    requires forall g :: 0 <= g < |members| ==> multiset(members[g]) <= multiset(members'[g])
    requires forall g :: 0 <= g < |members| && members[g] == [] ==> members'[g] == []
    ensures WellSeeded(start, members', extra)
  {
    forall g | 0 <= g < |members'| && members'[g] != []
      ensures exists q :: 0 <= q < |start| && q <= g + extra && start[q] in members'[g]
    {
      var q :| 0 <= q < |start| && q <= g + extra && start[q] in members[g];
      assert start[q] in multiset(members[g]);
    }
  }

  /** Phase one: one node for every group, in rank order but for the jitter; a node without a usable
      key is passed over. */
  method SeedClusters(start: seq<NodeInfo>, numHops: nat, keyOf: map<string, Key>)
    returns (sorted: seq<NodeInfo>, nodeIdx: nat, clusters: seq<LayerGroup>, scores: seq<int>,
             ghost members: seq<seq<NodeInfo>>, ghost rank: seq<nat>, ghost seeds: nat)
    ensures Ranked(start, sorted, rank) && nodeIdx <= |sorted| && MildlyJittered(rank, nodeIdx)
    ensures |members| == numHops && Dealt(clusters, scores, members, keyOf, sorted[..nodeIdx])
    ensures SeedsPlaced(members, seeds) && |Usables(sorted[..nodeIdx], keyOf)| == seeds <= numHops
    ensures nodeIdx < |sorted| ==> seeds == numHops
    ensures WellSeeded(start, members, 3 + nodeIdx - seeds)
  {
    hide WellSeeded, Ranked, MildlyJittered, Dealt, Usables, SeedsPlaced, Unmoved;
    sorted, nodeIdx := start, 0;
    clusters, scores, members := NoGroups(numHops, keyOf);
    rank := Unmoved(start);
    NoSeeds(start, members, keyOf);
    RankSizes(start, start, rank);
    DealtSizes(clusters, scores, members, keyOf, []);
    ghost var done: seq<NodeInfo> := [];
    var i := 0;
    while i < numHops && nodeIdx < |sorted|
      invariant 0 <= i <= numHops && 0 <= nodeIdx <= |sorted| && done == sorted[..nodeIdx]
      invariant Ranked(start, sorted, rank) && MildlyJittered(rank, nodeIdx)
      invariant |clusters| == |members| == numHops && Dealt(clusters, scores, members, keyOf, done)
      invariant SeedsPlaced(members, i) && |Usables(done, keyOf)| == i
      invariant WellSeeded(start, members, 3 + nodeIdx - i)
      decreases |sorted| - nodeIdx
    {
      sorted, rank := Jitter(start, sorted, nodeIdx, rank);
      var n := sorted[nodeIdx];
      var placed;
      UsablesMore(done, n, keyOf);
      SeedNext(start, members, i, sorted, rank, nodeIdx);
      clusters, scores, members, placed := Take(clusters, scores, members, keyOf, i, n, done);
      done := done + [n];
      if placed {
        i := i + 1;
      }
      nodeIdx := nodeIdx + 1;
    }
    seeds := i;
  }

  // ---- balance -----------------------------------------------------------------------------

  lemma UsablesMember(nodes: seq<NodeInfo>, keyOf: map<string, Key>, n: NodeInfo)
    ensures n in Usables(nodes, keyOf) <==> n in nodes && n.PublicKey in keyOf
  {
    UsablesCount(nodes, keyOf, n);
    assert n in nodes <==> n in multiset(nodes);
    assert n in Usables(nodes, keyOf) <==> n in multiset(Usables(nodes, keyOf));
  }

  lemma {:induction false} GatheredHas(members: seq<seq<NodeInfo>>, k: nat, n: NodeInfo)
    requires k < |members| && n in members[k]
    ensures n in Gathered(members)
  {
    var last := |members| - 1;
    if k < last {
      GatheredHas(members[..last], k, n);
    } else {
      assert n in multiset(members[last]);
    }
  }

  /** Scores from 0 to m. */
  predicate Bounded(nodes: seq<NodeInfo>, m: int) {
    forall n :: n in nodes ==> 0 <= TwiceScore(n) <= m
  }

  lemma SeedsBalanced(clusters: seq<LayerGroup>, scores: seq<int>, members: seq<seq<NodeInfo>>, keyOf: map<string, Key>,
                      usable: seq<NodeInfo>, seeds: nat, m: nat)
    requires Built(clusters, scores, members, keyOf) && SeedsPlaced(members, seeds)
    requires Bounded(usable, m) && Gathered(members) <= multiset(usable)
    ensures Balanced(scores, m)
  {
    forall k | 0 <= k < |scores|
      ensures 0 <= scores[k] <= m
    {
      assert scores[k] == TotalScore(members[k]);
      if members[k] != [] {
        var n := members[k][0];
        GatheredHas(members, k, n);
        assert n in multiset(usable);
        assert members[k] == [] + [n];
        TotalScoreNext([], n);
      }
    }
  }

  lemma PutOnLeast(scores: seq<int>, target: nat, w: int, m: int)
    requires Balanced(scores, m) && target < |scores| && 0 <= w <= m
    requires forall j :: 0 <= j < |scores| ==> scores[target] <= scores[j]
    ensures Balanced(scores[target := scores[target] + w], m)
  {
  }

  lemma {:induction false} UsablesPart(nodes: seq<NodeInfo>, keyOf: map<string, Key>, k: nat)
    requires k <= |nodes|
    ensures multiset(Usables(nodes[..k], keyOf)) <= multiset(Usables(nodes, keyOf))
  {
    forall n
      ensures multiset(Usables(nodes[..k], keyOf))[n] <= multiset(Usables(nodes, keyOf))[n]
    {
      UsablesCount(nodes[..k], keyOf, n);
      UsablesCount(nodes, keyOf, n);
      assert nodes == nodes[..k] + nodes[k..];
    }
  }

  lemma FilledMore(members: seq<seq<NodeInfo>>, n: NodeInfo)
    ensures forall i :: 0 <= i < |members| && AllFilled(members) ==> AllFilled(members[i := members[i] + [n]])
  {
  }

  predicate Fair(scores: seq<int>, usable: seq<NodeInfo>, m: int) {
    Bounded(usable, m) ==> Balanced(scores, m)
  }

  /** No group has lost a member. */
  predicate Grown(members: seq<seq<NodeInfo>>, members': seq<seq<NodeInfo>>) {
    |members'| == |members| && forall g :: 0 <= g < |members| ==> multiset(members[g]) <= multiset(members'[g])
  }

  lemma Grows(members: seq<seq<NodeInfo>>)
    ensures Grown(members, members)
  {
  }

  lemma OneGrows(members: seq<seq<NodeInfo>>, n: NodeInfo)
    ensures forall i :: 0 <= i < |members| ==> Grown(members, members[i := members[i] + [n]])
  {
  }

  lemma GrownOn(a: seq<seq<NodeInfo>>, b: seq<seq<NodeInfo>>, c: seq<seq<NodeInfo>>)
    requires Grown(a, b) && Grown(b, c)
    ensures Grown(a, c)
  {
    forall g | 0 <= g < |a|
      ensures multiset(a[g]) <= multiset(c[g])
    {
      assert multiset(a[g]) <= multiset(b[g]) <= multiset(c[g]);
    }
  }

  /** One node goes to the group with the smallest score. */
  method PlaceNext(clusters: seq<LayerGroup>, scores: seq<int>, ghost members: seq<seq<NodeInfo>>,
                   keyOf: map<string, Key>, n: NodeInfo, ghost done: seq<NodeInfo>, ghost usable: seq<NodeInfo>,
                   ghost m: int)
    returns (clusters': seq<LayerGroup>, scores': seq<int>, ghost members': seq<seq<NodeInfo>>)
    requires clusters != [] && Dealt(clusters, scores, members, keyOf, done) && Fair(scores, usable, m)
    requires n.PublicKey in keyOf ==> n in usable
    ensures Dealt(clusters', scores', members', keyOf, done + [n]) && Fair(scores', usable, m)
    ensures |members'| == |members| && |clusters'| == |clusters| && (AllFilled(members) ==> AllFilled(members'))
    ensures Grown(members, members')
  {
    hide Dealt, Fair, AllFilled, TwiceScore;
    OneGrows(members, n);
    Grows(members);
    DealtSizes(clusters, scores, members, keyOf, done);
    var target := LeastLoaded(scores);
    FilledMore(members, n);
    FairMore(scores, target, n, usable, m);
    var placed;
    clusters', scores', members', placed := Take(clusters, scores, members, keyOf, target, n, done);
  }

  lemma DealtSizes(clusters: seq<LayerGroup>, scores: seq<int>, members: seq<seq<NodeInfo>>, keyOf: map<string, Key>,
                   done: seq<NodeInfo>)
    requires Dealt(clusters, scores, members, keyOf, done)
    ensures |clusters| == |scores| == |members|
  {
  }

  lemma FairMore(scores: seq<int>, target: nat, n: NodeInfo, usable: seq<NodeInfo>, m: int)
    requires Fair(scores, usable, m) && target < |scores| && forall j :: 0 <= j < |scores| ==>
               scores[target] <= scores[j]
    ensures n in usable ==> Fair(scores[target := scores[target] + TwiceScore(n)], usable, m)
  {
    hide Balanced;
    if n in usable && Bounded(usable, m) {
      PutOnLeast(scores, target, TwiceScore(n), m);
    }
  }

  /** Phase two: every further node goes to the group that is behind. */
  method FillClusters(sorted: seq<NodeInfo>, from: nat, clusters: seq<LayerGroup>, scores: seq<int>,
                      ghost members: seq<seq<NodeInfo>>, keyOf: map<string, Key>, ghost m: int)
    returns (clusters': seq<LayerGroup>, scores': seq<int>, ghost members': seq<seq<NodeInfo>>)
    requires clusters != [] && from <= |sorted| && Dealt(clusters, scores, members, keyOf, sorted[..from])
    requires Fair(scores, Usables(sorted, keyOf), m)
    ensures Dealt(clusters', scores', members', keyOf, sorted) && |members'| == |members|
    ensures from == |sorted| ==> members' == members
    ensures Grown(members, members')
    ensures AllFilled(members) ==> AllFilled(members')
    ensures Fair(scores', Usables(sorted, keyOf), m)
  {
    hide Dealt, Usables, Fair, AllFilled, Bounded, Balanced, Grown;
    clusters', scores', members' := clusters, scores, members;
    Grows(members);
    var nodeIdx := from;
    ghost var done, usable := sorted[..from], Usables(sorted, keyOf);
    while nodeIdx < |sorted|
      invariant from <= nodeIdx <= |sorted| && done == sorted[..nodeIdx] && |clusters'| == |clusters|
      invariant Dealt(clusters', scores', members', keyOf, done) && |members'| == |members|
      invariant nodeIdx == from ==> members' == members
      invariant Grown(members, members')
      invariant AllFilled(members) ==> AllFilled(members')
      invariant Fair(scores', usable, m)
    {
      UsablesMember(sorted, keyOf, sorted[nodeIdx]);
      ghost var before := members';
      clusters', scores', members' := PlaceNext(clusters', scores', members', keyOf, sorted[nodeIdx], done, usable, m);
      GrownOn(members, before, members');
      done := done + [sorted[nodeIdx]];
      nodeIdx := nodeIdx + 1;
    }
    assert sorted[..|sorted|] == sorted;
  }

  // ---- addresses with their keys -----------------------------------------------------------

  /** A group as the pairs that stand at the same index. */
  function Pairs(g: LayerGroup): (pairs: seq<(Addr, Key)>)
    requires |g.addrs| == |g.keys|
  {
    seq(|g.addrs|, i requires 0 <= i < |g.addrs| => (g.addrs[i], g.keys[i]))
  }

  predicate Paired(clusters: seq<LayerGroup>) {
    forall i :: 0 <= i < |clusters| ==> |clusters[i].addrs| == |clusters[i].keys|
  }

  function AllPairs(clusters: seq<LayerGroup>): multiset<(Addr, Key)>
    requires Paired(clusters)
  {
    if clusters == [] then multiset{}
    else AllPairs(clusters[..|clusters| - 1]) + multiset(Pairs(clusters[|clusters| - 1]))
  }

  /** Every node's address with that node's own key. */
  function OwnPairs(nodes: seq<NodeInfo>, keyOf: map<string, Key>): (pairs: seq<(Addr, Key)>)
    ensures |pairs| == |nodes|
  {
    seq(|nodes|, i requires 0 <= i < |nodes| =>
      (AddrOf(nodes[i]), if nodes[i].PublicKey in keyOf then keyOf[nodes[i].PublicKey] else ""))
  }

  lemma OwnPairsConcat(a: seq<NodeInfo>, b: seq<NodeInfo>, keyOf: map<string, Key>)
    ensures OwnPairs(a + b, keyOf) == OwnPairs(a, keyOf) + OwnPairs(b, keyOf)
  {
  }

  lemma OwnPairsWithout(nodes: seq<NodeInfo>, k: nat, keyOf: map<string, Key>)
    requires k < |nodes|
    ensures multiset(OwnPairs(nodes, keyOf)) == multiset(OwnPairs(nodes[..k] + nodes[k + 1..],
                                                                  keyOf)) + multiset(OwnPairs([nodes[k]], keyOf))
  {
    hide OwnPairs;
    OwnPairsConcat(nodes[..k], nodes[k + 1..], keyOf);
    OwnPairsConcat(nodes[..k], [nodes[k]] + nodes[k + 1..], keyOf);
    OwnPairsConcat([nodes[k]], nodes[k + 1..], keyOf);
    assert nodes == nodes[..k] + ([nodes[k]] + nodes[k + 1..]);
  }

  lemma {:induction false} OwnPairsPermuted(a: seq<NodeInfo>, b: seq<NodeInfo>, keyOf: map<string, Key>)
    requires multiset(a) == multiset(b)
    ensures multiset(OwnPairs(a, keyOf)) == multiset(OwnPairs(b, keyOf))
    decreases |a|
  {
    hide OwnPairs;
    if a == [] {
      assert |multiset(b)| == 0;
    } else {
      var k := TakeOut(a, b);
      OwnPairsPermuted(a[..|a| - 1], b[..k] + b[k + 1..], keyOf);
      OwnPairsWithout(b, k, keyOf);
      OwnPairsWithout(a, |a| - 1, keyOf);
      assert a[..|a| - 1] + a[|a| - 1 + 1..] == a[..|a| - 1];
    }
  }

  function Flat(members: seq<seq<NodeInfo>>): seq<NodeInfo> {
    if members == [] then [] else Flat(members[..|members| - 1]) + members[|members| - 1]
  }

  lemma {:induction false} FlatGathered(members: seq<seq<NodeInfo>>)
    ensures multiset(Flat(members)) == Gathered(members)
  {
    if members != [] {
      FlatGathered(members[..|members| - 1]);
    }
  }

  lemma GroupPairs(g: LayerGroup, nodes: seq<NodeInfo>, keyOf: map<string, Key>)
    requires GroupOf(g, nodes, keyOf)
    ensures Pairs(g) == OwnPairs(nodes, keyOf)
  {
  }

  lemma {:induction false} FlatPairs(clusters: seq<LayerGroup>, members: seq<seq<NodeInfo>>, keyOf: map<string, Key>)
    requires |clusters| == |members| && forall i :: 0 <= i < |clusters| ==> GroupOf(clusters[i], members[i], keyOf)
    ensures Paired(clusters) && AllPairs(clusters) == multiset(OwnPairs(Flat(members), keyOf))
  {
    if clusters != [] {
      var last := |clusters| - 1;
      FlatPairs(clusters[..last], members[..last], keyOf);
      GroupPairs(clusters[last], members[last], keyOf);
      OwnPairsConcat(Flat(members[..last]), members[last], keyOf);
    }
  }

  /** Nobody is lost, nobody comes in twice, and nobody gets another's key. */
  lemma PairsConserved(clusters: seq<LayerGroup>, scores: seq<int>, members: seq<seq<NodeInfo>>,
                       keyOf: map<string, Key>, eligible: seq<NodeInfo>)
    requires Built(clusters, scores, members, keyOf) && Gathered(members) == multiset(eligible)
    ensures Paired(clusters) && AllPairs(clusters) == multiset(OwnPairs(eligible, keyOf))
  {
    FlatGathered(members);
    FlatPairs(clusters, members, keyOf);
    OwnPairsPermuted(Flat(members), eligible, keyOf);
  }

  // ---- the final shuffles ------------------------------------------------------------------

  /** One swap of rand.Shuffle on both lists of a group. */
  lemma SwapInGroup(g: LayerGroup, nodes: seq<NodeInfo>, keyOf: map<string, Key>, j: nat, k: nat)
    requires GroupOf(g, nodes, keyOf) && j < |nodes| && k < |nodes|
    ensures var nodes' := nodes[j := nodes[k]][k := nodes[j]];
      && multiset(nodes') == multiset(nodes)
      && GroupOf(LayerGroup(g.addrs[j := g.addrs[k]][k := g.addrs[j]], g.keys[j := g.keys[k]][k := g.keys[j]]), nodes',
                 keyOf)
  {
  }

  method ShuffleGroup(g: LayerGroup, ghost nodes: seq<NodeInfo>, keyOf: map<string, Key>)
    returns (g': LayerGroup, ghost nodes': seq<NodeInfo>)
    requires GroupOf(g, nodes, keyOf)
    ensures GroupOf(g', nodes', keyOf) && multiset(nodes') == multiset(nodes)
    ensures multiset(Pairs(g')) == multiset(Pairs(g))
  {
    g', nodes' := g, nodes;
    var i := |g.addrs| - 1;
    while i > 0
      invariant i < |g.addrs| == |nodes'| || i == -1
      invariant GroupOf(g', nodes', keyOf) && multiset(nodes') == multiset(nodes)
    {
      var j: int :| 0 <= j < i + 1;
      SwapInGroup(g', nodes', keyOf, i, j);
      g' := LayerGroup(g'.addrs[i := g'.addrs[j]][j := g'.addrs[i]], g'.keys[i := g'.keys[j]][j := g'.keys[i]]);
      nodes' := nodes'[i := nodes'[j]][j := nodes'[i]];
      i := i - 1;
    }
    GroupPairs(g, nodes, keyOf);
    GroupPairs(g', nodes', keyOf);
    OwnPairsPermuted(nodes', nodes, keyOf);
  }

  /** Every group has the members it had, in any order. */
  predicate SameGroups(members: seq<seq<NodeInfo>>, members': seq<seq<NodeInfo>>) {
    && |members'| == |members|
    && forall g :: 0 <= g < |members| ==> multiset(members'[g]) == multiset(members[g])
  }

  lemma NothingMoved(members: seq<seq<NodeInfo>>)
    ensures SameGroups(members, members)
  {
  }

  lemma GroupMoved(members: seq<seq<NodeInfo>>, now: seq<seq<NodeInfo>>, i: nat, nodes: seq<NodeInfo>)
    requires SameGroups(members, now) && i < |now| && multiset(nodes) == multiset(now[i])
    ensures SameGroups(members, now[i := nodes])
  {
  }

  method ShuffleClusters(clusters: seq<LayerGroup>, ghost scores: seq<int>, ghost members: seq<seq<NodeInfo>>,
                         keyOf: map<string, Key>)
    returns (clusters': seq<LayerGroup>, ghost members': seq<seq<NodeInfo>>)
    requires Built(clusters, scores, members, keyOf)
    ensures Built(clusters', scores, members', keyOf) && Gathered(members') == Gathered(members)
    ensures AllFilled(members') <==> AllFilled(members)
    ensures SameGroups(members, members')
  {
    hide SameGroups, Gathered, AllFilled;
    clusters', members' := clusters, members;
    NothingMoved(members);
    for i := 0 to |clusters|
      invariant |members'| == |members| && Built(clusters', scores, members', keyOf)
      invariant SameGroups(members, members')
      invariant Gathered(members') == Gathered(members)
      invariant AllFilled(members') <==> AllFilled(members)
    {
      if |clusters'[i].addrs| > 1 {
        var g;
        ghost var nodes;
        g, nodes := ShuffleGroup(clusters'[i], members'[i], keyOf);
        GroupShuffled(clusters', scores, members', keyOf, i, g, nodes);
        StillGathered(members', i, nodes);
        GroupMoved(members, members', i, nodes);
        clusters' := clusters'[i := g];
        members' := members'[i := nodes];
      }
    }
  }

  lemma GroupShuffled(clusters: seq<LayerGroup>, scores: seq<int>, members: seq<seq<NodeInfo>>, keyOf: map<string, Key>,
                      i: nat, g: LayerGroup, nodes: seq<NodeInfo>)
    requires Built(clusters, scores, members, keyOf) && i < |clusters|
    requires GroupOf(g, nodes, keyOf) && multiset(nodes) == multiset(members[i])
    ensures Built(clusters[i := g], scores, members[i := nodes], keyOf)
  {
    TotalScorePermuted(nodes, members[i]);
  }

  lemma StillGathered(members: seq<seq<NodeInfo>>, i: nat, nodes: seq<NodeInfo>)
    requires i < |members| && multiset(nodes) == multiset(members[i])
    ensures Gathered(members[i := nodes]) == Gathered(members)
    ensures AllFilled(members[i := nodes]) <==> AllFilled(members)
  {
    GatheredReplace(members, i, nodes);
    SameRest(Gathered(members[i := nodes]), multiset(members[i]), Gathered(members));
    StillFilled(members, i, nodes);
  }

  lemma StillFilled(members: seq<seq<NodeInfo>>, i: nat, nodes: seq<NodeInfo>)
    requires i < |members| && multiset(nodes) == multiset(members[i])
    ensures AllFilled(members[i := nodes]) <==> AllFilled(members)
  {
    var members' := members[i := nodes];
    assert |multiset(nodes)| == |multiset(members[i])|;
    if AllFilled(members') {
      forall k | 0 <= k < |members|
        ensures members[k] != []
      {
        assert members'[k] != [];
      }
    }
  }

  lemma SameRest<T>(a: multiset<T>, b: multiset<T>, c: multiset<T>)
    requires a + b == c + b
    ensures a == c
  {
    forall x
      ensures a[x] == c[x]
    {
      assert (a + b)[x] == (c + b)[x];
    }
  }

  // ---- BuildSmartClusters ------------------------------------------------------------------

  /** What the builder promises for the nodes that are not blacklisted and have a readable key. */
  predicate GoodClusters(clusters: seq<LayerGroup>, scores: seq<int>, members: seq<seq<NodeInfo>>,
                         keyOf: map<string, Key>, eligible: seq<NodeInfo>, numHops: nat) {
    && |members| == numHops
    && Built(clusters, scores, members, keyOf)                        // own address and key side by side
    && Gathered(members) == multiset(eligible)                        // everyone, once
    && (AllFilled(members) <==> |eligible| >= numHops)
    && Sum(scores) == TotalScore(eligible)
    && (NonNegative(eligible) ==> Balanced(scores, Largest(eligible)))
  }

  /** Whatever the random draws: the clusters hold exactly the eligible nodes, the returned mean times
      the number of hops is their total score, and no cluster is ahead of another by more than the
      largest single score.  `members` and `scores` only explain the result. */
  method BuildSmartClusters(nodes: seq<NodeInfo>, numHops: nat, blacklist: seq<Addr>, keyOf: map<string, Key>)
    returns (clusters: seq<LayerGroup>, mean: real, ghost members: seq<seq<NodeInfo>>, ghost scores: seq<int>)
    requires numHops >= 1
    ensures |clusters| == numHops && Paired(clusters)
    ensures AllPairs(clusters) == multiset(OwnPairs(Eligible(nodes, blacklist, keyOf), keyOf))
    ensures (forall i :: 0 <= i < numHops ==> clusters[i].addrs != []) <==>
              |Eligible(nodes, blacklist, keyOf)| >= numHops
    ensures GoodClusters(clusters, scores, members, keyOf, Eligible(nodes, blacklist, keyOf), numHops)
    ensures 2.0 * (mean * numHops as real) == TotalScore(Eligible(nodes, blacklist, keyOf)) as real
    ensures WellChosen(Available(nodes, blacklist), members, keyOf)
  {
    hide WellSeeded, WellChosen, Descending, TwiceScore, GoodClusters, Built, SameGroups, Paired, AllPairs, OwnPairs,
         AllFilled,
         Eligible, Usables, Available, Sum, TotalScore;
    ghost var eligible := Eligible(nodes, blacklist, keyOf);
    var available := FilterBlacklisted(nodes, blacklist);
    var start := SortNodesByScore(available);
    var clusterScores;
    clusters, clusterScores, members := DealOut(start, numHops, keyOf);
    SameNodesSameClusters(clusters, clusterScores, members, start, available, numHops, keyOf);
    IsEligible(nodes, blacklist, keyOf);
    GoodParts(clusters, clusterScores, members, keyOf, eligible, numHops);
    ghost var dealt := members;
    clusters, members := ShuffleClusters(clusters, clusterScores, members, keyOf);
    AllGood(start, available, dealt, members, keyOf);
    StillGood(clusters, clusterScores, dealt, members, keyOf, eligible, numHops);
    PairsConserved(clusters, clusterScores, members, keyOf, eligible);
    FilledClusters(clusters, clusterScores, members, keyOf);
    var total := SumLoop(clusterScores);
    mean := MeanOf(total, numHops);
    scores := clusterScores;
  }

  lemma IsEligible(nodes: seq<NodeInfo>, blacklist: seq<Addr>, keyOf: map<string, Key>)
    ensures Eligible(nodes, blacklist, keyOf) == Usables(Available(nodes, blacklist), keyOf)
  {
  }

  lemma GoodParts(clusters: seq<LayerGroup>, scores: seq<int>, members: seq<seq<NodeInfo>>, keyOf: map<string, Key>,
                  eligible: seq<NodeInfo>, numHops: nat)
    requires GoodClusters(clusters, scores, members, keyOf, eligible, numHops)
    ensures |clusters| == |scores| == |members| == numHops && Built(clusters, scores, members, keyOf)
    ensures Gathered(members) == multiset(eligible) && (AllFilled(members) <==> |eligible| >= numHops)
    ensures Sum(scores) == TotalScore(eligible) && (NonNegative(eligible) ==> Balanced(scores, Largest(eligible)))
  {
  }

  /** Shuffling within the groups keeps all that was promised of them. */
  lemma StillGood(clusters: seq<LayerGroup>, scores: seq<int>, dealt: seq<seq<NodeInfo>>, members: seq<seq<NodeInfo>>,
                  keyOf: map<string, Key>, eligible: seq<NodeInfo>, numHops: nat)
    requires |dealt| == numHops && SameGroups(dealt, members) && Built(clusters, scores, members, keyOf)
    requires Gathered(members) == multiset(eligible) && (AllFilled(members) <==> |eligible| >= numHops)
    requires Sum(scores) == TotalScore(eligible) && (NonNegative(eligible) ==> Balanced(scores, Largest(eligible)))
    ensures GoodClusters(clusters, scores, members, keyOf, eligible, numHops) && |clusters| == numHops
  {
  }

  lemma AllGood(start: seq<NodeInfo>, available: seq<NodeInfo>, dealt: seq<seq<NodeInfo>>, members: seq<seq<NodeInfo>>,
                keyOf: map<string, Key>)
    requires Descending(start) && multiset(start) == multiset(available) && SameGroups(dealt, members)
    requires WellSeeded(start, dealt, 3 + |start| - |Usables(start, keyOf)|)
    ensures WellChosen(available, members, keyOf)
  {
    hide WellSeeded, Descending, CountAbove, Usables, HasGoodMember;
    UsablesPermuted(start, available, keyOf);
    SameSize(start, available);
    forall g | 0 <= g < |members| && members[g] != []
      ensures HasGoodMember(available, members[g], g + 3 + |available| - |Usables(available, keyOf)|)
    {
      SomeMember(dealt, members, g);
      SeededGood(start, available, dealt, 3 + |start| - |Usables(start, keyOf)|, g);
      SameMembers(available, dealt[g], members[g], g + 3 + |available| - |Usables(available, keyOf)|);
    }
  }

  lemma SameSize(a: seq<NodeInfo>, b: seq<NodeInfo>)
    requires multiset(a) == multiset(b)
    ensures |a| == |b|
  {
    assert |multiset(a)| == |a| && |multiset(b)| == |b|;
  }

  lemma SomeMember(dealt: seq<seq<NodeInfo>>, members: seq<seq<NodeInfo>>, g: nat)
    requires SameGroups(dealt, members) && g < |members| && members[g] != []
    ensures dealt[g] != [] && multiset(dealt[g]) == multiset(members[g])
  {
    assert members[g][0] in multiset(members[g]);
    assert members[g][0] in multiset(dealt[g]);
  }

  lemma SameMembers(nodes: seq<NodeInfo>, group: seq<NodeInfo>, group': seq<NodeInfo>, better: int)
    requires multiset(group) == multiset(group') && HasGoodMember(nodes, group, better)
    ensures HasGoodMember(nodes, group', better)
  {
    var n :| n in group && CountAbove(nodes, n.AvailabilityScore + n.NetworkScore) <= better;
    assert n in multiset(group);
  }

  lemma FilledClusters(clusters: seq<LayerGroup>, scores: seq<int>, members: seq<seq<NodeInfo>>,
                       keyOf: map<string, Key>)
    requires Built(clusters, scores, members, keyOf)
    ensures AllFilled(members) <==> forall i :: 0 <= i < |clusters| ==> clusters[i].addrs != []
  {
    forall i | 0 <= i < |clusters|
      ensures members[i] == [] <==> clusters[i].addrs == []
    {
      assert GroupOf(clusters[i], members[i], keyOf);
    }
  }

  /** The two phases on the sorted nodes. */
  method DealOut(start: seq<NodeInfo>, numHops: nat, keyOf: map<string, Key>)
    returns (clusters: seq<LayerGroup>, scores: seq<int>, ghost members: seq<seq<NodeInfo>>)
    requires numHops >= 1
    ensures GoodClusters(clusters, scores, members, keyOf, Usables(start, keyOf), numHops)
    ensures WellSeeded(start, members, 3 + |start| - |Usables(start, keyOf)|)
  {
    hide WellSeeded, Grown;
    var sorted, nodeIdx;
    ghost var rank, seeds;
    sorted, nodeIdx, clusters, scores, members, rank, seeds := SeedClusters(start, numHops, keyOf);
    ghost var usable := Usables(sorted, keyOf);
    UsablesPart(sorted, keyOf, nodeIdx);
    SeedsFair(clusters, scores, members, keyOf, sorted[..nodeIdx], usable, seeds, Largest(usable));
    SeedsFill(members, sorted, nodeIdx, keyOf, seeds);
    ghost var before := members;
    clusters, scores, members := FillClusters(sorted, nodeIdx, clusters, scores, members, keyOf, Largest(usable));
    SeedsLast(start, sorted, nodeIdx, before, members, keyOf, seeds);
    SameNodesSameClusters(clusters, scores, members, sorted, start, numHops, keyOf);
  }

  /** The bound at the end of the seeding holds in terms of all unreadable keys, and for good. */
  lemma SeedsLast(start: seq<NodeInfo>, sorted: seq<NodeInfo>, nodeIdx: nat, before: seq<seq<NodeInfo>>,
                  members: seq<seq<NodeInfo>>, keyOf: map<string, Key>, seeds: nat)
    requires multiset(start) == multiset(sorted) && nodeIdx <= |sorted| && |Usables(sorted[..nodeIdx], keyOf)| == seeds
    requires WellSeeded(start, before, 3 + nodeIdx - seeds) && SeedsPlaced(before, seeds) && Grown(before, members)
    requires nodeIdx < |sorted| ==> seeds == |before|
    requires nodeIdx == |sorted| ==> members == before
    ensures WellSeeded(start, members, 3 + |start| - |Usables(start, keyOf)|)
  {
    hide WellSeeded;
    assert |multiset(start)| == |start| && |multiset(sorted)| == |sorted|;
    UsablesPermuted(start, sorted, keyOf);
    UnreadableGrow(sorted, keyOf, nodeIdx);
    SeedWeaker(start, before, 3 + nodeIdx - seeds, 3 + |start| - |Usables(start, keyOf)|);
    SeedsKept(start, before, members, 3 + |start| - |Usables(start, keyOf)|);
  }

  lemma {:induction false} UnreadableGrow(nodes: seq<NodeInfo>, keyOf: map<string, Key>, k: nat)
    requires k <= |nodes|
    ensures k - |Usables(nodes[..k], keyOf)| <= |nodes| - |Usables(nodes, keyOf)|
    decreases |nodes| - k
  {
    if k == |nodes| {
      assert nodes[..k] == nodes;
    } else {
      UsablesNext(nodes, keyOf, k);
      UnreadableGrow(nodes, keyOf, k + 1);
    }
  }

  // ---- the first of each group -------------------------------------------------------------

  /** Nodes with a strictly larger sum of scores. */
  function CountAbove(nodes: seq<NodeInfo>, sum: int): (count: nat)
    ensures count <= |nodes|
  {
    if nodes == [] then 0
    else
      var n := nodes[|nodes| - 1];
      CountAbove(nodes[..|nodes| - 1], sum) + if n.AvailabilityScore + n.NetworkScore > sum then 1 else 0
  }

  lemma {:induction false} CountAboveWithout(nodes: seq<NodeInfo>, sum: int, k: nat)
    requires k < |nodes|
    ensures CountAbove(nodes, sum) == CountAbove(nodes[..k] + nodes[k + 1..], sum)
            + if nodes[k].AvailabilityScore + nodes[k].NetworkScore > sum then 1 else 0
  {
    var last := |nodes| - 1;
    if k == last {
      assert nodes[..k] + nodes[k + 1..] == nodes[..last];
    } else {
      CountAboveWithout(nodes[..last], sum, k);
      var rest := nodes[..last][..k] + nodes[..last][k + 1..];
      assert nodes[..k] + nodes[k + 1..] == rest + [nodes[last]];
      assert (rest + [nodes[last]])[..|rest|] == rest;
    }
  }

  lemma {:induction false} CountAbovePermuted(a: seq<NodeInfo>, b: seq<NodeInfo>, sum: int)
    requires multiset(a) == multiset(b)
    ensures CountAbove(a, sum) == CountAbove(b, sum)
    decreases |a|
  {
    if a == [] {
      assert |multiset(b)| == 0;
    } else {
      var k := TakeOut(a, b);
      CountAbovePermuted(a[..|a| - 1], b[..k] + b[k + 1..], sum);
      CountAboveWithout(b, sum, k);
    }
  }

  /** In descending order only the nodes before r can be better than the one at r. */
  lemma {:induction false} RankBounds(sorted: seq<NodeInfo>, r: nat, k: nat)
    requires Descending(sorted) && r < |sorted| && k <= |sorted|
    ensures CountAbove(sorted[..k], sorted[r].AvailabilityScore + sorted[r].NetworkScore) <= if k < r then k else r
  {
    if k > 0 {
      RankBounds(sorted, r, k - 1);
      assert sorted[..k][..k - 1] == sorted[..k - 1];
      assert k - 1 >= r ==> TwiceScore(sorted[k - 1]) <= TwiceScore(sorted[r]);
    }
  }

  /** Group g has a member with at most so many better nodes among `nodes`. */
  ghost predicate HasGoodMember(nodes: seq<NodeInfo>, group: seq<NodeInfo>, better: int) {
    exists n :: n in group && CountAbove(nodes, n.AvailabilityScore + n.NetworkScore) <= better
  }

  /** Every group that is not empty has a member that at most three nodes more than its number beat, not
      counting those without a readable key. */
  ghost predicate WellChosen(available: seq<NodeInfo>, members: seq<seq<NodeInfo>>, keyOf: map<string, Key>) {
    var unreadable := |available| - |Usables(available, keyOf)|;
    forall g :: 0 <= g < |members| && members[g] != [] ==> HasGoodMember(available, members[g], g + 3 + unreadable)
  }

  lemma SeededGood(start: seq<NodeInfo>, nodes: seq<NodeInfo>, members: seq<seq<NodeInfo>>, extra: int, g: nat)
    requires Descending(start) && multiset(start) == multiset(nodes) && WellSeeded(start, members, extra)
    requires g < |members| && members[g] != []
    ensures HasGoodMember(nodes, members[g], g + extra)
  {
    var r :| 0 <= r < |start| && r <= g + extra && start[r] in members[g];
    RankBounds(start, r, |start|);
    assert start[..|start|] == start;
    CountAbovePermuted(start, nodes, start[r].AvailabilityScore + start[r].NetworkScore);
  }

  lemma SameNodesSameClusters(clusters: seq<LayerGroup>, scores: seq<int>, members: seq<seq<NodeInfo>>,
                              a: seq<NodeInfo>, b: seq<NodeInfo>, numHops: nat, keyOf: map<string, Key>)
    requires GoodClusters(clusters, scores, members, keyOf, Usables(a, keyOf), numHops) && multiset(a) == multiset(b)
    ensures GoodClusters(clusters, scores, members, keyOf, Usables(b, keyOf), numHops)
  {
    UsablesPermuted(a, b, keyOf);
    TotalScorePermuted(Usables(a, keyOf), Usables(b, keyOf));
    LargestPermuted(Usables(a, keyOf), Usables(b, keyOf));
  }

  /** Total counts halves. */
  predicate IsMean(mean: real, numHops: nat, total: int) {
    2.0 * (mean * numHops as real) == total as real
  }

  /** totalScore / float64(numHops), undoing the doubling. */
  function MeanOf(total: int, numHops: nat): (mean: real)
    requires numHops >= 1
    ensures IsMean(mean, numHops, total)
  {
    total as real / 2.0 / numHops as real
  }

  method SumLoop(scores: seq<int>) returns (total: int)
    ensures total == Sum(scores)
  {
    total := 0;
    for i := 0 to |scores|
      invariant total == Sum(scores[..i])
    {
      assert scores[..i + 1][..i] == scores[..i];
      total := total + scores[i];
    }
    assert scores[..|scores|] == scores;
  }

  lemma SeedsFair(clusters: seq<LayerGroup>, scores: seq<int>, members: seq<seq<NodeInfo>>, keyOf: map<string, Key>,
                  done: seq<NodeInfo>, usable: seq<NodeInfo>, seeds: nat, m: nat)
    requires Dealt(clusters, scores, members, keyOf, done) && SeedsPlaced(members, seeds)
    requires multiset(Usables(done, keyOf)) <= multiset(usable)
    ensures Fair(scores, usable, m)
  {
    if Bounded(usable, m) {
      SeedsBalanced(clusters, scores, members, keyOf, usable, seeds, m);
    }
  }

  /** After the seeding either every group has its node, or there are no nodes left. */
  lemma SeedsFill(members: seq<seq<NodeInfo>>, sorted: seq<NodeInfo>, nodeIdx: nat, keyOf: map<string, Key>, seeds: nat)
    requires SeedsPlaced(members, seeds) && nodeIdx <= |sorted|
    requires |Usables(sorted[..nodeIdx], keyOf)| == seeds <= |members|
    requires nodeIdx < |sorted| ==> seeds == |members|
    ensures seeds == |members| ==> AllFilled(members) && |Usables(sorted, keyOf)| >= |members|
    ensures seeds < |members| ==> nodeIdx == |sorted| && !AllFilled(members) && |Usables(sorted, keyOf)| < |members|
  {
    UsablesGrow(sorted, keyOf, nodeIdx);
    if seeds < |members| {
      assert sorted[..nodeIdx] == sorted;
      assert members[seeds] == [];
    }
  }
}
