/**
 Fragmentation: a long message is cut into numbered chunks that travel as separate messages, and
 the destination's buffer puts them together again whatever the order of arrival.
 */
module Fragments {
  import opened Wrappers
  import opened Strings

  const FRAG_CHUNK_SIZE: nat := 4096

  // ---- sending side ------------------------------------------------------------------------

  function Chunks(msg: string, size: nat): (chunks: seq<string>)
    requires size > 0
    ensures msg != "" ==> |chunks| >= 1
  {
    if msg == "" then [] else if |msg| <= size then [msg] else [msg[..size]] + Chunks(msg[size..], size)
  }

  function Concat(chunks: seq<string>): string {
    if chunks == [] then "" else chunks[0] + Concat(chunks[1..])
  }

  /** Every chunk is full but for a last one that is not empty, and together they are the message. */
  predicate IsSplit(msg: string, size: nat, chunks: seq<string>) {
    && Concat(chunks) == msg
    && (forall k :: 0 <= k < |chunks| - 1 ==> |chunks[k]| == size)
    && (chunks != [] ==> 0 < |chunks[|chunks| - 1]| <= size)
  }

  lemma {:induction false} ChunksSplit(msg: string, size: nat)
    requires size > 0
    ensures IsSplit(msg, size, Chunks(msg, size))
    ensures |msg| > size ==> |Chunks(msg, size)| >= 2
    decreases |msg|
  {
    if |msg| > size {
      ChunksSplit(msg[size..], size);
      var rest := Chunks(msg[size..], size);
      var chunks := Chunks(msg, size);
      assert chunks[1..] == rest;
      assert msg[..size] + msg[size..] == msg;
      forall k | 0 <= k < |chunks| - 1
        ensures |chunks[k]| == size
      {
        if k > 0 {
          assert chunks[k] == rest[k - 1];
        }
      }
    } else if msg != "" {
      assert Concat([msg]) == msg + Concat([msg][1..]);
    }
  }

  lemma {:induction false} ConcatAppend(a: seq<string>, b: seq<string>)
    ensures Concat(a + b) == Concat(a) + Concat(b)
  {
    if a == [] {
      assert a + b == b;
    } else {
      ConcatAppend(a[1..], b);
      assert (a + b)[1..] == a[1..] + b;
    }
  }

  method SplitMessage(msg: string, size: nat) returns (chunks: seq<string>)
    requires size > 0
    ensures chunks == Chunks(msg, size)
    ensures IsSplit(msg, size, chunks)
  {
    chunks := [];
    var rest := msg;
    while |rest| > 0
      invariant chunks + Chunks(rest, size) == Chunks(msg, size)
      decreases |rest|
    {
      if |rest| <= size {
        chunks := chunks + [rest];
        rest := "";
        break;
      }
      assert Chunks(rest, size) == [rest[..size]] + Chunks(rest[size..], size);
      chunks := chunks + [rest[..size]];
      rest := rest[size..];
    }
    assert chunks + [] == chunks;
    ChunksSplit(msg, size);
  }

  /** "fragID:i/n". */
  function FragTag(fragID: string, i: nat, n: nat): string {
    fragID + ":" + Itoa(i) + "/" + Itoa(n)
  }

  /** What the SEND command hands to the retry loop: one tag and text per message sent. */
  method TagChunks(message: string, fragID: string) returns (sends: seq<(string, string)>)
    ensures |message| <= 4096 ==> sends == [("", message)]
    ensures |message| > 4096 ==>
              var chunks := Chunks(message, 4096);
              && |sends| == |chunks| >= 2
              && IsSplit(message, 4096, chunks)
              && forall i :: 0 <= i < |sends| ==> sends[i] == (FragTag(fragID, i + 1, |chunks|), chunks[i])
  {
    if |message| <= FRAG_CHUNK_SIZE {
      return [("", message)];
    }
    var chunks := SplitMessage(message, FRAG_CHUNK_SIZE);
    ChunksSplit(message, FRAG_CHUNK_SIZE);
    sends := [];
    for i := 0 to |chunks|
      invariant |sends| == i
      invariant forall k :: 0 <= k < i ==> sends[k] == (FragTag(fragID, k + 1, |chunks|), chunks[k])
    {
      sends := sends + [(FragTag(fragID, i + 1, |chunks|), chunks[i])];
    }
  }

  // ---- receiving side ----------------------------------------------------------------------

  datatype Tag = Tag(fragID: string, idx: int, total: int)

  /** None where the handler's slice index would be out of range. */
  function ParseTag(frag: string): Option<Tag> {
    var fp := SplitN(frag, ':', 2);
    if |fp| < 2 then None else
    var counts := Split(fp[1], '/');
    if |counts| < 2 then None else
    Some(Tag(fp[0], AtoiOrZero(counts[0]), AtoiOrZero(counts[1])))
  }

  /** The text of a tag: identifier, colon, number, slash, count. */
  lemma TagText()
    ensures FragTag("frag-0123456789", 2, 13) == "frag-0123456789:2/13"
  {
    ItoaDigits();
    assert Itoa(2) == "2" && Itoa(1) == "1" && Itoa(13) == "13";
  }

  /** The handler gets through exactly when a '/' comes somewhere after a ':'; the numbers do not matter. */
  lemma ReadableTag(frag: string)
    ensures ParseTag(frag).Some? <==> exists i, j :: 0 <= i < j < |frag| && frag[i] == ':' && frag[j] == '/'
  {
    hide AtoiOrZero;
    var i := IndexOf(frag, ':');
    if i < |frag| {
      var rest := frag[i + 1..];
      assert SplitN(frag, ':', 2) == [frag[..i], rest];
      var j := IndexOf(rest, '/');
      if j < |rest| {
        assert frag[i + 1 + j] == '/';
      }
    }
  }

  lemma ParseFragTag(fragID: string, i: nat, n: nat)
    requires ':' !in fragID
    ensures FragTag(fragID, i, n) != ""
    ensures ParseTag(FragTag(fragID, i, n)) == Some(Tag(fragID, i, n))
  {
    var tail := Itoa(i) + "/" + Itoa(n);
    assert FragTag(fragID, i, n) == fragID + ":" + tail;
    SplitAtFirst(fragID, tail, ':');
    SplitCounts(i, n);
    AtoiItoa(i);
    AtoiItoa(n);
  }

  lemma SplitCounts(i: nat, n: nat)
    ensures Split(Itoa(i) + "/" + Itoa(n), '/') == [Itoa(i), Itoa(n)]
  {
    ItoaFree(i, '/');
    ItoaFree(n, '/');
    JoinTwo(Itoa(i), Itoa(n), '/');
    SplitJoin([Itoa(i), Itoa(n)], '/');
  }

  /** The part of a node that FINAL layers fill. */
  datatype Inbox = Inbox(buf: map<string, map<int, string>>, total: map<string, int>, received: seq<string>)

  const EMPTY_INBOX := Inbox(map[], map[], [])

  /** The chunks numbered lo to hi in order; a missing one reads as "". */
  function Assemble(chunks: map<int, string>, lo: int, hi: int): string
    decreases hi - lo
  {
    if lo > hi then "" else (if lo in chunks then chunks[lo] else "") + Assemble(chunks, lo + 1, hi)
  }

  function AddChunk(b: Inbox, t: Tag, message: string): Inbox {
    var chunks := Written(b, t.fragID, t.idx, message);
    var totals := if t.fragID in b.buf then b.total else b.total[t.fragID := t.total];
    if |chunks| == (if t.fragID in totals then totals[t.fragID] else 0) then
      Inbox(b.buf - {t.fragID}, totals - {t.fragID}, b.received + [Assemble(chunks, 1, t.total)])
    else
      Inbox(b.buf[t.fragID := chunks], totals, b.received)
  }

  /** A FINAL layer's effect; None when its tag makes the handler panic. */
  function Deliver(b: Inbox, frag: string, message: string): Option<Inbox> {
    if frag == "" then Some(b.(received := b.received + [message]))
    else if ParseTag(frag).None? then None
    else Some(AddChunk(b, ParseTag(frag).value, message))
  }

  /** Any chunk, honest or not, on any inbox: it replaces what was there under its number; the total is
      the one of the first chunk, and when as many numbers as that have come, the chunks 1 to the total
      of this last one are appended and the identifier is forgotten. */
  lemma ChunkArrives(b: Inbox, t: Tag, message: string)
    ensures var had := if t.fragID in b.buf then b.buf[t.fragID] else map[];
      var got := had[t.idx := message];
      var total := if t.fragID !in b.buf then t.total else if t.fragID in b.total then b.total[t.fragID] else 0;
      var b' := AddChunk(b, t, message);
      if |got| == total then
        t.fragID !in b'.buf && t.fragID !in b'.total && b'.received == b.received + [Assemble(got, 1, t.total)]
      else
        && t.fragID in b'.buf && b'.buf[t.fragID] == got && b'.received == b.received
        && (t.fragID !in b.buf ==> t.fragID in b'.total && b'.total[t.fragID] == t.total)
        && (t.fragID in b.buf ==> b'.total == b.total)
  {
    hide Assemble;
  }

  lemma OtherChunksStay(b: Inbox, t: Tag, message: string, f: string)
    requires f != t.fragID
    ensures var b' := AddChunk(b, t, message);
      && (f in b'.buf <==> f in b.buf) && (f in b.buf ==> b'.buf[f] == b.buf[f])
      && (f in b'.total <==> f in b.total) && (f in b.total ==> b'.total[f] == b.total[f])
  {
    hide Assemble, Written;
  }

  // ---- runs of honest arrivals -------------------------------------------------------------

  /** An unfragmented message, or chunk number idx of the message that travels as fragID. */
  datatype Item = Whole(message: string) | Piece(fragID: string, idx: int)

  /** The chunks of every fragmented message, by its identifier. */
  type Catalogue = map<string, seq<string>>

  predicate ValidCatalogue(parts: Catalogue) {
    forall f :: f in parts ==> ':' !in f && |parts[f]| >= 1
  }

  predicate ValidItem(parts: Catalogue, x: Item) {
    x.Piece? ==> x.fragID in parts && 1 <= x.idx <= |parts[x.fragID]|
  }

  predicate ValidItems(parts: Catalogue, xs: seq<Item>) {
    forall k :: 0 <= k < |xs| ==> ValidItem(parts, xs[k])
  }

  function FragOf(parts: Catalogue, x: Item): string
    requires ValidItem(parts, x)
  {
    if x.Whole? then "" else FragTag(x.fragID, x.idx, |parts[x.fragID]|)
  }

  function TextOf(parts: Catalogue, x: Item): string
    requires ValidItem(parts, x)
  {
    if x.Whole? then x.message else parts[x.fragID][x.idx - 1]
  }

  /** The buffer after the items have arrived in this order. */
  function Arrive(parts: Catalogue, xs: seq<Item>): Option<Inbox>
    requires ValidItems(parts, xs)
  {
    if xs == [] then Some(EMPTY_INBOX)
    else
      var before := Arrive(parts, xs[..|xs| - 1]);
      var x := xs[|xs| - 1];
      if before.None? then None else Deliver(before.value, FragOf(parts, x), TextOf(parts, x))
  }

  /** 1 to n. */
  function Numbers(n: nat): (s: set<int>)
    ensures forall i :: i in s <==> 1 <= i <= n
  {
    if n == 0 then {} else Numbers(n - 1) + {n as int}
  }

  /** Chunk numbers of f that arrived since its last completion. */
  function Have(parts: Catalogue, xs: seq<Item>, f: string): set<int>
    requires ValidItems(parts, xs)
  {
    if xs == [] then {}
    else
      var x := xs[|xs| - 1];
      var before := Have(parts, xs[..|xs| - 1], f);
      if x.Whole? || x.fragID != f then before
      else if before + {x.idx} == Numbers(|parts[f]|) then {}
      else before + {x.idx}
  }

  predicate LastMissing(parts: Catalogue, xs: seq<Item>, x: Item)
    requires ValidItems(parts, xs) && ValidItem(parts, x)
  {
    x.Piece? && Have(parts, xs, x.fragID) + {x.idx} == Numbers(|parts[x.fragID]|)
  }

  /** What should have been appended: every whole message, and every fragmented one at its last
      missing chunk.  A fragmented message is named by Piece(f, 0). */
  function Expected(parts: Catalogue, xs: seq<Item>): seq<Item>
    requires ValidItems(parts, xs)
  {
    if xs == [] then []
    else
      var x := xs[|xs| - 1];
      var before := xs[..|xs| - 1];
      Expected(parts, before) +
      (if x.Whole? then [x] else if LastMissing(parts, before, x) then [Piece(x.fragID, 0)] else [])
  }

  function Original(parts: Catalogue, x: Item): string {
    if x.Whole? then x.message else if x.fragID in parts then Concat(parts[x.fragID]) else ""
  }

  function Originals(parts: Catalogue, xs: seq<Item>): seq<string> {
    seq(|xs|, i requires 0 <= i < |xs| => Original(parts, xs[i]))
  }

  predicate BufferHolds(parts: Catalogue, xs: seq<Item>, b: Inbox)
    requires ValidItems(parts, xs)
  {
    && b.total.Keys == b.buf.Keys
    && (forall f :: f in b.buf ==> f in parts)
    && (forall f :: f in parts ==> HoldsFor(parts[f], Have(parts, xs, f), b, f))
  }

  predicate HoldsFor(chunks: seq<string>, have: set<int>, b: Inbox, f: string) {
    && (f in b.buf <==> have != {})
    && (f in b.buf ==> f in b.total && HoldsChunks(chunks, have, b.buf[f], b.total[f]))
  }

  predicate HoldsChunks(chunks: seq<string>, have: set<int>, got: map<int, string>, total: int) {
    && got.Keys == have
    && total == |chunks|
    && |got| < |chunks|
    && RightChunks(chunks, got)
  }

  predicate RightChunks(chunks: seq<string>, got: map<int, string>) {
    forall i :: i in got ==> 1 <= i <= |chunks| && got[i] == chunks[i - 1]
  }

  /** The chunks a buffer holds for f once one more has been written, before the completion test. */
  function Written(b: Inbox, f: string, idx: int, message: string): map<int, string> {
    (if f in b.buf then b.buf[f] else map[])[idx := message]
  }

  lemma {:induction false} NumbersSize(n: nat)
    ensures |Numbers(n)| == n
  {
    if n == 0 {
      assert Numbers(0) == {};
    } else {
      NumbersSize(n - 1);
      assert Numbers(n) == Numbers(n - 1) + {n};
    }
  }

  /** n distinct numbers from 1..n are all of them. */
  lemma Pigeonhole(s: set<int>, n: nat)
    requires s <= Numbers(n)
    ensures |s| == n <==> s == Numbers(n)
    ensures |s| <= n
  {
    NumbersSize(n);
    SubsetSize(s, Numbers(n));
  }

  lemma SubsetSize(a: set<int>, b: set<int>)
    requires a <= b
    ensures |a| <= |b| && (|a| == |b| ==> a == b)
  {
    var d := b - a;
    assert b == a + d && a !! d;
    assert |b| == |a| + |d|;
    if |a| == |b| {
      assert d == {};
    }
  }

  lemma {:induction false} AssembleAll(chunks: seq<string>, got: map<int, string>, lo: int)
    requires 1 <= lo <= |chunks| + 1
    requires RightChunks(chunks, got) && got.Keys == Numbers(|chunks|)
    ensures Assemble(got, lo, |chunks|) == Concat(chunks[lo - 1..])
    decreases |chunks| - lo
  {
    if lo <= |chunks| {
      AssembleAll(chunks, got, lo + 1);
      assert chunks[lo - 1..][1..] == chunks[lo..];
    }
  }

  lemma {:induction false} HaveInRange(parts: Catalogue, xs: seq<Item>, f: string)
    requires ValidItems(parts, xs) && f in parts && |parts[f]| >= 1
    ensures Have(parts, xs, f) < Numbers(|parts[f]|)
  {
    if xs == [] {
      assert 1 in Numbers(|parts[f]|);
    } else {
      HaveInRange(parts, xs[..|xs| - 1], f);
      var x := xs[|xs| - 1];
      if x.Piece? && x.fragID == f {
        assert ValidItem(parts, x);
      }
      assert 1 in Numbers(|parts[f]|);
    }
  }

  lemma WrittenRight(chunks: seq<string>, have: set<int>, b: Inbox, f: string, idx: int)
    requires HoldsFor(chunks, have, b, f) && 1 <= idx <= |chunks|
    ensures var got := Written(b, f, idx, chunks[idx - 1]);
      RightChunks(chunks, got) && got.Keys == have + {idx}
  {
    var before := if f in b.buf then b.buf[f] else map[];
    assert RightChunks(chunks, before) && before.Keys == have;
    assert before[idx := chunks[idx - 1]].Keys == before.Keys + {idx};
  }

  /** One chunk arrives: its own buffer first, the others are not touched. */
  lemma OwnBuffer(chunks: seq<string>, have: set<int>, b: Inbox, f: string, idx: int)
    requires HoldsFor(chunks, have, b, f)
    requires have < Numbers(|chunks|) && 1 <= idx <= |chunks|
    ensures var b' := AddChunk(b, Tag(f, idx, |chunks|), chunks[idx - 1]);
      var full := have + {idx} == Numbers(|chunks|);
      && HoldsFor(chunks, if full then {} else have + {idx}, b', f)
      && b'.received == b.received + if full then [Concat(chunks)] else []
  {
    var n := |chunks|;
    var got := Written(b, f, idx, chunks[idx - 1]);
    WrittenRight(chunks, have, b, f, idx);
    assert |got| == |got.Keys|;
    Pigeonhole(have + {idx}, n);
    if have + {idx} == Numbers(n) {
      AssembleAll(chunks, got, 1);
      assert chunks[0..] == chunks;
    } else {
      assert HoldsChunks(chunks, have + {idx}, got, n);
    }
  }

  lemma OtherBuffers(chunks: seq<string>, have: set<int>, b: Inbox, t: Tag, message: string, g: string)
    requires HoldsFor(chunks, have, b, g) && g != t.fragID
    ensures HoldsFor(chunks, have, AddChunk(b, t, message), g)
  {
  }

  lemma SameKeys(b: Inbox, t: Tag, message: string)
    requires b.total.Keys == b.buf.Keys
    ensures var b' := AddChunk(b, t, message);
      b'.total.Keys == b'.buf.Keys && b'.buf.Keys <= b.buf.Keys + {t.fragID}
  {
  }

  lemma HaveAfter(parts: Catalogue, xs: seq<Item>, x: Item, g: string)
    requires ValidItems(parts, xs) && ValidItem(parts, x) && ValidItems(parts, xs + [x])
    ensures Have(parts, xs + [x], g) ==
            if x.Whole? || x.fragID != g then Have(parts, xs, g)
            else if LastMissing(parts, xs, x) then {}
            else Have(parts, xs, g) + {x.idx}
  {
    assert (xs + [x])[..|xs|] == xs;
  }

  lemma OthersHold(parts: Catalogue, xs: seq<Item>, b: Inbox, x: Item, t: Tag, message: string)
    requires ValidItems(parts, xs) && ValidItem(parts, x) && ValidItems(parts, xs + [x])
    requires BufferHolds(parts, xs, b) && x.Piece? && t.fragID == x.fragID
    ensures forall g :: g in parts && g != x.fragID ==>
              HoldsFor(parts[g], Have(parts, xs + [x], g), AddChunk(b, t, message), g)
  {
    forall g | g in parts && g != x.fragID
      ensures HoldsFor(parts[g], Have(parts, xs + [x], g), AddChunk(b, t, message), g)
    {
      HaveAfter(parts, xs, x, g);
      OtherBuffers(parts[g], Have(parts, xs, g), b, t, message, g);
    }
  }

  lemma AllHold(parts: Catalogue, xs: seq<Item>, f: string, b: Inbox)
    requires ValidItems(parts, xs)
    requires f in parts && HoldsFor(parts[f], Have(parts, xs, f), b, f)
    requires forall g :: g in parts && g != f ==> HoldsFor(parts[g], Have(parts, xs, g), b, g)
    requires b.total.Keys == b.buf.Keys && forall g :: g in b.buf ==> g in parts
    ensures BufferHolds(parts, xs, b)
  {
  }

  lemma AddChunkStep(parts: Catalogue, xs: seq<Item>, b: Inbox, x: Item)
    requires ValidCatalogue(parts) && ValidItems(parts, xs) && ValidItem(parts, x) && x.Piece?
    requires ValidItems(parts, xs + [x])
    requires BufferHolds(parts, xs, b)
    ensures var b' := AddChunk(b, Tag(x.fragID, x.idx, |parts[x.fragID]|), TextOf(parts, x));
      && BufferHolds(parts, xs + [x], b')
      && b'.received == b.received + if LastMissing(parts, xs, x) then [Concat(parts[x.fragID])] else []
  {
    hide AddChunk, Have, Numbers, HoldsFor, Concat;
    var f := x.fragID;
    HaveInRange(parts, xs, f);
    OwnBuffer(parts[f], Have(parts, xs, f), b, f, x.idx);
    var t, message := Tag(f, x.idx, |parts[f]|), TextOf(parts, x);
    HaveAfter(parts, xs, x, f);
    SameKeys(b, t, message);
    OthersHold(parts, xs, b, x, t, message);
    AllHold(parts, xs + [x], f, AddChunk(b, t, message));
  }

  lemma WholeStep(parts: Catalogue, xs: seq<Item>, b: Inbox, x: Item)
    requires ValidItems(parts, xs) && x.Whole? && ValidItems(parts, xs + [x])
    requires BufferHolds(parts, xs, b)
    ensures BufferHolds(parts, xs + [x], b.(received := b.received + [x.message]))
  {
    var ys := xs + [x];
    assert ys[..|ys| - 1] == xs;
    forall g | g in parts
      ensures HoldsFor(parts[g], Have(parts, ys, g), b.(received := b.received + [x.message]), g)
    {
      assert HoldsFor(parts[g], Have(parts, xs, g), b, g);
    }
  }

  lemma OriginalsOne(parts: Catalogue, xs: seq<Item>, x: Item)
    ensures Originals(parts, xs + [x]) == Originals(parts, xs) + [Original(parts, x)]
  {
  }

  /** One more arrival of either kind. */
  lemma ArriveStep(parts: Catalogue, ys: seq<Item>, x: Item, b: Inbox)
    requires ValidCatalogue(parts) && ValidItems(parts, ys) && ValidItem(parts, x) && ValidItems(parts, ys + [x])
    requires BufferHolds(parts, ys, b) && b.received == Originals(parts, Expected(parts, ys))
    ensures var after := Deliver(b, FragOf(parts, x), TextOf(parts, x));
      && after.Some?
      && BufferHolds(parts, ys + [x], after.value)
      && after.value.received == Originals(parts, Expected(parts, ys + [x]))
  {
    var xs := ys + [x];
    assert xs[..|xs| - 1] == ys;
    if x.Piece? {
      ArrivePiece(parts, ys, x, b);
    } else {
      WholeStep(parts, ys, b, x);
      OriginalsOne(parts, Expected(parts, ys), x);
    }
  }

  lemma ArrivePiece(parts: Catalogue, ys: seq<Item>, x: Item, b: Inbox)
    requires ValidCatalogue(parts) && ValidItems(parts, ys) && ValidItem(parts, x) && ValidItems(parts, ys + [x])
    requires BufferHolds(parts, ys, b) && b.received == Originals(parts, Expected(parts, ys)) && x.Piece?
    ensures var after := Deliver(b, FragOf(parts, x), TextOf(parts, x));
      && after.Some?
      && BufferHolds(parts, ys + [x], after.value)
      && after.value.received == Originals(parts, Expected(parts, ys + [x]))
  {
    DeliverPiece(parts, x, b);
    AddChunkStep(parts, ys, b, x);
    ExpectedAfter(parts, ys, x);
    ReceivedAfter(parts, Expected(parts, ys), b.received, x.fragID, LastMissing(parts, ys, x));
  }

  lemma DeliverPiece(parts: Catalogue, x: Item, b: Inbox)
    requires ValidCatalogue(parts) && ValidItem(parts, x) && x.Piece?
    ensures Deliver(b, FragOf(parts, x), TextOf(parts, x))
         == Some(AddChunk(b, Tag(x.fragID, x.idx, |parts[x.fragID]|), TextOf(parts, x)))
  {
    ParseFragTag(x.fragID, x.idx, |parts[x.fragID]|);
  }

  lemma ReceivedAfter(parts: Catalogue, expected: seq<Item>, received: seq<string>, f: string, last: bool)
    requires received == Originals(parts, expected) && f in parts
    ensures received + (if last then [Concat(parts[f])] else [])
         == Originals(parts, expected + if last then [Piece(f, 0)] else [])
  {
    OriginalsOne(parts, expected, Piece(f, 0));
    assert expected + [] == expected;
  }

  lemma ExpectedAfter(parts: Catalogue, ys: seq<Item>, x: Item)
    requires ValidItems(parts, ys) && ValidItem(parts, x) && ValidItems(parts, ys + [x])
    ensures Expected(parts, ys + [x]) == Expected(parts, ys) +
            (if x.Whole? then [x] else if LastMissing(parts, ys, x) then [Piece(x.fragID, 0)] else [])
  {
    assert (ys + [x])[..|ys|] == ys;
  }

  /** For every interleaving the buffer is exactly what has arrived since the last completion, and
      the received list is exactly what should have been appended. */
  lemma {:induction false} Reassembly(parts: Catalogue, xs: seq<Item>)
    requires ValidCatalogue(parts) && ValidItems(parts, xs)
    ensures Arrive(parts, xs).Some?
    ensures BufferHolds(parts, xs, Arrive(parts, xs).value)
    ensures Arrive(parts, xs).value.received == Originals(parts, Expected(parts, xs))
  {
    if xs != [] {
      var ys := xs[..|xs| - 1];
      var x := xs[|xs| - 1];
      assert xs == ys + [x];
      Reassembly(parts, ys);
      assert ValidItem(parts, x);
      ArriveStep(parts, ys, x, Arrive(parts, ys).value);
    }
  }

  // ---- once each ---------------------------------------------------------------------------

  /** All chunk numbers of f that ever arrived. */
  function Seen(xs: seq<Item>, f: string): set<int> {
    set k | 0 <= k < |xs| && xs[k].Piece? && xs[k].fragID == f :: xs[k].idx
  }

  /** A chunk may come again, but not once its message is complete. */
  predicate RepeatsOnlyBefore(parts: Catalogue, xs: seq<Item>) {
    forall k :: 0 <= k < |xs| && xs[k].Piece? && xs[k].fragID in parts ==>
                  Seen(xs[..k], xs[k].fragID) != Numbers(|parts[xs[k].fragID]|)
  }

  lemma SeenLast(xs: seq<Item>, f: string)
    requires xs != []
    ensures var x := xs[|xs| - 1];
      Seen(xs, f) == Seen(xs[..|xs| - 1], f) + if x.Piece? && x.fragID == f then {x.idx} else {}
  {
    var ys := xs[..|xs| - 1];
    assert forall k :: 0 <= k < |ys| ==> ys[k] == xs[k];
    forall i | i in Seen(xs, f)
      ensures i in Seen(ys, f) || (xs[|xs| - 1].Piece? && xs[|xs| - 1].fragID == f && i == xs[|xs| - 1].idx)
    {
      var k :| 0 <= k < |xs| && xs[k].Piece? && xs[k].fragID == f && xs[k].idx == i;
      if k < |ys| {
        assert ys[k] == xs[k];
      }
    }
    forall i | i in Seen(ys, f)
      ensures i in Seen(xs, f)
    {
      var k :| 0 <= k < |ys| && ys[k].Piece? && ys[k].fragID == f && ys[k].idx == i;
      assert xs[k] == ys[k];
    }
  }

  /** Appended once if all the chunks of f came and otherwise not at all; what came of an incomplete
      message is kept. */
  predicate OnceComplete(parts: Catalogue, xs: seq<Item>, f: string)
    requires ValidItems(parts, xs) && f in parts
  {
    var complete := Seen(xs, f) == Numbers(|parts[f]|);
    && multiset(Expected(parts, xs))[Piece(f, 0)] == (if complete then 1 else 0)
    && Have(parts, xs, f) == (if complete then {} else Seen(xs, f))
  }

  lemma OneItemMore(parts: Catalogue, xs: seq<Item>, f: string)
    requires ValidCatalogue(parts) && xs != [] && ValidItems(parts, xs) && ValidItems(parts, xs[..|xs| - 1])
             && f in parts
    requires OnceComplete(parts, xs[..|xs| - 1], f)
    requires var x := xs[|xs| - 1];
      x.Piece? && x.fragID == f ==> Seen(xs[..|xs| - 1], f) != Numbers(|parts[f]|)
    ensures OnceComplete(parts, xs, f)
  {
    hide Seen, ValidItems, ValidItem, Expected;
    SeenLast(xs, f);
    LastItem(parts, xs);
    ExpectedMore(parts, xs, f);
  }

  lemma ExpectedMore(parts: Catalogue, xs: seq<Item>, f: string)
    requires xs != [] && ValidItems(parts, xs) && ValidItems(parts, xs[..|xs| - 1]) && ValidItem(parts, xs[|xs| - 1])
    ensures var ys, x := xs[..|xs| - 1], xs[|xs| - 1];
      multiset(Expected(parts, xs))[Piece(f, 0)]
      == multiset(Expected(parts, ys))[Piece(f, 0)] + if LastMissing(parts, ys, x) && x.fragID == f then 1 else 0
  {
    hide ValidItems, ValidItem, LastMissing;
    var ys, x := xs[..|xs| - 1], xs[|xs| - 1];
    var more := if x.Whole? then [x] else if LastMissing(parts, ys, x) then [Piece(x.fragID, 0)] else [];
    assert Expected(parts, xs) == Expected(parts, ys) + more;
    assert LastMissing(parts, ys, x) ==> x.Piece? by { OnlyPieces(parts, ys, x); }
  }

  lemma OnlyPieces(parts: Catalogue, xs: seq<Item>, x: Item)
    requires ValidItems(parts, xs) && ValidItem(parts, x)
    ensures LastMissing(parts, xs, x) ==> x.Piece?
  {
  }

  lemma LastItem(parts: Catalogue, xs: seq<Item>)
    requires xs != [] && ValidItems(parts, xs)
    ensures ValidItems(parts, xs[..|xs| - 1]) && ValidItem(parts, xs[|xs| - 1])
    ensures xs[|xs| - 1].Piece? ==> xs[|xs| - 1].idx != 0
  {
  }

  lemma RepeatsPart(parts: Catalogue, xs: seq<Item>)
    requires xs != [] && RepeatsOnlyBefore(parts, xs)
    ensures RepeatsOnlyBefore(parts, xs[..|xs| - 1])
    ensures var x := xs[|xs| - 1];
      x.Piece? && x.fragID in parts ==> Seen(xs[..|xs| - 1], x.fragID) != Numbers(|parts[x.fragID]|)
  {
    var ys := xs[..|xs| - 1];
    forall k | 0 <= k < |ys| && ys[k].Piece? && ys[k].fragID in parts
      ensures Seen(ys[..k], ys[k].fragID) != Numbers(|parts[ys[k].fragID]|)
    {
      assert xs[k] == ys[k] && xs[..k] == ys[..k];
    }
  }

  /** Each fragmented message is appended once if all its chunks came and never otherwise, and the
      incomplete ones keep exactly what came. */
  lemma {:induction false} AppendedOnce(parts: Catalogue, xs: seq<Item>, f: string)
    requires ValidCatalogue(parts) && ValidItems(parts, xs) && f in parts
    requires RepeatsOnlyBefore(parts, xs)
    ensures var complete := Seen(xs, f) == Numbers(|parts[f]|);
      && multiset(Expected(parts, xs))[Piece(f, 0)] == (if complete then 1 else 0)
      && Have(parts, xs, f) == (if complete then {} else Seen(xs, f))
  {
    if xs == [] {
      assert Seen(xs, f) == {};
      assert 1 in Numbers(|parts[f]|);
    } else {
      hide Seen, Expected, Have, ValidItems, RepeatsOnlyBefore, Numbers;
      LastItem(parts, xs);
      RepeatsPart(parts, xs);
      AppendedOnce(parts, xs[..|xs| - 1], f);
      OneItemMore(parts, xs, f);
    }
  }
}
