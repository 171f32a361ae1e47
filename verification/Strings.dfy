/**
 The few functions of Go's `strings` and `strconv` packages that the wire formats rest on,
 with the laws that make a printed record readable again.  A string is its sequence of bytes.
 */
module Strings {

  /** Position of the first `c` in `s`, or |s| when there is none. */
  function IndexOf(s: string, c: char): (i: nat)
    ensures i <= |s|
    ensures i < |s| ==> s[i] == c
    ensures forall k :: 0 <= k < i ==> s[k] != c
    ensures i == |s| <==> c !in s
  {
    if s == "" then 0 else if s[0] == c then 0 else 1 + IndexOf(s[1..], c)
  }

  /** strings.Split for a one-character separator. */
  function Split(s: string, c: char): (parts: seq<string>)
    ensures |parts| >= 1
  {
    var i := IndexOf(s, c);
    if i == |s| then [s] else [s[..i]] + Split(s[i + 1..], c)
  }

  /** strings.SplitN for a one-character separator and a positive limit. */
  function SplitN(s: string, c: char, n: nat): (parts: seq<string>)
    requires n >= 1
    ensures 1 <= |parts| <= n
    decreases n
  {
    var i := IndexOf(s, c);
    if n == 1 || i == |s| then [s] else [s[..i]] + SplitN(s[i + 1..], c, n - 1)
  }

  /** strings.Join. */
  function Join(parts: seq<string>, c: char): string {
    if |parts| == 0 then ""
    else if |parts| == 1 then parts[0]
    else parts[0] + [c] + Join(parts[1..], c)
  }

  lemma IndexOfPrefix(a: string, c: char, rest: string)
    requires c !in a
    ensures IndexOf(a + [c] + rest, c) == |a|
  {
    var s := a + [c] + rest;
    var i := IndexOf(s, c);
    assert s[|a|] == c;
    assert forall k :: 0 <= k < |a| ==> s[k] == a[k] && s[k] != c;
  }

  /** Splitting undoes joining on separator-free parts. */
  lemma {:induction false} SplitJoin(parts: seq<string>, c: char)
    requires |parts| >= 1
    requires forall p :: p in parts ==> c !in p
    ensures Split(Join(parts, c), c) == parts
  {
    if |parts| == 1 {
      assert parts[0] in parts;
    } else {
      var rest := Join(parts[1..], c);
      IndexOfPrefix(parts[0], c, rest);
      var s := Join(parts, c);
      assert s[..|parts[0]|] == parts[0];
      assert s[|parts[0]| + 1..] == rest;
      SplitJoin(parts[1..], c);
      assert parts == [parts[0]] + parts[1..];
    }
  }

  /** SplitN undoes joining when all parts but the last are separator-free. */
  lemma {:induction false} SplitNJoin(parts: seq<string>, c: char, n: nat)
    requires |parts| == n >= 1
    requires forall k :: 0 <= k < n - 1 ==> c !in parts[k]
    ensures SplitN(Join(parts, c), c, n) == parts
  {
    if n > 1 {
      var rest := Join(parts[1..], c);
      IndexOfPrefix(parts[0], c, rest);
      var s := Join(parts, c);
      assert s[..|parts[0]|] == parts[0];
      assert s[|parts[0]| + 1..] == rest;
      SplitNJoin(parts[1..], c, n - 1);
      assert parts == [parts[0]] + parts[1..];
    }
  }

  lemma CutAt(s: string, i: nat)
    requires i < |s|
    ensures s[..i] + [s[i]] + s[i + 1..] == s
  {
  }

  /** Every part but an n-th one is free of the separator. */
  predicate InnerFree(parts: seq<string>, c: char, n: nat) {
    forall k :: 0 <= k < |parts| && k < n - 1 ==> c !in parts[k]
  }

  /** Every part but an n-th one is separator-free, and joining the parts gives the string back. */
  lemma {:induction false} SplitNParts(s: string, c: char, n: nat)
    requires n >= 1
    ensures Join(SplitN(s, c, n), c) == s
    ensures InnerFree(SplitN(s, c, n), c, n)
    decreases n
  {
    hide Join, InnerFree;
    var i := IndexOf(s, c);
    if n == 1 || i == |s| {
      OnePart(s, c, n);
    } else {
      SplitNParts(s[i + 1..], c, n - 1);
      OneMorePart(s, c, n, i, SplitN(s[i + 1..], c, n - 1));
    }
  }

  lemma OnePart(s: string, c: char, n: nat)
    requires n == 1 || c !in s
    ensures Join([s], c) == s && InnerFree([s], c, n)
  {
  }

  lemma OneMorePart(s: string, c: char, n: nat, i: nat, tail: seq<string>)
    requires n > 1 && i < |s| && s[i] == c && c !in s[..i] && |tail| >= 1
    requires Join(tail, c) == s[i + 1..] && InnerFree(tail, c, n - 1)
    ensures Join([s[..i]] + tail, c) == s && InnerFree([s[..i]] + tail, c, n)
  {
    hide Join, InnerFree;
    InnerFreeCons(s[..i], tail, c, n);
    JoinCons(s[..i], tail, c);
    CutAt(s, i);
  }

  /** The first part and the rest, when the first part ends at the first separator. */
  lemma SplitNCons(head: string, tail: string, c: char, n: nat)
    requires c !in head && n > 1
    ensures SplitN(head + [c] + tail, c, n) == [head] + SplitN(tail, c, n - 1)
  {
    var s := head + [c] + tail;
    IndexOfPrefix(head, c, tail);
    assert s[..|head|] == head && s[|head| + 1..] == tail;
  }

  /** A text of no more parts than the limit is split into all of them. */
  lemma {:induction false} SplitNShort(parts: seq<string>, c: char, n: nat)
    requires 1 <= |parts| <= n && forall p :: p in parts ==> c !in p
    ensures SplitN(Join(parts, c), c, n) == parts
  {
    hide SplitN;
    assert parts[0] in parts;
    if |parts| > 1 {
      SplitNCons(parts[0], Join(parts[1..], c), c, n);
      SplitNShort(parts[1..], c, n - 1);
    } else {
      SplitNWhole(parts[0], c, n);
    }
  }

  lemma SplitNWhole(s: string, c: char, n: nat)
    requires n >= 1 && (n == 1 || c !in s)
    ensures SplitN(s, c, n) == [s]
  {
  }

  /** Every part counts, up to the limit. */
  lemma {:induction false} SplitNCount(parts: seq<string>, c: char, n: nat)
    requires 1 <= |parts| && 1 <= n && forall p :: p in parts ==> c !in p
    ensures |SplitN(Join(parts, c), c, n)| == if |parts| < n then |parts| else n
  {
    hide SplitN;
    assert parts[0] in parts;
    if |parts| > 1 && n > 1 {
      SplitNCons(parts[0], Join(parts[1..], c), c, n);
      SplitNCount(parts[1..], c, n - 1);
    } else {
      SplitNWhole(Join(parts, c), c, n);
    }
  }

  /** No part of a full split holds the separator. */
  lemma {:induction false} SplitFree(s: string, c: char)
    ensures forall p :: p in Split(s, c) ==> c !in p
    decreases |s|
  {
    var i := IndexOf(s, c);
    if i < |s| {
      SplitFree(s[i + 1..], c);
    }
  }

  /** A character that is not in the text is in none of its parts. */
  lemma {:induction false} SplitNFree(s: string, c: char, n: nat, d: char)
    requires n >= 1 && d !in s
    ensures forall p :: p in SplitN(s, c, n) ==> d !in p
    decreases n
  {
    var i := IndexOf(s, c);
    if n > 1 && i < |s| {
      SplitNFree(s[i + 1..], c, n - 1, d);
    }
  }

  lemma {:induction false} SplitCharFree(s: string, c: char, d: char)
    requires d !in s
    ensures forall p :: p in Split(s, c) ==> d !in p
    decreases |s|
  {
    var i := IndexOf(s, c);
    if i < |s| {
      SplitCharFree(s[i + 1..], c, d);
    }
  }

  lemma InnerFreeCons(a: string, tail: seq<string>, c: char, n: nat)
    requires n > 1 && c !in a && InnerFree(tail, c, n - 1)
    ensures InnerFree([a] + tail, c, n)
  {
    var parts := [a] + tail;
    forall k | 0 <= k < |parts| && k < n - 1
      ensures c !in parts[k]
    {
      if k > 0 {
        assert parts[k] == tail[k - 1];
      }
    }
  }

  lemma JoinCons(a: string, tail: seq<string>, c: char)
    requires |tail| >= 1
    ensures Join([a] + tail, c) == a + [c] + Join(tail, c)
  {
    assert ([a] + tail)[1..] == tail;
  }

  lemma JoinTwo(a: string, b: string, c: char)
    ensures Join([a, b], c) == a + [c] + b
  {
    assert [a, b][1..] == [b];
  }

  /** SplitN with limit 2 cuts at the first separator. */
  lemma SplitAtFirst(a: string, b: string, c: char)
    requires c !in a
    ensures SplitN(a + [c] + b, c, 2) == [a, b]
  {
    JoinTwo(a, b, c);
    SplitNJoin([a, b], c, 2);
  }

  // ---- decimal numbers --------------------------------------------------------------------

  predicate IsDigit(ch: char) {
    '0' <= ch <= '9'
  }

  function Digit(d: nat): (ch: char)
    requires d < 10
    ensures IsDigit(ch)
  {
    '0' + d as char
  }

  /** strconv.Itoa on natural numbers. */
  function Itoa(n: nat): (s: string)
    ensures |s| >= 1
    ensures forall k :: 0 <= k < |s| ==> IsDigit(s[k])
  {
    if n < 10 then [Digit(n)] else Itoa(n / 10) + [Digit(n % 10)]
  }

  function DigitValue(ch: char): nat
    requires IsDigit(ch)
  {
    ch as int - '0' as int
  }

  function DigitsValue(s: string): nat
    requires forall k :: 0 <= k < |s| ==> IsDigit(s[k])
  {
    if s == "" then 0 else 10 * DigitsValue(s[..|s| - 1]) + DigitValue(s[|s| - 1])
  }

  predicate HasOther(s: string) {
    exists k :: 0 <= k < |s| && !IsDigit(s[k])
  }

  /** strconv.Atoi with its error dropped, as the caller does: 0 on a syntax error. */
  function AtoiOrZero(s: string): int {
    var neg := |s| > 0 && s[0] == '-';
    var body := if |s| > 0 && (s[0] == '-' || s[0] == '+') then s[1..] else s;
    if body == "" || HasOther(body) then 0
    else if neg then 0 - DigitsValue(body) as int
    else DigitsValue(body)
  }

  /** strconv.Itoa and %d on any integer. */
  function Decimal(n: int): string {
    if n < 0 then "-" + Itoa(-n) else Itoa(n)
  }

  lemma DecimalFree(n: int, c: char)
    requires !IsDigit(c) && c != '-'
    ensures c !in Decimal(n)
  {
  }

  lemma {:induction false} DigitsValueItoa(n: nat)
    ensures DigitsValue(Itoa(n)) == n
  {
    if n < 10 {
      assert [Digit(n)][..0] == "";
    } else {
      DigitsValueItoa(n / 10);
      var s := Itoa(n);
      assert s[..|s| - 1] == Itoa(n / 10);
    }
  }

  lemma AtoiItoa(n: nat)
    ensures AtoiOrZero(Itoa(n)) == n
  {
    DigitsValueItoa(n);
    assert IsDigit(Itoa(n)[0]);
  }

  /** Whatever %d prints is read back, signs included. */
  lemma AtoiDecimal(n: int)
    ensures AtoiOrZero(Decimal(n)) == n
  {
    if n < 0 {
      DigitsValueItoa(-n);
      assert Decimal(n)[1..] == Itoa(-n);
    } else {
      AtoiItoa(n);
    }
  }

  /** What is not a number reads as zero: nothing but a sign, or a character that is no digit. */
  lemma AtoiUnreadable(s: string)
    requires |s| <= 1 || HasOther(s[1..]) || s[0] !in "-+"
    requires s == "" || HasOther(s)
    ensures AtoiOrZero(s) == 0
  {
  }

  /** Digits stand in the usual order, the most significant first. */
  lemma ItoaDigits()
    ensures Itoa(0) == "0" && Itoa(9) == "9" && Itoa(120) == "120" && Decimal(-45) == "-45"
  {
    assert Itoa(1) == "1" && Itoa(12) == "12" && Itoa(4) == "4" && Itoa(45) == "45";
  }

  /** A printed number contains none of the separators of the wire formats. */
  lemma ItoaFree(n: nat, c: char)
    requires !IsDigit(c)
    ensures c !in Itoa(n)
  {
  }
}
