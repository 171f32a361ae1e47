/**
 The directory's availability score: every ten seconds the directory dials the nodes of its table,
 halves the score of one that does not answer, evicts it below five, and otherwise adds five up to a
 hundred.
 */
module Directory {
  import opened Wrappers

  const SCORE_MIN := 5
  const SCORE_STEP := 5
  const SCORE_MAX := 100

  /** A node of the table, seen by its name. */
  datatype Row = Row(name: string, score: int)

  /** Integer division by two, rounding toward zero. */
  function Halved(s: int): int {
    if s >= 0 then s / 2 else -((-s) / 2)
  }

  /** The score after one ping; None when the node is evicted. */
  function Pinged(s: int, answered: bool): Option<int> {
    if answered then Some(if s < SCORE_MAX then (if s + SCORE_STEP < SCORE_MAX then s + SCORE_STEP else SCORE_MAX)
                          else s)
    else if Halved(s) < SCORE_MIN then None
    else Some(Halved(s))
  }

  /** The score after a history of pings; an evicted node is not pinged again. */
  function Scored(s: int, pings: seq<bool>): Option<int> {
    if pings == [] then Some(s)
    else
      var before := Scored(s, pings[..|pings| - 1]);
      if before.None? then None else Pinged(before.value, pings[|pings| - 1])
  }

  predicate TwoFailuresRunning(pings: seq<bool>) {
    exists k :: 0 <= k < |pings| - 1 && !pings[k] && !pings[k + 1]
  }

  /** A node registered with a score from 10 on survives every history without two failures in a row,
      with a score from 5 on and from 10 while its last ping was answered, and never above 100 unless
      it claimed that itself. */
  lemma {:induction false} NeverEvictedAtOnce(s: int, pings: seq<bool>)
    requires 10 <= s && !TwoFailuresRunning(pings)
    ensures Scored(s, pings).Some?
    ensures SCORE_MIN <= Scored(s, pings).value && (Scored(s, pings).value <= SCORE_MAX || Scored(s, pings).value <= s)
    ensures pings == [] || pings[|pings| - 1] ==> Scored(s, pings).value >= 10
  {
    if pings != [] {
      var before := pings[..|pings| - 1];
      forall k | 0 <= k < |before| - 1
        ensures before[k] || before[k + 1]
      {
        assert pings[k] || pings[k + 1];
      }
      NeverEvictedAtOnce(s, before);
      if before != [] && !pings[|pings| - 1] {
        assert pings[|pings| - 2];
      }
    }
  }

  /** While a node is in the table its score stays from 5 to 100, whatever the pings. */
  lemma {:induction false} ScoreInRange(s: int, pings: seq<bool>)
    requires SCORE_MIN <= s <= SCORE_MAX && Scored(s, pings).Some?
    ensures SCORE_MIN <= Scored(s, pings).value <= SCORE_MAX
  {
    if pings != [] {
      ScoreInRange(s, pings[..|pings| - 1]);
    }
  }

  function Power(k: nat): (p: nat)
    ensures p >= 1
  {
    if k == 0 then 1 else 2 * Power(k - 1)
  }

  function Failures(k: nat): (pings: seq<bool>)
    ensures |pings| == k
  {
    seq(k, i => false)
  }

  /** After k failures the score has been divided by 2^k, rounding down. */
  lemma {:induction false} FailuresLeave(s: int, k: nat)
    requires s >= SCORE_MIN * Power(k)
    ensures Scored(s, Failures(k)).Some?
    ensures var v := Scored(s, Failures(k)).value; v * Power(k) <= s < (v + 1) * Power(k)
  {
    if k > 0 {
      FailuresLeave(s, k - 1);
      assert Failures(k)[..k - 1] == Failures(k - 1);
      HalfOf(s, Scored(s, Failures(k - 1)).value, Power(k - 1));
    }
  }

  lemma HalfOf(s: int, v: int, p: nat)
    requires p >= 1 && v * p <= s < (v + 1) * p
    ensures v >= 10 <==> s >= 10 * p
    ensures v / 2 * (2 * p) <= s < (v / 2 + 1) * (2 * p)
  {
    var h, e := v / 2, v % 2;
    assert v == 2 * h + e;
    assert h * (2 * p) == v * p - e * p;
    assert 0 <= e * p <= p;
    if v >= 10 {
      assert v * p >= 10 * p;
    } else {
      assert (v + 1) * p <= 10 * p;
    }
  }

  lemma {:induction false} EvictedStays(s: int, pings: seq<bool>, k: nat)
    requires k <= |pings| && Scored(s, pings[..k]).None?
    ensures Scored(s, pings).None?
    decreases |pings| - k
  {
    if k == |pings| {
      assert pings[..k] == pings;
    } else {
      assert pings[..k + 1][..k] == pings[..k];
      EvictedStays(s, pings, k + 1);
    }
  }

  /** k >= 1 failures in a row evict a node exactly when its score is below 5 * 2^k. */
  lemma {:induction false} FailuresEvict(s: int, k: nat)
    requires k >= 1
    ensures Scored(s, Failures(k)).None? <==> s < SCORE_MIN * Power(k)
  {
    if s >= SCORE_MIN * Power(k) {
      FailuresLeave(s, k);
    } else if k == 1 {
      assert Failures(1)[..0] == [];
      assert Scored(s, []) == Some(s);
      assert Power(1) == 2 * Power(0) == 2;
    } else {
      assert Failures(k)[..k - 1] == Failures(k - 1);
      if s < SCORE_MIN * Power(k - 1) {
        FailuresEvict(s, k - 1);
      } else {
        FailuresLeave(s, k - 1);
        HalfOf(s, Scored(s, Failures(k - 1)).value, Power(k - 1));
      }
    }
  }

  function Successes(k: nat): (pings: seq<bool>)
    ensures |pings| == k
  {
    seq(k, i => true)
  }

  /** k answered pings in a row raise a score below 100 by 5 each, up to 100, and leave any other alone. */
  lemma {:induction false} SuccessesRaise(s: int, k: nat)
    ensures Scored(s, Successes(k)) == Some(if s >= 100 then s else if s + 5 * k < 100 then s + 5 * k else 100)
  {
    if k > 0 {
      SuccessesRaise(s, k - 1);
      assert Successes(k)[..k - 1] == Successes(k - 1);
    }
  }

  /** One missed ping halves a score from 10 on, rounding down, and evicts a node below 10. */
  lemma FailureHalves(s: int)
    ensures Scored(s, [false]) == if s < 10 then None else Some(s / 2)
  {
    assert Scored(s, [false][..0]) == Some(s);
  }

  // ---- the table ---------------------------------------------------------------------------

  /** The scores of all rows of a name, in table order; nothing keeps two nodes from registering with
      the same name. */
  function Scores(rows: seq<Row>, name: string): seq<int> {
    if rows == [] then [] else (if rows[0].name == name then [rows[0].score] else []) + Scores(rows[1..], name)
  }

  /** DELETE ... WHERE name = ? */
  function Without(rows: seq<Row>, name: string): seq<Row> {
    if rows == [] then [] else (if rows[0].name == name then [] else [rows[0]]) + Without(rows[1..], name)
  }

  /** UPDATE ... SET availability_score = ? WHERE name = ? */
  function WithScore(rows: seq<Row>, name: string, score: int): (r: seq<Row>)
    ensures |r| == |rows|
    ensures forall i :: 0 <= i < |rows| ==> r[i] == if rows[i].name == name then Row(name, score) else rows[i]
  {
    if rows == [] then []
    else [if rows[0].name == name then Row(name, score) else rows[0]] + WithScore(rows[1..], name, score)
  }

  function Alike(score: int, k: nat): (scores: seq<int>)
    ensures |scores| == k
  {
    seq(k, i => score)
  }

  lemma {:induction false} AddedScore(rows: seq<Row>, row: Row, name: string)
    ensures Scores(rows + [row], name) == Scores(rows, name) + if row.name == name then [row.score] else []
  {
    if rows == [] {
      assert Scores([row][1..], name) == [];
    } else {
      assert (rows + [row])[1..] == rows[1..] + [row];
      AddedScore(rows[1..], row, name);
    }
  }

  lemma {:induction false} WithoutScore(rows: seq<Row>, name: string, other: string)
    ensures Scores(Without(rows, name), other) == if other == name then [] else Scores(rows, other)
  {
    if rows != [] {
      WithoutScore(rows[1..], name, other);
      var rest := Without(rows[1..], name);
      if rows[0].name != name {
        assert ([rows[0]] + rest)[1..] == rest;
      } else {
        assert [] + rest == rest;
        assert [] + Scores(rows[1..], other) == Scores(rows[1..], other);
      }
    }
  }

  lemma {:induction false} WithScoreScore(rows: seq<Row>, name: string, score: int, other: string)
    ensures Scores(WithScore(rows, name, score), other) == if other == name then Alike(score, |Scores(rows, name)|)
            else Scores(rows, other)
  {
    if rows != [] {
      WithScoreScore(rows[1..], name, score, other);
      assert WithScore(rows, name, score)[1..] == WithScore(rows[1..], name, score);
      if other == name && rows[0].name == name {
        assert [score] + Alike(score, |Scores(rows[1..], name)|) == Alike(score, |Scores(rows, name)|);
      }
    }
  }

  /** A row as it was read for a tick, and whether its node then answered. */
  datatype Probe = Probe(row: Row, answered: bool)

  /** What one ping makes of the rows of its name: they all take the new score, or all go; a node that
      answers and has the full score changes nothing. */
  function PingedAll(scores: seq<int>, p: Probe): seq<int> {
    if p.answered && p.row.score >= SCORE_MAX then scores
    else
      match Pinged(p.row.score, p.answered)
      case None => []
      case Some(score) => Alike(score, |scores|)
  }

  function PingedBy(scores: seq<int>, probes: seq<Probe>): seq<int> {
    if probes == [] then scores else PingedAll(PingedBy(scores, probes[..|probes| - 1]), probes[|probes| - 1])
  }

  function ProbesOf(probes: seq<Probe>, name: string): seq<Probe> {
    if probes == [] then []
    else
      var p := probes[|probes| - 1];
      ProbesOf(probes[..|probes| - 1], name) + if p.row.name == name then [p] else []
  }

  /** One tick: every name goes through the pings of its own rows, and through no other. */
  ghost predicate Ticked(before: seq<Row>, after: seq<Row>, probes: seq<Probe>) {
    forall name :: Scores(after, name) == PingedBy(Scores(before, name), ProbesOf(probes, name))
  }

  /** The tick goes on to the next row of the sample. */
  lemma TickMore(start: seq<Row>, before: seq<Row>, after: seq<Row>, probes: seq<Probe>, i: nat)
    requires i < |probes| && Ticked(start, before, probes[..i])
    requires forall name :: Scores(after, name)
                            == if name == probes[i].row.name then PingedAll(Scores(before, name), probes[i])
                              else Scores(before, name)
    ensures Ticked(start, after, probes[..i + 1])
  {
    assert probes[..i + 1][..i] == probes[..i];
    forall name
      ensures Scores(after, name) == PingedBy(Scores(start, name), ProbesOf(probes[..i + 1], name))
    {
      var own := ProbesOf(probes[..i], name);
      assert own + [] == own;
      assert (own + [probes[i]])[..|own|] == own;
    }
  }

  // ---- many ticks --------------------------------------------------------------------------

  function RowsOf(probes: seq<Probe>): (rows: seq<Row>)
    ensures |rows| == |probes|
  {
    seq(|probes|, i requires 0 <= i < |probes| => probes[i].row)
  }

  /** The sample holds rows of the table, each at most once; it may be all of them. */
  ghost predicate DrawnFrom(probes: seq<Probe>, rows: seq<Row>) {
    multiset(RowsOf(probes)) <= multiset(rows)
  }

  function ProbedScores(probes: seq<Probe>): (scores: seq<int>)
    ensures |scores| == |probes|
  {
    seq(|probes|, i requires 0 <= i < |probes| => probes[i].row.score)
  }

  lemma {:induction false} ScoresCount(rows: seq<Row>, name: string, v: int)
    ensures multiset(Scores(rows, name))[v] == multiset(rows)[Row(name, v)]
  {
    if rows != [] {
      ScoresCount(rows[1..], name, v);
      assert rows == [rows[0]] + rows[1..];
    }
  }

  lemma {:induction false} ProbesCount(probes: seq<Probe>, name: string, v: int)
    ensures multiset(ProbedScores(ProbesOf(probes, name)))[v] == multiset(RowsOf(probes))[Row(name, v)]
  {
    if probes != [] {
      var before, p := probes[..|probes| - 1], probes[|probes| - 1];
      ProbesCount(before, name, v);
      assert RowsOf(probes) == RowsOf(before) + [p.row];
      var own := ProbesOf(before, name);
      assert ProbedScores(own + [p]) == ProbedScores(own) + [p.row.score];
      assert own + [] == own;
    }
  }

  /** A name with one row is pinged at most once a tick, with the score it has. */
  lemma SinglyProbed(probes: seq<Probe>, rows: seq<Row>, name: string)
    requires DrawnFrom(probes, rows) && |Scores(rows, name)| <= 1
    ensures var own := ProbesOf(probes, name);
      own == [] || (|own| == 1 && Scores(rows, name) == [own[0].row.score])
  {
    var own, scores := ProbesOf(probes, name), Scores(rows, name);
    forall v
      ensures multiset(ProbedScores(own))[v] <= multiset(scores)[v]
    {
      ProbesCount(probes, name, v);
      ScoresCount(rows, name, v);
    }
    FewerScores(ProbedScores(own), scores);
  }

  lemma FewerScores(probed: seq<int>, scores: seq<int>)
    requires |scores| <= 1 && multiset(probed) <= multiset(scores)
    ensures probed == [] || (|probed| == 1 && scores == probed)
  {
    if probed != [] {
      TwoCounts(probed);
      assert multiset(scores)[probed[0]] >= 1;
      assert scores == [probed[0]];
    }
  }

  lemma TwoCounts(scores: seq<int>)
    requires scores != []
    ensures multiset(scores)[scores[0]] >= 1
    ensures |scores| > 1 ==>
              multiset(scores)[scores[1]] >= 1 && (scores[0] == scores[1] ==> multiset(scores)[scores[0]] >= 2)
  {
    assert scores == [scores[0]] + scores[1..];
    assert |scores| > 1 ==> scores[1] in scores[1..];
  }

  /** The pings a name got in the first k ticks. */
  function PingsOf(ticks: seq<seq<Probe>>, name: string, k: nat): seq<bool>
    requires k <= |ticks|
  {
    if k == 0 then [] else PingsOf(ticks, name, k - 1) + Answers(ProbesOf(ticks[k - 1], name))
  }

  function Answers(probes: seq<Probe>): (answers: seq<bool>)
    ensures |answers| == |probes|
  {
    seq(|probes|, i requires 0 <= i < |probes| => probes[i].answered)
  }

  ghost predicate TickRun(tables: seq<seq<Row>>, ticks: seq<seq<Probe>>) {
    && |tables| == |ticks| + 1
    && forall k :: 0 <= k < |ticks| ==> DrawnFrom(ticks[k], tables[k]) && Ticked(tables[k], tables[k + 1], ticks[k])
  }

  /** One row with the score, or none for an evicted node. */
  function Lone(score: Option<int>): seq<int> {
    if score.None? then [] else [score.value]
  }

  lemma PingedOnce(s: Option<int>, own: seq<Probe>, pings: seq<bool>, first: int)
    requires s == Scored(first, pings)
    requires own == [] || (|own| == 1 && Lone(s) == [own[0].row.score])
    ensures PingedBy(Lone(s), own) == Lone(Scored(first, pings + Answers(own)))
  {
    if own == [] {
      assert pings + Answers(own) == pings;
    } else {
      assert (pings + Answers(own))[..|pings|] == pings;
      assert PingedBy(Lone(s), own[..0]) == Lone(s);
    }
  }

  /** Every node with a name of its own goes its own way: its score is what its own pings made of it,
      whatever the other rows are. */
  lemma {:induction false} TableFollowsPings(tables: seq<seq<Row>>, ticks: seq<seq<Probe>>, name: string, k: nat)
    requires TickRun(tables, ticks) && k <= |ticks| && |Scores(tables[0], name)| == 1
    ensures Scores(tables[k], name) == Lone(Scored(Scores(tables[0], name)[0], PingsOf(ticks, name, k)))
  {
    if k > 0 {
      TableFollowsPings(tables, ticks, name, k - 1);
      assert DrawnFrom(ticks[k - 1], tables[k - 1]) && Ticked(tables[k - 1], tables[k], ticks[k - 1]);
      SinglyProbed(ticks[k - 1], tables[k - 1], name);
      var first, pings := Scores(tables[0], name)[0], PingsOf(ticks, name, k - 1);
      PingedOnce(Scored(first, pings), ProbesOf(ticks[k - 1], name), pings, first);
    }
  }

  /** So a node with a name of its own that answers whenever it is pinged gains 5 with every ping, up to 100. */
  lemma TableRaises(tables: seq<seq<Row>>, ticks: seq<seq<Probe>>, name: string, k: nat)
    requires TickRun(tables, ticks) && k <= |ticks| && |Scores(tables[0], name)| == 1
    requires forall p :: p in PingsOf(ticks, name, k) ==> p
    ensures var s, n := Scores(tables[0], name)[0], |PingsOf(ticks, name, k)|;
      Scores(tables[k], name) == [if s >= 100 then s else if s + 5 * n < 100 then s + 5 * n else 100]
  {
    var pings := PingsOf(ticks, name, k);
    assert pings == Successes(|pings|) by {
      forall i | 0 <= i < |pings|
        ensures pings[i]
      {
        assert pings[i] in pings;
      }
    }
    TableFollowsPings(tables, ticks, name, k);
    SuccessesRaise(Scores(tables[0], name)[0], |pings|);
  }

  /** So no table run evicts a node with a name of its own, registered from 10 on, that never missed
      two pings in a row. */
  lemma NoSuddenEviction(tables: seq<seq<Row>>, ticks: seq<seq<Probe>>, name: string, k: nat)
    requires TickRun(tables, ticks) && k <= |ticks|
    requires |Scores(tables[0], name)| == 1 && 10 <= Scores(tables[0], name)[0]
    requires !TwoFailuresRunning(PingsOf(ticks, name, k))
    ensures |Scores(tables[k], name)| == 1 && SCORE_MIN <= Scores(tables[k], name)[0]
    ensures Scores(tables[0], name)[0] <= SCORE_MAX ==> Scores(tables[k], name)[0] <= SCORE_MAX
  {
    TableFollowsPings(tables, ticks, name, k);
    NeverEvictedAtOnce(Scores(tables[0], name)[0], PingsOf(ticks, name, k));
  }

  // ---- shared names ------------------------------------------------------------------------

  /** No run of ticks in which the name never missed two pings in a row removes its last row. */
  ghost predicate AlwaysKept(rows: seq<Row>, name: string) {
    forall tables, ticks, k: nat ::
      TickRun(tables, ticks) && tables[0] == rows && k <= |ticks| && !TwoFailuresRunning(PingsOf(ticks, name, k)) ==>
        Scores(tables[k], name) != []
  }

  /** In every tick row i answers and row j does not. */
  ghost predicate OneOfTwo(tables: seq<seq<Row>>, ticks: seq<seq<Probe>>, i: nat, j: nat) {
    forall k :: 0 <= k < |ticks| && k < |tables| ==>
      i < |tables[k]| && j < |tables[k]| && ticks[k] == [Probe(tables[k][i], true), Probe(tables[k][j], false)]
  }

  predicate SameName(rows: seq<Row>, name: string, i: nat, j: nat) {
    i < j < |rows| && rows[i].name == name && rows[j].name == name
  }

  lemma {:induction false} TwoOfName(rows: seq<Row>, name: string) returns (i: nat, j: nat)
    requires |Scores(rows, name)| >= 2
    ensures SameName(rows, name, i, j)
  {
    if rows[0].name == name {
      i, j := 0, 1 + OneOfName(rows[1..], name);
    } else {
      i, j := TwoOfName(rows[1..], name);
      i, j := i + 1, j + 1;
    }
  }

  function OneOfName(rows: seq<Row>, name: string): (i: nat)
    requires Scores(rows, name) != []
    ensures i < |rows| && rows[i].name == name
  {
    if rows[0].name == name then 0 else 1 + OneOfName(rows[1..], name)
  }

  /** The rows after one ping. */
  function RowsAfter(rows: seq<Row>, p: Probe): seq<Row> {
    if p.answered && p.row.score >= SCORE_MAX then rows
    else
      match Pinged(p.row.score, p.answered)
      case None => Without(rows, p.row.name)
      case Some(score) => WithScore(rows, p.row.name, score)
  }

  lemma RowsAfterScores(rows: seq<Row>, p: Probe, name: string)
    ensures Scores(RowsAfter(rows, p), name) == if name == p.row.name then PingedAll(Scores(rows, name), p)
            else Scores(rows, name)
  {
    WithoutScore(rows, p.row.name, name);
    if Pinged(p.row.score, p.answered).Some? {
      WithScoreScore(rows, p.row.name, Pinged(p.row.score, p.answered).value, name);
    }
  }

  /** One tick of two pings. */
  lemma TickOfTwo(rows: seq<Row>, p: Probe, q: Probe)
    ensures Ticked(rows, RowsAfter(RowsAfter(rows, p), q), [p, q])
  {
    hide RowsAfter, PingedAll, Scores;
    var probes := [p, q];
    var between := RowsAfter(rows, p);
    RowsAfterAll(rows, p);
    RowsAfterAll(between, q);
    assert probes[..0] == [] && Ticked(rows, rows, []);
    TickMore(rows, rows, between, probes, 0);
    TickMore(rows, between, RowsAfter(between, q), probes, 1);
    assert probes[..2] == probes;
  }

  lemma RowsAfterAll(rows: seq<Row>, p: Probe)
    ensures forall name :: Scores(RowsAfter(rows, p), name)
                           == if name == p.row.name then PingedAll(Scores(rows, name), p) else Scores(rows, name)
  {
    forall name
      ensures Scores(RowsAfter(rows, p), name) == if name == p.row.name then PingedAll(Scores(rows, name), p)
              else Scores(rows, name)
    {
      RowsAfterScores(rows, p, name);
    }
  }

  lemma TwoDrawn(rows: seq<Row>, i: nat, j: nat)
    requires i < j < |rows|
    ensures DrawnFrom([Probe(rows[i], true), Probe(rows[j], false)], rows)
  {
    assert RowsOf([Probe(rows[i], true), Probe(rows[j], false)]) == [rows[i]] + [rows[j]];
    assert rows == rows[..i] + [rows[i]] + rows[i + 1..j] + [rows[j]] + rows[j + 1..];
  }

  /** After such a tick all rows of the name have half the score of row j, or are gone. */
  lemma HalvedByTwo(rows: seq<Row>, name: string, i: nat, j: nat)
    requires SameName(rows, name, i, j)
    ensures var after := RowsAfter(RowsAfter(rows, Probe(rows[i], true)), Probe(rows[j], false));
      if Halved(rows[j].score) < SCORE_MIN then Scores(after, name) == []
      else SameName(after, name, i, j) && after[j].score == Halved(rows[j].score) < rows[j].score
  {
    RowsAfterScores(RowsAfter(rows, Probe(rows[i], true)), Probe(rows[j], false), name);
  }

  /** Two rows of one name are both removed although one of them answers every ping. */
  lemma {:induction false} SharedEvicted(rows: seq<Row>, name: string, i: nat, j: nat)
    returns (tables: seq<seq<Row>>, ticks: seq<seq<Probe>>)
    requires SameName(rows, name, i, j)
    ensures TickRun(tables, ticks) && tables[0] == rows && OneOfTwo(tables, ticks, i, j)
    ensures forall k :: 0 <= k < |ticks| ==> ticks[k][0].row.name == name && ticks[k][1].row.name == name
    ensures Scores(tables[|ticks|], name) == []
    decreases if rows[j].score < 0 then 0 else rows[j].score
  {
    hide RowsAfter, Scores, DrawnFrom, Ticked;
    var p, q := Probe(rows[i], true), Probe(rows[j], false);
    var after := RowsAfter(RowsAfter(rows, p), q);
    TickOfTwo(rows, p, q);
    TwoDrawn(rows, i, j);
    HalvedByTwo(rows, name, i, j);
    if Halved(rows[j].score) < SCORE_MIN {
      tables, ticks := [rows, after], [[p, q]];
    } else {
      tables, ticks := SharedEvicted(after, name, i, j);
      OneTickMore(rows, [p, q], tables, ticks);
      tables, ticks := [rows] + tables, [[p, q]] + ticks;
    }
  }

  lemma OneTickMore(rows: seq<Row>, tick: seq<Probe>, tables: seq<seq<Row>>, ticks: seq<seq<Probe>>)
    requires TickRun(tables, ticks) && DrawnFrom(tick, rows) && Ticked(rows, tables[0], tick)
    ensures TickRun([rows] + tables, [tick] + ticks)
  {
    hide DrawnFrom, Ticked;
  }

  /** Pings of the name alternate, so it never misses two in a row. */
  lemma {:induction false} PingsAlternate(tables: seq<seq<Row>>, ticks: seq<seq<Probe>>, name: string, i: nat, j: nat,
                                          k: nat)
    requires |tables| == |ticks| + 1 && OneOfTwo(tables, ticks, i, j) && k <= |ticks|
    requires forall m :: 0 <= m < |ticks| ==> ticks[m][0].row.name == name && ticks[m][1].row.name == name
    ensures var pings := PingsOf(ticks, name, k);
      |pings| == 2 * k && forall m :: 0 <= m < 2 * k ==> (pings[m] <==> m % 2 == 0)
  {
    if k > 0 {
      PingsAlternate(tables, ticks, name, i, j, k - 1);
      TwoProbes(ticks[k - 1], name);
      assert Answers(ticks[k - 1]) == [true, false];
    }
  }

  /** A name of the table is safe from sudden eviction if and only if it has one row, with a score from
      10 on.  Nothing keeps names apart, and the score is what the node claimed. */
  lemma KeptExactly(rows: seq<Row>, name: string)
    requires Scores(rows, name) != []
    ensures AlwaysKept(rows, name) <==> |Scores(rows, name)| == 1 && Scores(rows, name)[0] >= 10
  {
    hide AlwaysKept, Scores;
    if |Scores(rows, name)| > 1 {
      SharedNotKept(rows, name);
    } else if Scores(rows, name)[0] < 10 {
      LowNotKept(rows, name);
    } else {
      KeptAlone(rows, name);
    }
  }

  lemma KeptAlone(rows: seq<Row>, name: string)
    requires |Scores(rows, name)| == 1 && 10 <= Scores(rows, name)[0]
    ensures AlwaysKept(rows, name)
  {
    hide Scores, DrawnFrom, Ticked, TwoFailuresRunning, PingsOf;
    forall tables, ticks, k: nat |
      TickRun(tables, ticks) && tables[0] == rows && k <= |ticks| && !TwoFailuresRunning(PingsOf(ticks, name, k))
      ensures Scores(tables[k], name) != []
    {
      NoSuddenEviction(tables, ticks, name, k);
    }
  }

  lemma SharedNotKept(rows: seq<Row>, name: string)
    requires |Scores(rows, name)| >= 2
    ensures !AlwaysKept(rows, name)
  {
    hide Scores, TickRun, OneOfTwo, PingsOf;
    var i, j := TwoOfName(rows, name);
    var tables, ticks := SharedEvicted(rows, name, i, j);
    RunSizes(tables, ticks);
    PingsAlternate(tables, ticks, name, i, j, |ticks|);
  }

  /** One missed ping removes a node below ten. */
  lemma LowNotKept(rows: seq<Row>, name: string)
    requires |Scores(rows, name)| == 1 && Scores(rows, name)[0] < 10
    ensures !AlwaysKept(rows, name)
  {
    hide Scores, TickRun, RowsAfter, PingsOf;
    var i := OneOfName(rows, name);
    var p := Probe(rows[i], false);
    OneDrawn(rows, i, false);
    TickOfOne(rows, p);
    LowGone(rows, name, i);
    var tables, ticks := [rows, RowsAfter(rows, p)], [[p]];
    OneTickRun(rows, RowsAfter(rows, p), [p]);
    OnePing(p, name);
    assert tables[0] == rows && Scores(tables[1], name) == [];
  }

  lemma OneTickRun(rows: seq<Row>, after: seq<Row>, tick: seq<Probe>)
    requires DrawnFrom(tick, rows) && Ticked(rows, after, tick)
    ensures TickRun([rows, after], [tick])
  {
    hide DrawnFrom, Ticked;
  }

  lemma OneDrawn(rows: seq<Row>, i: nat, answered: bool)
    requires i < |rows|
    ensures DrawnFrom([Probe(rows[i], answered)], rows)
  {
    assert RowsOf([Probe(rows[i], answered)]) == [rows[i]] && rows == rows[..i] + [rows[i]] + rows[i + 1..];
  }

  lemma TickOfOne(rows: seq<Row>, p: Probe)
    ensures Ticked(rows, RowsAfter(rows, p), [p])
  {
    hide RowsAfter, PingedAll, Scores;
    var probes := [p];
    RowsAfterAll(rows, p);
    assert probes[..0] == [] && Ticked(rows, rows, []) && probes[..1] == probes;
    TickMore(rows, rows, RowsAfter(rows, p), probes, 0);
  }

  lemma LowGone(rows: seq<Row>, name: string, i: nat)
    requires i < |rows| && rows[i].name == name && |Scores(rows, name)| == 1 && Scores(rows, name)[0] < 10
    ensures Scores(RowsAfter(rows, Probe(rows[i], false)), name) == []
  {
    hide Scores, RowsAfter;
    ScoreInRow(rows, name, i);
    RowsAfterScores(rows, Probe(rows[i], false), name);
  }

  lemma {:induction false} ScoreInRow(rows: seq<Row>, name: string, i: nat)
    requires i < |rows| && rows[i].name == name
    ensures rows[i].score in Scores(rows, name)
  {
    if i > 0 {
      ScoreInRow(rows[1..], name, i - 1);
    }
  }

  lemma OnePing(p: Probe, name: string)
    requires p.row.name == name
    ensures PingsOf([[p]], name, 1) == [p.answered] && !TwoFailuresRunning([p.answered])
  {
    assert ProbesOf([p][..0], name) == [];
    assert ProbesOf([p], name) == [p] && Answers([p]) == [p.answered];
    assert PingsOf([[p]], name, 0) == [];
  }

  lemma RunSizes(tables: seq<seq<Row>>, ticks: seq<seq<Probe>>)
    requires TickRun(tables, ticks)
    ensures |tables| == |ticks| + 1
  {
  }

  /** An instance: two ticks remove a node that answered both. */
  lemma SharedNameEvicted(name: string) returns (tables: seq<seq<Row>>, ticks: seq<seq<Probe>>)
    ensures TickRun(tables, ticks) && tables[0] == [Row(name, 100), Row(name, 10)]
    ensures OneOfTwo(tables, ticks, 0, 1) && |ticks| == 2
    ensures Scores(tables[2], name) == []
  {
    var start := [Row(name, 100), Row(name, 10)];
    var later := [Row(name, 5), Row(name, 5)];
    SharedTick(start, later);
    SharedTick(later, []);
    tables, ticks := [start, later, []], [[Probe(start[0], true), Probe(start[1], false)],
                                          [Probe(later[0], true), Probe(later[1], false)]];
  }

  lemma SharedTick(before: seq<Row>, after: seq<Row>)
    requires |before| == 2 && before[0].name == before[1].name
    requires after == if Halved(before[1].score) < SCORE_MIN then []
             else seq(2, _ => Row(before[0].name, Halved(before[1].score)))
    ensures DrawnFrom([Probe(before[0], true), Probe(before[1], false)], before)
    ensures Ticked(before, after, [Probe(before[0], true), Probe(before[1], false)])
  {
    var p, q := Probe(before[0], true), Probe(before[1], false);
    TickOfTwo(before, p, q);
    TwoDrawn(before, 0, 1);
    AfterTwo(RowsAfter(before, p), q);
  }

  lemma AfterTwo(rows: seq<Row>, q: Probe)
    requires |rows| == 2 && rows[0].name == rows[1].name == q.row.name && !q.answered
    ensures RowsAfter(rows, q)
         == if Halved(q.row.score) < SCORE_MIN then [] else seq(2, _ => Row(q.row.name, Halved(q.row.score)))
  {
    assert rows[1..][0] == rows[1] && Without(rows[1..][1..], q.row.name) == [];
    assert Without(rows[1..], q.row.name) == [];
  }

  lemma TwoProbes(probes: seq<Probe>, name: string)
    requires |probes| == 2 && probes[0].row.name == probes[1].row.name
    ensures ProbesOf(probes, name) == if probes[0].row.name == name then probes else []
    ensures forall scores :: PingedBy(scores, probes) == PingedAll(PingedAll(scores, probes[0]), probes[1])
  {
    assert ProbesOf(probes[..1][..0], name) == [];
    assert probes[..1] == [probes[0]];
    forall scores
      ensures PingedBy(scores, probes) == PingedAll(PingedAll(scores, probes[0]), probes[1])
    {
      assert PingedBy(scores, probes[..1][..0]) == scores;
    }
  }

  class DirectoryServer {
    var rows: seq<Row>

    constructor ()
      ensures rows == []
    {
      rows := [];
    }

    /** INIT, with the name and score the node claims: a further row, whether or not the name is taken. */
    method AddNode(name: string, score: int)
      modifies this
      ensures rows == old(rows) + [Row(name, score)]
      ensures forall other :: Scores(rows, other) == Scores(old(rows), other) + if other == name then [score] else []
    {
      ghost var before := rows;
      rows := rows + [Row(name, score)];
      forall other {
        AddedScore(before, Row(name, score), other);
      }
    }

    method RemoveNode(name: string)
      modifies this
      ensures rows == Without(old(rows), name)
    {
      rows := Without(rows, name);
    }

    method UpdateAvailabilityScore(name: string, score: int)
      modifies this
      ensures rows == WithScore(old(rows), name, score)
    {
      rows := WithScore(rows, name, score);
    }

    /** One tick of the ping loop over the rows just read. */
    method TestPing(probes: seq<Probe>)
      modifies this
      ensures Ticked(old(rows), rows, probes)
    {
      var i := 0;
      while i < |probes|
        invariant 0 <= i <= |probes|
        invariant Ticked(old(rows), rows, probes[..i])
      {
        ghost var before := rows;
        PingOne(probes[i]);
        TickMore(old(rows), before, rows, probes, i);
        i := i + 1;
      }
      assert probes[..i] == probes;
    }

    /** One row of the sample. */
    method PingOne(p: Probe)
      modifies this
      ensures rows == RowsAfter(old(rows), p)
      ensures forall name :: Scores(rows, name)
                             == if name == p.row.name then PingedAll(Scores(old(rows), name), p)
                               else Scores(old(rows), name)
    {
      hide Scores, PingedAll, Without, WithScore;
      ghost var before := rows;
      if !p.answered {
        var newScore := Halved(p.row.score);
        if newScore < SCORE_MIN {
          RemoveNode(p.row.name);
        } else {
          UpdateAvailabilityScore(p.row.name, newScore);
        }
      } else if p.row.score < SCORE_MAX {
        var newScore := if p.row.score + SCORE_STEP < SCORE_MAX then p.row.score + SCORE_STEP else SCORE_MAX;
        UpdateAvailabilityScore(p.row.name, newScore);
      }
      RowsAfterAll(before, p);
    }
  }
}
