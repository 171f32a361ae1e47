/**
 Duplicate suppression with time: MsgIDs are remembered when they pass and forgotten by a sweep once
 they are more than thirty seconds old.
 */
module Replay {

  /** Clocks count nanoseconds. */
  const SECOND := 1_000_000_000

  const TTL := 30 * SECOND

  type Seen = map<string, int>

  /** A RELAY or FINAL layer arrives, or the sweep runs from one clock reading to another and leaves
      some entries. */
  datatype Event = Arrive(id: string, now: int) | Sweep(begin: int, end: int, left: Seen)

  /** The sweep reads the clock once per entry, somewhere between its begin and its end. */
  predicate Swept(before: Seen, left: Seen, begin: int, end: int) {
    && left.Keys <= before.Keys
    && forall id :: id in before ==>
         && (id in left ==> left[id] == before[id])
         && (begin - before[id] > TTL ==> id !in left)
         && (end - before[id] <= TTL ==> id in left)
  }

  function After(seen: Seen, e: Event): Seen {
    match e
    case Arrive(id, now) => if id in seen then seen else seen[id := now]
    case Sweep(_, _, left) => left
  }

  /** SeenMsgs after the first k events. */
  function SeenAt(es: seq<Event>, k: nat): Seen
    requires k <= |es|
  {
    if k == 0 then map[] else After(SeenAt(es, k - 1), es[k - 1])
  }

  function Begin(e: Event): int {
    if e.Arrive? then e.now else e.begin
  }

  function End(e: Event): int {
    if e.Arrive? then e.now else e.end
  }

  /** Time does not run backward, and every sweep does what the sweep does. */
  predicate ValidHistory(es: seq<Event>) {
    && (forall k :: 0 <= k < |es| ==> Begin(es[k]) <= End(es[k]))
    && (forall i, k :: 0 <= i < k < |es| ==> End(es[i]) <= Begin(es[k]))
    && (forall k {:trigger SweptAt(es, k)} :: 0 <= k < |es| ==> SweptAt(es, k))
  }

  predicate SweptAt(es: seq<Event>, k: nat)
    requires k < |es|
  {
    es[k].Sweep? ==> Swept(SeenAt(es, k), es[k].left, es[k].begin, es[k].end)
  }

  /** Event k is an arrival that is not dropped. */
  predicate Passes(es: seq<Event>, k: nat, id: string)
    requires k < |es|
  {
    es[k].Arrive? && es[k].id == id && id !in SeenAt(es, k)
  }

  /** What passed at event i is remembered with its time until thirty seconds are over. */
  lemma {:induction false} Remembered(es: seq<Event>, i: nat, k: nat, id: string)
    requires ValidHistory(es) && i < k <= |es| && Passes(es, i, id)
    ensures (id in SeenAt(es, k) && SeenAt(es, k)[id] >= es[i].now) || End(es[k - 1]) - es[i].now > 30_000_000_000
    decreases k
  {
    if i < k - 1 {
      Remembered(es, i, k - 1, id);
      assert End(es[k - 2]) <= Begin(es[k - 1]) <= End(es[k - 1]);
      assert SweptAt(es, k - 1);
    }
  }

  /** Two passages of one MsgID at one node are more than thirty seconds apart. */
  lemma PassagesApart(es: seq<Event>, i: nat, j: nat, id: string)
    requires ValidHistory(es) && i < j < |es| && Passes(es, i, id) && Passes(es, j, id)
    ensures es[j].now - es[i].now > 30_000_000_000
  {
    Remembered(es, i, j, id);
  }

  /** The id of event k if it passes. */
  function PassedAt(es: seq<Event>, k: nat): set<string>
    requires k < |es|
  {
    if es[k].Arrive? && es[k].id !in SeenAt(es, k) then {es[k].id} else {}
  }

  /** Everything that ever passed, before event k. */
  function History(es: seq<Event>, k: nat): set<string>
    requires k <= |es|
  {
    if k == 0 then {} else History(es, k - 1) + PassedAt(es, k - 1)
  }

  /** What passed within thirty seconds before `now`. */
  predicate Recent(es: seq<Event>, k: nat, now: int, id: string)
    requires k <= |es|
  {
    exists i :: 0 <= i < k && Passes(es, i, id) && now - es[i].now <= TTL
  }

  lemma {:induction false} InHistory(es: seq<Event>, k: nat, id: string)
    requires k <= |es|
    ensures id in History(es, k) <==> exists i :: 0 <= i < k && Passes(es, i, id)
  {
    if k > 0 {
      InHistory(es, k - 1, id);
      assert id in PassedAt(es, k - 1) <==> Passes(es, k - 1, id);
    }
  }

  lemma {:induction false} SeenPassed(es: seq<Event>, k: nat)
    requires ValidHistory(es) && k <= |es|
    ensures SeenAt(es, k).Keys <= History(es, k)
  {
    if k > 0 {
      SeenPassed(es, k - 1);
      assert SweptAt(es, k - 1);
    }
  }

  /** The map lies between the last thirty seconds and the full history: on any run that is not
      longer than thirty seconds it decides exactly as the full history would. */
  lemma WindowAgrees(es: seq<Event>, k: nat)
    requires ValidHistory(es) && 0 < k <= |es|
    ensures forall id :: Recent(es, k, End(es[k - 1]), id) ==> id in SeenAt(es, k)
    ensures SeenAt(es, k).Keys <= History(es, k)
    ensures End(es[k - 1]) - Begin(es[0]) <= 30_000_000_000 ==> SeenAt(es, k).Keys == History(es, k)
  {
    SeenPassed(es, k);
    var now := End(es[k - 1]);
    forall id | Recent(es, k, now, id)
      ensures id in SeenAt(es, k)
    {
      var i :| 0 <= i < k && Passes(es, i, id) && now - es[i].now <= TTL;
      Remembered(es, i, k, id);
    }
    if now - Begin(es[0]) <= 30_000_000_000 {
      forall id | id in History(es, k)
        ensures Recent(es, k, now, id)
      {
        InHistory(es, k, id);
        var i :| 0 <= i < k && Passes(es, i, id);
        assert i == 0 || End(es[0]) <= Begin(es[i]);
        assert Begin(es[0]) <= End(es[0]);
      }
    }
  }

  /** An entry after an event was there before with the same time, or has just been made. */
  lemma EntryFrom(seen: Seen, e: Event, id: string)
    requires e.Sweep? ==> Swept(seen, e.left, e.begin, e.end)
    requires id in After(seen, e)
    ensures (id in seen && After(seen, e)[id] == seen[id]) || (e.Arrive? && After(seen, e)[id] == e.now)
  {
  }

  lemma SweptEntry(seen: Seen, e: Event, id: string)
    requires e.Sweep? && Swept(seen, e.left, e.begin, e.end) && id in After(seen, e)
    ensures e.begin - After(seen, e)[id] <= TTL
  {
    assert id in seen;
  }

  /** A sweep leaves nothing that was too old when it began, and nothing older comes in later: no
      entry outlives thirty seconds and one sweep interval. */
  lemma {:induction false} NothingOld(es: seq<Event>, k: nat, j: nat, id: string)
    requires ValidHistory(es) && k < j <= |es| && es[k].Sweep? && id in SeenAt(es, j)
    ensures es[k].begin - SeenAt(es, j)[id] <= 30_000_000_000
    decreases j
  {
    var seen, e := SeenAt(es, j - 1), es[j - 1];
    assert SeenAt(es, j) == After(seen, e) && SweptAt(es, j - 1);
    if k + 1 == j {
      SweptEntry(seen, e, id);
    } else {
      EntryFrom(seen, e, id);
      if id in seen && After(seen, e)[id] == seen[id] {
        NothingOld(es, k, j - 1, id);
      } else {
        assert Begin(es[k]) <= End(es[k]) <= Begin(es[j - 1]);
      }
    }
  }
}
