/**
 Fairness of the worker's cursor. In runs without transport errors, pauses or revision changes the
 cursor moves past every job it tried, claimable or not, and wraps after an empty page; a job that stays
 in the feed is tried within a number of runs given by a measure, whatever else the feed does.
 */
module FeedSweep {
  import opened Options

  /** A feed row, ordered by (created_at, id). */
  datatype Key = Key(created: nat, id: nat)

  predicate Before(a: Key, b: Key) {
    a.created < b.created || (a.created == b.created && a.id < b.id)
  }

  predicate Beyond(cursor: Option<Key>, k: Key) {
    cursor.None? || Before(cursor.value, k)
  }

  predicate Sorted(rows: seq<Key>) {
    forall i, j | 0 <= i < j < |rows| :: Before(rows[i], rows[j])
  }

  const PAGE: nat := 20

  /** The rows of the feed after the cursor, in order: created later, or at the same time with a larger id. */
  function RowsAfter(rows: seq<Key>, cursor: Option<Key>): (rest: seq<Key>)
    ensures forall k :: k in rest <==>
              k in rows && (cursor.None? || cursor.value.created < k.created
                            || (cursor.value.created == k.created && cursor.value.id < k.id))
    ensures Sorted(rows) ==> Sorted(rest)
  {
    if rows == [] then []
    else if Beyond(cursor, rows[0]) then [rows[0]] + RowsAfter(rows[1..], cursor)
    else RowsAfter(rows[1..], cursor)
  }

  /** The feed endpoint answers with at most one page. */
  function Page(rows: seq<Key>, cursor: Option<Key>): (page: seq<Key>)
    ensures page <= RowsAfter(rows, cursor)
    ensures |page| < 20 ==> page == RowsAfter(rows, cursor)
    ensures |page| <= 20
  {
    var rest := RowsAfter(rows, cursor);
    if |rest| <= PAGE then rest else rest[..PAGE]
  }

  lemma PageIsOfRows(rows: seq<Key>, cursor: Option<Key>)
    ensures forall k | k in Page(rows, cursor) :: k in rows
  {
  }

  /** What a claim of a row leads to when the transport works: an answer to skip it, or a finished delivery. */
  datatype Claim = Skipped(status: int) | Delivered(accepted: bool)

  /** How many of the tried rows ended in an accepted, or a failed, delivery. */
  function Finished(tried: seq<Key>, claims: map<Key, Claim>, accepted: bool): nat
    requires forall k | k in tried :: k in claims
  {
    if tried == [] then 0
    else
      Finished(tried[..|tried| - 1], claims, accepted)
      + (if claims[tried[|tried| - 1]] == Delivered(accepted) then 1 else 0)
  }

  lemma NothingFinished(claims: map<Key, Claim>)
    ensures Finished([], claims, true) == 0 && Finished([], claims, false) == 0
  {
  }

  lemma OneFinished(tried: seq<Key>, claims: map<Key, Claim>, k: Key)
    requires k in claims && forall x | x in tried :: x in claims
    ensures forall accepted :: Finished(tried + [k], claims, accepted) ==
              Finished(tried, claims, accepted) + (if claims[k] == Delivered(accepted) then 1 else 0)
  {
    assert (tried + [k])[..|tried|] == tried;
  }

  class Worker {
    var cursor: Option<Key>
    var sent: nat
    var failed: nat

    constructor ()
      ensures cursor == None && sent == 0 && failed == 0
    {
      cursor, sent, failed := None, 0, 0;
    }

    /**
     One run over the page the feed answers; the ninety-second guard may stop it after any row but not
     before the first.
     */
    method Run(rows: seq<Key>, claims: map<Key, Claim>, inTime: nat) returns (tried: seq<Key>)
      requires forall k | k in rows :: k in claims
      requires 0 < inTime
      modifies this
      ensures tried == Tried(rows, old(cursor), inTime)
      ensures cursor == CursorAfter(rows, old(cursor), inTime)
      ensures sent == old(sent) + Finished(tried, claims, true) && failed == old(failed) + Finished(tried, claims, false)
    {
      hide Page, RowsAfter, Finished;
      NothingFinished(claims);
      PageIsOfRows(rows, cursor);
      var page := Page(rows, cursor);
      if page == [] {
        cursor := None;
      }
      tried := [];
      var i := 0;
      while i < |page| && i < inTime
        invariant 0 <= i <= |page| && i <= inTime
        invariant page == Page(rows, old(cursor))
        invariant tried == page[..i]
        invariant cursor == if page == [] then None else if i == 0 then old(cursor) else Some(page[i - 1])
        invariant forall k | k in tried :: k in claims
        invariant sent == old(sent) + Finished(tried, claims, true)
        invariant failed == old(failed) + Finished(tried, claims, false)
      {
        var k := page[i];
        assert k in page;
        OneFinished(tried, claims, k);
        tried := tried + [k];
        match claims[k] {
          case Skipped(_) =>
          case Delivered(true) => sent := sent + 1;
          case Delivered(false) => failed := failed + 1;
        }
        cursor := Some(k);
        i := i + 1;
      }
    }
  }

  function Tried(rows: seq<Key>, cursor: Option<Key>, inTime: nat): seq<Key> {
    var page := Page(rows, cursor);
    if inTime <= |page| then page[..inTime] else page
  }

  function CursorAfter(rows: seq<Key>, cursor: Option<Key>, inTime: nat): Option<Key> {
    var tried := Tried(rows, cursor, inTime);
    if Page(rows, cursor) == [] then None
    else if tried == [] then cursor
    else Some(tried[|tried| - 1])
  }

  // ---------- progress ----------

  /** One run: the feed's rows at that moment, and how many of them the run has time for. */
  datatype Round = Round(rows: seq<Key>, inTime: nat)

  ghost predicate Fair(rounds: seq<Round>, universe: set<Key>, x: Key) {
    forall i | 0 <= i < |rounds| ::
      && Sorted(rounds[i].rows) && 0 < rounds[i].inTime
      && x in rounds[i].rows
      && (forall k | k in rounds[i].rows :: k in universe)
  }

  function Between(universe: set<Key>, cursor: Option<Key>, x: Key): set<Key> {
    set k | k in universe && Beyond(cursor, k) && (k == x || Before(k, x))
  }

  function Past(universe: set<Key>, cursor: Option<Key>): set<Key> {
    set k | k in universe && Beyond(cursor, k)
  }

  /** The number of runs within which the row `x` is tried: the rows up to it, after a wrap if it lies behind. */
  function Patience(universe: set<Key>, cursor: Option<Key>, x: Key): nat {
    if Beyond(cursor, x) then |Between(universe, cursor, x)|
    else |Past(universe, cursor)| + 1 + |Between(universe, None, x)|
  }

  /** The rows tried over a sequence of runs. */
  function TriedOver(rounds: seq<Round>, cursor: Option<Key>): set<Key>
    decreases |rounds|
  {
    if rounds == [] then {}
    else
      (set k | k in Tried(rounds[0].rows, cursor, rounds[0].inTime))
      + TriedOver(rounds[1..], CursorAfter(rounds[0].rows, cursor, rounds[0].inTime))
  }

  lemma SubsetIsSmaller(a: set<Key>, b: set<Key>, x: Key)
    requires a <= b && x in b && x !in a
    ensures |a| < |b|
  {
    assert a <= b - {x};
    SubsetIsNoLarger(a, b - {x});
  }

  lemma {:induction false} SubsetIsNoLarger(a: set<Key>, b: set<Key>)
    requires a <= b
    ensures |a| <= |b|
  {
    if a != {} {
      var x :| x in a;
      SubsetIsNoLarger(a - {x}, b - {x});
    }
  }

  /** A run that finds rows moves the cursor strictly forward, onto a row of the feed. */
  lemma RunAdvances(rows: seq<Key>, cursor: Option<Key>, inTime: nat)
    requires Sorted(rows) && 0 < inTime && Page(rows, cursor) != []
    ensures var after := CursorAfter(rows, cursor, inTime);
            after.Some? && after.value in rows && Beyond(cursor, after.value)
  {
    var tried := Tried(rows, cursor, inTime);
    assert tried[|tried| - 1] in RowsAfter(rows, cursor);
  }

  /** Unless the run tries `x`, the patience with `x` shrinks. */
  lemma PatienceShrinks(round: Round, universe: set<Key>, cursor: Option<Key>, x: Key)
    requires Fair([round], universe, x)
    requires x !in Tried(round.rows, cursor, round.inTime)
    ensures Patience(universe, CursorAfter(round.rows, cursor, round.inTime), x) < Patience(universe, cursor, x)
  {
    assert [round][0] == round;
    var rest := RowsAfter(round.rows, cursor);
    var tried := Tried(round.rows, cursor, round.inTime);
    var after := CursorAfter(round.rows, cursor, round.inTime);
    if Page(round.rows, cursor) == [] {
      assert rest == [];
      assert !Beyond(cursor, x);
    } else {
      RunAdvances(round.rows, cursor, round.inTime);
      var c := after.value;
      if Beyond(cursor, x) {
        assert x in rest;
        var i :| 0 <= i < |rest| && rest[i] == x;
        assert |tried| <= i && tried[|tried| - 1] == rest[|tried| - 1];
        assert Before(c, x);
        assert Between(universe, after, x) <= Between(universe, cursor, x);
        SubsetIsSmaller(Between(universe, after, x), Between(universe, cursor, x), c);
      } else {
        assert Past(universe, after) <= Past(universe, cursor);
        SubsetIsSmaller(Past(universe, after), Past(universe, cursor), c);
      }
    }
  }

  /** A row that stays in the feed is tried within its patience, whatever other rows come and go. */
  lemma {:induction false} QueuedRowIsTried(rounds: seq<Round>, universe: set<Key>, cursor: Option<Key>, x: Key)
    requires Fair(rounds, universe, x) && Patience(universe, cursor, x) <= |rounds|
    requires rounds != []
    ensures x in TriedOver(rounds, cursor)
    decreases |rounds|
  {
    var round := rounds[0];
    assert Fair([round], universe, x) by {
      assert [round][0] == rounds[0];
    }
    var after := CursorAfter(round.rows, cursor, round.inTime);
    if x !in Tried(round.rows, cursor, round.inTime) {
      PatienceShrinks(round, universe, cursor, x);
      assert x in round.rows && x in universe;
      assert x in Between(universe, None, x);
      if Beyond(after, x) {
        assert x in Between(universe, after, x);
      }
      assert 0 < Patience(universe, after, x);
      assert Fair(rounds[1..], universe, x);
      QueuedRowIsTried(rounds[1..], universe, after, x);
    }
  }

  /** The bound in closed form: two rounds over the rows that ever appear, and one to wrap. */
  lemma PatienceIsBounded(universe: set<Key>, cursor: Option<Key>, x: Key)
    ensures Patience(universe, cursor, x) <= 2 * |universe| + 1
  {
    SubsetIsNoLarger(Between(universe, cursor, x), universe);
    SubsetIsNoLarger(Between(universe, None, x), universe);
    SubsetIsNoLarger(Past(universe, cursor), universe);
  }
}
