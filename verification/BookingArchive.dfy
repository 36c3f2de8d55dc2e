/**
 The booking archive: moving old bookings in batches, and paging through active and archived bookings as
 through one list.
 */
module BookingArchive {
  import opened Options

  type Id = nat

  const BATCH: nat := 1000

  /** An archived booking carries the time it was archived. */
  datatype Booking = Booking(status: string, checkOut: int, body: string, archivedAt: Option<int>)
  datatype State = State(active: map<Id, Booking>, archive: map<Id, Booking>)

  const FINAL: set<string> := {"checked_out", "cancelled", "no_show"}

  predicate Archivable(b: Booking, cutoff: int) {
    b.checkOut < cutoff && b.status in FINAL
  }

  /** No booking is lost, invented or changed but for the time the archive adds. */
  predicate Conserved(s: State, t: State) {
    && (forall id | id in s.active :: (id in t.active && t.active[id] == s.active[id]) || ArchivedFrom(s, t, id))
    && (forall id | id in s.archive :: id in t.archive && t.archive[id] == s.archive[id])
    && (forall id | id in t.active :: id in s.active && t.active[id] == s.active[id])
    && (forall id | id in t.archive && id !in s.archive :: ArchivedFrom(s, t, id))
  }

  predicate ArchivedFrom(s: State, t: State, id: Id) {
    id in s.active && id in t.archive && t.archive[id] == s.active[id].(archivedAt := t.archive[id].archivedAt)
  }

  function Inserted(s: State, id: Id, now: int): State
    requires id in s.active
  {
    s.(archive := s.archive[id := s.active[id].(archivedAt := Some(now))])
  }

  function MoveOne(s: State, id: Id, now: int): State
    requires id in s.active
  {
    Inserted(s, id, now).(active := s.active - {id})
  }

  predicate NoRepeat(ids: seq<Id>) {
    forall i, j | 0 <= i < j < |ids| :: ids[i] != ids[j]
  }

  predicate Listed(s: State, ids: seq<Id>) {
    NoRepeat(ids) && forall id | id in ids :: id in s.active
  }

  /** Moves a batch in order; an id that the archive already holds stops it with a duplicate key. */
  function MoveBatch(s: State, ids: seq<Id>, now: int): (result: (State, bool))
    requires Listed(s, ids)
    decreases |ids|
  {
    if ids == [] then (s, true)
    else if ids[0] in s.archive then (s, false)
    else
      assert forall i | 0 <= i < |ids| - 1 :: ids[1..][i] == ids[i + 1];
      MoveBatch(MoveOne(s, ids[0], now), ids[1..], now)
  }

  /** The batch completes exactly when none of its bookings is in the archive already; it never loses one. */
  lemma {:induction false} BatchCompletes(s: State, ids: seq<Id>, now: int)
    requires Listed(s, ids)
    ensures var (t, ok) := MoveBatch(s, ids, now);
            && (ok <==> forall id | id in ids :: id !in s.archive)
            && (ok ==> forall id | id in ids :: id !in t.active && id in t.archive)
            && (forall id | id in s.active && (id !in ids || id in s.archive) :: id in t.active)
            && Conserved(s, t)
    decreases |ids|
  {
    hide Conserved;
    NothingMoved(s);
    if ids != [] && ids[0] !in s.archive {
      var rest, next := ids[1..], MoveOne(s, ids[0], now);
      StepConserves(s, s, ids[0], now);
      assert ids == [ids[0]] + rest;
      assert forall i | 0 <= i < |rest| :: rest[i] == ids[i + 1];
      assert ids[0] !in rest;
      BatchCompletes(next, rest, now);
      ConservedTwice(s, next, MoveBatch(next, rest, now).0);
      OneWay(next, MoveBatch(next, rest, now).0, ids[0]);
    } else if ids != [] {
      assert ids[0] in ids;
    }
  }

  lemma OneWay(s: State, t: State, id: Id)
    requires Conserved(s, t)
    ensures (id in s.archive ==> id in t.archive) && (id in t.active ==> id in s.active)
  {
  }

  lemma NothingMoved(s: State)
    ensures Conserved(s, s)
  {
  }

  lemma ConservedTwice(s: State, t: State, u: State)
    requires Conserved(s, t) && Conserved(t, u)
    ensures Conserved(s, u)
  {
  }

  /**
   A run that died between insert and delete leaves a booking in both collections. Every later batch that
   holds it fails, and the booking stays active: the move cannot be resumed.
   */
  lemma DuplicateIsStuck(s: State, ids: seq<Id>, now: int, id: Id, first: int)
    requires id in s.active && Listed(s, ids) && id in ids
    ensures var (t, ok) := MoveBatch(Inserted(s, id, first), ids, now);
            !ok && id in t.active && id in t.archive
  {
    BatchCompletes(Inserted(s, id, first), ids, now);
  }

  lemma LastIsNew(order: seq<Id>)
    requires NoRepeat(order) && order != []
    ensures order[|order| - 1] !in order[..|order| - 1]
    ensures order == order[..|order| - 1] + [order[|order| - 1]]
  {
    assert forall i | 0 <= i < |order| - 1 :: order[..|order| - 1][i] == order[i];
  }

  /** The bookings a run reads, in the order of the listing. */
  function ArchivableIds(s: State, cutoff: int, order: seq<Id>): (ids: seq<Id>)
    requires Listed(s, order)
    ensures Listed(s, ids) && forall id :: id in ids <==> id in order && Archivable(s.active[id], cutoff)
  {
    if order == [] then []
    else
      var last := order[|order| - 1];
      LastIsNew(order);
      var rest := ArchivableIds(s, cutoff, order[..|order| - 1]);
      if Archivable(s.active[last], cutoff) then rest + [last] else rest
  }

  function First<T>(s: seq<T>, n: nat): seq<T> {
    if |s| <= n then s else s[..n]
  }

  datatype Outcome = Counted(n: nat) | Archived(n: nat) | Failed | Died

  /** So many bookings have left the active list, all of them due, and what has been archived carries the time. */
  ghost predicate Moving(s: State, t: State, due: set<Id>, moved: nat, now: int) {
    && t.active.Keys <= s.active.Keys && |t.active| == |s.active| - moved
    && (forall id | id in s.active && id !in t.active :: id in due)
    && (forall id | id in t.archive && id !in s.archive :: id in s.active && t.archive[id] == s.active[id].(archivedAt := Some(now)))
  }

  lemma OneMoved(before: State, s: State, due: set<Id>, moved: nat, id: Id, now: int)
    requires Moving(before, s, due, moved, now) && Conserved(before, s) && id in s.active && id in due
    ensures Moving(before, Inserted(s, id, now), due, moved, now)
    ensures Moving(before, MoveOne(s, id, now), due, moved + 1, now)
  {
    var rest := s.active - {id};
    assert rest.Keys == s.active.Keys - {id} && |rest.Keys| == |rest| && |s.active.Keys| == |s.active|;
  }

  lemma WritesOf(before: State, s: State, due: set<Id>, moved: nat, id: Id, now: int)
    requires id in s.active && Moving(before, s, due, moved, now)
    ensures |s.active| == |before.active| - moved && |s.active - {id}| == |s.active| - 1
    ensures Inserted(s, id, now) == State(s.active, s.archive[id := s.active[id].(archivedAt := Some(now))])
    ensures MoveOne(s, id, now) == State(s.active - {id}, s.archive[id := s.active[id].(archivedAt := Some(now))])
  {
    assert (s.active - {id}).Keys == s.active.Keys - {id} && |s.active.Keys| == |s.active|;
  }

  class Manager {
    var active: map<Id, Booking>
    var archive: map<Id, Booking>

    constructor (active: map<Id, Booking>, archive: map<Id, Booking>)
      ensures Value() == State(active, archive)
    {
      this.active, this.archive := active, archive;
    }

    function Value(): State
      reads this
    {
      State(active, archive)
    }

    /**
     One run; it dies after `writes` writes if it needs more. Whatever happens no booking is lost, only old
     finished bookings leave, and the archived ones are stamped. A dry run counts the bookings due; a run
     that completes has moved up to 1000 of them, and one that has two writes for each never dies.
     */
    method ArchiveOldBookings(cutoff: int, order: seq<Id>, dryRun: bool, now: int, writes: nat) returns (outcome: Outcome)
      requires Listed(Value(), order)
      modifies this
      ensures Conserved(old(Value()), Value()) && |active| <= |old(active)|
      ensures Moving(old(Value()), Value(), DueIds(old(Value()), cutoff, order), |old(active)| - |active|, now)
      ensures var due := |DueIds(old(Value()), cutoff, order)|;
              && (dryRun ==> outcome == Counted(due) && Value() == old(Value()))
              && (!dryRun ==> !outcome.Counted?)
              && (outcome.Archived? ==> outcome.n == |old(active)| - |active| == if due < 1000 then due else 1000)
              && (outcome.Died? ==> writes < 2 * due && writes < 2000)
      ensures var batch := First(ArchivableIds(old(Value()), cutoff, order), BATCH);
              !dryRun && outcome != Died ==>
                && Listed(old(Value()), batch)
                && var (t, ok) := MoveBatch(old(Value()), batch, now);
                Value() == t && outcome == if ok then Archived(|batch|) else Failed
    {
      hide Conserved, MoveBatch, Archivable, Listed, DueIds, Moving, MoveOne, Inserted, First, ArchivableIds;
      ghost var before := Value();
      KeptAll(before, now);
      var ids := ArchivableIds(Value(), cutoff, order);
      ArchivableAreDue(before, cutoff, order);
      ghost var due := DueIds(before, cutoff, order);
      if dryRun {
        return Counted(|ids|);
      }
      var batch := First(ids, BATCH);
      FirstListed(before, ids);
      var left, n := writes, 0;
      assert batch[0..] == batch;
      while n < |batch|
        invariant n <= |batch| && Conserved(before, Value()) && Listed(Value(), batch[n..])
        invariant MoveBatch(before, batch, now) == MoveBatch(Value(), batch[n..], now)
        invariant Moving(before, Value(), due, n, now) && |active| == |before.active| - n && left == writes - 2 * n
      {
        var id := batch[n];
        assert batch[n..][0] == id && batch[n..][1..] == batch[n + 1..];
        ghost var here := Value();
        BatchStep(before, here, batch[n..], now);
        assert id in batch && id in ids;
        OneMoved(before, here, due, n, id, now);
        WritesOf(before, here, due, n, id, now);
        if id in archive {
          return Failed;
        }
        if left == 0 {
          return Died;
        }
        archive := archive[id := active[id].(archivedAt := Some(now))];
        assert Value() == Inserted(here, id, now);
        if left == 1 {
          return Died;
        }
        active := active - {id};
        assert Value() == MoveOne(here, id, now);
        left := left - 2;
        n := n + 1;
      }
      NothingLeftToMove(Value(), batch[n..], now);
      outcome := Archived(|batch|);
    }
  }

  /** The bookings that are due: old and finished. */
  ghost function DueIds(s: State, cutoff: int, order: seq<Id>): set<Id> {
    set id | id in order && id in s.active && s.active[id].checkOut < cutoff
             && s.active[id].status in {"checked_out", "cancelled", "no_show"}
  }

  lemma ArchivableAreDue(s: State, cutoff: int, order: seq<Id>)
    requires Listed(s, order)
    ensures forall id :: id in ArchivableIds(s, cutoff, order) <==> id in DueIds(s, cutoff, order)
    ensures |DueIds(s, cutoff, order)| == |ArchivableIds(s, cutoff, order)|
  {
    var ids := ArchivableIds(s, cutoff, order);
    SetOfIds(ids);
    assert DueIds(s, cutoff, order) == Elements(ids);
  }

  function Elements(ids: seq<Id>): set<Id> {
    set id | id in ids
  }

  lemma {:induction false} SetOfIds(ids: seq<Id>)
    requires NoRepeat(ids)
    ensures |Elements(ids)| == |ids|
  {
    if ids == [] {
      assert Elements(ids) == {};
    } else {
      LastIsNew(ids);
      var n := |ids| - 1;
      assert forall i | 0 <= i < n :: ids[..n][i] == ids[i];
      SetOfIds(ids[..n]);
      assert Elements(ids) == Elements(ids[..n]) + {ids[n]};
    }
  }

  lemma KeptAll(s: State, now: int)
    ensures Conserved(s, s) && forall due :: Moving(s, s, due, 0, now)
  {
  }

  lemma FirstListed(s: State, ids: seq<Id>)
    requires Listed(s, ids)
    ensures Listed(s, First(ids, BATCH)) && First(ids, BATCH) <= ids
    ensures |First(ids, BATCH)| == if |ids| < 1000 then |ids| else 1000
  {
    assert forall i | 0 <= i < |First(ids, BATCH)| :: First(ids, BATCH)[i] == ids[i];
  }

  lemma NothingLeftToMove(s: State, ids: seq<Id>, now: int)
    requires ids == [] && Listed(s, ids)
    ensures MoveBatch(s, ids, now) == (s, true)
  {
  }

  lemma StepConserves(before: State, s: State, id: Id, now: int)
    requires Conserved(before, s) && id in s.active && id !in s.archive
    ensures Conserved(before, Inserted(s, id, now)) && Conserved(before, MoveOne(s, id, now))
  {
    ConservedTwice(before, s, Inserted(s, id, now));
    ConservedTwice(before, s, MoveOne(s, id, now));
  }

  lemma BatchStep(before: State, s: State, ids: seq<Id>, now: int)
    requires Conserved(before, s) && Listed(s, ids) && ids != []
    ensures ids[0] in s.active
    ensures ids[0] in s.archive ==> MoveBatch(s, ids, now) == (s, false)
    ensures ids[0] !in s.archive ==>
              && Conserved(before, Inserted(s, ids[0], now)) && Conserved(before, MoveOne(s, ids[0], now))
              && Listed(MoveOne(s, ids[0], now), ids[1..])
              && MoveBatch(s, ids, now) == MoveBatch(MoveOne(s, ids[0], now), ids[1..], now)
  {
    hide Conserved;
    if ids[0] !in s.archive {
      StepConserves(before, s, ids[0], now);
      assert forall i | 0 <= i < |ids| - 1 :: ids[1..][i] == ids[i + 1];
    }
  }

  // ---------- merged paging ----------

  datatype Found = Found(id: Id, fromArchive: bool)

  function Matching(docs: seq<Id>, query: Id -> bool): seq<Id> {
    if docs == [] then []
    else Matching(docs[..|docs| - 1], query) + (if query(docs[|docs| - 1]) then [docs[|docs| - 1]] else [])
  }

  /** The matches of a list are those of its documents, one after another. */
  lemma {:induction false} MatchingIsFilter(docs: seq<Id>, more: seq<Id>, query: Id -> bool)
    ensures Matching(docs + more, query) == Matching(docs, query) + Matching(more, query)
    ensures forall id :: Matching([id], query) == if query(id) then [id] else []
    decreases |more|
  {
    assert forall id: Id :: [id][..0] == [];
    if more == [] {
      assert docs + more == docs;
    } else {
      assert (docs + more)[..|docs + more| - 1] == docs + more[..|more| - 1];
      MatchingIsFilter(docs, more[..|more| - 1], query);
    }
  }

  /** A cursor with a skip and a limit; limit 0 is no limit. */
  function Page<T>(s: seq<T>, skip: nat, limit: nat): seq<T> {
    var rest := if skip < |s| then s[skip..] else [];
    if limit == 0 then rest else First(rest, limit)
  }

  function Tagged(ids: seq<Id>, fromArchive: bool): (found: seq<Found>)
    ensures |found| == |ids| && forall i | 0 <= i < |ids| :: found[i] == Found(ids[i], fromArchive)
  {
    seq(|ids|, i requires 0 <= i < |ids| => Found(ids[i], fromArchive))
  }

  /** Active matches, then archived ones. */
  function Merged(active: seq<Id>, archived: seq<Id>): seq<Found> {
    Tagged(active, false) + Tagged(archived, true)
  }

  /** The cursor loop. */
  method Drain(cursor: seq<Id>, fromArchive: bool) returns (results: seq<Found>)
    ensures results == Tagged(cursor, fromArchive)
  {
    results := [];
    var n := 0;
    while n < |cursor|
      invariant n <= |cursor| && |results| == n
      invariant forall i | 0 <= i < n :: results[i] == Found(cursor[i], fromArchive)
    {
      results := results + [Found(cursor[n], fromArchive)];
      n := n + 1;
    }
  }

  /** With the archive and a limit, the page of the two lists as one; with limit 0 all the rest of the active list and no archive. */
  method QueryWithArchive(active: seq<Id>, archived: seq<Id>, query: Id -> bool, limit: nat, skip: nat, includeArchived: bool)
    returns (results: seq<Found>)
    ensures includeArchived && limit > 0 ==>
              results == Page(Merged(Matching(active, query), Matching(archived, query)), skip, limit)
    ensures !includeArchived && limit > 0 ==> results == Page(Tagged(Matching(active, query), false), skip, limit)
    ensures var matches := Tagged(Matching(active, query), false);
            limit == 0 ==> results == if skip < |matches| then matches[skip..] else []
  {
    hide Matching, Page;
    var matches, older := Matching(active, query), Matching(archived, query);
    PageOfActive(matches, older, skip, limit);
    results := Drain(Page(matches, skip, limit), false);
    if includeArchived && |results| < limit {
      var remaining := limit - |results|;
      var past := if skip < |matches| then 0 else skip - |matches|;
      PageOfBoth(matches, older, skip, limit);
      var more := Drain(Page(older, past, remaining), true);
      results := results + more;
    }
  }

  lemma PageOfActive(active: seq<Id>, archived: seq<Id>, skip: nat, limit: nat)
    ensures var all := Tagged(active, false); limit == 0 ==> Page(all, skip, limit) == if skip < |all| then all[skip..] else []
    ensures Tagged(Page(active, skip, limit), false) == Page(Tagged(active, false), skip, limit)
    ensures limit > 0 && |Page(active, skip, limit)| >= limit ==>
              Tagged(Page(active, skip, limit), false) == Page(Merged(active, archived), skip, limit)
  {
  }

  lemma PageOfBoth(active: seq<Id>, archived: seq<Id>, skip: nat, limit: nat)
    requires |Page(active, skip, limit)| < limit
    ensures var own := Page(active, skip, limit);
            var past := if skip < |active| then 0 else skip - |active|;
            Page(Merged(active, archived), skip, limit)
            == Tagged(own, false) + Tagged(Page(archived, past, limit - |own|), true)
  {
  }

  /** The first pages of one size, one after another. */
  function Pages<T>(s: seq<T>, limit: nat, n: nat): seq<T> {
    if n == 0 then [] else Pages(s, limit, n - 1) + Page(s, (n - 1) * limit, limit)
  }

  /** Successive pages tile the list: no gap and no repeat. */
  lemma {:induction false} PagesTile<T>(s: seq<T>, limit: nat, n: nat)
    requires limit > 0
    ensures Pages(s, limit, n) == First(s, n * limit)
  {
    if n > 0 {
      PagesTile(s, limit, n - 1);
      OnePageMore(s, (n - 1) * limit, limit);
      assert n * limit == (n - 1) * limit + limit;
    }
  }

  lemma OnePageMore<T>(s: seq<T>, skip: nat, limit: nat)
    requires limit > 0
    ensures First(s, skip) + Page(s, skip, limit) == First(s, skip + limit)
  {
  }
}
