/**
 The retention move of audit rows: copy, confirm, then delete, one row at a time and keyed on the same id,
 so that the move can die after any database operation and be run again.
 */
module AuditArchive {
  type Id = nat

  /** How many rows one run reads. */
  const BATCH: nat := 50000

  datatype Log = Log(timestamp: int, body: string)
  datatype State = State(hot: map<Id, Log>, archive: map<Id, Log>)

  predicate IsOld(s: State, cutoff: int, id: Id) {
    id in s.hot && s.hot[id].timestamp < cutoff
  }

  /** Audit rows do not change: an old row that is archived already is the same there. */
  predicate Agree(s: State, cutoff: int) {
    forall id | IsOld(s, cutoff, id) && id in s.archive :: s.hot[id] == s.archive[id]
  }

  /** Every old row moved. */
  function Moved(s: State, cutoff: int): State {
    State(map id | id in s.hot && !IsOld(s, cutoff, id) :: s.hot[id],
          s.archive + map id | id in s.hot && IsOld(s, cutoff, id) && id !in s.archive :: s.hot[id])
  }

  /** `t` is what a move that began at `s` may leave behind, wherever it stopped. */
  predicate Underway(s: State, t: State, cutoff: int) {
    && (forall id | id in t.hot :: id in s.hot && t.hot[id] == s.hot[id])
    && (forall id | id in s.hot && id !in t.hot :: IsOld(s, cutoff, id) && id in t.archive)
    && (forall id | id in s.archive :: id in t.archive && t.archive[id] == s.archive[id])
    && (forall id | id in t.archive && id !in s.archive :: IsOld(s, cutoff, id) && t.archive[id] == s.hot[id])
  }

  /** No row is lost, none is invented and none is changed. */
  predicate Conserved(s: State, t: State) {
    && (forall id | id in s.hot :: (id in t.hot && t.hot[id] == s.hot[id]) || (id in t.archive && t.archive[id] == s.hot[id]))
    && (forall id | id in s.archive :: id in t.archive && t.archive[id] == s.archive[id])
    && (forall id | id in t.hot :: id in s.hot && t.hot[id] == s.hot[id])
    && (forall id | id in t.archive :: (id in s.archive && t.archive[id] == s.archive[id]) || (id in s.hot && t.archive[id] == s.hot[id]))
  }

  lemma UnderwayConserves(s: State, t: State, cutoff: int)
    requires Agree(s, cutoff) && Underway(s, t, cutoff)
    ensures Conserved(s, t) && Agree(t, cutoff)
  {
  }

  /** Exactly the moves whose archived old rows agree lose nothing. */
  lemma MoveConservesIffAgree(s: State, cutoff: int)
    ensures Conserved(s, Moved(s, cutoff)) <==> Agree(s, cutoff)
  {
    if Agree(s, cutoff) {
      MoveIsIdempotent(s, cutoff);
      UnderwayConserves(s, Moved(s, cutoff), cutoff);
    } else {
      var id :| IsOld(s, cutoff, id) && id in s.archive && s.hot[id] != s.archive[id];
      DisagreeingRowIsLost(s, Moved(s, cutoff), cutoff, id);
    }
  }

  /** An old row whose id is archived with other contents is lost by any move that deletes it. */
  lemma DisagreeingRowIsLost(s: State, t: State, cutoff: int, id: Id)
    requires IsOld(s, cutoff, id) && id in s.archive && s.hot[id] != s.archive[id] && Underway(s, t, cutoff) && id !in t.hot
    ensures !Conserved(s, t)
  {
    assert id in s.hot && t.archive[id] == s.archive[id];
  }

  /** A move that died and is run again ends where an undisturbed one ends. */
  lemma ResumedMoveEndsTheSame(s: State, t: State, cutoff: int)
    requires Underway(s, t, cutoff)
    ensures Moved(t, cutoff) == Moved(s, cutoff)
  {
    SameHot(s, t, cutoff);
    SameArchive(s, t, cutoff);
  }

  lemma SameHot(s: State, t: State, cutoff: int)
    requires Underway(s, t, cutoff)
    ensures Moved(t, cutoff).hot == Moved(s, cutoff).hot
  {
    var a, b := Moved(t, cutoff).hot, Moved(s, cutoff).hot;
    forall id
      ensures id in a <==> id in b
      ensures id in a ==> a[id] == b[id]
    {
    }
  }

  lemma SameArchive(s: State, t: State, cutoff: int)
    requires Underway(s, t, cutoff)
    ensures Moved(t, cutoff).archive == Moved(s, cutoff).archive
  {
    var a, b := Moved(t, cutoff).archive, Moved(s, cutoff).archive;
    forall id
      ensures id in a <==> id in b
      ensures id in a ==> a[id] == b[id]
    {
    }
  }

  /** Running a completed move again changes nothing. */
  lemma MoveIsIdempotent(s: State, cutoff: int)
    ensures Underway(s, Moved(s, cutoff), cutoff)
    ensures Moved(Moved(s, cutoff), cutoff) == Moved(s, cutoff)
  {
    ResumedMoveEndsTheSame(s, Moved(s, cutoff), cutoff);
  }

  /** The rows a run reads: the old ones in the order of the listing, up to the batch size. */
  function OldIds(s: State, cutoff: int, order: seq<Id>): (ids: seq<Id>)
    ensures |ids| <= |order|
    ensures forall id :: id in ids <==> id in order && IsOld(s, cutoff, id)
  {
    if order == [] then []
    else
      var rest := OldIds(s, cutoff, order[..|order| - 1]);
      if IsOld(s, cutoff, order[|order| - 1]) then rest + [order[|order| - 1]] else rest
  }

  predicate NoRepeat(ids: seq<Id>) {
    forall i, j | 0 <= i < j < |ids| :: ids[i] != ids[j]
  }

  lemma {:induction false} OldIdsDiffer(s: State, cutoff: int, order: seq<Id>)
    requires NoRepeat(order)
    ensures NoRepeat(OldIds(s, cutoff, order))
    ensures forall i | 0 <= i < |OldIds(s, cutoff, order)| :: OldIds(s, cutoff, order)[i] in s.hot
  {
    if order != [] {
      var init, last := order[..|order| - 1], order[|order| - 1];
      OldIdsDiffer(s, cutoff, init);
      assert last !in init;
    }
  }

  class Archiver {
    var hot: map<Id, Log>
    var archive: map<Id, Log>

    constructor (hot: map<Id, Log>, archive: map<Id, Log>)
      ensures Value() == State(hot, archive)
    {
      this.hot, this.archive := hot, archive;
    }

    function Value(): State
      reads this
    {
      State(hot, archive)
    }

    /**
     Moves up to 50000 old rows and counts the deleted ones; it dies after `steps` database operations if it
     needs more, so never with four for each row. Wherever it stops no row is lost, only rows before the cutoff
     leave the hot collection, and each only when a row with its id is in the archive.
     */
    method MoveOld(cutoff: int, order: seq<Id>, steps: nat) returns (archived: nat, died: bool)
      requires NoRepeat(order) && forall id :: id in order <==> id in hot
      modifies this
      ensures Underway(old(Value()), Value(), cutoff) && archived == |old(hot)| - |hot|
      ensures Agree(old(Value()), cutoff) ==> Conserved(old(Value()), Value())
      ensures !died && |OldIds(old(Value()), cutoff, order)| <= 50000 ==> Value() == Moved(old(Value()), cutoff)
      ensures archived <= 50000 && (died ==> steps < 4 * |order| && steps < 200000)
      ensures !died && archived < 50000 ==> forall id | id in hot :: cutoff <= hot[id].timestamp
      ensures forall id | id in old(hot) && id !in hot :: old(hot)[id].timestamp < cutoff && id in archive
    {
      hide Underway, IsOld, Agree, Conserved, OldIds, Gone;
      ghost var before := Value();
      var ids := OldIds(Value(), cutoff, order);
      var rows := hot;
      archived, died := 0, false;
      NothingDone(before, cutoff);
      OldIdsDiffer(before, cutoff, order);
      var left, n := steps, 0;
      while n < |ids| && n < BATCH
        invariant n <= |ids| && n <= BATCH && Underway(before, Value(), cutoff)
        invariant forall i | 0 <= i < n :: Gone(Value(), ids[i])
        invariant forall i | n <= i < |ids| :: ids[i] in hot
        invariant archived == |before.hot| - |hot| == n && steps <= left + 4 * n
      {
        var id := ids[n];
        assert IsOld(before, cutoff, id);
        ghost var here := Value();
        CopiedOne(before, here, cutoff, id);
        var already := id in archive;
        if left < 3 || (!already && left < 4) {
          if !already && left >= 2 {
            archive := archive[id := rows[id]];
          }
          died := true;
          break;
        }
        if !already {
          archive := archive[id := rows[id]];
          left := left - 1;
        }
        var confirmed := id in archive;
        if confirmed {
          DeletedOne(before, Value(), cutoff, id);
          OneFewer(hot, id);
          hot := hot - {id};
          archived := archived + 1;
        }
        OneMoreGone(here, Value(), ids, n);
        left := left - 3;
        n := n + 1;
      }
      if Agree(before, cutoff) {
        UnderwayConserves(before, Value(), cutoff);
      }
      if !died && |ids| <= BATCH {
        AllMoved(before, Value(), cutoff, order, ids);
        OnlyNewLeft(before, cutoff);
      }
      OnlyOldGone(before, Value(), cutoff);
    }
  }

  lemma OnlyNewLeft(s: State, cutoff: int)
    ensures var hot := Moved(s, cutoff).hot; forall id | id in hot :: cutoff <= hot[id].timestamp
  {
  }

  lemma OnlyOldGone(s: State, t: State, cutoff: int)
    requires Underway(s, t, cutoff)
    ensures forall id | id in s.hot && id !in t.hot :: s.hot[id].timestamp < cutoff && id in t.archive
  {
  }

  lemma OneFewer(hot: map<Id, Log>, id: Id)
    requires id in hot
    ensures |hot - {id}| == |hot| - 1
  {
    assert (hot - {id}).Keys == hot.Keys - {id} && |hot.Keys| == |hot|;
  }

  predicate Gone(t: State, id: Id) {
    id in t.archive && id !in t.hot
  }

  lemma OneMoreGone(s: State, t: State, ids: seq<Id>, n: nat)
    requires n < |ids| && forall i | 0 <= i < n :: Gone(s, ids[i])
    requires t.hot == s.hot - {ids[n]} && s.archive.Keys <= t.archive.Keys && ids[n] in t.archive
    ensures forall i | 0 <= i < n + 1 :: Gone(t, ids[i])
  {
  }

  lemma NothingDone(s: State, cutoff: int)
    ensures Underway(s, s, cutoff)
  {
  }

  lemma CopiedOne(s: State, t: State, cutoff: int, id: Id)
    requires Underway(s, t, cutoff) && IsOld(s, cutoff, id)
    ensures id in s.hot && (id !in t.archive ==> Underway(s, t.(archive := t.archive[id := s.hot[id]]), cutoff))
  {
  }

  lemma DeletedOne(s: State, t: State, cutoff: int, id: Id)
    requires Underway(s, t, cutoff) && IsOld(s, cutoff, id) && id in t.archive
    ensures Underway(s, t.(hot := t.hot - {id}), cutoff)
  {
  }

  lemma AllMoved(s: State, t: State, cutoff: int, order: seq<Id>, ids: seq<Id>)
    requires Underway(s, t, cutoff) && (forall id :: id in order <==> id in s.hot) && ids == OldIds(s, cutoff, order)
    requires forall i | 0 <= i < |ids| :: Gone(t, ids[i])
    ensures t == Moved(s, cutoff)
  {
    hide Underway, Moved;
    forall id | IsOld(s, cutoff, id)
      ensures Gone(t, id)
    {
      assert id in ids;
    }
    HotIsMoved(s, t, cutoff);
    ArchiveIsMoved(s, t, cutoff);
  }

  lemma HotIsMoved(s: State, t: State, cutoff: int)
    requires Underway(s, t, cutoff) && forall id | IsOld(s, cutoff, id) :: Gone(t, id)
    ensures t.hot == Moved(s, cutoff).hot
  {
    assert t.hot.Keys == Moved(s, cutoff).hot.Keys;
  }

  lemma ArchiveIsMoved(s: State, t: State, cutoff: int)
    requires Underway(s, t, cutoff) && forall id | IsOld(s, cutoff, id) :: Gone(t, id)
    ensures t.archive == Moved(s, cutoff).archive
  {
    assert t.archive.Keys == Moved(s, cutoff).archive.Keys;
  }
}
