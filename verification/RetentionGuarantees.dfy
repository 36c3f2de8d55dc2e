/**
 What a plan promises about the host, in terms of the inventory itself: which tags go, how many rollback
 releases stay, and how the stored release history evolves.
 */
module RetentionGuarantees {
  import opened Options
  import opened ImagePlan

  // ---------- the reference table is the inventory ----------

  lemma {:induction false} TagIsRef(images: seq<Image>, i: nat, t: Reference)
    requires WellTagged(images) && i < |images| && t in images[i].tags && t.Managed?
    ensures t in RefsOf(images) && RefsOf(images)[t] == InfoOf(images[i]) && images[i].created.Some?
  {
    var last := |images| - 1;
    assert t in ManagedTags(images[i]);
    if i < last {
      TagIsRef(images[..last], i, t);
    }
  }

  lemma {:induction false} RefIsTag(images: seq<Image>, t: Reference) returns (i: nat)
    requires WellTagged(images) && t in RefsOf(images)
    ensures i < |images| && t in images[i].tags && t.Managed? && RefsOf(images)[t] == InfoOf(images[i])
    ensures images[i].created.Some?
  {
    i := |images| - 1;
    if t in ManagedTags(images[i]) {
      assert t in images[i].tags;
    } else {
      i := RefIsTag(images[..|images| - 1], t);
    }
  }

  // ---------- what is deleted ----------

  /** Some container, some tag outside the managed repositories, or some tag of a protected release needs the image. */
  ghost predicate Needed(snapshot: Snapshot, protected: set<Sha>, id: ImageId) {
    || (exists c :: c in snapshot.containers && c.image == id)
    || (exists i, t :: 0 <= i < |snapshot.images| && snapshot.images[i].id == id && t in snapshot.images[i].tags
                       && (t.Foreign? || t.sha in protected))
  }

  lemma NeededIsPinned(snapshot: Snapshot, protected: set<Sha>, id: ImageId)
    requires WellTagged(snapshot.images)
    ensures Needed(snapshot, protected, id) <==> id in Pinned(snapshot, ProtectedRefs(RefsOf(snapshot.images), protected))
  {
    var refs := RefsOf(snapshot.images);
    var held := ProtectedRefs(refs, protected);
    if i, t :| 0 <= i < |snapshot.images| && snapshot.images[i].id == id && t in snapshot.images[i].tags
               && (t.Foreign? || t.sha in protected)
    {
      if t.Foreign? {
        assert HasForeignTag(snapshot.images[i]);
        assert id in Aliases(snapshot.images);
      } else {
        TagIsRef(snapshot.images, i, t);
        assert t in held && held[t] == id && held[t] in held.Values;
      }
    }
    if id in held.Values {
      var r :| r in held && held[r] == id;
      var i := RefIsTag(snapshot.images, r);
      assert snapshot.images[i].id == id && r in snapshot.images[i].tags;
    }
    if id in Aliases(snapshot.images) {
      var i :| 0 <= i < |snapshot.images| && HasForeignTag(snapshot.images[i]) && snapshot.images[i].id == id;
      var k :| 0 <= k < |snapshot.images[i].tags| && snapshot.images[i].tags[k].Foreign?;
      assert snapshot.images[i].tags[k] in snapshot.images[i].tags;
    }
  }

  /** A planned tag sits on an image that is fifteen minutes old, in seconds. */
  ghost predicate OldTag(images: seq<Image>, target: Target, now: int) {
    exists i :: 0 <= i < |images| && target.reference in images[i].tags && target.reference.Managed?
                && images[i].id == target.id && images[i].created.Some? && images[i].created.value <= now - 900
  }

  /** Exactly the old managed tags whose image nothing needs are planned for deletion. */
  lemma TargetsExactly(snapshot: Snapshot, history: seq<Sha>, candidate: Sha, now: int, target: Target)
    requires Plannable(snapshot, history)
    ensures var plan := PlanOf(snapshot, history, candidate, now);
            target in plan.targets <==>
            OldTag(snapshot.images, target, now) && !Needed(snapshot, plan.protected, target.id)
  {
    var plan := PlanOf(snapshot, history, candidate, now);
    var refs := RefsOf(snapshot.images);
    NeededIsPinned(snapshot, plan.protected, target.id);
    OldTagIsOldRef(snapshot.images, target, now);
  }

  lemma OldTagIsOldRef(images: seq<Image>, target: Target, now: int)
    requires WellTagged(images)
    ensures var refs := RefsOf(images);
            OldTag(images, target, now) <==>
            (target.reference in refs && refs[target.reference].id == target.id && refs[target.reference].created <= now - GRACE)
  {
    var refs := RefsOf(images);
    if OldTag(images, target, now) {
      var i :| 0 <= i < |images| && target.reference in images[i].tags && target.reference.Managed?
               && images[i].id == target.id && images[i].created.Some? && images[i].created.value <= now - 900;
      TagIsRef(images, i, target.reference);
    }
    if target.reference in refs && refs[target.reference].id == target.id && refs[target.reference].created <= now - GRACE {
      var i := RefIsTag(images, target.reference);
      assert images[i].id == target.id;
    }
  }

  // ---------- what is kept ----------

  predicate Sorted(complete: map<Sha, int>, ranked: seq<Sha>) {
    && (forall sha | sha in ranked :: sha in complete)
    && (forall i, j | 0 <= i < j < |ranked| :: Newer(complete, ranked[i], ranked[j]))
  }

  lemma {:induction false} RankedIsSorted(complete: map<Sha, int>)
    ensures Sorted(complete, Ranked(complete))
    decreases |complete|
  {
    if complete != map[] {
      var n := Newest(complete);
      RankedIsSorted(complete - {n});
      SortedCons(complete, n, Ranked(complete - {n}));
    }
  }

  lemma SortedCons(complete: map<Sha, int>, n: Sha, rest: seq<Sha>)
    requires IsNewest(complete, n) && Sorted(complete - {n}, rest)
    ensures Sorted(complete, [n] + rest)
  {
    forall j | 0 <= j < |rest|
      ensures rest[j] in complete && Newer(complete, n, rest[j])
    {
      assert rest[j] in complete - {n};
    }
    forall i, j | 0 <= i < j < |rest|
      ensures Newer(complete, rest[i], rest[j])
    {
      assert Newer(complete - {n}, rest[i], rest[j]);
    }
  }

  /** Old enough to roll back to. */
  function Eligible(complete: map<Sha, int>, current: Sha): set<Sha>
    requires current in complete
  {
    set sha | sha in complete && complete[sha] <= complete[current]
  }

  function Min(a: int, b: int): int {
    if a < b then a else b
  }

  /** The chosen releases are distinct, fill the quota as far as there are releases, and are the newest ones. */
  ghost predicate Fills(chosen: seq<Sha>, ranked: seq<Sha>, protected: set<Sha>, complete: map<Sha, int>, current: Sha)
    requires current in complete
  {
    var kept := protected + Elements(chosen);
    && Sorted(complete, chosen)
    && |kept| == |protected| + |chosen|
    && (|kept| >= KEEP || Elements(ranked) * Eligible(complete, current) <= kept)
    && (chosen != [] ==> |kept| <= KEEP)
    && PassedOverAreOlder(complete, chosen, Elements(ranked) * Eligible(complete, current) - kept)
  }

  ghost predicate PassedOverAreOlder(complete: map<Sha, int>, chosen: seq<Sha>, others: set<Sha>) {
    forall b, e | b in chosen && e in others :: b in complete && e in complete && Newer(complete, b, e)
  }

  lemma {:induction false} BootstrapFills(ranked: seq<Sha>, protected: set<Sha>, complete: map<Sha, int>, current: Sha)
    requires current in complete && Sorted(complete, ranked)
    ensures Fills(Bootstrap(ranked, protected, complete, current), ranked, protected, complete, current)
  {
    if ranked != [] && |protected| < KEEP {
      var first, rest := ranked[0], ranked[1..];
      if first !in protected && complete[first] <= complete[current] {
        BootstrapFills(rest, protected + {first}, complete, current);
        FillsTaken(Bootstrap(rest, protected + {first}, complete, current), ranked, protected, complete, current);
      } else {
        BootstrapFills(rest, protected, complete, current);
        FillsSkipped(Bootstrap(rest, protected, complete, current), ranked, protected, complete, current);
      }
    } else {
      FillsNothing(ranked, protected, complete, current);
    }
  }

  lemma FillsNothing(ranked: seq<Sha>, protected: set<Sha>, complete: map<Sha, int>, current: Sha)
    requires current in complete && (ranked == [] || |protected| >= KEEP)
    ensures Fills([], ranked, protected, complete, current)
  {
    assert protected + Elements([]) == protected;
  }

  lemma FillsTaken(tail: seq<Sha>, ranked: seq<Sha>, protected: set<Sha>, complete: map<Sha, int>, current: Sha)
    requires current in complete && Sorted(complete, ranked) && ranked != [] && ranked[0] !in protected
    requires |protected| < KEEP && forall sha | sha in tail :: sha in ranked[1..]
    requires Fills(tail, ranked[1..], protected + {ranked[0]}, complete, current)
    ensures Fills([ranked[0]] + tail, ranked, protected, complete, current)
  {
    var first, rest := ranked[0], ranked[1..];
    TakenFirst(tail, ranked, complete);
    var others := Elements(rest) * Eligible(complete, current) - (protected + {first} + Elements(tail));
    PassedOverByFirst(complete, ranked, tail, others);
    TakenSets(ranked, tail, protected, Eligible(complete, current));
  }

  lemma TakenSets(ranked: seq<Sha>, tail: seq<Sha>, protected: set<Sha>, eligible: set<Sha>)
    requires ranked != [] && ranked[0] !in protected
    ensures |protected + {ranked[0]}| == |protected| + 1
    ensures protected + Elements([ranked[0]] + tail) == protected + {ranked[0]} + Elements(tail)
    ensures var kept := protected + {ranked[0]} + Elements(tail);
            && Elements(ranked) * eligible - kept == Elements(ranked[1..]) * eligible - kept
            && (Elements(ranked[1..]) * eligible <= kept ==> Elements(ranked) * eligible <= kept)
  {
    TakenElements(ranked, tail, protected);
    hide Elements;
  }

  lemma TakenElements(ranked: seq<Sha>, tail: seq<Sha>, protected: set<Sha>)
    requires ranked != []
    ensures Elements(ranked) == {ranked[0]} + Elements(ranked[1..])
    ensures protected + Elements([ranked[0]] + tail) == protected + {ranked[0]} + Elements(tail)
  {
  }

  lemma TakenFirst(tail: seq<Sha>, ranked: seq<Sha>, complete: map<Sha, int>)
    requires Sorted(complete, ranked) && ranked != [] && Sorted(complete, tail)
    requires forall sha | sha in tail :: sha in ranked[1..]
    ensures Sorted(complete, [ranked[0]] + tail)
  {
    FirstIsNewer(complete, ranked);
  }

  lemma PassedOverByFirst(complete: map<Sha, int>, ranked: seq<Sha>, tail: seq<Sha>, others: set<Sha>)
    requires Sorted(complete, ranked) && ranked != [] && others <= Elements(ranked[1..])
    requires PassedOverAreOlder(complete, tail, others)
    ensures PassedOverAreOlder(complete, [ranked[0]] + tail, others)
  {
    FirstIsNewer(complete, ranked);
  }

  lemma FillsSkipped(chosen: seq<Sha>, ranked: seq<Sha>, protected: set<Sha>, complete: map<Sha, int>, current: Sha)
    requires current in complete && ranked != []
    requires ranked[0] in protected || ranked[0] !in Eligible(complete, current)
    requires Fills(chosen, ranked[1..], protected, complete, current)
    ensures Fills(chosen, ranked, protected, complete, current)
  {
    SkippedSets(ranked, protected + Elements(chosen), Eligible(complete, current));
    hide Sorted, Eligible, Elements, PassedOverAreOlder;
  }

  lemma SkippedSets(ranked: seq<Sha>, kept: set<Sha>, eligible: set<Sha>)
    requires ranked != [] && (ranked[0] in kept || ranked[0] !in eligible)
    ensures Elements(ranked) * eligible - kept == Elements(ranked[1..]) * eligible - kept
    ensures Elements(ranked[1..]) * eligible <= kept ==> Elements(ranked) * eligible <= kept
  {
    assert Elements(ranked) == {ranked[0]} + Elements(ranked[1..]);
  }

  lemma FirstIsNewer(complete: map<Sha, int>, ranked: seq<Sha>)
    requires Sorted(complete, ranked) && ranked != []
    ensures forall e | e in ranked[1..] :: Newer(complete, ranked[0], e)
  {
    forall e | e in ranked[1..]
      ensures Newer(complete, ranked[0], e)
    {
      var j :| 0 <= j < |ranked[1..]| && ranked[1..][j] == e;
      assert ranked[1 + j] == e;
    }
  }

  /**
   The rollback set. It holds at least three complete releases, or every complete one that is not newer
   than the running release; and a release the bootstrap passed over is older than all it chose.
   */
  lemma RollbackSetIsFull(snapshot: Snapshot, history: seq<Sha>, candidate: Sha, now: int)
    requires Plannable(snapshot, history)
    ensures var plan := PlanOf(snapshot, history, candidate, now);
            var complete := Complete(RefsOf(snapshot.images));
            var kept := Elements(history) + {plan.current} + Elements(plan.bootstrap);
            && plan.current in complete
            && kept <= complete.Keys
            && |kept| >= Min(3, |kept + Eligible(complete, plan.current)|)
            && (plan.bootstrap != [] ==> |kept| <= 3)
            && PassedOverAreOlder(complete, plan.bootstrap, Eligible(complete, plan.current) - kept)
  {
    var plan := PlanOf(snapshot, history, candidate, now);
    FillsQuota(Complete(RefsOf(snapshot.images)), Elements(history) + {plan.current}, plan.current);
  }

  lemma FillsQuota(complete: map<Sha, int>, protected: set<Sha>, current: Sha)
    requires current in complete
    ensures var chosen := Bootstrap(Ranked(complete), protected, complete, current);
            var kept := protected + Elements(chosen);
            && |kept| >= Min(KEEP, |kept + Eligible(complete, current)|)
            && (chosen != [] ==> |kept| <= KEEP)
            && PassedOverAreOlder(complete, chosen, Eligible(complete, current) - kept)
  {
    var ranked := Ranked(complete);
    RankedIsSorted(complete);
    BootstrapFills(ranked, protected, complete, current);
    assert Elements(ranked) == complete.Keys;
    QuotaMet(Bootstrap(ranked, protected, complete, current), ranked, protected, complete, current);
  }

  lemma QuotaMet(chosen: seq<Sha>, ranked: seq<Sha>, protected: set<Sha>, complete: map<Sha, int>, current: Sha)
    requires current in complete && Elements(ranked) == complete.Keys
    requires Fills(chosen, ranked, protected, complete, current)
    ensures var kept := protected + Elements(chosen);
            && |kept| >= Min(KEEP, |kept + Eligible(complete, current)|)
            && (chosen != [] ==> |kept| <= KEEP)
            && PassedOverAreOlder(complete, chosen, Eligible(complete, current) - kept)
  {
    var kept := protected + Elements(chosen);
    assert Elements(ranked) * Eligible(complete, current) == Eligible(complete, current);
    if |kept| < KEEP {
      assert kept + Eligible(complete, current) == kept;
    }
  }

  // ---------- the stored history ----------

  function Last(history: seq<Sha>, n: nat): seq<Sha> {
    if |history| <= n then history else history[|history| - n..]
  }

  /** The candidate goes to the end, and only the newest entries are kept. */
  function Recorded(history: seq<Sha>, candidate: Sha): seq<Sha> {
    Last(Drop(history, candidate) + [candidate], KEEP)
  }

  /** The history after a run of successful post-deploy passes. */
  function RecordAll(successes: seq<Sha>): seq<Sha> {
    if successes == [] then []
    else Recorded(RecordAll(successes[..|successes| - 1]), successes[|successes| - 1])
  }

  /** The distinct releases of a run in the order of their last success. */
  function ByLastSuccess(successes: seq<Sha>): seq<Sha> {
    if successes == [] then []
    else Drop(ByLastSuccess(successes[..|successes| - 1]), successes[|successes| - 1]) + [successes[|successes| - 1]]
  }

  lemma {:induction false} DropFacts(history: seq<Sha>, sha: Sha)
    ensures forall x :: x in Drop(history, sha) <==> x in history && x != sha
    ensures NoRepeat(history) ==> NoRepeat(Drop(history, sha))
    ensures NoRepeat(history) ==> |Drop(history, sha)| == |history| - (if sha in history then 1 else 0)
    ensures sha !in history ==> Drop(history, sha) == history
  {
    if history != [] {
      var rest := history[1..];
      DropFacts(rest, sha);
      assert history == [history[0]] + rest;
      if NoRepeat(history) {
        assert forall i | 0 <= i < |rest| :: rest[i] == history[i + 1];
        assert history[0] !in rest;
      }
      assert Drop(history, sha) == (if history[0] == sha then [] else [history[0]]) + Drop(rest, sha);
    }
  }

  lemma {:induction false} DropOfAppend(a: seq<Sha>, b: seq<Sha>, sha: Sha)
    ensures Drop(a + b, sha) == Drop(a, sha) + Drop(b, sha)
  {
    if a == [] {
      assert a + b == b;
    } else {
      assert (a + b)[1..] == a[1..] + b;
      DropOfAppend(a[1..], b, sha);
    }
  }

  /** Keeping the newest and then dropping a release is dropping it and then keeping the newest, up to one place. */
  lemma DropOfLast(history: seq<Sha>, sha: Sha)
    requires NoRepeat(history)
    ensures Last(Drop(Last(history, KEEP), sha) + [sha], KEEP) == Last(Drop(history, sha) + [sha], KEEP)
  {
    if |history| > KEEP {
      var cut := |history| - KEEP;
      var older, newer := history[..cut], history[cut..];
      assert history == older + newer;
      DropOfAppend(older, newer, sha);
      DropFacts(older, sha);
      DropFacts(newer, sha);
      if sha in newer {
        assert sha !in older;
        LastOfAppend(older, Drop(newer, sha) + [sha]);
        assert older + (Drop(newer, sha) + [sha]) == Drop(history, sha) + [sha];
      } else {
        NewestStay(Drop(older, sha), newer, sha);
      }
    }
  }

  lemma NewestStay(older: seq<Sha>, newer: seq<Sha>, sha: Sha)
    requires |newer| == KEEP
    ensures Last(newer + [sha], KEEP) == Last(older + newer + [sha], KEEP)
  {
    LastOfAppend([newer[0]], newer[1..] + [sha]);
    LastOfAppend(older + [newer[0]], newer[1..] + [sha]);
    assert [newer[0]] + (newer[1..] + [sha]) == newer + [sha];
    assert older + [newer[0]] + (newer[1..] + [sha]) == older + newer + [sha];
  }

  lemma LastOfAppend(a: seq<Sha>, b: seq<Sha>)
    requires |b| == KEEP
    ensures Last(a + b, KEEP) == b
  {
  }

  /** The stored history is the last three of the whole run of successes, each release counted at its last success. */
  lemma {:induction false} HistoryIsLastThree(successes: seq<Sha>)
    ensures RecordAll(successes) == Last(ByLastSuccess(successes), 3)
    ensures HistoryOk(RecordAll(successes)) && NoRepeat(ByLastSuccess(successes))
    ensures forall sha :: sha in ByLastSuccess(successes) <==> sha in successes
  {
    if successes != [] {
      var init, sha := successes[..|successes| - 1], successes[|successes| - 1];
      HistoryIsLastThree(init);
      assert successes == init + [sha];
      var before := ByLastSuccess(init);
      DropFacts(before, sha);
      DropOfLast(before, sha);
      assert NoRepeat(ByLastSuccess(successes));
      LastIsHistory(ByLastSuccess(successes));
    }
  }

  lemma LastIsHistory(all: seq<Sha>)
    requires NoRepeat(all)
    ensures HistoryOk(Last(all, KEEP))
  {
    var kept := Last(all, KEEP);
    assert forall i | 0 <= i < |kept| :: kept[i] == all[|all| - |kept| + i];
  }

  /** Repeating the pass for the newest release changes nothing. */
  lemma RecordedTwice(history: seq<Sha>, candidate: Sha)
    requires HistoryOk(history)
    ensures Recorded(Recorded(history, candidate), candidate) == Recorded(history, candidate)
    ensures HistoryOk(Recorded(history, candidate))
    ensures Elements(Recorded(history, candidate)) <= Elements(history) + {candidate}
    ensures candidate in Recorded(history, candidate)
  {
    DropFacts(history, candidate);
    var rest := Drop(history, candidate);
    var once := Recorded(history, candidate);
    var kept := once[..|once| - 1];
    assert once == kept + [candidate];
    assert forall i | 0 <= i < |kept| :: kept[i] == rest[|rest| - |kept| + i];
    assert NoRepeat(kept) && candidate !in kept;
    DropOfAppend(kept, [candidate], candidate);
    DropFacts(kept, candidate);
    assert Drop([candidate], candidate) == [];
    assert Drop(once, candidate) == kept;
  }

  /** A history the planner accepted is still accepted with the running release recorded in it. */
  lemma RecordedStaysPlannable(snapshot: Snapshot, history: seq<Sha>, candidate: Sha)
    requires Plannable(snapshot, history) && ActiveShas(snapshot.containers) == {candidate}
    ensures Plannable(snapshot, Recorded(history, candidate))
  {
    RecordedTwice(history, candidate);
    assert forall sha | sha in Recorded(history, candidate) :: sha in Elements(history) + {candidate};
  }
}
