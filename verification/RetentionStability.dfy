/**
 What the plan protects, and that it is stable under its own deletions: untagging a planned target and
 planning again later changes neither the current release nor the rollback set, and keeps every other
 target.
 */
module RetentionStability {
  import opened ImagePlan

  // ---------- untagging ----------

  function Without(tags: seq<Reference>, gone: set<Reference>): (rest: seq<Reference>)
    ensures forall t :: t in rest <==> t in tags && t !in gone
    ensures (forall t | t in tags :: t !in gone) ==> rest == tags
  {
    if tags == [] then []
    else
      var init := Without(tags[..|tags| - 1], gone);
      if tags[|tags| - 1] in gone then init else init + [tags[|tags| - 1]]
  }

  /** `docker image rm` of the tags in `gone`: an image whose last tag goes is removed, an untagged one is not touched. */
  function Untag(images: seq<Image>, gone: set<Reference>): seq<Image> {
    if images == [] then []
    else
      var image := images[|images| - 1];
      var rest := Without(image.tags, gone);
      Untag(images[..|images| - 1], gone) + (if rest == [] && image.tags != [] then [] else [image.(tags := rest)])
  }

  function UntagSnapshot(snapshot: Snapshot, gone: set<Reference>): Snapshot {
    snapshot.(images := Untag(snapshot.images, gone))
  }

  predicate AllManaged(refs: set<Reference>) {
    forall r | r in refs :: r.Managed?
  }

  lemma {:induction false} WithoutKeepsOnce(tags: seq<Reference>, gone: set<Reference>)
    requires ManagedOnce(tags)
    ensures ManagedOnce(Without(tags, gone))
  {
    if tags != [] {
      var init := tags[..|tags| - 1];
      var last := tags[|tags| - 1];
      WithoutKeepsOnce(init, gone);
      if last !in gone && last.Managed? {
        assert forall j | 0 <= j < |init| :: init[j] == tags[j] != last;
        assert last !in Without(init, gone);
      }
    }
  }

  /** Untagging takes exactly those references out of the reference table, and keeps the inventory well tagged. */
  lemma {:induction false} UntagRemovesRefs(images: seq<Image>, gone: set<Reference>)
    requires WellTagged(images)
    ensures WellTagged(Untag(images, gone))
    ensures RefsOf(Untag(images, gone)) == RefsOf(images) - gone
  {
    if images != [] {
      var init := images[..|images| - 1];
      var image := images[|images| - 1];
      var rest := Without(image.tags, gone);
      UntagRemovesRefs(init, gone);
      WithoutKeepsOnce(image.tags, gone);
      var trimmed := image.(tags := rest);
      assert ManagedTags(trimmed) == ManagedTags(image) - gone;
      var out := Untag(images, gone);
      OwnRefsTrimmed(RefsOf(init), image, trimmed, gone);
      if rest == [] && image.tags != [] {
        assert out == Untag(init, gone);
        assert ManagedTags(trimmed) == {};
      } else {
        assert out[..|out| - 1] == Untag(init, gone) && out[|out| - 1] == trimmed;
      }
    }
  }

  lemma OwnRefsTrimmed(refs: map<Reference, Info>, image: Image, trimmed: Image, gone: set<Reference>)
    requires ManagedTags(trimmed) == ManagedTags(image) - gone && InfoOf(trimmed) == InfoOf(image)
    requires ManagedTags(image) !! refs.Keys
    ensures (refs - gone) + OwnRefs(trimmed) == (refs + OwnRefs(image)) - gone
    ensures ManagedTags(trimmed) == {} ==> (refs + OwnRefs(image)) - gone == refs - gone
  {
  }

  /** Foreign tags are never touched, so the aliases stay. */
  lemma {:induction false} UntagKeepsAliases(images: seq<Image>, gone: set<Reference>)
    requires AllManaged(gone)
    ensures Aliases(Untag(images, gone)) == Aliases(images)
  {
    if images != [] {
      var init := images[..|images| - 1];
      var image := images[|images| - 1];
      var rest := Without(image.tags, gone);
      UntagKeepsAliases(init, gone);
      ForeignTagStays(image, gone);
      AliasesAppend(init, image);
      assert images == init + [image];
      if rest == [] && image.tags != [] {
        assert Untag(images, gone) == Untag(init, gone);
        assert !HasForeignTag(image.(tags := rest));
      } else {
        AliasesAppend(Untag(init, gone), image.(tags := rest));
      }
    }
  }

  lemma ForeignTagStays(image: Image, gone: set<Reference>)
    requires AllManaged(gone)
    ensures HasForeignTag(image) == HasForeignTag(image.(tags := Without(image.tags, gone)))
  {
    var trimmed := image.(tags := Without(image.tags, gone));
    if HasForeignTag(image) {
      var i :| 0 <= i < |image.tags| && image.tags[i].Foreign?;
      assert image.tags[i] in trimmed.tags;
    }
    if HasForeignTag(trimmed) {
      var i :| 0 <= i < |trimmed.tags| && trimmed.tags[i].Foreign?;
      assert trimmed.tags[i] in image.tags;
    }
  }

  lemma AliasesAppend(images: seq<Image>, image: Image)
    ensures Aliases(images + [image]) == Aliases(images) + (if HasForeignTag(image) then {image.id} else {})
  {
    var longer := images + [image];
    forall id | id in Aliases(images)
      ensures id in Aliases(longer)
    {
      var i :| 0 <= i < |images| && HasForeignTag(images[i]) && images[i].id == id;
      assert longer[i] == images[i];
    }
    if HasForeignTag(image) {
      assert longer[|images|] == image;
    }
  }

  lemma {:induction false} UntagTwice(images: seq<Image>, first: set<Reference>, second: set<Reference>)
    ensures Untag(Untag(images, first), second) == Untag(images, first + second)
  {
    if images != [] {
      var init := images[..|images| - 1];
      var image := images[|images| - 1];
      UntagTwice(init, first, second);
      var rest := Without(image.tags, first);
      WithoutTwice(image.tags, first, second);
      var once := Untag(images, first);
      if rest == [] && image.tags != [] {
        assert once == Untag(init, first);
      } else {
        assert once[..|once| - 1] == Untag(init, first) && once[|once| - 1] == image.(tags := rest);
      }
    }
  }

  lemma {:induction false} WithoutTwice(tags: seq<Reference>, first: set<Reference>, second: set<Reference>)
    ensures Without(Without(tags, first), second) == Without(tags, first + second)
  {
    if tags != [] {
      var init := tags[..|tags| - 1];
      var last := tags[|tags| - 1];
      WithoutTwice(init, first, second);
      var once := Without(tags, first);
      if last !in first {
        assert once == Without(init, first) + [last];
        assert once[..|once| - 1] == Without(init, first);
      }
    }
  }

  lemma {:induction false} UntagNothing(images: seq<Image>)
    ensures Untag(images, {}) == images
  {
    if images != [] {
      UntagNothing(images[..|images| - 1]);
      assert images == images[..|images| - 1] + [images[|images| - 1]];
    }
  }

  function Untagged(refs: map<Reference, Info>, gone: set<Reference>): set<ImageId> {
    set r | r in refs && r in gone :: refs[r].id
  }

  /** Only images whose last tag was untagged disappear. */
  lemma {:induction false} UntagDeletes(images: seq<Image>, gone: set<Reference>)
    requires WellTagged(images) && AllManaged(gone)
    ensures Ids(images) - Ids(Untag(images, gone)) <= Untagged(RefsOf(images), gone)
  {
    if images != [] {
      var init := images[..|images| - 1];
      var image := images[|images| - 1];
      UntagDeletes(init, gone);
      UntaggedGrows(RefsOf(init), image, gone);
      IdsStep(images);
      UntagStep(images, gone);
    }
  }

  lemma IdsStep(images: seq<Image>)
    requires images != []
    ensures Ids(images) == Ids(images[..|images| - 1]) + {images[|images| - 1].id}
  {
    IdsAppend(images[..|images| - 1], images[|images| - 1]);
    assert images == images[..|images| - 1] + [images[|images| - 1]];
  }

  lemma UntagStep(images: seq<Image>, gone: set<Reference>)
    requires images != [] && AllManaged(gone)
    ensures var init := images[..|images| - 1];
            var image := images[|images| - 1];
            || (Ids(Untag(images, gone)) == Ids(Untag(init, gone)) && ManagedTags(image) * gone != {})
            || Ids(Untag(images, gone)) == Ids(Untag(init, gone)) + {image.id}
  {
    var image := images[|images| - 1];
    var rest := Without(image.tags, gone);
    if rest == [] && image.tags != [] {
      DroppedImage(image, gone);
      assert Untag(images, gone) == Untag(images[..|images| - 1], gone);
    } else {
      IdsAppend(Untag(images[..|images| - 1], gone), image.(tags := rest));
    }
  }

  lemma DroppedImage(image: Image, gone: set<Reference>)
    requires AllManaged(gone) && image.tags != [] && Without(image.tags, gone) == []
    ensures ManagedTags(image) * gone != {}
  {
    assert image.tags[0] !in Without(image.tags, gone);
    assert image.tags[0] in ManagedTags(image) * gone;
  }

  lemma UntaggedGrows(refs: map<Reference, Info>, image: Image, gone: set<Reference>)
    requires ManagedTags(image) !! refs.Keys
    ensures Untagged(refs, gone) <= Untagged(refs + OwnRefs(image), gone)
    ensures ManagedTags(image) * gone != {} ==> image.id in Untagged(refs + OwnRefs(image), gone)
  {
    var all := refs + OwnRefs(image);
    forall id | id in Untagged(refs, gone)
      ensures id in Untagged(all, gone)
    {
      var r :| r in refs && r in gone && refs[r].id == id;
      assert r in all && all[r] == refs[r];
    }
    if t :| t in ManagedTags(image) * gone {
      assert t in all && all[t].id == image.id;
    }
  }

  lemma IdsAppend(images: seq<Image>, image: Image)
    ensures Ids(images + [image]) == Ids(images) + {image.id}
  {
    var longer := images + [image];
    forall id | id in Ids(images)
      ensures id in Ids(longer)
    {
      var i :| 0 <= i < |images| && images[i].id == id;
      assert longer[i] == images[i];
    }
    assert longer[|images|] == image;
  }

  // ---------- ranking and bootstrap ----------

  lemma {:induction false} DropAbsent(ranked: seq<Sha>, sha: Sha)
    requires sha !in ranked
    ensures Drop(ranked, sha) == ranked
  {
    if ranked != [] {
      DropAbsent(ranked[1..], sha);
    }
  }

  lemma NewestStays(complete: map<Sha, int>, sha: Sha)
    requires sha in complete && Newest(complete) != sha
    ensures complete - {sha} != map[] && Newest(complete - {sha}) == Newest(complete)
  {
    var n := Newest(complete);
    var fewer := complete - {sha};
    assert n in fewer;
    assert IsNewest(fewer, n);
    NewestIsUnique(fewer, n, Newest(fewer));
  }

  lemma RemovalsCommute(complete: map<Sha, int>, a: Sha, b: Sha)
    ensures complete - {a} - {b} == complete - {b} - {a}
  {
  }

  lemma RankedUnfolds(complete: map<Sha, int>)
    requires complete != map[]
    ensures Ranked(complete) == [Newest(complete)] + Ranked(complete - {Newest(complete)})
  {
  }

  lemma DropUnfolds(first: Sha, ranked: seq<Sha>, sha: Sha)
    ensures Drop([first] + ranked, sha) == (if first == sha then [] else [first]) + Drop(ranked, sha)
  {
    assert ([first] + ranked)[1..] == ranked;
  }

  /** Removing a release from the table removes it from the ranking and moves nothing else. */
  lemma {:induction false} RankedWithout(complete: map<Sha, int>, sha: Sha)
    requires sha in complete
    ensures Ranked(complete - {sha}) == Drop(Ranked(complete), sha)
    decreases |complete|
  {
    var n := Newest(complete);
    var rest := complete - {n};
    RankedUnfolds(complete);
    DropUnfolds(n, Ranked(rest), sha);
    if sha == n {
      DropAbsent(Ranked(rest), sha);
    } else {
      RankedWithout(rest, sha);
      NewestStays(complete, sha);
      RankedUnfolds(complete - {sha});
      RemovalsCommute(complete, sha, n);
    }
  }

  /** A release the bootstrap loop does not choose can go without changing what it chooses. */
  lemma {:induction false} BootstrapWithout(ranked: seq<Sha>, protected: set<Sha>, complete: map<Sha, int>, current: Sha, sha: Sha)
    requires current in complete && current != sha && forall x | x in ranked :: x in complete
    requires sha !in Bootstrap(ranked, protected, complete, current)
    ensures forall x | x in Drop(ranked, sha) :: x in complete - {sha}
    ensures Bootstrap(Drop(ranked, sha), protected, complete - {sha}, current) == Bootstrap(ranked, protected, complete, current)
  {
    if ranked == [] {
    } else if |protected| >= KEEP {
      DropIsPart(ranked, sha);
    } else {
      var taken := ranked[0] !in protected && complete[ranked[0]] <= complete[current];
      var protected' := if taken then protected + {ranked[0]} else protected;
      BootstrapWithout(ranked[1..], protected', complete, current, sha);
      if ranked[0] != sha {
        assert Drop(ranked, sha)[1..] == Drop(ranked[1..], sha);
      }
    }
  }

  lemma {:induction false} DropIsPart(ranked: seq<Sha>, sha: Sha)
    ensures forall x | x in Drop(ranked, sha) :: x in ranked && x != sha
  {
    if ranked != [] {
      DropIsPart(ranked[1..], sha);
    }
  }

  // ---------- one deletion ----------

  /** Losing one tag of a release makes at most that release incomplete, and rebuilds no other. */
  lemma CompleteAfterUntag(refs: map<Reference, Info>, target: Reference)
    requires target.Managed? && target in refs
    ensures Complete(refs - {target}) == Complete(refs) - {target.sha}
  {
    var fewer := refs - {target};
    forall sha
      ensures sha in Complete(fewer) <==> sha in Complete(refs) && sha != target.sha
      ensures sha in Complete(fewer) ==> Complete(fewer)[sha] == Complete(refs)[sha]
    {
      if sha in Complete(refs) && sha != target.sha {
        assert IsComplete(fewer, sha);
        assert Managed(Backend, sha) in fewer.Keys;
        assert sha in Shas(fewer);
      }
      if sha in Complete(fewer) {
        assert Managed(Backend, sha) in refs.Keys;
        assert IsComplete(refs, sha) && sha in Shas(refs);
        assert target.service == Backend || target.service == Frontend || target.service == Worker;
      }
    }
  }

  /** Containers keep seeing their images: none of them runs a target. */
  lemma TopologyAfterUntag(snapshot: Snapshot, refs: map<Reference, Info>, target: Reference)
    requires TopologyOk(snapshot.containers, refs)
    requires target in refs && refs[target].id !in (set c | c in snapshot.containers :: c.image)
    ensures TopologyOk(snapshot.containers, refs - {target})
  {
    forall c | c in snapshot.containers && OurRunning(c) && c.role != Nginx
      ensures RunsRelease(c, refs - {target})
    {
      assert RunsRelease(c, refs);
    }
  }

  /** What does not depend on the clock, and how the targets do: waiting only adds targets. */
  lemma PlanLater(snapshot: Snapshot, history: seq<Sha>, candidate: Sha, now: int, later: int)
    requires Plannable(snapshot, history) && now <= later
    ensures var p := PlanOf(snapshot, history, candidate, now);
            var q := PlanOf(snapshot, history, candidate, later);
            q == p.(targets := q.targets) && p.targets <= q.targets
  {
    var p := PlanOf(snapshot, history, candidate, now);
    var q := PlanOf(snapshot, history, candidate, later);
    assert q.protectedRefs == p.protectedRefs;
    forall t | t in p.targets
      ensures t in q.targets
    {
      assert t.reference in RefsOf(snapshot.images);
    }
  }

  /** A target belongs to no protected release. */
  lemma TargetIsUnprotected(snapshot: Snapshot, history: seq<Sha>, candidate: Sha, now: int, target: Target)
    requires Plannable(snapshot, history) && target in PlanOf(snapshot, history, candidate, now).targets
    ensures var refs := RefsOf(snapshot.images);
            var plan := PlanOf(snapshot, history, candidate, now);
            && target.reference in refs && refs[target.reference].id == target.id
            && target.id !in Pinned(snapshot, plan.protectedRefs)
            && target.reference.Managed? && target.reference.sha !in plan.protected
  {
    RefsAreManaged(snapshot.images);
    var plan := PlanOf(snapshot, history, candidate, now);
    ProtectedIsPinned(snapshot, RefsOf(snapshot.images), plan.protected, target.reference);
  }

  lemma ProtectedIsPinned(snapshot: Snapshot, refs: map<Reference, Info>, protected: set<Sha>, r: Reference)
    requires r in refs && r.Managed?
    ensures r.sha in protected ==> refs[r].id in Pinned(snapshot, ProtectedRefs(refs, protected))
  {
    var held := ProtectedRefs(refs, protected);
    if r.sha in protected {
      assert r in held && held[r] in held.Values;
    }
  }

  lemma {:induction false} RefsAreManaged(images: seq<Image>)
    ensures AllManaged(RefsOf(images).Keys)
  {
    if images != [] {
      RefsAreManaged(images[..|images| - 1]);
    }
  }

  /**
   Untagging one planned target and planning again, at the same time: the planner does not refuse, the
   current release, the rollback candidates and every protected reference are the same, and the other
   targets are still targets.
   */
  lemma PlanAfterUntag(snapshot: Snapshot, history: seq<Sha>, candidate: Sha, now: int, target: Target)
    requires Plannable(snapshot, history) && target in PlanOf(snapshot, history, candidate, now).targets
    ensures var p := PlanOf(snapshot, history, candidate, now);
            var after := UntagSnapshot(snapshot, {target.reference});
            && Plannable(after, history)
            && var q := PlanOf(after, history, candidate, now);
               && q == p.(targets := q.targets)
               && p.targets - {target} <= q.targets
  {
    var refs := RefsOf(snapshot.images);
    var p := PlanOf(snapshot, history, candidate, now);
    TargetIsUnprotected(snapshot, history, candidate, now, target);
    PlannableAfterUntag(snapshot, history, target.reference);
    BootstrapAfterUntag(Complete(refs), Elements(history) + {p.current}, p.current, target.reference.sha);
    TargetsAfterUntag(snapshot, refs, p.protected, target, now);
  }

  lemma PlannableAfterUntag(snapshot: Snapshot, history: seq<Sha>, target: Reference)
    requires Plannable(snapshot, history)
    requires target.Managed? && target in RefsOf(snapshot.images)
    requires RefsOf(snapshot.images)[target].id !in (set c | c in snapshot.containers :: c.image)
    requires target.sha !in ActiveShas(snapshot.containers) && target.sha !in history
    ensures var after := UntagSnapshot(snapshot, {target});
            && Plannable(after, history)
            && RefsOf(after.images) == RefsOf(snapshot.images) - {target}
            && Complete(RefsOf(after.images)) == Complete(RefsOf(snapshot.images)) - {target.sha}
            && Aliases(after.images) == Aliases(snapshot.images)
  {
    UntagRemovesRefs(snapshot.images, {target});
    UntagKeepsAliases(snapshot.images, {target});
    TopologyAfterUntag(snapshot, RefsOf(snapshot.images), target);
    CompleteAfterUntag(RefsOf(snapshot.images), target);
  }

  /** What an unprotected release's removal leaves of the rollback candidates: all of them. */
  lemma BootstrapAfterUntag(complete: map<Sha, int>, kept: set<Sha>, current: Sha, sha: Sha)
    requires current in complete && current != sha
    requires sha !in Bootstrap(Ranked(complete), kept, complete, current)
    ensures Bootstrap(Ranked(complete - {sha}), kept, complete - {sha}, current) == Bootstrap(Ranked(complete), kept, complete, current)
  {
    if sha in complete {
      RankedWithout(complete, sha);
      BootstrapWithout(Ranked(complete), kept, complete, current, sha);
    } else {
      assert complete - {sha} == complete;
    }
  }

  lemma TargetsAfterUntag(snapshot: Snapshot, refs: map<Reference, Info>, protected: set<Sha>, target: Target, now: int)
    requires target.reference.Managed? && target.reference.sha !in protected
    requires target in Targets(refs, Pinned(snapshot, ProtectedRefs(refs, protected)), now)
    requires Aliases(UntagSnapshot(snapshot, {target.reference}).images) == Aliases(snapshot.images)
    ensures var after := UntagSnapshot(snapshot, {target.reference});
            var fewer := refs - {target.reference};
            && ProtectedRefs(fewer, protected) == ProtectedRefs(refs, protected)
            && Targets(refs, Pinned(snapshot, ProtectedRefs(refs, protected)), now) - {target}
               <= Targets(fewer, Pinned(after, ProtectedRefs(fewer, protected)), now)
  {
    var after := UntagSnapshot(snapshot, {target.reference});
    var fewer := refs - {target.reference};
    assert ProtectedRefs(fewer, protected) == ProtectedRefs(refs, protected);
    assert Pinned(after, ProtectedRefs(fewer, protected)) == Pinned(snapshot, ProtectedRefs(refs, protected));
    forall t | t in Targets(refs, Pinned(snapshot, ProtectedRefs(refs, protected)), now) && t != target
      ensures t in Targets(fewer, Pinned(after, ProtectedRefs(fewer, protected)), now)
    {
      var r :| r in refs && t == Target(r, refs[r].id);
      assert r in fewer && fewer[r] == refs[r];
    }
  }

  /** The same at any later time: the form the delete loop meets. */
  lemma PlanIsStable(snapshot: Snapshot, history: seq<Sha>, candidate: Sha, now: int, later: int, target: Target)
    requires Plannable(snapshot, history) && target in PlanOf(snapshot, history, candidate, now).targets && now <= later
    ensures var p := PlanOf(snapshot, history, candidate, now);
            var after := UntagSnapshot(snapshot, {target.reference});
            && Plannable(after, history)
            && var q := PlanOf(after, history, candidate, later);
               && q == p.(targets := q.targets)
               && p.targets - {target} <= q.targets
  {
    PlanAfterUntag(snapshot, history, candidate, now, target);
    PlanLater(UntagSnapshot(snapshot, {target.reference}), history, candidate, now, later);
  }
}
