/**
 The planner as the program runs it: one pass over the inventory that fills the reference table,
 a pass over the running containers, the bootstrap loop, and the deletion list.
 */
module ImagePlanner {
  import opened Options
  import opened ImagePlan

  // ---------- the inventory pass ----------

  /** What the pass over one image's first `n` tags has added to the reference table. */
  function TagRefs(image: Image, n: nat): map<Reference, Info>
    requires n <= |image.tags|
  {
    map t | t in image.tags[..n] && t.Managed? :: InfoOf(image)
  }

  lemma TagRefsGrow(image: Image, n: nat)
    requires n < |image.tags|
    ensures TagRefs(image, n + 1) ==
            (if image.tags[n].Managed? then TagRefs(image, n)[image.tags[n] := InfoOf(image)] else TagRefs(image, n))
  {
    assert image.tags[..n + 1] == image.tags[..n] + [image.tags[n]];
  }

  lemma {:induction false} WellTaggedPrefix(images: seq<Image>, n: nat)
    requires n <= |images| && WellTagged(images)
    ensures WellTagged(images[..n])
    decreases |images|
  {
    if n < |images| {
      WellTaggedPrefix(images[..|images| - 1], n);
      assert images[..|images| - 1][..n] == images[..n];
    } else {
      assert images[..n] == images;
    }
  }

  /** The tables after the first `n` tags of an image. */
  ghost predicate Scanned(image: Image, n: nat, refs0: map<Reference, Info>, refs: map<Reference, Info>)
    requires n <= |image.tags|
  {
    && refs == refs0 + TagRefs(image, n)
    && TagRefs(image, n).Keys !! refs0.Keys && ManagedOnce(image.tags[..n])
    && (TagRefs(image, n) != map[] ==> image.created.Some?)
  }

  /** The tags of one image; not `ok` when one is taken already or the image has no valid creation time. */
  method AddImage(image: Image, refs0: map<Reference, Info>) returns (refs: map<Reference, Info>, ok: bool)
    ensures ok <==> ImageOk(image) && ManagedTags(image) !! refs0.Keys
    ensures ok ==> refs == refs0 + OwnRefs(image)
  {
    refs, ok := refs0, true;
    var n := 0;
    while n < |image.tags|
      invariant n <= |image.tags| && Scanned(image, n, refs0, refs)
    {
      var tag := image.tags[n];
      if tag.Managed? {
        if tag in refs {
          TakenTagRefused(image, n, refs0);
          return refs, false;
        }
        ghost var before := refs;
        refs := refs[tag := InfoOf(image)];
        if image.created.None? {
          assert tag in ManagedTags(image);
          return refs, false;
        }
        ScannedManaged(image, n, refs0, before);
      } else {
        ScannedForeign(image, n, refs0, refs);
      }
      n := n + 1;
    }
    ScannedAll(image, refs0, refs);
  }

  lemma ScannedManaged(image: Image, n: nat, refs0: map<Reference, Info>, refs: map<Reference, Info>)
    requires n < |image.tags| && image.tags[n].Managed? && image.tags[n] !in refs && image.created.Some?
    requires Scanned(image, n, refs0, refs)
    ensures var tag := image.tags[n];
            Scanned(image, n + 1, refs0, refs[tag := InfoOf(image)])
  {
    var tag := image.tags[n];
    TagRefsGrow(image, n);
    FreeTagOnce(image, n);
    assert refs[tag := InfoOf(image)] == refs0 + TagRefs(image, n + 1);
  }

  lemma ScannedForeign(image: Image, n: nat, refs0: map<Reference, Info>, refs: map<Reference, Info>)
    requires n < |image.tags| && image.tags[n].Foreign?
    requires Scanned(image, n, refs0, refs)
    ensures Scanned(image, n + 1, refs0, refs)
  {
    TagRefsGrow(image, n);
    assert image.tags[..n + 1] == image.tags[..n] + [image.tags[n]];
  }

  lemma ScannedAll(image: Image, refs0: map<Reference, Info>, refs: map<Reference, Info>)
    requires Scanned(image, |image.tags|, refs0, refs)
    ensures ImageOk(image) && ManagedTags(image) !! refs0.Keys && refs == refs0 + OwnRefs(image)
  {
    assert image.tags[..|image.tags|] == image.tags;
    assert TagRefs(image, |image.tags|) == OwnRefs(image);
    assert OwnRefs(image).Keys == ManagedTags(image);
  }

  lemma FreeTagOnce(image: Image, n: nat)
    requires n < |image.tags| && image.tags[n].Managed? && image.tags[n] !in TagRefs(image, n)
    requires ManagedOnce(image.tags[..n])
    ensures ManagedOnce(image.tags[..n + 1])
  {
    var tags := image.tags[..n + 1];
    forall i, j | 0 <= i < j < |tags| && tags[i].Managed?
      ensures tags[i] != tags[j]
    {
      assert image.tags[..n][i] == tags[i];
      if j < n {
        assert image.tags[..n][j] == tags[j];
      } else {
        assert image.tags[i] in image.tags[..n];
      }
    }
  }

  lemma TakenTagRefused(image: Image, n: nat, refs0: map<Reference, Info>)
    requires n < |image.tags| && image.tags[n].Managed? && image.tags[n] in refs0 + TagRefs(image, n)
    ensures !(ImageOk(image) && ManagedTags(image) !! refs0.Keys)
  {
    var tag := image.tags[n];
    assert tag in ManagedTags(image);
    if tag !in refs0 {
      assert tag in image.tags[..n];
      var k :| 0 <= k < n && image.tags[..n][k] == tag;
      assert image.tags[k] == image.tags[n];
    }
  }

  method ReadImages(images: seq<Image>)
    returns (refs: map<Reference, Info>, aliases: set<ImageId>, ok: bool)
    ensures ok <==> WellTagged(images)
    ensures ok ==> refs == RefsOf(images) && aliases == Aliases(images)
  {
    refs, aliases, ok := map[], {}, true;
    var n := 0;
    while n < |images|
      invariant n <= |images|
      invariant WellTagged(images[..n]) && refs == RefsOf(images[..n])
      invariant aliases == Aliases(images[..n])
    {
      var image := images[n];
      PrefixStep(images, n);
      if exists tag :: tag in image.tags && tag.Foreign? {
        aliases := aliases + {image.id};
      }
      refs, ok := AddImage(image, refs);
      if !ok {
        if WellTagged(images) {
          WellTaggedPrefix(images, n + 1);
        }
        return;
      }
      n := n + 1;
    }
    assert images[..|images|] == images;
  }

  lemma PrefixStep(images: seq<Image>, n: nat)
    requires n < |images|
    ensures WellTagged(images[..n + 1]) <==>
            WellTagged(images[..n]) && ImageOk(images[n]) && ManagedTags(images[n]) !! RefsOf(images[..n]).Keys
    ensures RefsOf(images[..n + 1]) == RefsOf(images[..n]) + OwnRefs(images[n])
    ensures Aliases(images[..n + 1]) == Aliases(images[..n]) + (if HasForeignTag(images[n]) then {images[n].id} else {})
    ensures HasForeignTag(images[n]) <==> exists tag :: tag in images[n].tags && tag.Foreign?
  {
    assert images[..n + 1][..n] == images[..n];
    assert forall i | 0 <= i < n :: images[..n + 1][i] == images[..n][i];
    assert images[..n + 1][n] == images[n];
    AliasesStep(images, n);
    if HasForeignTag(images[n]) {
      var i :| 0 <= i < |images[n].tags| && images[n].tags[i].Foreign?;
      assert images[n].tags[i] in images[n].tags;
    }
  }

  lemma AliasesStep(images: seq<Image>, n: nat)
    requires n < |images|
    ensures Aliases(images[..n + 1]) == Aliases(images[..n]) + (if HasForeignTag(images[n]) then {images[n].id} else {})
  {
    var longer := images[..n + 1];
    forall id | id in Aliases(images[..n])
      ensures id in Aliases(longer)
    {
      var i :| 0 <= i < n && HasForeignTag(images[..n][i]) && images[..n][i].id == id;
      assert longer[i] == images[..n][i];
    }
    if HasForeignTag(images[n]) {
      assert longer[n] == images[n];
    }
  }

  // ---------- the running release ----------

  /** The releases our running containers belong to; not `ok` when the stack is not the one expected. */
  method ReadContainers(containers: seq<Container>, refs: map<Reference, Info>)
    returns (active: set<Sha>, ok: bool)
    ensures ok <==> TopologyOk(containers, refs)
    ensures ok ==> active == ActiveShas(containers)
  {
    active, ok := {}, false;
    if (set c | c in containers && OurRunning(c) :: c.role) != RUNTIME {
      return;
    }
    if exists c :: c in containers && OurRunning(c) && !c.healthy {
      return;
    }
    var n := 0;
    while n < |containers|
      invariant n <= |containers|
      invariant forall c | c in containers[..n] && OurRunning(c) && c.role != Nginx :: RunsRelease(c, refs)
      invariant active == ActiveShas(containers[..n])
    {
      var c := containers[n];
      assert containers[..n + 1] == containers[..n] + [c];
      if OurRunning(c) && c.role != Nginx {
        if !RunsRelease(c, refs) {
          return;
        }
        active := active + {c.reference.sha};
      }
      n := n + 1;
    }
    assert containers[..|containers|] == containers;
    ok := true;
  }

  // ---------- the plan ----------

  lemma BootstrapStep(ranked: seq<Sha>, n: nat, protected: set<Sha>, complete: map<Sha, int>, current: Sha)
    requires n < |ranked| && |protected| < KEEP
    requires current in complete && forall sha | sha in ranked :: sha in complete
    ensures Bootstrap(ranked[n..], protected, complete, current) ==
            if ranked[n] !in protected && complete[ranked[n]] <= complete[current]
            then [ranked[n]] + Bootstrap(ranked[n + 1..], protected + {ranked[n]}, complete, current)
            else Bootstrap(ranked[n + 1..], protected, complete, current)
  {
    assert ranked[n..][1..] == ranked[n + 1..];
  }

  lemma Reassociate(a: seq<Sha>, x: Sha, b: seq<Sha>)
    ensures a + ([x] + b) == a + [x] + b
  {
  }

  /** The bootstrap loop. */
  method ChooseBootstrap(ranked: seq<Sha>, complete: map<Sha, int>, kept: set<Sha>, current: Sha)
    returns (bootstrap: seq<Sha>, protected: set<Sha>)
    requires current in complete && forall sha | sha in ranked :: sha in complete
    ensures bootstrap == Bootstrap(ranked, kept, complete, current)
    ensures protected == kept + Elements(bootstrap)
  {
    bootstrap, protected := [], kept;
    var n := 0;
    while n < |ranked|
      invariant n <= |ranked|
      invariant protected == kept + Elements(bootstrap)
      invariant Bootstrap(ranked, kept, complete, current) == bootstrap + Bootstrap(ranked[n..], protected, complete, current)
    {
      if |protected| >= KEEP {
        break;
      }
      var sha := ranked[n];
      BootstrapStep(ranked, n, protected, complete, current);
      if sha !in protected && complete[sha] <= complete[current] {
        protected := protected + {sha};
        Reassociate(bootstrap, sha, Bootstrap(ranked[n + 1..], protected, complete, current));
        bootstrap := bootstrap + [sha];
      }
      n := n + 1;
    }
  }

  /** From the tables to the plan. */
  method ChooseTargets(snapshot: Snapshot, history: seq<Sha>, candidate: Sha, now: int, current: Sha,
                       refs: map<Reference, Info>, aliases: set<ImageId>, complete: map<Sha, int>) returns (plan: Plan)
    requires Plannable(snapshot, history) && ActiveShas(snapshot.containers) == {current}
    requires refs == RefsOf(snapshot.images) && aliases == Aliases(snapshot.images) && complete == Complete(refs)
    ensures plan == PlanOf(snapshot, history, candidate, now)
  {
    var bootstrap, protected := ChooseBootstrap(Ranked(complete), complete, Elements(history) + {current}, current);
    protected := protected + {candidate};
    var protectedRefs := ProtectedRefs(refs, protected);
    var pinned := (set c | c in snapshot.containers :: c.image) + aliases + protectedRefs.Values;
    plan := Plan(current, history, bootstrap, protected, protectedRefs, Targets(refs, pinned, now));
  }

  /** None is a refusal: nothing is planned and nothing may be deleted. */
  method BuildPlan(snapshot: Snapshot, history: seq<Sha>, candidate: Sha, now: int) returns (plan: Option<Plan>)
    ensures plan.Some? <==> Plannable(snapshot, history)
    ensures plan.Some? ==> plan.value == PlanOf(snapshot, history, candidate, now)
  {
    hide PlanOf, Complete, RefsOf, WellTagged, TopologyOk, ActiveShas, HistoryOk;
    if !HistoryOk(history) {
      return None;
    }
    var refs, aliases, readable := ReadImages(snapshot.images);
    if !readable {
      return None;
    }
    var active, settled := ReadContainers(snapshot.containers, refs);
    if !settled || |active| != 1 {
      return None;
    }
    var current :| current in active;
    OnlyOne(active, current);
    var complete := Complete(refs);
    if current !in complete || exists sha :: sha in history && sha !in complete {
      return None;
    }
    var chosen := ChooseTargets(snapshot, history, candidate, now, current, refs, aliases, complete);
    plan := Some(chosen);
  }
}
