/**
 The planner in terms of the inventory itself: which hosts it accepts, when a release was built, and which
 releases it passes over. Nothing here speaks through the planner's tables.
 */
module RetentionInventory {
  import opened Options
  import opened ImagePlan
  import opened RetentionGuarantees
  import ImageRetention

  // ---------- releases ----------

  predicate Carries(image: Image, service: Service, sha: Sha) {
    Managed(service, sha) in image.tags
  }

  /** Some image carries the service of the release. */
  predicate Has(images: seq<Image>, service: Service, sha: Sha) {
    exists i :: 0 <= i < |images| && Carries(images[i], service, sha)
  }

  predicate IsRelease(images: seq<Image>, sha: Sha) {
    Has(images, Backend, sha) && Has(images, Frontend, sha) && Has(images, Worker, sha)
  }

  /** The creation time of the latest of the three images. */
  ghost predicate BuiltAt(images: seq<Image>, sha: Sha, time: int) {
    && IsRelease(images, sha)
    && (forall i, service | 0 <= i < |images| && Carries(images[i], service, sha) ::
          images[i].created.Some? && images[i].created.value <= time)
    && (exists i, service :: 0 <= i < |images| && Carries(images[i], service, sha) && images[i].created == Some(time))
  }

  lemma HasIffRef(images: seq<Image>, service: Service, sha: Sha)
    requires WellTagged(images)
    ensures Has(images, service, sha) <==> Managed(service, sha) in RefsOf(images)
  {
    var t := Managed(service, sha);
    if i :| 0 <= i < |images| && Carries(images[i], service, sha) {
      TagIsRef(images, i, t);
    }
    if t in RefsOf(images) {
      var i := RefIsTag(images, t);
      assert Carries(images[i], service, sha);
    }
  }

  lemma ReleaseIffComplete(images: seq<Image>, sha: Sha)
    requires WellTagged(images)
    ensures IsRelease(images, sha) <==> sha in Complete(RefsOf(images))
  {
    HasIffRef(images, Backend, sha);
    HasIffRef(images, Frontend, sha);
    HasIffRef(images, Worker, sha);
    if IsRelease(images, sha) {
      assert Managed(Backend, sha).sha in Shas(RefsOf(images));
    }
  }

  lemma ImageOfRef(images: seq<Image>, service: Service, sha: Sha) returns (i: nat)
    requires WellTagged(images) && Managed(service, sha) in RefsOf(images)
    ensures i < |images| && Carries(images[i], service, sha)
    ensures images[i].created == Some(RefsOf(images)[Managed(service, sha)].created)
  {
    i := RefIsTag(images, Managed(service, sha));
  }

  /** The image of each service of a complete release, wherever it is listed, has its time in the table. */
  lemma TimesListed(images: seq<Image>, sha: Sha)
    requires WellTagged(images)
    ensures forall i, service | 0 <= i < |images| && Carries(images[i], service, sha) ::
              && Managed(service, sha) in RefsOf(images)
              && images[i].created == Some(RefsOf(images)[Managed(service, sha)].created)
  {
    forall i, service | 0 <= i < |images| && Carries(images[i], service, sha)
      ensures Managed(service, sha) in RefsOf(images)
      ensures images[i].created == Some(RefsOf(images)[Managed(service, sha)].created)
    {
      TagIsRef(images, i, Managed(service, sha));
    }
  }

  lemma CompleteIsBuilt(images: seq<Image>, sha: Sha)
    requires WellTagged(images) && sha in Complete(RefsOf(images))
    ensures BuiltAt(images, sha, Complete(RefsOf(images))[sha])
  {
    hide RefsOf, WellTagged, IsRelease, Carries;
    ReleaseIffComplete(images, sha);
    TimesListed(images, sha);
    var b := ImageOfRef(images, Backend, sha);
    var f := ImageOfRef(images, Frontend, sha);
    var w := ImageOfRef(images, Worker, sha);
    var time := Complete(RefsOf(images))[sha];
    forall i, service | 0 <= i < |images| && Carries(images[i], service, sha)
      ensures images[i].created.Some? && images[i].created.value <= time
    {
      match service
      case Backend =>
      case Frontend =>
      case Worker =>
    }
    assert images[b].created == Some(time) || images[f].created == Some(time) || images[w].created == Some(time);
  }

  lemma OneBuildTime(images: seq<Image>, sha: Sha, a: int, b: int)
    requires BuiltAt(images, sha, a) && BuiltAt(images, sha, b)
    ensures a == b
  {
  }

  /** The table's time of a complete release is the creation time of its latest image, and no other time is. */
  lemma BuildTimes(images: seq<Image>, sha: Sha, time: int)
    requires WellTagged(images)
    ensures BuiltAt(images, sha, time) <==> sha in Complete(RefsOf(images)) && Complete(RefsOf(images))[sha] == time
  {
    ReleaseIffComplete(images, sha);
    if sha in Complete(RefsOf(images)) {
      CompleteIsBuilt(images, sha);
      if BuiltAt(images, sha, time) {
        OneBuildTime(images, sha, time, Complete(RefsOf(images))[sha]);
      }
    }
  }

  /**
   A chosen rollback release was built no later than the running one, and not before any release passed over;
   of two built at once the larger revision is chosen.
   */
  lemma RollbackIsNewest(snapshot: Snapshot, history: seq<Sha>, candidate: Sha, now: int,
                         chosen: Sha, built: int, other: Sha, otherBuilt: int, running: int)
    requires Plannable(snapshot, history)
    requires var plan := PlanOf(snapshot, history, candidate, now);
             && chosen in plan.bootstrap && other != plan.current && other !in history && other !in plan.bootstrap
             && BuiltAt(snapshot.images, plan.current, running)
    requires BuiltAt(snapshot.images, chosen, built) && BuiltAt(snapshot.images, other, otherBuilt) && otherBuilt <= running
    ensures otherBuilt <= built <= running && (otherBuilt == built ==> other < chosen)
  {
    hide Plannable, PlanOf, Complete, RefsOf, BuiltAt, PassedOverAreOlder, Bootstrap, IsRelease;
    var plan := PlanOf(snapshot, history, candidate, now);
    var complete := Complete(RefsOf(snapshot.images));
    PlannableIsTagged(snapshot, history);
    RollbackSetIsFull(snapshot, history, candidate, now);
    BuildTimes(snapshot.images, chosen, built);
    BuildTimes(snapshot.images, other, otherBuilt);
    BuildTimes(snapshot.images, plan.current, running);
    var kept := Elements(history) + {plan.current} + Elements(plan.bootstrap);
    ChosenIsEligible(snapshot, history, candidate, now, chosen);
    ChosenIsNewer(complete, plan.bootstrap, Eligible(complete, plan.current) - kept, chosen, other);
  }

  lemma PlannableIsTagged(snapshot: Snapshot, history: seq<Sha>)
    requires Plannable(snapshot, history)
    ensures WellTagged(snapshot.images)
  {
  }

  lemma ChosenIsEligible(snapshot: Snapshot, history: seq<Sha>, candidate: Sha, now: int, chosen: Sha)
    requires Plannable(snapshot, history) && chosen in PlanOf(snapshot, history, candidate, now).bootstrap
    ensures var complete, current := Complete(RefsOf(snapshot.images)), PlanOf(snapshot, history, candidate, now).current;
            current in complete && chosen in Eligible(complete, current)
  {
  }

  lemma ChosenIsNewer(complete: map<Sha, int>, bootstrap: seq<Sha>, others: set<Sha>, chosen: Sha, other: Sha)
    requires PassedOverAreOlder(complete, bootstrap, others) && chosen in bootstrap && other in others
    ensures chosen in complete && other in complete
    ensures complete[other] <= complete[chosen] && (complete[other] == complete[chosen] ==> other < chosen)
  {
    assert Newer(complete, chosen, other);
  }

  // ---------- what the planner accepts ----------

  /** Every managed tag occurs once, and managed images have a creation time. */
  predicate Unambiguous(images: seq<Image>) {
    && (forall i, k, l | 0 <= i < |images| && 0 <= k < l < |images[i].tags| && images[i].tags[k].Managed? ::
          images[i].tags[k] != images[i].tags[l])
    && (forall i, j, t | 0 <= i < j < |images| && t in images[i].tags && t.Managed? :: t !in images[j].tags)
    && (forall i, t | 0 <= i < |images| && t in images[i].tags && t.Managed? :: images[i].created.Some?)
  }

  lemma {:induction false} UnambiguousIffWellTagged(images: seq<Image>)
    ensures Unambiguous(images) <==> WellTagged(images)
  {
    if images != [] {
      var n := |images| - 1;
      UnambiguousIffWellTagged(images[..n]);
      if Unambiguous(images) {
        InitIsUnambiguous(images);
        LastIsOwn(images);
      }
      if WellTagged(images) {
        OwnIsUnambiguous(images);
      }
    }
  }

  lemma LastIsOwn(images: seq<Image>)
    requires images != [] && Unambiguous(images) && WellTagged(images[..|images| - 1])
    ensures WellTagged(images)
  {
    var n := |images| - 1;
    forall t | t in ManagedTags(images[n])
      ensures t !in RefsOf(images[..n])
    {
      if t in RefsOf(images[..n]) {
        var i := RefIsTag(images[..n], t);
        assert false;
      }
    }
    assert ImageOk(images[n]) by {
      if t :| t in ManagedTags(images[n]) {
        assert t in images[n].tags;
      }
    }
  }

  lemma InitIsUnambiguous(images: seq<Image>)
    requires images != [] && Unambiguous(images)
    ensures Unambiguous(images[..|images| - 1])
  {
    var init := images[..|images| - 1];
    assert forall i | 0 <= i < |init| :: init[i] == images[i];
  }

  lemma OwnIsUnambiguous(images: seq<Image>)
    requires images != [] && WellTagged(images) && Unambiguous(images[..|images| - 1])
    ensures Unambiguous(images)
  {
    hide RefsOf;
    var n := |images| - 1;
    var init := images[..n];
    assert forall i | 0 <= i < n :: init[i] == images[i];
    assert forall t | t in images[n].tags && t.Managed? :: t in ManagedTags(images[n]);
    forall i, j, t | 0 <= i < j < |images| && t in images[i].tags && t.Managed?
      ensures t !in images[j].tags
    {
      if j == n {
        TagIsRef(init, i, t);
      }
    }
    forall i, t | 0 <= i < |images| && t in images[i].tags && t.Managed?
      ensures images[i].created.Some?
    {
      TagIsRef(images, i, t);
    }
  }

  /** The container runs the image that is tagged with its service of the release; the beat runs the worker's. */
  predicate RunsImage(images: seq<Image>, c: Container, sha: Sha) {
    && c.reference.Managed? && c.reference.sha == sha
    && (c.role == Serves(c.reference.service) || (c.role == Beat && c.reference.service == Worker))
    && exists i :: 0 <= i < |images| && images[i].id == c.image && c.reference in images[i].tags
  }

  predicate Up(snapshot: Snapshot, role: Role) {
    exists c :: c in snapshot.containers && c.ours && c.running && c.role == role
  }

  /** All five services run, and all containers of ours that run are healthy and, but for the proxy, of the release. */
  predicate Stack(snapshot: Snapshot, sha: Sha) {
    && Up(snapshot, Serves(Backend)) && Up(snapshot, Serves(Frontend)) && Up(snapshot, Serves(Worker))
    && Up(snapshot, Beat) && Up(snapshot, Nginx)
    && forall c | c in snapshot.containers && c.ours && c.running ::
         c.healthy && (c.role == Nginx || RunsImage(snapshot.images, c, sha))
  }

  lemma RunsImageIff(images: seq<Image>, c: Container)
    requires WellTagged(images)
    ensures RunsRelease(c, RefsOf(images)) <==> c.reference.Managed? && RunsImage(images, c, c.reference.sha)
  {
    if RunsRelease(c, RefsOf(images)) {
      var i := RefIsTag(images, c.reference);
      assert images[i].id == c.image && c.reference in images[i].tags;
    }
    if c.reference.Managed? && RunsImage(images, c, c.reference.sha) {
      var i :| 0 <= i < |images| && images[i].id == c.image && c.reference in images[i].tags;
      TagIsRef(images, i, c.reference);
    }
  }

  lemma ExpectedRuns(role: Role)
    ensures Expected(role).Some? ==> role in RUNTIME
  {
    if role.Serves? {
      match role.service
      case Backend =>
      case Frontend =>
      case Worker =>
    }
  }

  lemma OfRelease(snapshot: Snapshot, sha: Sha)
    requires WellTagged(snapshot.images) && Stack(snapshot, sha)
    ensures forall c | c in snapshot.containers && OurRunning(c) ::
              c.healthy && c.role in RUNTIME
              && (c.role != Nginx ==> RunsRelease(c, RefsOf(snapshot.images)) && c.reference.sha == sha)
  {
    hide RefsOf, WellTagged;
    forall c | c in snapshot.containers && OurRunning(c)
      ensures c.healthy && c.role in RUNTIME
      ensures c.role != Nginx ==> RunsRelease(c, RefsOf(snapshot.images)) && c.reference.sha == sha
    {
      RunsImageIff(snapshot.images, c);
      ExpectedRuns(c.role);
    }
  }

  lemma StackIsAccepted(snapshot: Snapshot, sha: Sha)
    requires WellTagged(snapshot.images) && Stack(snapshot, sha)
    ensures TopologyOk(snapshot.containers, RefsOf(snapshot.images)) && ActiveShas(snapshot.containers) == {sha}
  {
    hide RefsOf, WellTagged, RunsImage, RunsRelease;
    OfRelease(snapshot, sha);
    var c :| c in snapshot.containers && c.ours && c.running && c.role == Serves(Backend);
    AllUp(snapshot, sha);
    ManagedRuns(c, RefsOf(snapshot.images));
    assert c.reference.sha in ActiveShas(snapshot.containers);
  }

  lemma ManagedRuns(c: Container, refs: map<Reference, Info>)
    requires RunsRelease(c, refs)
    ensures c.reference.Managed?
  {
  }

  lemma AllUp(snapshot: Snapshot, sha: Sha)
    requires Stack(snapshot, sha)
    ensures RUNTIME <= set c | c in snapshot.containers && OurRunning(c) :: c.role
  {
    forall role | role in RUNTIME
      ensures Up(snapshot, role)
    {
    }
  }

  lemma AcceptedIsStack(snapshot: Snapshot, sha: Sha)
    requires WellTagged(snapshot.images)
    requires TopologyOk(snapshot.containers, RefsOf(snapshot.images)) && ActiveShas(snapshot.containers) == {sha}
    ensures Stack(snapshot, sha)
  {
    var cs := snapshot.containers;
    forall c | c in cs && c.ours && c.running
      ensures c.healthy && (c.role == Nginx || RunsImage(snapshot.images, c, sha))
    {
      RunsImageIff(snapshot.images, c);
      assert c.role != Nginx ==> c.reference.sha in ActiveShas(cs);
    }
    forall role | role in RUNTIME
      ensures Up(snapshot, role)
    {
      var roles := set c | c in cs && OurRunning(c) :: c.role;
      assert role in roles;
    }
  }

  /**
   The planner accepts a host if and only if the stored history holds at most three releases, each once, no
   managed tag is ambiguous, one complete release runs on all five services and is healthy, and all releases
   of the history are complete.
   */
  lemma AcceptsExactly(snapshot: Snapshot, history: seq<Sha>)
    ensures Plannable(snapshot, history) <==>
            && |history| <= 3 && NoRepeat(history) && Unambiguous(snapshot.images)
            && (exists sha :: Stack(snapshot, sha) && IsRelease(snapshot.images, sha))
            && (forall sha | sha in history :: IsRelease(snapshot.images, sha))
  {
    hide TopologyOk, RefsOf, Complete, WellTagged, ActiveShas, Unambiguous, IsRelease, NoRepeat, Stack;
    UnambiguousIffWellTagged(snapshot.images);
    if WellTagged(snapshot.images) {
      forall sha
        ensures IsRelease(snapshot.images, sha) <==> sha in Complete(RefsOf(snapshot.images))
      {
        ReleaseIffComplete(snapshot.images, sha);
      }
      if sha :| Stack(snapshot, sha) && IsRelease(snapshot.images, sha) {
        StackIsAccepted(snapshot, sha);
      }
      if Plannable(snapshot, history) {
        var sha := TheOnly(ActiveShas(snapshot.containers));
        AcceptedIsStack(snapshot, sha);
      }
    }
  }

  /** The release the plan calls current is the one that runs. */
  lemma CurrentRuns(snapshot: Snapshot, history: seq<Sha>, candidate: Sha, now: int)
    requires Plannable(snapshot, history)
    ensures Stack(snapshot, PlanOf(snapshot, history, candidate, now).current)
  {
    AcceptedIsStack(snapshot, TheOnly(ActiveShas(snapshot.containers)));
  }

  /** No tag of a stored success, the running release, the candidate or a chosen rollback release is planned. */
  lemma ReleasesStay(snapshot: Snapshot, history: seq<Sha>, candidate: Sha, now: int, target: Target, sha: Sha)
    requires Plannable(snapshot, history) && target in PlanOf(snapshot, history, candidate, now).targets
    requires sha in history || Stack(snapshot, sha) || sha == candidate || sha in PlanOf(snapshot, history, candidate, now).bootstrap
    ensures target.reference.Managed? && target.reference.sha != sha
  {
    var plan := PlanOf(snapshot, history, candidate, now);
    TargetsExactly(snapshot, history, candidate, now, target);
    var i :| 0 <= i < |snapshot.images| && target.reference in snapshot.images[i].tags && target.reference.Managed?
             && snapshot.images[i].id == target.id;
    if Stack(snapshot, sha) {
      StackIsAccepted(snapshot, sha);
    }
    hide Stack, Plannable, TopologyOk;
  }

  /**
   A run goes on exactly on a host the planner accepts and, in the post phase, only if the candidate is the
   release that runs and the public route agrees; only the post phase records it, as the newest success.
   */
  lemma PostPhaseExactly(snapshot: Snapshot, stored: seq<Sha>, candidate: Sha, post: bool, publicOk: bool)
    ensures ImageRetention.Accepts(snapshot, stored, candidate, post, publicOk) <==>
            Plannable(snapshot, stored) && (post ==> publicOk && Stack(snapshot, candidate))
    ensures var kept := ImageRetention.Kept(stored, candidate, post);
            && (!post ==> kept == stored)
            && (post ==> kept == Recorded(stored, candidate) && 1 <= |kept| <= 3 && kept[|kept| - 1] == candidate)
  {
    hide Stack, TopologyOk, ActiveShas, RefsOf, WellTagged, Complete, Drop;
    if Plannable(snapshot, stored) && Stack(snapshot, candidate) {
      StackIsAccepted(snapshot, candidate);
    }
    if Plannable(snapshot, stored) && ActiveShas(snapshot.containers) == {candidate} {
      AcceptedIsStack(snapshot, candidate);
    }
  }
}
