/**
 The retention run on a host: read, plan, optionally record the release, and delete the planned tags one
 by one with a fresh plan before each. Anything else on the host may change between two operations of
 the run: `outside` says what other processes made of the host before its n-th operation.
 */
module ImageRetention {
  import opened Options
  import opened ImagePlan
  import opened ImagePlanner
  import opened RetentionStability
  import opened RetentionGuarantees

  datatype World = World(snapshot: Snapshot, stored: seq<Sha>)
  datatype Outcome = Refused | Planned | Completed | OutOfSpace

  /** One `docker image rm`: the inventory it was decided on, and when. */
  datatype Removal = Removal(seen: Snapshot, at: int, target: Target)

  // ---------- the checks ----------

  predicate Holds(protectedRefs: map<Reference, ImageId>, renewed: map<Reference, ImageId>) {
    forall r | r in protectedRefs :: r in renewed && renewed[r] == protectedRefs[r]
  }

  /** The containers by what they run; the order of the listing does not count. */
  function Identity(snapshot: Snapshot): multiset<(nat, ImageId, Reference)> {
    multiset(seq(|snapshot.containers|, i requires 0 <= i < |snapshot.containers| =>
      (snapshot.containers[i].id, snapshot.containers[i].image, snapshot.containers[i].reference)))
  }

  function TargetRefs(targets: set<Target>): set<Reference> {
    set t | t in targets :: t.reference
  }

  function TargetIds(targets: set<Target>): set<ImageId> {
    set t | t in targets :: t.id
  }

  /** Every deletion was planned at the start, and planned again on a fresh inventory that still held all that is protected. */
  ghost predicate Justified(removal: Removal, plan: Plan, candidate: Sha) {
    && removal.target in plan.targets
    && Plannable(removal.seen, plan.history)
    && var renewed := PlanOf(removal.seen, plan.history, candidate, removal.at);
    && removal.target in renewed.targets && Holds(plan.protectedRefs, renewed.protectedRefs)
  }

  ghost predicate AllJustified(removals: seq<Removal>, plan: Plan, candidate: Sha) {
    forall removal | removal in removals :: Justified(removal, plan, candidate)
  }

  lemma BothJustified(a: seq<Removal>, b: seq<Removal>, plan: Plan, candidate: Sha)
    requires AllJustified(a, plan, candidate) && AllJustified(b, plan, candidate)
    ensures AllJustified(a + b, plan, candidate)
  {
  }

  /** The loop's next target; the order of the list does not matter for what follows. */
  method AnyLeft(targets: set<Target>, done: set<Target>) returns (target: Target)
    requires done < targets
    ensures target in targets - done
  {
    assert exists t :: t in targets && t !in done;
    target :| target in targets && target !in done;
  }

  /** The release the run accepts: in the post phase it must be the candidate, and the public route must agree. */
  ghost predicate Accepts(snapshot: Snapshot, stored: seq<Sha>, candidate: Sha, post: bool, publicOk: bool) {
    && Plannable(snapshot, stored)
    && (post ==> ActiveShas(snapshot.containers) == {candidate} && publicOk)
  }

  function Kept(stored: seq<Sha>, candidate: Sha, post: bool): seq<Sha> {
    if post then Recorded(stored, candidate) else stored
  }

  // ---------- a whole undisturbed run ----------

  /** Planning again after the deletions `done`: nothing protected has changed and the rest is still to delete. */
  ghost predicate Stable(before: Snapshot, history: seq<Sha>, candidate: Sha, now: int, done: set<Target>, later: int)
    requires Plannable(before, history)
  {
    var p := PlanOf(before, history, candidate, now);
    var after := UntagSnapshot(before, TargetRefs(done));
    && Plannable(after, history)
    && var q := PlanOf(after, history, candidate, later);
       && q == p.(targets := q.targets)
       && p.targets - done <= q.targets
  }

  /** The plan is stable under any of its own deletions, at any later time. */
  lemma {:induction false} StableRun(before: Snapshot, history: seq<Sha>, candidate: Sha, now: int, done: set<Target>, later: int)
    requires Plannable(before, history) && now <= later
    requires done <= PlanOf(before, history, candidate, now).targets
    ensures Stable(before, history, candidate, now, done, later)
    decreases |done|
  {
    if done == {} {
      assert TargetRefs(done) == {};
      UntagNothing(before.images);
      assert UntagSnapshot(before, {}) == before;
      PlanLater(before, history, candidate, now, later);
    } else {
      var t :| t in done;
      StableRun(before, history, candidate, now, done - {t}, now);
      StableStep(before, history, candidate, now, done - {t}, t, later);
      AddedBack(done, t);
    }
  }

  lemma AddedBack(done: set<Target>, t: Target)
    requires t in done
    ensures done - {t} + {t} == done
  {
  }

  lemma StableStep(before: Snapshot, history: seq<Sha>, candidate: Sha, now: int, done: set<Target>, t: Target, later: int)
    requires Plannable(before, history) && now <= later && Stable(before, history, candidate, now, done, now)
    requires t in PlanOf(before, history, candidate, now).targets - done
    ensures Stable(before, history, candidate, now, done + {t}, later)
  {
    var between := UntagSnapshot(before, TargetRefs(done));
    assert t in PlanOf(between, history, candidate, now).targets;
    PlanIsStable(between, history, candidate, now, later, t);
    UntagNext(before, done, t);
  }

  lemma UntagNext(before: Snapshot, done: set<Target>, t: Target)
    ensures UntagSnapshot(UntagSnapshot(before, TargetRefs(done)), {t.reference}) == UntagSnapshot(before, TargetRefs(done + {t}))
  {
    UntagTwice(before.images, TargetRefs(done), {t.reference});
    assert TargetRefs(done + {t}) == TargetRefs(done) + {t.reference};
  }

  /** What the deletion loop meets on an undisturbed host after the deletions `done`. */
  lemma StillPlanned(before: Snapshot, plan: Plan, candidate: Sha, now: int, done: set<Target>, seen: Snapshot, at: int)
    requires Plannable(before, plan.history) && plan == PlanOf(before, plan.history, candidate, now) && now <= at
    requires done <= plan.targets && seen == UntagSnapshot(before, TargetRefs(done))
    ensures Plannable(seen, plan.history)
    ensures var again := PlanOf(seen, plan.history, candidate, at);
            Holds(plan.protectedRefs, again.protectedRefs) && plan.targets - done <= again.targets
  {
    StableRun(before, plan.history, candidate, now, done, at);
  }

  /** No image disappears but those planned for deletion. */
  lemma OnlyTargetsDisappear(before: Snapshot, history: seq<Sha>, candidate: Sha, now: int)
    requires Plannable(before, history)
    ensures var p := PlanOf(before, history, candidate, now);
            Ids(before.images) - Ids(UntagSnapshot(before, TargetRefs(p.targets)).images) <= TargetIds(p.targets)
  {
    var p := PlanOf(before, history, candidate, now);
    var gone := TargetRefs(p.targets);
    var refs := RefsOf(before.images);
    forall t | t in p.targets
      ensures t.reference.Managed? && t.reference in refs && t.id == refs[t.reference].id
    {
      TargetIsUnprotected(before, history, candidate, now, t);
    }
    UntagDeletes(before.images, gone);
    forall id | id in Untagged(refs, gone)
      ensures id in TargetIds(p.targets)
    {
      var r :| r in refs && r in gone && refs[r].id == id;
      var t :| t in p.targets && t.reference == r;
      assert t.id == id;
    }
  }

  class Host {
    var snapshot: Snapshot
    var stored: seq<Sha>
    var operations: nat
    ghost var removals: seq<Removal>
    const outside: nat -> Option<World>
    const clock: nat -> int

    constructor (snapshot: Snapshot, stored: seq<Sha>, outside: nat -> Option<World>, clock: nat -> int)
      ensures this.snapshot == snapshot && this.stored == stored && removals == []
      ensures this.outside == outside && this.clock == clock
    {
      this.snapshot, this.stored, this.operations, this.removals := snapshot, stored, 0, [];
      this.outside, this.clock := outside, clock;
    }

    /** Nobody else changes the host, and its clock does not run back behind the start of the run. */
    ghost predicate Quiet(now: int) {
      forall n: nat :: outside(n).None? && now <= clock(n)
    }

    method Interfere()
      modifies this`snapshot, this`stored, this`operations
      ensures (forall n: nat :: outside(n).None?) ==> snapshot == old(snapshot) && stored == old(stored)
    {
      match outside(operations) {
        case None =>
        case Some(world) => snapshot, stored := world.snapshot, world.stored;
      }
      operations := operations + 1;
    }

    method Inventory() returns (seen: Snapshot)
      modifies this`snapshot, this`stored, this`operations
      ensures seen == snapshot
      ensures (forall n: nat :: outside(n).None?) ==> snapshot == old(snapshot) && stored == old(stored)
    {
      Interfere();
      seen := snapshot;
    }

    method LoadHistory() returns (history: seq<Sha>)
      modifies this`snapshot, this`stored, this`operations
      ensures history == stored
      ensures (forall n: nat :: outside(n).None?) ==> snapshot == old(snapshot) && stored == old(stored)
    {
      Interfere();
      history := stored;
    }

    method SaveHistory(history: seq<Sha>)
      modifies this`snapshot, this`stored, this`operations
      ensures stored == history
      ensures (forall n: nat :: outside(n).None?) ==> snapshot == old(snapshot)
    {
      Interfere();
      stored := history;
    }

    method RemoveTag(target: Target, seen: Snapshot, at: int)
      modifies this`snapshot, this`stored, this`operations, this`removals
      ensures removals == old(removals) + [Removal(seen, at, target)]
      ensures (forall n: nat :: outside(n).None?) ==>
                snapshot == UntagSnapshot(old(snapshot), {target.reference}) && stored == old(stored)
    {
      Interfere();
      snapshot := UntagSnapshot(snapshot, {target.reference});
      removals := removals + [Removal(seen, at, target)];
    }

    /** The plan on a fresh inventory; None refuses, also when anything protected is gone or points elsewhere. */
    method Replan(plan: Plan, candidate: Sha) returns (seen: Snapshot, at: int, renewed: Option<Plan>)
      modifies this`snapshot, this`stored, this`operations
      ensures (forall n: nat :: outside(n).None?) ==> snapshot == old(snapshot) && stored == old(stored)
      ensures seen == snapshot && exists n: nat :: at == clock(n)
      ensures renewed.Some? <==>
              Plannable(seen, plan.history)
              && Holds(plan.protectedRefs, PlanOf(seen, plan.history, candidate, at).protectedRefs)
      ensures renewed.Some? ==> renewed.value == PlanOf(seen, plan.history, candidate, at)
    {
      seen := Inventory();
      at := clock(operations);
      renewed := BuildPlan(seen, plan.history, candidate, at);
      if renewed.Some? && !Holds(plan.protectedRefs, renewed.value.protectedRefs) {
        renewed := None;
      }
    }

    /** The plan of the run, with the candidate recorded in the post phase. */
    method Decide(before: Snapshot, history: seq<Sha>, candidate: Sha, post: bool, publicOk: bool, now: int)
      returns (plan: Option<Plan>)
      ensures plan.Some? <==> Accepts(before, history, candidate, post, publicOk)
      ensures plan.Some? ==>
                && Plannable(before, Kept(history, candidate, post))
                && plan.value == PlanOf(before, Kept(history, candidate, post), candidate, now)
    {
      plan := BuildPlan(before, history, candidate, now);
      if plan.Some? && post {
        if plan.value.current != candidate || !publicOk {
          return None;
        }
        RecordedStaysPlannable(before, history, candidate);
        plan := BuildPlan(before, Recorded(history, candidate), candidate, now);
      }
    }

    /** One turn of the deletion loop; it stops the run when the fresh plan or the stored history forbid to go on. */
    method DeleteOne(ghost before: Snapshot, plan: Plan, candidate: Sha, ghost now: int, ghost done: set<Target>, target: Target)
      returns (goOn: bool, ghost made: seq<Removal>)
      requires Plannable(before, plan.history) && plan == PlanOf(before, plan.history, candidate, now)
      requires done <= plan.targets && target in plan.targets - done
      modifies this`snapshot, this`stored, this`operations, this`removals
      ensures removals == old(removals) + made && AllJustified(made, plan, candidate)
      ensures Quiet(now) && old(snapshot) == UntagSnapshot(before, TargetRefs(done)) && old(stored) == plan.history ==>
                goOn && snapshot == UntagSnapshot(before, TargetRefs(done + {target})) && stored == plan.history
    {
      hide PlanOf, Plannable;
      made := [];
      var seen, at, renewed := Replan(plan, candidate);
      if Quiet(now) && old(snapshot) == UntagSnapshot(before, TargetRefs(done)) {
        StillPlanned(before, plan, candidate, now, done, seen, at);
        UntagNext(before, done, target);
      }
      if renewed.None? {
        return false, made;
      }
      var history := LoadHistory();
      if history != plan.history {
        return false, made;
      }
      if target in renewed.value.targets {
        RemoveTag(target, seen, at);
        made := [Removal(seen, at, target)];
      }
      goOn := true;
    }

    /** The deletion loop. */
    method DeleteTargets(ghost before: Snapshot, plan: Plan, candidate: Sha, ghost now: int) returns (finished: bool)
      requires Plannable(before, plan.history) && plan == PlanOf(before, plan.history, candidate, now)
      modifies this`snapshot, this`stored, this`operations, this`removals
      ensures old(removals) <= removals
      ensures AllJustified(removals[|old(removals)|..], plan, candidate)
      ensures Quiet(now) && old(snapshot) == before && old(stored) == plan.history ==>
                finished && snapshot == UntagSnapshot(before, TargetRefs(plan.targets)) && stored == plan.history
    {
      hide PlanOf, Plannable;
      ghost var quiet := Quiet(now) && snapshot == before && stored == plan.history;
      ghost var made := [];
      var done := {};
      assert TargetRefs(done) == {};
      UntagNothing(before.images);
      while done != plan.targets
        invariant done <= plan.targets
        invariant removals == old(removals) + made && AllJustified(made, plan, candidate)
        invariant quiet ==> snapshot == UntagSnapshot(before, TargetRefs(done)) && stored == plan.history
        decreases plan.targets - done
      {
        var target := AnyLeft(plan.targets, done);
        var goOn, one := DeleteOne(before, plan, candidate, now, done, target);
        BothJustified(made, one, plan, candidate);
        made := made + one;
        if !goOn {
          return false;
        }
        done := done + {target};
      }
      finished := true;
    }

    /**
     The whole run. Whatever happens on the host meanwhile, every deletion is justified; and on an
     undisturbed host the run deletes exactly the planned tags, passes all its own checks and leaves
     containers, volumes and every other tag alone.
     */
    method Retain(candidate: Sha, post: bool, apply: bool, publicOk: bool, enoughSpace: bool, now: int)
      returns (outcome: Outcome, plan: Option<Plan>)
      modifies this`snapshot, this`stored, this`operations, this`removals
      ensures plan.None? ==> outcome == Refused
      ensures old(removals) <= removals && (!apply || plan.None? ==> removals == old(removals))
      ensures plan.Some? ==> AllJustified(removals[|old(removals)|..], plan.value, candidate)
      ensures Quiet(now) ==>
                (plan.Some? <==> Accepts(old(snapshot), old(stored), candidate, post, publicOk))
      ensures Quiet(now) && (plan.None? || !apply) ==>
                snapshot == old(snapshot) && stored == old(stored) && outcome == (if plan.None? then Refused else Planned)
      ensures Quiet(now) && plan.Some? ==>
                && Plannable(old(snapshot), Kept(old(stored), candidate, post))
                && plan.value == PlanOf(old(snapshot), Kept(old(stored), candidate, post), candidate, now)
      ensures Quiet(now) && plan.Some? && apply ==>
                && snapshot == UntagSnapshot(old(snapshot), TargetRefs(plan.value.targets))
                && stored == Kept(old(stored), candidate, post)
                && outcome == (if post || enoughSpace then Completed else OutOfSpace)
    {
      var before := Inventory();
      var history := LoadHistory();
      plan := Decide(before, history, candidate, post, publicOk, now);
      if plan.None? {
        return Refused, plan;
      }
      if !apply {
        return Planned, plan;
      }
      if post {
        SaveHistory(plan.value.history);
      }
      var finished := DeleteTargets(before, plan.value, candidate, now);
      if !finished {
        return Refused, plan;
      }
      var after, at, final := Replan(plan.value, candidate);
      if Quiet(now) {
        StableRun(before, plan.value.history, candidate, now, plan.value.targets, at);
        OnlyTargetsDisappear(before, plan.value.history, candidate, now);
      }
      if final.None? || Identity(before) != Identity(after) || before.volumes != after.volumes
         || !(Ids(before.images) - Ids(after.images) <= TargetIds(plan.value.targets))
      {
        return Refused, plan;
      }
      outcome := if post || enoughSpace then Completed else OutOfSpace;
    }
  }
}
