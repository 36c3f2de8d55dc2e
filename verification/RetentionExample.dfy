/** A host on which the planner plans a deletion: a running release, and a tag of another one that is not complete. */
module RetentionExample {
  import opened Options
  import opened ImagePlan
  import opened RetentionGuarantees

  function Tagged(id: ImageId, reference: Reference): Image {
    Image(id, [reference], Some(0))
  }

  function Running(id: nat, image: ImageId, reference: Reference, role: Role): Container {
    Container(id, image, reference, true, role, true, true)
  }

  function Images(): seq<Image> {
    [Tagged(1, Managed(Backend, 1)), Tagged(2, Managed(Frontend, 1)), Tagged(3, Managed(Worker, 1)), Tagged(9, Managed(Backend, 9))]
  }

  function Containers(): seq<Container> {
    [Running(1, 1, Managed(Backend, 1), Serves(Backend)), Running(2, 2, Managed(Frontend, 1), Serves(Frontend)),
     Running(3, 3, Managed(Worker, 1), Serves(Worker)), Running(4, 3, Managed(Worker, 1), Beat),
     Running(5, 7, Foreign("nginx"), Nginx)]
  }

  lemma OneTag(id: ImageId, reference: Reference)
    requires reference.Managed?
    ensures ManagedTags(Tagged(id, reference)) == {reference} && ImageOk(Tagged(id, reference))
    ensures OwnRefs(Tagged(id, reference)).Keys == {reference}
  {
  }

  lemma OneMore(images: seq<Image>, id: ImageId, reference: Reference)
    requires WellTagged(images) && reference.Managed? && reference !in RefsOf(images)
    ensures WellTagged(images + [Tagged(id, reference)])
    ensures RefsOf(images + [Tagged(id, reference)]).Keys == RefsOf(images).Keys + {reference}
  {
    OneTag(id, reference);
    hide ImageOk, ManagedTags, OwnRefs, Tagged;
    assert (images + [Tagged(id, reference)])[..|images|] == images;
  }

  lemma TheTable()
    ensures WellTagged(Images())
    ensures RefsOf(Images()).Keys == {Managed(Backend, 1), Managed(Frontend, 1), Managed(Worker, 1), Managed(Backend, 9)}
  {
    var a, b, c, d := Managed(Backend, 1), Managed(Frontend, 1), Managed(Worker, 1), Managed(Backend, 9);
    OneMore([], 1, a);
    var one := [] + [Tagged(1, a)];
    OneMore(one, 2, b);
    var two := one + [Tagged(2, b)];
    OneMore(two, 3, c);
    OneMore(two + [Tagged(3, c)], 9, d);
    assert Images() == two + [Tagged(3, c)] + [Tagged(9, d)];
  }

  lemma TheReferences()
    ensures var refs := RefsOf(Images());
            && Managed(Backend, 1) in refs && refs[Managed(Backend, 1)].id == 1
            && Managed(Frontend, 1) in refs && refs[Managed(Frontend, 1)].id == 2
            && Managed(Worker, 1) in refs && refs[Managed(Worker, 1)].id == 3
  {
    var images := Images();
    TheTable();
    hide RefsOf, WellTagged;
    assert images[0] == Tagged(1, Managed(Backend, 1)) && images[1] == Tagged(2, Managed(Frontend, 1))
           && images[2] == Tagged(3, Managed(Worker, 1));
    TagIsRef(images, 0, Managed(Backend, 1));
    TagIsRef(images, 1, Managed(Frontend, 1));
    TagIsRef(images, 2, Managed(Worker, 1));
  }

  lemma TheRoles()
    ensures (set c | c in Containers() && OurRunning(c) :: c.role) == RUNTIME
  {
    var cs := Containers();
    var roles := set c | c in cs && OurRunning(c) :: c.role;
    assert cs[0] in cs && cs[1] in cs && cs[2] in cs && cs[3] in cs && cs[4] in cs;
    assert cs[0].role in roles && cs[1].role in roles && cs[2].role in roles && cs[3].role in roles && cs[4].role in roles;
  }

  lemma TheStack()
    ensures TopologyOk(Containers(), RefsOf(Images())) && ActiveShas(Containers()) == {1}
  {
    TheReferences();
    TheRoles();
    hide RefsOf, Images;
    var cs := Containers();
    assert cs[0] in cs && cs[0].reference.sha in ActiveShas(cs);
    forall c | c in cs
      ensures c.healthy && (c.role != Nginx ==> RunsRelease(c, RefsOf(Images())) && c.reference.sha == 1)
    {
      assert c == cs[0] || c == cs[1] || c == cs[2] || c == cs[3] || c == cs[4];
    }
  }

  lemma TheReleases()
    ensures Complete(RefsOf(Images())).Keys == {1}
  {
    TheTable();
    var refs := RefsOf(Images());
    hide RefsOf, Images;
    assert Managed(Backend, 1) in refs.Keys && Managed(Backend, 1).sha in Shas(refs);
  }

  lemma ThePlan(snapshot: Snapshot)
    requires Plannable(snapshot, [1]) && Complete(RefsOf(snapshot.images)).Keys == {1}
    ensures 9 !in PlanOf(snapshot, [1], 1, GRACE).protected
  {
    var complete := Complete(RefsOf(snapshot.images));
    var current := TheOnly(ActiveShas(snapshot.containers));
    assert forall sha | sha in Ranked(complete) :: sha == 1;
    assert 9 !in Elements(Bootstrap(Ranked(complete), Elements([1]) + {current}, complete, current));
    hide Plannable, Complete, RefsOf, Ranked, Bootstrap, ProtectedRefs, Pinned, Targets;
  }

  /** The promises about plans are not empty: this host is plannable, and its plan has a target. */
  lemma SomePlanDeletes()
    ensures var snapshot := Snapshot(Images(), Containers(), []);
            Plannable(snapshot, [1]) && Target(Managed(Backend, 9), 9) in PlanOf(snapshot, [1], 1, GRACE).targets
  {
    var snapshot, leftover := Snapshot(Images(), Containers(), []), Target(Managed(Backend, 9), 9);
    TheTable();
    TheStack();
    TheReleases();
    TheLeftover(leftover);
    NotNeeded(snapshot);
    hide WellTagged, RefsOf, TopologyOk, ActiveShas, Complete, Needed, OldTag, PlanOf, Images, Containers;
    assert |{1}| == 1;
    assert Plannable(snapshot, [1]);
    hide Plannable;
    ThePlan(snapshot);
    TargetsExactly(snapshot, [1], 1, GRACE, leftover);
  }

  lemma TheLeftover(leftover: Target)
    requires leftover == Target(Managed(Backend, 9), 9)
    ensures OldTag(Images(), leftover, GRACE)
  {
    assert Images()[3] == Tagged(9, Managed(Backend, 9));
  }

  lemma NotNeeded(snapshot: Snapshot)
    requires snapshot == Snapshot(Images(), Containers(), [])
    ensures forall protected: set<Sha> :: 9 !in protected ==> !Needed(snapshot, protected, 9)
  {
    var images := snapshot.images;
    assert images[0].id == 1 && images[1].id == 2 && images[2].id == 3 && images[3].tags == [Managed(Backend, 9)];
  }
}
