/**
 The planner of the release image retention: what may be deleted from a host, and which images are
 pinned. A reference is managed when it is one of the three service repositories tagged with a commit,
 and foreign otherwise; commits are ordered as the forty hexadecimal digits they are written with.
 */
module ImagePlan {
  import opened Options

  type Sha = nat
  type ImageId = nat

  const KEEP: nat := 3
  const GRACE: int := 15 * 60

  datatype Service = Backend | Frontend | Worker
  datatype Role = Serves(service: Service) | Beat | Nginx | OtherRole
  datatype Reference = Managed(service: Service, sha: Sha) | Foreign(name: string)

  /** `created` is None when the creation time is malformed. */
  datatype Image = Image(id: ImageId, tags: seq<Reference>, created: Option<int>)
  datatype Container = Container(
    id: nat, image: ImageId, reference: Reference, ours: bool, role: Role, running: bool, healthy: bool)
  datatype Snapshot = Snapshot(images: seq<Image>, containers: seq<Container>, volumes: seq<string>)

  const RUNTIME: set<Role> := {Serves(Backend), Serves(Frontend), Serves(Worker), Beat, Nginx}

  datatype Target = Target(reference: Reference, id: ImageId)
  datatype Plan = Plan(
    current: Sha,
    history: seq<Sha>,
    bootstrap: seq<Sha>,
    protected: set<Sha>,
    protectedRefs: map<Reference, ImageId>,
    targets: set<Target>)

  // ---------- the inventory ----------

  /** The image a managed tag points to. */
  datatype Info = Info(id: ImageId, created: int)

  function Drop(shas: seq<Sha>, sha: Sha): seq<Sha> {
    if shas == [] then []
    else if shas[0] == sha then Drop(shas[1..], sha)
    else [shas[0]] + Drop(shas[1..], sha)
  }

  predicate NoRepeat<T(==)>(s: seq<T>) {
    forall i, j | 0 <= i < j < |s| :: s[i] != s[j]
  }

  function ManagedTags(image: Image): set<Reference> {
    set t | t in image.tags && t.Managed?
  }

  predicate ManagedOnce(tags: seq<Reference>) {
    forall i, j | 0 <= i < j < |tags| && tags[i].Managed? :: tags[i] != tags[j]
  }

  /** A managed tag twice on one image is ambiguous; a malformed time matters on managed images only. */
  predicate ImageOk(image: Image) {
    ManagedOnce(image.tags) && (ManagedTags(image) != {} ==> image.created.Some?)
  }

  function InfoOf(image: Image): Info {
    Info(image.id, if image.created.Some? then image.created.value else 0)
  }

  function OwnRefs(image: Image): map<Reference, Info> {
    map t | t in ManagedTags(image) :: InfoOf(image)
  }

  function RefsOf(images: seq<Image>): map<Reference, Info> {
    if images == [] then map[]
    else RefsOf(images[..|images| - 1]) + OwnRefs(images[|images| - 1])
  }

  predicate WellTagged(images: seq<Image>) {
    images == [] ||
    (var last := images[|images| - 1];
     var init := images[..|images| - 1];
     WellTagged(init) && ImageOk(last) && ManagedTags(last) !! RefsOf(init).Keys)
  }

  predicate HasForeignTag(image: Image) {
    exists i :: 0 <= i < |image.tags| && image.tags[i].Foreign?
  }

  /** Ids of images that carry a tag outside the managed repositories. */
  function Aliases(images: seq<Image>): set<ImageId> {
    set i | 0 <= i < |images| && HasForeignTag(images[i]) :: images[i].id
  }

  function Ids(images: seq<Image>): set<ImageId> {
    set i | 0 <= i < |images| :: images[i].id
  }

  // ---------- the running release ----------

  predicate OurRunning(c: Container) {
    c.ours && c.running
  }

  function Expected(role: Role): Option<Service> {
    match role
    case Serves(service) => Some(service)
    case Beat => Some(Worker)
    case _ => None
  }

  predicate RunsRelease(c: Container, refs: map<Reference, Info>) {
    && c.reference.Managed?
    && Expected(c.role) == Some(c.reference.service)
    && c.reference in refs
    && refs[c.reference].id == c.image
  }

  predicate TopologyOk(containers: seq<Container>, refs: map<Reference, Info>) {
    && (set c | c in containers && OurRunning(c) :: c.role) == RUNTIME
    && (forall c | c in containers && OurRunning(c) :: c.healthy && (c.role != Nginx ==> RunsRelease(c, refs)))
  }

  function ActiveShas(containers: seq<Container>): set<Sha> {
    set c | c in containers && OurRunning(c) && c.role != Nginx && c.reference.Managed? :: c.reference.sha
  }

  ghost function TheOnly(shas: set<Sha>): (sha: Sha)
    requires |shas| == 1
    ensures shas == {sha}
  {
    var sha :| sha in shas;
    OnlyOne(shas, sha);
    sha
  }

  lemma OnlyOne(shas: set<Sha>, sha: Sha)
    requires |shas| == 1 && sha in shas
    ensures shas == {sha}
  {
    assert |shas - {sha}| == 0;
  }

  // ---------- complete releases and rollback candidates ----------

  predicate IsComplete(refs: map<Reference, Info>, sha: Sha) {
    Managed(Backend, sha) in refs && Managed(Frontend, sha) in refs && Managed(Worker, sha) in refs
  }

  function Max(a: int, b: int): int {
    if a < b then b else a
  }

  function Built(refs: map<Reference, Info>, sha: Sha): int
    requires IsComplete(refs, sha)
  {
    Max(refs[Managed(Backend, sha)].created,
        Max(refs[Managed(Frontend, sha)].created, refs[Managed(Worker, sha)].created))
  }

  function Shas(refs: map<Reference, Info>): set<Sha> {
    set r | r in refs.Keys && r.Managed? :: r.sha
  }

  /** Complete releases with the time their last image was built. */
  function Complete(refs: map<Reference, Info>): map<Sha, int> {
    map sha | sha in Shas(refs) && IsComplete(refs, sha) :: Built(refs, sha)
  }

  predicate Newer(complete: map<Sha, int>, a: Sha, b: Sha)
    requires a in complete && b in complete
  {
    complete[a] > complete[b] || (complete[a] == complete[b] && a > b)
  }

  predicate IsNewest(complete: map<Sha, int>, n: Sha) {
    n in complete && forall b | b in complete && b != n :: Newer(complete, n, b)
  }

  lemma {:induction false} NewestExists(complete: map<Sha, int>)
    requires complete != map[]
    ensures exists n | n in complete :: IsNewest(complete, n)
    decreases |complete|
  {
    var x :| x in complete;
    var rest := complete - {x};
    assert forall b | b in complete && b != x :: b in rest;
    if rest == map[] {
      assert IsNewest(complete, x);
    } else {
      NewestExists(rest);
      var m :| m in rest && IsNewest(rest, m);
      assert IsNewest(complete, if Newer(complete, m, x) then m else x);
    }
  }

  lemma NewestIsUnique(complete: map<Sha, int>, a: Sha, b: Sha)
    requires IsNewest(complete, a) && IsNewest(complete, b)
    ensures a == b
  {
  }

  function Newest(complete: map<Sha, int>): (n: Sha)
    requires complete != map[]
    ensures IsNewest(complete, n)
    ensures forall b | b in complete && b != n :: complete[b] < complete[n] || (complete[b] == complete[n] && b < n)
  {
    NewestExists(complete);
    var n :| n in complete && IsNewest(complete, n);
    n
  }

  /** The complete releases in descending order. */
  function Ranked(complete: map<Sha, int>): (ranked: seq<Sha>)
    ensures forall sha :: sha in ranked <==> sha in complete
    decreases |complete|
  {
    if complete == map[] then []
    else
      var n := Newest(complete);
      [n] + Ranked(complete - {n})
  }

  /** The bootstrap loop over the ranked releases. */
  function Bootstrap(ranked: seq<Sha>, protected: set<Sha>, complete: map<Sha, int>, current: Sha): (chosen: seq<Sha>)
    requires current in complete && forall sha | sha in ranked :: sha in complete
    ensures forall sha | sha in chosen :: sha in ranked && sha !in protected && complete[sha] <= complete[current]
  {
    if ranked == [] || |protected| >= KEEP then []
    else if ranked[0] !in protected && complete[ranked[0]] <= complete[current] then
      [ranked[0]] + Bootstrap(ranked[1..], protected + {ranked[0]}, complete, current)
    else
      Bootstrap(ranked[1..], protected, complete, current)
  }

  function Elements<T>(s: seq<T>): set<T> {
    set x | x in s
  }

  // ---------- the plan ----------

  predicate HistoryOk(history: seq<Sha>) {
    |history| <= KEEP && NoRepeat(history)
  }

  function ProtectedRefs(refs: map<Reference, Info>, protected: set<Sha>): map<Reference, ImageId> {
    map r | r in refs && r.Managed? && r.sha in protected :: refs[r].id
  }

  function Pinned(snapshot: Snapshot, protectedRefs: map<Reference, ImageId>): set<ImageId> {
    (set c | c in snapshot.containers :: c.image) + Aliases(snapshot.images) + protectedRefs.Values
  }

  function Targets(refs: map<Reference, Info>, pinned: set<ImageId>, now: int): set<Target> {
    set r | r in refs && refs[r].id !in pinned && refs[r].created <= now - GRACE :: Target(r, refs[r].id)
  }

  /** When the planner refuses: everything it requires, apart from the format of its arguments. */
  predicate Plannable(snapshot: Snapshot, history: seq<Sha>) {
    && HistoryOk(history)
    && WellTagged(snapshot.images)
    && var refs := RefsOf(snapshot.images);
    && TopologyOk(snapshot.containers, refs)
    && |ActiveShas(snapshot.containers)| == 1
    && (forall sha | sha in ActiveShas(snapshot.containers) :: sha in Complete(refs))
    && (forall sha | sha in history :: sha in Complete(refs))
  }

  ghost function PlanOf(snapshot: Snapshot, history: seq<Sha>, candidate: Sha, now: int): Plan
    requires Plannable(snapshot, history)
  {
    var refs := RefsOf(snapshot.images);
    var current := TheOnly(ActiveShas(snapshot.containers));
    var complete := Complete(refs);
    var bootstrap := Bootstrap(Ranked(complete), Elements(history) + {current}, complete, current);
    var protected := Elements(history) + {current} + Elements(bootstrap) + {candidate};
    var protectedRefs := ProtectedRefs(refs, protected);
    var targets := Targets(refs, Pinned(snapshot, protectedRefs), now);
    Plan(current, history, bootstrap, protected, protectedRefs, targets)
  }
}
