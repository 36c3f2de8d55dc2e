/**
 The fixed-window counter in a store that everybody else uses too. Between two hits other callers get, set,
 delete and count whatever they like; only making room for a fresh key can throw the counter out.
 */
module HitWindows {
  import opened TtlStore

  /** A hit reads the clock once for the count and once for the expiry; the rest are other callers' operations. */
  datatype Step = Hit(now: int, later: int) | Other(op: Op)

  function After(data: seq<Entry>, key: string, ttl: int, step: Step): seq<Entry> {
    match step
    case Hit(now, later) => AfterHit(data, key, ttl, now, later)
    case Other(op) => AfterOp(data, op)
  }

  function Exec(data: seq<Entry>, key: string, ttl: int, steps: seq<Step>): seq<Entry>
    decreases |steps|
  {
    if steps == [] then data else Exec(After(data, key, ttl, steps[0]), key, ttl, steps[1..])
  }

  function Hits(steps: seq<Step>): nat {
    if steps == [] then 0 else (if steps[0].Hit? then 1 else 0) + Hits(steps[1..])
  }

  /** What the hits of a run answer. */
  function Counts(data: seq<Entry>, key: string, ttl: int, steps: seq<Step>): (counts: seq<int>)
    ensures |counts| == Hits(steps)
    decreases |steps|
  {
    if steps == [] then []
    else
      (if steps[0].Hit? then [CountOf(data, key, steps[0].now)] else [])
      + Counts(After(data, key, ttl, steps[0]), key, ttl, steps[1..])
  }

  /** `n`, `n + 1`, and so on. */
  function From(n: int, length: nat): (s: seq<int>)
    ensures |s| == length && forall i | 0 <= i < length :: s[i] == n + i
  {
    seq(length, i => n + i)
  }

  /** The operation is not meant for the key: it may be read, not written or deleted. */
  predicate Leaves(op: Op, key: string) {
    match op
    case GetOp(_, _) => true
    case SetOp(k, _, _, _) => k != key
    case DeleteOp(keys) => key !in keys
    case IncrOp(k, _) => k != key
    case ExpireOp(k, _, _) => k != key
  }

  predicate StepWithin(step: Step, key: string, end: int) {
    match step
    case Hit(now, _) => now <= end
    case Other(op) => Leaves(op, key) && (op.GetOp? && op.key == key ==> op.now <= end)
  }

  /** Nobody else writes the counter, and nobody looks at it after the end of the window. */
  predicate Within(steps: seq<Step>, key: string, end: int) {
    forall step | step in steps :: StepWithin(step, key, end)
  }

  /** A fresh key is set in a full table of whose oldest entries the counter is one. */
  predicate Evicts(data: seq<Entry>, step: Step, key: string) {
    && step.Other? && step.op.SetOp? && |data| >= 5000 && Fresh(data, step.op.key)
    && key in Keys(data[..500])
  }

  predicate NeverEvicts(data: seq<Entry>, key: string, ttl: int, steps: seq<Step>)
    decreases |steps|
  {
    steps != [] ==> !Evicts(data, steps[0], key) && NeverEvicts(After(data, key, ttl, steps[0]), key, ttl, steps[1..])
  }

  // ---------- one step ----------

  lemma IndexOf(data: seq<Entry>, e: Entry)
    requires Distinct(data) && e in data
    ensures Index(data, e.key) < |data| && data[Index(data, e.key)] == e
  {
    assert e.key in Keys(data);
    var j :| 0 <= j < |data| && data[j] == e;
    assert data[Index(data, e.key)].key == data[j].key;
  }

  /** Making room takes an entry away exactly when it is among the oldest of a full table. */
  lemma RoomLeaves(data: seq<Entry>, newKey: string, e: Entry)
    requires Distinct(data) && e in data
    ensures e in MakeRoom(data, newKey) <==> !(|data| >= MAX_ENTRIES && Fresh(data, newKey) && e.key in Keys(data[..DROP]))
  {
    if |data| >= MAX_ENTRIES && Fresh(data, newKey) {
      Dropped(data, DROP);
      if e in data[DROP..] {
        assert e.key in Keys(data[DROP..]);
      } else {
        assert data == data[..DROP] + data[DROP..];
      }
    }
  }

  lemma SetLeaves(data: seq<Entry>, op: Op, e: Entry)
    requires Distinct(data) && op.SetOp? && op.key != e.key
    ensures e in AfterOp(data, op) <==> e in data && !Evicts(data, Other(op), e.key)
  {
    hide Distinct, Put, Keys, Fresh, Index;
    RoomFacts(data, op.key);
    PutFacts(MakeRoom(data, op.key), Entry(op.key, op.now + op.ttl, op.value));
    if e in data {
      RoomLeaves(data, op.key, e);
    }
  }

  lemma GetLeaves(data: seq<Entry>, op: Op, e: Entry)
    requires Distinct(data) && op.GetOp? && (op.key == e.key && e in data ==> op.now <= e.expires)
    ensures e in AfterOp(data, op) <==> e in data
  {
    if e in data {
      IndexOf(data, e);
    }
  }

  /** Somebody else's operation leaves the counter, unless it evicts it, and brings none back. */
  lemma OtherLeaves(data: seq<Entry>, op: Op, e: Entry)
    requires Distinct(data) && Leaves(op, e.key) && (op.GetOp? && op.key == e.key && e in data ==> op.now <= e.expires)
    ensures e in AfterOp(data, op) <==> e in data && !Evicts(data, Other(op), e.key)
  {
    hide Put, Keys, Index, Fresh, MakeRoom, Without;
    match op
    case GetOp(_, _) => GetLeaves(data, op, e);
    case SetOp(_, _, _, _) => SetLeaves(data, op, e);
    case IncrOp(key, now) => PutFacts(data, Counted(data, key, now));
    case ExpireOp(key, ttl, now) =>
      var i := Index(data, key);
      if i < |data| {
        PutFacts(data, Entry(key, now + ttl, data[i].value));
      }
    case DeleteOp(_) =>
  }

  /** The counter's entry after a hit; every other entry stays. */
  function HitEntry(data: seq<Entry>, key: string, ttl: int, now: int, later: int): Entry {
    var e := Counted(data, key, now);
    if e.value.n == 1 then Entry(key, later + ttl, Number(1)) else e
  }

  lemma HitFacts(data: seq<Entry>, key: string, ttl: int, now: int, later: int)
    requires Distinct(data)
    ensures Distinct(AfterHit(data, key, ttl, now, later))
    ensures forall x :: x in AfterHit(data, key, ttl, now, later)
              <==> x == HitEntry(data, key, ttl, now, later) || (x in data && x.key != key)
  {
    hide Put, Keys, Index, Distinct, Counted;
    var e := Counted(data, key, now);
    PutFacts(data, e);
    var counted := Put(data, e);
    if e.value.n == 1 {
      IndexOf(counted, e);
      PutFacts(counted, Entry(key, later + ttl, Number(1)));
    }
  }

  /** A hit on a live counter goes on from it and leaves its window. */
  lemma HitGoesOn(data: seq<Entry>, key: string, ttl: int, now: int, later: int, end: int, n: int)
    requires Distinct(data) && Entry(key, end, Number(n)) in data && 1 <= n && now <= end
    ensures CountOf(data, key, now) == n + 1
    ensures Entry(key, end, Number(n + 1)) in AfterHit(data, key, ttl, now, later)
  {
    IndexOf(data, Entry(key, end, Number(n)));
    HitFacts(data, key, ttl, now, later);
  }

  /** A hit on a counter that is gone, or whose window has passed, starts a window. */
  lemma HitStarts(data: seq<Entry>, key: string, ttl: int, now: int, later: int)
    requires Distinct(data) && forall e | e in data && e.key == key :: e.expires < now
    ensures CountOf(data, key, now) == 1
    ensures Entry(key, later + ttl, Number(1)) in AfterHit(data, key, ttl, now, later)
  {
    HitFacts(data, key, ttl, now, later);
  }

  /** Somebody else's operation puts no counter there. */
  lemma NothingNew(data: seq<Entry>, op: Op, e: Entry)
    requires Distinct(data) && Leaves(op, e.key) && e in AfterOp(data, op)
    ensures e in data
  {
    if !op.GetOp? {
      OtherLeaves(data, op, e);
    }
  }

  // ---------- runs ----------

  /** What the table holds of the counter, if anything, has counted less than `n`. */
  predicate Behind(data: seq<Entry>, key: string, n: int) {
    forall e | e in data && e.key == key :: e.value.Number? && e.value.n < n
  }

  lemma StepKeepsBehind(data: seq<Entry>, key: string, ttl: int, step: Step, n: int)
    requires Distinct(data) && Behind(data, key, n) && 1 <= n && (step.Other? ==> Leaves(step.op, key))
    ensures Distinct(After(data, key, ttl, step))
    ensures Behind(After(data, key, ttl, step), key, n + if step.Hit? then 1 else 0)
    ensures step.Hit? ==> CountOf(data, key, step.now) <= n
  {
    hide Distinct, AfterOp, AfterHit;
    match step
    case Hit(now, later) => HitFacts(data, key, ttl, now, later);
    case Other(op) =>
      SizeAfter(data, op);
      forall e | e in AfterOp(data, op) && e.key == key
        ensures e in data
      {
        NothingNew(data, op, e);
      }
  }

  /** A counter that has fallen behind never catches up. */
  lemma {:induction false} StaysBehind(data: seq<Entry>, key: string, ttl: int, steps: seq<Step>, n: int, end: int)
    requires Distinct(data) && Behind(data, key, n) && 1 <= n && Within(steps, key, end)
    requires steps != [] && steps[|steps| - 1].Hit?
    ensures Hits(steps) >= 1
    ensures var counts := Counts(data, key, ttl, steps); counts[|counts| - 1] < n + |counts|
    decreases |steps|
  {
    hide Behind, After, CountOf, Distinct;
    var step, rest := steps[0], steps[1..];
    assert step in steps && StepWithin(step, key, end);
    StepKeepsBehind(data, key, ttl, step, n);
    if rest != [] {
      assert rest[|rest| - 1] == steps[|steps| - 1];
      StaysBehind(After(data, key, ttl, step), key, ttl, rest, n + (if step.Hit? then 1 else 0), end);
    }
  }

  /** One step of a run whose counter stands at `n`. */
  lemma StepGoesOn(data: seq<Entry>, key: string, ttl: int, step: Step, end: int, n: int)
    requires Distinct(data) && Entry(key, end, Number(n)) in data && 1 <= n && StepWithin(step, key, end)
    ensures Distinct(After(data, key, ttl, step))
    ensures step.Hit? ==> CountOf(data, key, step.now) == n + 1
    ensures Entry(key, end, Number(if step.Hit? then n + 1 else n)) in After(data, key, ttl, step) <==> !Evicts(data, step, key)
  {
    hide Distinct, AfterOp, AfterHit;
    match step
    case Hit(now, later) =>
      HitGoesOn(data, key, ttl, now, later, end, n);
      HitFacts(data, key, ttl, now, later);
    case Other(op) =>
      SizeAfter(data, op);
      OtherLeaves(data, op, Entry(key, end, Number(n)));
  }

  lemma FromOn(n: int, length: nat)
    ensures [n] + From(n + 1, length) == From(n, length + 1)
  {
  }

  /** A run is its first step and the rest. */
  lemma Unfolded(data: seq<Entry>, key: string, ttl: int, steps: seq<Step>)
    requires steps != []
    ensures Exec(data, key, ttl, steps) == Exec(After(data, key, ttl, steps[0]), key, ttl, steps[1..])
    ensures Hits(steps) == (if steps[0].Hit? then 1 else 0) + Hits(steps[1..])
    ensures Counts(data, key, ttl, steps) == (if steps[0].Hit? then [CountOf(data, key, steps[0].now)] else [])
                                             + Counts(After(data, key, ttl, steps[0]), key, ttl, steps[1..])
  {
  }

  lemma Rest(steps: seq<Step>, key: string, end: int)
    requires steps != [] && Within(steps, key, end)
    ensures StepWithin(steps[0], key, end) && Within(steps[1..], key, end)
  {
  }

  /** Without an eviction the end of the window stays. */
  lemma {:induction false} WindowStays(data: seq<Entry>, key: string, ttl: int, steps: seq<Step>, end: int, n: int)
    requires Distinct(data) && Entry(key, end, Number(n)) in data && 1 <= n
    requires Within(steps, key, end) && NeverEvicts(data, key, ttl, steps)
    ensures Distinct(Exec(data, key, ttl, steps)) && Entry(key, end, Number(n + Hits(steps))) in Exec(data, key, ttl, steps)
    decreases |steps|
  {
    hide After, Distinct, Evicts, StepWithin;
    if steps != [] {
      var step, rest := steps[0], steps[1..];
      Unfolded(data, key, ttl, steps);
      Rest(steps, key, end);
      StepGoesOn(data, key, ttl, step, end, n);
      WindowStays(After(data, key, ttl, step), key, ttl, rest, end, if step.Hit? then n + 1 else n);
    }
  }

  /** And the counts go on one at a time. */
  lemma {:induction false} CountsGoOn(data: seq<Entry>, key: string, ttl: int, steps: seq<Step>, end: int, n: int)
    requires Distinct(data) && Entry(key, end, Number(n)) in data && 1 <= n
    requires Within(steps, key, end) && NeverEvicts(data, key, ttl, steps)
    ensures Counts(data, key, ttl, steps) == From(n + 1, Hits(steps))
    decreases |steps|
  {
    hide After, CountOf, Distinct, Evicts, StepWithin;
    if steps != [] {
      var step, rest := steps[0], steps[1..];
      Unfolded(data, key, ttl, steps);
      Rest(steps, key, end);
      StepGoesOn(data, key, ttl, step, end, n);
      FromOn(n + 1, Hits(rest));
      CountsGoOn(After(data, key, ttl, step), key, ttl, rest, end, if step.Hit? then n + 1 else n);
    }
  }

  /** An entry that an operation takes away leaves nothing under its key. */
  lemma EvictedIsBehind(data: seq<Entry>, key: string, ttl: int, step: Step, end: int, n: int)
    requires Distinct(data) && Entry(key, end, Number(n)) in data && 1 <= n && StepWithin(step, key, end) && Evicts(data, step, key)
    ensures Distinct(After(data, key, ttl, step)) && Behind(After(data, key, ttl, step), key, n)
  {
    var e := Entry(key, end, Number(n));
    StepGoesOn(data, key, ttl, step, end, n);
    forall x | x in After(data, key, ttl, step) && x.key == key
      ensures x == e
    {
      NothingNew(data, step.op, x);
      IndexOf(data, x);
      IndexOf(data, e);
    }
  }

  /** With an eviction on the way the last count is too low. */
  lemma {:induction false} EvictionShows(data: seq<Entry>, key: string, ttl: int, steps: seq<Step>, end: int, n: int)
    requires Distinct(data) && Entry(key, end, Number(n)) in data && 1 <= n
    requires Within(steps, key, end) && !NeverEvicts(data, key, ttl, steps) && steps[|steps| - 1].Hit?
    ensures Hits(steps) >= 1
    ensures var counts := Counts(data, key, ttl, steps); counts[|counts| - 1] < n + |counts|
    decreases |steps|
  {
    hide After, CountOf, Distinct, Behind, Evicts;
    var step, rest := steps[0], steps[1..];
    assert step in steps && StepWithin(step, key, end);
    assert rest != [] ==> rest[|rest| - 1] == steps[|steps| - 1];
    if Evicts(data, step, key) {
      EvictedIsBehind(data, key, ttl, step, end, n);
      assert step.Other? by { OnlyOthersEvict(data, step, key); }
      StaysBehind(After(data, key, ttl, step), key, ttl, rest, n, end);
    } else {
      StepGoesOn(data, key, ttl, step, end, n);
      EvictionShows(After(data, key, ttl, step), key, ttl, rest, end, if step.Hit? then n + 1 else n);
    }
  }

  lemma OnlyOthersEvict(data: seq<Entry>, step: Step, key: string)
    requires Evicts(data, step, key)
    ensures step.Other?
  {
  }

  /**
   In a run that ends with a hit, the hits of one window count on one at a time exactly when no other
   caller's `setex` makes room at the cost of the counter.
   */
  lemma CountsGoOnIffNeverEvicted(data: seq<Entry>, key: string, ttl: int, steps: seq<Step>, end: int, n: int)
    requires Distinct(data) && Entry(key, end, Number(n)) in data && 1 <= n
    requires Within(steps, key, end) && steps != [] && steps[|steps| - 1].Hit?
    ensures Counts(data, key, ttl, steps) == From(n + 1, Hits(steps)) <==> NeverEvicts(data, key, ttl, steps)
  {
    if NeverEvicts(data, key, ttl, steps) {
      CountsGoOn(data, key, ttl, steps, end, n);
    } else {
      EvictionShows(data, key, ttl, steps, end, n);
    }
  }

  /** After one operation of somebody else the next hit counts on, or starts again if the counter was evicted. */
  lemma NextHit(data: seq<Entry>, key: string, op: Op, end: int, n: int, now: int)
    requires Distinct(data) && Entry(key, end, Number(n)) in data && 1 <= n
    requires StepWithin(Other(op), key, end) && now <= end
    ensures CountOf(AfterOp(data, op), key, now) == if Evicts(data, Other(op), key) then 1 else n + 1
  {
    StepGoesOn(data, key, 0, Other(op), end, n);
    var after := AfterOp(data, op);
    if Evicts(data, Other(op), key) {
      forall e | e in after && e.key == key
        ensures false
      {
        NothingNew(data, op, e);
        IndexOf(data, e);
        IndexOf(data, Entry(key, end, Number(n)));
      }
      HitStarts(after, key, 0, now, now);
    } else {
      HitGoesOn(after, key, 0, now, now, end, n);
    }
  }

  // ---------- a run that evicts ----------

  function Name(i: nat): (name: string)
    ensures |name| == i && name != "k"
  {
    var name := seq(i, _ => 'x');
    assert i > 0 ==> name[0] == 'x';
    name
  }

  /** Other callers set keys never seen before. */
  function Fill(i: nat, n: nat): seq<Step>
    requires i <= n
    decreases n - i
  {
    if i == n then [] else [Other(SetOp(Name(i), 60, Text(""), 0))] + Fill(i + 1, n)
  }

  /** The counter is the oldest entry of a table with so many more. */
  ghost predicate Filled(data: seq<Entry>, i: nat) {
    Distinct(data) && |data| == 1 + i && data[0].key == "k" && forall m: nat | i <= m :: Fresh(data, Name(m))
  }

  lemma FillOne(data: seq<Entry>, i: nat)
    requires Filled(data, i) && 1 + i < MAX_ENTRIES
    ensures Filled(AfterOp(data, SetOp(Name(i), 60, Text(""), 0)), i + 1)
  {
    PutFacts(data, Entry(Name(i), 60, Text("")));
    assert forall m: nat | i + 1 <= m :: Name(m) != Name(i);
  }

  lemma {:induction false} FillTable(data: seq<Entry>, ttl: int, i: nat, n: nat, rest: seq<Step>)
    requires Filled(data, i) && i <= n < MAX_ENTRIES
    ensures Filled(Exec(data, "k", ttl, Fill(i, n)), n)
    ensures Counts(data, "k", ttl, Fill(i, n) + rest) == Counts(Exec(data, "k", ttl, Fill(i, n)), "k", ttl, rest)
    decreases n - i
  {
    hide Filled, AfterOp;
    if i == n {
      assert Fill(i, n) + rest == rest;
    } else {
      FillOne(data, i);
      var steps := Fill(i, n) + rest;
      assert steps[0] == Other(SetOp(Name(i), 60, Text(""), 0)) && steps[1..] == Fill(i + 1, n) + rest;
      FillTable(AfterOp(data, SetOp(Name(i), 60, Text(""), 0)), ttl, i + 1, n, rest);
    }
  }

  lemma {:induction false} FillIsWithin(i: nat, n: nat, end: int)
    requires i <= n
    ensures Within(Fill(i, n), "k", end)
    decreases n - i
  {
    if i < n {
      FillIsWithin(i + 1, n, end);
    }
  }

  lemma FirstHit(ttl: int)
    ensures AfterHit([], "k", ttl, 0, 0) == [Entry("k", ttl, Number(1))] && CountOf([], "k", 0) == 1
    ensures Filled([Entry("k", ttl, Number(1))], 0)
  {
  }

  lemma LastSetEvicts(data: seq<Entry>, op: Op)
    requires Filled(data, MAX_ENTRIES - 1) && op == SetOp(Name(MAX_ENTRIES - 1), 60, Text(""), 0)
    ensures Evicts(data, Other(op), "k")
  {
    assert data[..DROP][0] == data[0] && data[0] in data[..DROP];
  }

  /** On the full table: the counter survives all but the last of the fresh keys. */
  lemma {:induction false} FillKeepsCounter(data: seq<Entry>, ttl: int, i: nat, n: nat, e: Entry)
    requires Filled(data, i) && i <= n < MAX_ENTRIES && e in data && e.key == "k"
    ensures e in Exec(data, "k", ttl, Fill(i, n))
    decreases n - i
  {
    if i < n {
      FillOne(data, i);
      var op := SetOp(Name(i), 60, Text(""), 0);
      OtherLeaves(data, op, e);
      hide Filled, AfterOp;
      FillKeepsCounter(AfterOp(data, op), ttl, i + 1, n, e);
    }
  }

  /** The last fresh key and the hit after it. */
  lemma LastTwo(data: seq<Entry>, ttl: int, end: int)
    requires Filled(data, MAX_ENTRIES - 1) && Entry("k", end, Number(1)) in data && 1 <= end
    ensures Counts(data, "k", ttl, [Other(SetOp(Name(MAX_ENTRIES - 1), 60, Text(""), 0)), Hit(1, 1)]) == [1]
  {
    var op := SetOp(Name(MAX_ENTRIES - 1), 60, Text(""), 0);
    LastSetEvicts(data, op);
    NextHit(data, "k", op, end, 1, 1);
    hide Filled, AfterOp, AfterHit, CountOf, Evicts;
    var steps := [Other(op), Hit(1, 1)];
    var after := AfterOp(data, op);
    assert steps[1..] == [Hit(1, 1)] && [Hit(1, 1)][1..] == [];
    assert Counts(After(after, "k", ttl, Hit(1, 1)), "k", ttl, []) == [];
    assert Counts(after, "k", ttl, [Hit(1, 1)]) == [1];
  }

  /** From an empty store: one hit, other callers' fresh keys, and a second hit in the same window that answers 1 again. */
  lemma EvictedCounterStartsAgain(ttl: int) returns (steps: seq<Step>)
    requires 1 <= ttl
    ensures Within(steps, "k", ttl) && Counts([], "k", ttl, steps) == [1, 1]
  {
    hide AfterHit, AfterOp, CountOf, Exec, Fill, Evicts;
    var first := [Entry("k", ttl, Number(1))];
    FirstHit(ttl);
    var last := [Other(SetOp(Name(MAX_ENTRIES - 1), 60, Text(""), 0)), Hit(1, 1)];
    var fill := Fill(0, MAX_ENTRIES - 1);
    FillTable(first, ttl, 0, MAX_ENTRIES - 1, last);
    FillKeepsCounter(first, ttl, 0, MAX_ENTRIES - 1, first[0]);
    LastTwo(Exec(first, "k", ttl, fill), ttl, ttl);
    FillIsWithin(0, MAX_ENTRIES - 1, ttl);
    steps := [Hit(0, 0)] + (fill + last);
    assert steps[1..] == fill + last;
  }

  // ---------- the store ----------

  function ClockAfter(step: Step, clock: int): int {
    match step
    case Hit(_, later) => later
    case Other(op) => if op.DeleteOp? then clock else op.now
  }

  predicate StepInOrder(step: Step, clock: int) {
    clock <= ClockAfter(step, clock) && (step.Hit? ==> clock <= step.now <= step.later)
  }

  /** The clock does not run backwards. */
  predicate InOrder(steps: seq<Step>, clock: int)
    decreases |steps|
  {
    steps != [] ==> StepInOrder(steps[0], clock) && InOrder(steps[1..], ClockAfter(steps[0], clock))
  }

  method Perform(store: Store, op: Op)
    requires store.Valid() && store.clock <= ClockAfter(Other(op), store.clock)
    modifies store
    ensures store.Valid() && store.data == AfterOp(old(store.data), op) && store.clock == ClockAfter(Other(op), old(store.clock))
  {
    match op
    case GetOp(key, now) => var _ := store.Get(key, now);
    case SetOp(key, ttl, value, now) => store.SetEx(key, ttl, value, now);
    case DeleteOp(keys) => var _ := store.Delete(keys);
    case IncrOp(key, now) => var _ := store.Incr(key, now);
    case ExpireOp(key, ttl, now) => var _ := store.Expire(key, ttl, now);
  }

  method ServeOne(store: Store, key: string, ttl: int, step: Step, ghost clock: int) returns (counts: seq<int>)
    requires store.Valid() && store.clock <= clock && StepInOrder(step, clock)
    modifies store
    ensures store.Valid() && store.clock <= ClockAfter(step, clock) && store.data == After(old(store.data), key, ttl, step)
    ensures counts == if step.Hit? then [CountOf(old(store.data), key, step.now)] else []
  {
    hide AfterOp, AfterHit, CountOf, Refines;
    match step
    case Hit(now, later) =>
      var count := store.IncrWithTtl(key, ttl, now, later);
      counts := [count];
    case Other(op) =>
      Perform(store, op);
      counts := [];
  }

  /** The store serves one key's hits among everybody else's operations. */
  method Serve(store: Store, key: string, ttl: int, steps: seq<Step>, ghost start: int) returns (counts: seq<int>)
    requires store.Valid() && store.clock <= start && InOrder(steps, start)
    modifies store
    ensures store.Valid() && store.data == Exec(old(store.data), key, ttl, steps)
    ensures counts == Counts(old(store.data), key, ttl, steps)
  {
    hide After, CountOf, Refines, StepInOrder, ClockAfter;
    counts := [];
    var i := 0;
    ghost var clock := start;
    while i < |steps|
      invariant 0 <= i <= |steps| && store.Valid() && store.clock <= clock && InOrder(steps[i..], clock)
      invariant Exec(store.data, key, ttl, steps[i..]) == Exec(old(store.data), key, ttl, steps)
      invariant counts + Counts(store.data, key, ttl, steps[i..]) == Counts(old(store.data), key, ttl, steps)
    {
      assert steps[i..][0] == steps[i] && steps[i..][1..] == steps[i + 1..];
      var count := ServeOne(store, key, ttl, steps[i], clock);
      counts := counts + count;
      clock := ClockAfter(steps[i], clock);
      i := i + 1;
    }
  }

  lemma Stored(data: seq<Entry>, model: map<string, Timed>, evicted: set<string>, clock: int, e: Entry)
    requires Refines(data, model, evicted, clock) && e in data
    ensures e.key in model && model[e.key] == Timed(e.expires, e.value)
  {
  }

  lemma NotLive(data: seq<Entry>, model: map<string, Timed>, evicted: set<string>, clock: int, key: string, now: int)
    requires Refines(data, model, evicted, clock) && !(key in model && now <= model[key].expires && key !in evicted)
    ensures forall e | e in data && e.key == key :: e.expires < now
  {
  }

  /** A first hit and the run that follows it. */
  lemma FirstWindow(data: seq<Entry>, key: string, ttl: int, now: int, later: int, steps: seq<Step>)
    requires Distinct(data) && (forall e | e in data && e.key == key :: e.expires < now) && Within(steps, key, later + ttl)
    ensures var after := AfterHit(data, key, ttl, now, later);
            var counts := [CountOf(data, key, now)] + Counts(after, key, ttl, steps);
            && (NeverEvicts(after, key, ttl, steps) ==>
                  && counts == From(1, 1 + Hits(steps))
                  && Entry(key, later + ttl, Number(1 + Hits(steps))) in Exec(after, key, ttl, steps))
            && (steps != [] && steps[|steps| - 1].Hit? ==>
                  (counts == From(1, 1 + Hits(steps)) <==> NeverEvicts(after, key, ttl, steps)))
  {
    hide AfterHit, CountOf, Distinct, Exec, Counts, NeverEvicts, From, HitEntry, Within, Hits;
    var after := AfterHit(data, key, ttl, now, later);
    HitStarts(data, key, ttl, now, later);
    HitFacts(data, key, ttl, now, later);
    FromOn(1, Hits(steps));
    if NeverEvicts(after, key, ttl, steps) {
      WindowStays(after, key, ttl, steps, later + ttl, 1);
      CountsGoOn(after, key, ttl, steps, later + ttl, 1);
    } else if steps != [] && steps[|steps| - 1].Hit? {
      CountsGoOnIffNeverEvicted(after, key, ttl, steps, later + ttl, 1);
      FromTail(1, Hits(steps), Counts(after, key, ttl, steps));
    }
  }

  lemma FromTail(n: int, length: nat, tail: seq<int>)
    ensures [n] + tail == From(n, 1 + length) ==> tail == From(n + 1, length)
  {
    if [n] + tail == From(n, 1 + length) {
      assert tail == ([n] + tail)[1..];
      FromOn(n, length);
      assert ([n] + From(n + 1, length))[1..] == From(n + 1, length);
    }
  }

  /** A first hit and the run that follows it within its window, on the store. */
  method HitWindow(store: Store, key: string, ttl: int, now: int, later: int, steps: seq<Step>) returns (counts: seq<int>)
    requires store.Valid() && !store.Live(key, now) && store.clock <= now <= later
    requires InOrder(steps, later) && Within(steps, key, later + ttl)
    modifies store
    ensures store.Valid()
    ensures var after := AfterHit(old(store.data), key, ttl, now, later);
            && (NeverEvicts(after, key, ttl, steps) ==>
                  && counts == From(1, 1 + Hits(steps))
                  && key in store.model && store.model[key] == Timed(later + ttl, Number(1 + Hits(steps))))
            && (steps != [] && steps[|steps| - 1].Hit? ==>
                  (counts == From(1, 1 + Hits(steps)) <==> NeverEvicts(after, key, ttl, steps)))
  {
    ghost var before := store.data;
    NotLive(before, store.model, store.evicted, store.clock, key, now);
    FirstWindow(before, key, ttl, now, later, steps);
    hide AfterHit, CountOf, Exec, Counts, NeverEvicts, From, Within, InOrder, Refines;
    var count := store.IncrWithTtl(key, ttl, now, later);
    var rest := Serve(store, key, ttl, steps, later);
    counts := [count] + rest;
    ghost var e := Entry(key, later + ttl, Number(1 + Hits(steps)));
    if e in store.data {
      Stored(store.data, store.model, store.evicted, store.clock, e);
    }
  }

  /** Hits with nothing in between. */
  lemma {:induction false} HitsAloneNeverEvict(data: seq<Entry>, key: string, ttl: int, steps: seq<Step>)
    requires forall step | step in steps :: step.Hit?
    ensures NeverEvicts(data, key, ttl, steps)
    decreases |steps|
  {
    if steps != [] {
      assert steps[0] in steps;
      HitsAloneNeverEvict(After(data, key, ttl, steps[0]), key, ttl, steps[1..]);
    }
  }
}
