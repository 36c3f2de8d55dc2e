/**
 The per-tenant daily dispatch: any number of beat processes, each of which reads the clock, makes sure
 the tenant's run document exists, and claims the local day with one conditional update. Every database
 operation is one step, and steps of different processes interleave in any way. A stamp is an instant;
 that the stored texts compare as the instants do is shown in IsoTime.
 */
module DailyDispatch {
  import opened Options

  type Stamp = int

  /** No local day lasts longer than two days of 86400 seconds, in microseconds. */
  const LONGEST: int := 2 * 86400 * 1000000

  /** The local day an instant lies in, as the instant of its midnight: days follow each other. */
  ghost predicate LocalDays(dayStart: Stamp -> Stamp) {
    && (forall t :: dayStart(t) <= t && dayStart(dayStart(t)) == dayStart(t))
    && (forall t, u :: t <= u ==> dayStart(t) <= dayStart(u))
    && (forall t :: t < dayStart(t) + LONGEST)
  }

  datatype Op =
    | LookUp(process: nat)       // the upsert's query
    | Insert(process: nat)       // the upsert's insert, when the query found nothing
    | Claim(now: Stamp)          // the conditional update
    | Complete(stamp: Stamp)     // the night audit's closing write

  /** The run documents of one tenant; `wins` are the instants at which a process won the day and queued the tenant. */
  datatype State = State(docs: seq<Option<Stamp>>, missing: set<nat>, wins: seq<Stamp>)

  /** `last_auto_run` unset, or before the start of the claimed day. */
  predicate Open(doc: Option<Stamp>, boundary: Stamp) {
    doc.None? || doc.value < boundary
  }

  /** The document a conditional update takes, or the number of documents. */
  function FirstOpen(docs: seq<Option<Stamp>>, boundary: Stamp): (i: nat)
    ensures i <= |docs| && (i < |docs| ==> Open(docs[i], boundary))
    ensures forall j | 0 <= j < i :: !Open(docs[j], boundary)
  {
    if docs == [] || Open(docs[0], boundary) then 0 else 1 + FirstOpen(docs[1..], boundary)
  }

  function Step(unique: bool, dayStart: Stamp -> Stamp, s: State, op: Op): State {
    match op
    case LookUp(p) => if s.docs == [] then s.(missing := s.missing + {p}) else s
    case Insert(p) =>
      if p in s.missing && !(unique && s.docs != [])
      then s.(missing := s.missing - {p}, docs := s.docs + [None])
      else s.(missing := s.missing - {p})
    case Claim(now) =>
      var i := FirstOpen(s.docs, dayStart(now));
      if i < |s.docs| then s.(docs := s.docs[i := Some(now)], wins := s.wins + [now]) else s
    case Complete(stamp) => if s.docs == [] then s else s.(docs := s.docs[0 := Some(stamp)])
  }

  function Exec(unique: bool, dayStart: Stamp -> Stamp, s: State, ops: seq<Op>): State
    decreases |ops|
  {
    if ops == [] then s else Exec(unique, dayStart, Step(unique, dayStart, s, ops[0]), ops[1..])
  }

  /** Before the first tick: at most one document, and nothing dispatched. */
  predicate Initial(s: State) {
    |s.docs| <= 1 && s.missing == {} && s.wins == []
  }

  /** Every dispatch is for a later local day than the one before: at most one a day, and none for a day gone by. */
  predicate OnceADay(dayStart: Stamp -> Stamp, wins: seq<Stamp>) {
    forall i, j | 0 <= i < j < |wins| :: dayStart(wins[i]) < dayStart(wins[j])
  }

  /** No document would let a day be claimed again that was won before. */
  predicate Closed(dayStart: Stamp -> Stamp, s: State) {
    forall d, w | d in s.docs && w in s.wins :: !Open(d, dayStart(w))
  }

  predicate Sound(dayStart: Stamp -> Stamp, s: State) {
    |s.docs| <= 1 && (s.docs == [] ==> s.wins == []) && Closed(dayStart, s) && OnceADay(dayStart, s.wins)
  }

  /** What a step must not do: add a second document, or write a stamp from before a day already won. */
  predicate Tame(unique: bool, dayStart: Stamp -> Stamp, s: State, op: Op) {
    match op
    case Insert(p) => unique || s.docs == [] || p !in s.missing
    case Complete(stamp) => forall w | w in s.wins :: dayStart(w) <= stamp
    case _ => true
  }

  predicate TameRun(unique: bool, dayStart: Stamp -> Stamp, s: State, ops: seq<Op>)
    decreases |ops|
  {
    ops == [] || (Tame(unique, dayStart, s, ops[0]) && TameRun(unique, dayStart, Step(unique, dayStart, s, ops[0]), ops[1..]))
  }

  // ---------- at most once a day ----------

  lemma ClaimKeepsSound(unique: bool, dayStart: Stamp -> Stamp, s: State, now: Stamp)
    requires LocalDays(dayStart) && Sound(dayStart, s)
    ensures Sound(dayStart, Step(unique, dayStart, s, Claim(now)))
    ensures var after := Step(unique, dayStart, s, Claim(now));
            after.wins != s.wins ==> forall w | w in s.wins :: dayStart(w) < dayStart(now)
  {
    var after := Step(unique, dayStart, s, Claim(now));
    if after.wins != s.wins {
      forall w | w in s.wins
        ensures dayStart(w) < dayStart(now)
      {
        assert s.docs[0] in s.docs;
      }
    }
  }

  lemma StepKeepsSound(unique: bool, dayStart: Stamp -> Stamp, s: State, op: Op)
    requires LocalDays(dayStart) && Sound(dayStart, s) && Tame(unique, dayStart, s, op)
    ensures Sound(dayStart, Step(unique, dayStart, s, op))
  {
    if op.Claim? {
      ClaimKeepsSound(unique, dayStart, s, op.now);
    }
  }

  /** Whatever the interleaving, a tame run dispatches at most once per local day, and never for a day gone by. */
  lemma {:induction false} TameRunIsSound(unique: bool, dayStart: Stamp -> Stamp, s: State, ops: seq<Op>)
    requires LocalDays(dayStart) && Sound(dayStart, s) && TameRun(unique, dayStart, s, ops)
    ensures Sound(dayStart, Exec(unique, dayStart, s, ops))
    decreases |ops|
  {
    if ops != [] {
      StepKeepsSound(unique, dayStart, s, ops[0]);
      TameRunIsSound(unique, dayStart, Step(unique, dayStart, s, ops[0]), ops[1..]);
    }
  }

  predicate NoCompletion(ops: seq<Op>) {
    forall op | op in ops :: !op.Complete?
  }

  lemma {:induction false} IndexedRunIsTame(dayStart: Stamp -> Stamp, s: State, ops: seq<Op>)
    requires NoCompletion(ops)
    ensures TameRun(true, dayStart, s, ops)
    decreases |ops|
  {
    if ops != [] {
      assert ops[0] in ops;
      IndexedRunIsTame(dayStart, Step(true, dayStart, s, ops[0]), ops[1..]);
    }
  }

  /**
   The dispatchers that only claim: behind the unique index every interleaving of every number of
   processes dispatches a tenant at most once per local day.
   */
  lemma IndexedDispatchOnceADay(dayStart: Stamp -> Stamp, s: State, ops: seq<Op>)
    requires LocalDays(dayStart) && Initial(s) && NoCompletion(ops)
    ensures OnceADay(dayStart, Exec(true, dayStart, s, ops).wins)
  {
    IndexedRunIsTame(dayStart, s, ops);
    TameRunIsSound(true, dayStart, s, ops);
  }

  /** An operation at an instant of the common clock. */
  datatype Timed = Timed(op: Op, at: Stamp)

  /**
   The clock does not run back over the operations. A claim uses an instant its process read at any time
   before, in whatever order; a completion lands in the local day of its own stamp.
   */
  predicate Clocked(dayStart: Stamp -> Stamp, run: seq<Timed>, clock: Stamp)
    decreases |run|
  {
    run == [] ||
    (&& clock <= run[0].at
     && (run[0].op.Claim? ==> run[0].op.now <= run[0].at)
     && (run[0].op.Complete? ==> dayStart(run[0].at) <= run[0].op.stamp <= run[0].at)
     && Clocked(dayStart, run[1..], run[0].at))
  }

  function OpsOf(run: seq<Timed>): seq<Op> {
    if run == [] then [] else [run[0].op] + OpsOf(run[1..])
  }

  /** Either the index stands, or nobody inserts: the night audit's schedules exist before they are dispatched. */
  predicate NoSecondDocument(unique: bool, run: seq<Timed>) {
    unique || forall timed | timed in run :: !timed.op.Insert?
  }

  /**
   The night audit, completion writes included: under a common clock every interleaving of claims, however
   late, and of completions dispatches a tenant at most once per local day.
   */
  lemma {:induction false} ClockedRunOnceADay(unique: bool, dayStart: Stamp -> Stamp, s: State, run: seq<Timed>, clock: Stamp)
    requires LocalDays(dayStart) && Sound(dayStart, s) && (forall w | w in s.wins :: w <= clock)
    requires Clocked(dayStart, run, clock) && NoSecondDocument(unique, run)
    ensures Sound(dayStart, Exec(unique, dayStart, s, OpsOf(run)))
    decreases |run|
  {
    if run != [] {
      var op, rest := run[0].op, run[1..];
      assert run[0] in run && forall timed | timed in rest :: timed in run;
      assert Tame(unique, dayStart, s, op);
      StepKeepsSound(unique, dayStart, s, op);
      ClockedRunOnceADay(unique, dayStart, Step(unique, dayStart, s, op), rest, run[0].at);
      ExecCons(unique, dayStart, s, op, OpsOf(rest));
    }
  }

  /** From the start: no two dispatches of the night audit fall into one local day, and none into a day gone by. */
  lemma NightAuditOnceADay(dayStart: Stamp -> Stamp, s: State, run: seq<Timed>, clock: Stamp)
    requires LocalDays(dayStart) && Initial(s) && Clocked(dayStart, run, clock)
    requires forall timed | timed in run :: !timed.op.Insert?
    ensures OnceADay(dayStart, Exec(false, dayStart, s, OpsOf(run)).wins)
    ensures OnceADay(dayStart, Exec(true, dayStart, s, OpsOf(run)).wins)
  {
    ClockedRunOnceADay(false, dayStart, s, run, clock);
    ClockedRunOnceADay(true, dayStart, s, run, clock);
  }

  /** Behind the index documents may also be created on the way. */
  lemma IndexedClockedRunOnceADay(dayStart: Stamp -> Stamp, s: State, run: seq<Timed>, clock: Stamp)
    requires LocalDays(dayStart) && Initial(s) && Clocked(dayStart, run, clock)
    ensures OnceADay(dayStart, Exec(true, dayStart, s, OpsOf(run)).wins)
  {
    ClockedRunOnceADay(true, dayStart, s, run, clock);
  }

  /** A winning claim moves the stamp of the one document forward. */
  lemma ClaimMovesForward(unique: bool, dayStart: Stamp -> Stamp, s: State, now: Stamp)
    requires LocalDays(dayStart) && |s.docs| == 1
    ensures var after := Step(unique, dayStart, s, Claim(now));
            && (after.wins == s.wins + [now] <==> s.docs[0].None? || dayStart(s.docs[0].value) < dayStart(now))
            && (after.wins != s.wins ==> after.docs == [Some(now)] && (s.docs[0].Some? ==> s.docs[0].value < now))
            && (s.docs[0].Some? && dayStart(now) <= dayStart(s.docs[0].value) ==> after == s)
  {
    assert |s.wins + [now]| != |s.wins|;
    assert dayStart(dayStart(now)) == dayStart(now);
  }

  function ClaimsAt(times: seq<Stamp>): (ops: seq<Op>)
    ensures |ops| == |times|
  {
    seq(|times|, i requires 0 <= i < |times| => Claim(times[i]))
  }

  predicate InOrder(times: seq<Stamp>) {
    forall i, j | 0 <= i < j < |times| :: times[i] <= times[j]
  }

  /** The one document holds the last win, or nothing was won. */
  predicate HoldsLastWin(s: State) {
    |s.docs| == 1 && (if s.wins == [] then s.docs[0].None? else s.docs[0] == Some(s.wins[|s.wins| - 1]))
  }

  /** No day is missed either: claims made in the order of the clock win each local day in which one is made. */
  lemma {:induction false} EveryDayIsWon(unique: bool, dayStart: Stamp -> Stamp, s: State, times: seq<Stamp>)
    requires LocalDays(dayStart) && HoldsLastWin(s) && InOrder(times)
    requires forall w, t | w in s.wins && t in times :: w <= t
    ensures var t := Exec(unique, dayStart, s, ClaimsAt(times));
            && HoldsLastWin(t) && s.wins <= t.wins
            && (forall now | now in times :: exists w | w in t.wins :: dayStart(w) == dayStart(now))
            && (forall w | w in t.wins :: w in s.wins || w in times)
    decreases |times|
  {
    if times != [] {
      var now, rest := times[0], times[1..];
      assert times == [now] + rest && ClaimsAt(times) == [Claim(now)] + ClaimsAt(rest);
      ExecCons(unique, dayStart, s, Claim(now), ClaimsAt(rest));
      var next := Step(unique, dayStart, s, Claim(now));
      assert now in times;
      ClaimIsWon(unique, dayStart, s, now);
      hide Step, LocalDays;
      assert forall t | t in rest :: now <= t;
      EveryDayIsWon(unique, dayStart, next, rest);
    }
  }

  /** After a claim its day is won, if the documents and the wins are not ahead of it. */
  lemma ClaimIsWon(unique: bool, dayStart: Stamp -> Stamp, s: State, now: Stamp)
    requires LocalDays(dayStart) && HoldsLastWin(s) && forall w | w in s.wins :: w <= now
    ensures var t := Step(unique, dayStart, s, Claim(now));
            && HoldsLastWin(t) && s.wins <= t.wins && (forall w | w in t.wins :: w in s.wins || w == now)
            && exists w | w in t.wins :: dayStart(w) == dayStart(now)
  {
    var t := Step(unique, dayStart, s, Claim(now));
    ClaimMovesForward(unique, dayStart, s, now);
    if t.wins == s.wins {
      assert s.wins != [] && s.wins[|s.wins| - 1] in s.wins;
    } else {
      assert t.wins[|t.wins| - 1] == now && now in t.wins;
    }
  }

  // ---------- exactly the tame steps are safe ----------

  /** A day already won can be won again exactly when the documents are not closed. */
  lemma WonAgainIffOpen(unique: bool, dayStart: Stamp -> Stamp, s: State)
    requires LocalDays(dayStart)
    ensures Closed(dayStart, s) <==>
            forall now, w | w in s.wins && dayStart(now) == dayStart(w) :: Step(unique, dayStart, s, Claim(now)) == s
  {
    if !Closed(dayStart, s) {
      var d, w :| d in s.docs && w in s.wins && Open(d, dayStart(w));
      assert FirstOpen(s.docs, dayStart(w)) < |s.docs|;
      assert |Step(unique, dayStart, s, Claim(w)).wins| == |s.wins| + 1;
    } else {
      forall now, w | w in s.wins && dayStart(now) == dayStart(w)
        ensures Step(unique, dayStart, s, Claim(now)) == s
      {
        AllShut(s.docs, dayStart(now));
      }
    }
  }

  lemma {:induction false} AllShut(docs: seq<Option<Stamp>>, boundary: Stamp)
    requires forall d | d in docs :: !Open(d, boundary)
    ensures FirstOpen(docs, boundary) == |docs|
  {
    if docs != [] {
      AllShut(docs[1..], boundary);
    }
  }

  ghost predicate DispatchesTwice(unique: bool, dayStart: Stamp -> Stamp, s: State) {
    exists ops: seq<Op> :: NoCompletion(ops) && !OnceADay(dayStart, Exec(unique, dayStart, s, ops).wins)
  }

  lemma RepeatedWin(dayStart: Stamp -> Stamp, wins: seq<Stamp>, w: Stamp)
    requires w in wins
    ensures !OnceADay(dayStart, wins + [w])
  {
    var i :| 0 <= i < |wins| && wins[i] == w;
    var all := wins + [w];
    assert all[i] == w && all[|wins|] == w;
  }

  /** A completion stamped before a day already won opens that day: the next claim in it dispatches again. */
  lemma StaleCompletionReopens(unique: bool, dayStart: Stamp -> Stamp, s: State, stamp: Stamp, w: Stamp)
    requires |s.docs| == 1 && w in s.wins && stamp < dayStart(w)
    ensures DispatchesTwice(unique, dayStart, Step(unique, dayStart, s, Complete(stamp)))
  {
    var after := Step(unique, dayStart, s, Complete(stamp));
    assert after.docs == [Some(stamp)];
    ExecCons(unique, dayStart, after, Claim(w), []);
    RepeatedWin(dayStart, s.wins, w);
    assert Exec(unique, dayStart, after, [Claim(w)] + []).wins == s.wins + [w];
  }

  /** Such a completion is reachable: a run that ends only after the next day has been claimed. */
  lemma StaleCompletionIsReachable(unique: bool, dayStart: Stamp -> Stamp, s: State, first: Stamp, second: Stamp)
    requires LocalDays(dayStart) && Initial(s) && s.docs == [None] && first < dayStart(second)
    ensures var t := Exec(unique, dayStart, s, [Claim(first), Claim(second)]);
            && t.wins == [first, second] && Sound(dayStart, t) && !Tame(unique, dayStart, t, Complete(first))
            && DispatchesTwice(unique, dayStart, Step(unique, dayStart, t, Complete(first)))
  {
    var once := Step(unique, dayStart, s, Claim(first));
    var twice := Step(unique, dayStart, once, Claim(second));
    assert once.docs == [Some(first)] && twice.docs == [Some(second)];
    assert [Claim(first), Claim(second)][1..] == [Claim(second)] && [Claim(second)][1..] == [];
    assert Exec(unique, dayStart, once, [Claim(second)]) == Exec(unique, dayStart, twice, []) == twice;
    assert twice.wins == [first, second] && second in twice.wins;
    ClaimKeepsSound(unique, dayStart, s, first);
    ClaimKeepsSound(unique, dayStart, once, second);
    StaleCompletionReopens(unique, dayStart, twice, first, second);
  }

  /** A second document lets one local day be won twice. */
  lemma SecondDocumentDispatchesTwice(unique: bool, dayStart: Stamp -> Stamp, s: State)
    requires LocalDays(dayStart) && |s.docs| == 2 && s.docs[1].None?
    ensures DispatchesTwice(unique, dayStart, s)
  {
    var last := if s.docs[0].Some? then s.docs[0].value else 0;
    var t := last + LONGEST;
    assert last < dayStart(t);
    var once := Step(unique, dayStart, s, Claim(t));
    assert once.docs == [Some(t), None] && once.wins == s.wins + [t];
    var twice := Step(unique, dayStart, once, Claim(t));
    assert FirstOpen(once.docs, dayStart(t)) == 1;
    assert twice.wins == once.wins + [t];
    RepeatedWin(dayStart, once.wins, t);
    ExecCons(unique, dayStart, s, Claim(t), [Claim(t)]);
    ExecCons(unique, dayStart, once, Claim(t), []);
    assert NoCompletion([Claim(t)] + [Claim(t)]);
  }

  /** In a sound state a step is safe, whatever claims follow, exactly when it is tame. */
  lemma SafeIffTame(unique: bool, dayStart: Stamp -> Stamp, s: State, op: Op)
    requires LocalDays(dayStart) && Sound(dayStart, s)
    ensures unique ==> (Tame(unique, dayStart, s, op) <==> !DispatchesTwice(unique, dayStart, Step(unique, dayStart, s, op)))
    ensures !Tame(unique, dayStart, s, op) ==> DispatchesTwice(unique, dayStart, Step(unique, dayStart, s, op))
  {
    var after := Step(unique, dayStart, s, op);
    if !Tame(unique, dayStart, s, op) {
      if op.Complete? {
        var w :| w in s.wins && op.stamp < dayStart(w);
        StaleCompletionReopens(unique, dayStart, s, op.stamp, w);
      } else {
        SecondDocumentDispatchesTwice(unique, dayStart, after);
      }
    } else if unique {
      StepKeepsSound(unique, dayStart, s, op);
      forall ops: seq<Op> | NoCompletion(ops)
        ensures OnceADay(dayStart, Exec(unique, dayStart, after, ops).wins)
      {
        IndexedRunIsTame(dayStart, after, ops);
        TameRunIsSound(unique, dayStart, after, ops);
      }
    }
  }

  lemma ExecCons(unique: bool, dayStart: Stamp -> Stamp, s: State, op: Op, rest: seq<Op>)
    ensures Exec(unique, dayStart, s, [op] + rest) == Exec(unique, dayStart, Step(unique, dayStart, s, op), rest)
  {
    assert ([op] + rest)[1..] == rest;
  }

  lemma ThreeSteps(unique: bool, dayStart: Stamp -> Stamp, s: State, a: Op, b: Op, c: Op, rest: seq<Op>)
    ensures Exec(unique, dayStart, s, [a, b, c] + rest) ==
            Exec(unique, dayStart, Step(unique, dayStart, Step(unique, dayStart, Step(unique, dayStart, s, a), b), c), rest)
  {
    hide Step;
    ExecCons(unique, dayStart, s, a, [b, c] + rest);
    ExecCons(unique, dayStart, Step(unique, dayStart, s, a), b, [c] + rest);
    ExecCons(unique, dayStart, Step(unique, dayStart, Step(unique, dayStart, s, a), b), c, rest);
    assert [a, b, c] + rest == [a] + ([b, c] + rest);
    assert [b, c] + rest == [b] + ([c] + rest);
  }

  /** Without the index two first-time processes dispatch a tenant twice; with it, once. */
  lemma FirstTimersWithoutIndexDispatchTwice(dayStart: Stamp -> Stamp, s: State, p: nat, q: nat, now: Stamp)
    requires LocalDays(dayStart) && s.docs == [] && p != q
    ensures var ops := [LookUp(p), LookUp(q), Insert(p), Insert(q), Claim(now), Claim(now)];
            && Exec(false, dayStart, s, ops).wins == s.wins + [now, now]
            && Exec(true, dayStart, s, ops).wins == s.wins + [now]
  {
    FirstTimers(false, dayStart, s, p, q, now);
    FirstTimers(true, dayStart, s, p, q, now);
  }

  lemma FirstTimers(unique: bool, dayStart: Stamp -> Stamp, s: State, p: nat, q: nat, now: Stamp)
    requires LocalDays(dayStart) && s.docs == [] && p != q
    ensures var ops := [LookUp(p), LookUp(q), Insert(p), Insert(q), Claim(now), Claim(now)];
            Exec(unique, dayStart, s, ops).wins == s.wins + (if unique then [now] else [now, now])
  {
    var later := [Insert(q), Claim(now), Claim(now)];
    assert [LookUp(p), LookUp(q), Insert(p), Insert(q), Claim(now), Claim(now)] == [LookUp(p), LookUp(q), Insert(p)] + later;
    ThreeSteps(unique, dayStart, s, LookUp(p), LookUp(q), Insert(p), later);
    var s2 := Step(unique, dayStart, Step(unique, dayStart, s, LookUp(p)), LookUp(q));
    var s3 := Step(unique, dayStart, s2, Insert(p));
    assert s3.docs == [None] && q in s3.missing && s3.wins == s.wins;
    assert later == later + [];
    ThreeSteps(unique, dayStart, s3, Insert(q), Claim(now), Claim(now), []);
    SecondTimer(unique, dayStart, s3, q, now);
  }

  lemma SecondTimer(unique: bool, dayStart: Stamp -> Stamp, s: State, q: nat, now: Stamp)
    requires LocalDays(dayStart) && s.docs == [None] && q in s.missing
    ensures var both := Step(unique, dayStart, s, Insert(q));
            Step(unique, dayStart, Step(unique, dayStart, both, Claim(now)), Claim(now)).wins
            == s.wins + (if unique then [now] else [now, now])
  {
    var both := Step(unique, dayStart, s, Insert(q));
    assert both.docs == if unique then [None] else [None, None];
    var once := Step(unique, dayStart, both, Claim(now));
    assert once.docs == (if unique then [Some(now)] else [Some(now), None]) && once.wins == s.wins + [now];
    assert FirstOpen(once.docs, dayStart(now)) == 1;
  }

  lemma TwiceAfterStep(unique: bool, dayStart: Stamp -> Stamp, s: State, op: Op)
    requires DispatchesTwice(unique, dayStart, Step(unique, dayStart, s, op)) && !op.Complete?
    ensures DispatchesTwice(unique, dayStart, s)
  {
    var ops: seq<Op> :| NoCompletion(ops) && !OnceADay(dayStart, Exec(unique, dayStart, Step(unique, dayStart, s, op), ops).wins);
    ExecCons(unique, dayStart, s, op, ops);
    assert NoCompletion([op] + ops);
  }

  /** With one document and no insert pending, claims alone are tame also without the index. */
  lemma {:induction false} SettledRunIsTame(dayStart: Stamp -> Stamp, s: State, ops: seq<Op>)
    requires |s.docs| == 1 && s.missing == {} && NoCompletion(ops)
    ensures TameRun(false, dayStart, s, ops)
    decreases |ops|
  {
    if ops != [] {
      assert ops[0] in ops;
      SettledRunIsTame(dayStart, Step(false, dayStart, s, ops[0]), ops[1..]);
    }
  }

  /**
   The dispatchers that go on without the index: a sound state is safe, whatever lookups, inserts and claims
   follow, exactly when the tenant's one document exists and no process is still about to insert another.
   */
  lemma UnindexedIsSafeIffSettled(dayStart: Stamp -> Stamp, s: State)
    requires LocalDays(dayStart) && Sound(dayStart, s)
    ensures !DispatchesTwice(false, dayStart, s) <==> |s.docs| == 1 && s.missing == {}
  {
    if s.docs == [] {
      FirstTimersWithoutIndexDispatchTwice(dayStart, s, 1, 2, 0);
      var ops := [LookUp(1), LookUp(2), Insert(1), Insert(2), Claim(0), Claim(0)];
      assert NoCompletion(ops);
      RepeatedWin(dayStart, s.wins + [0], 0);
      assert s.wins + [0] + [0] == s.wins + [0, 0];
    } else if p :| p in s.missing {
      SecondDocumentDispatchesTwice(false, dayStart, Step(false, dayStart, s, Insert(p)));
      TwiceAfterStep(false, dayStart, s, Insert(p));
    } else {
      forall ops: seq<Op> | NoCompletion(ops)
        ensures OnceADay(dayStart, Exec(false, dayStart, s, ops).wins)
      {
        SettledRunIsTame(dayStart, s, ops);
        TameRunIsSound(false, dayStart, s, ops);
      }
    }
  }

  // ---------- the program ----------

  /** The run documents of a tenant as the dispatchers and the night audit update them. */
  class Runs {
    const unique: bool
    const dayStart: Stamp -> Stamp
    var docs: seq<Option<Stamp>>
    var missing: set<nat>
    ghost var wins: seq<Stamp>

    constructor (unique: bool, dayStart: Stamp -> Stamp, docs: seq<Option<Stamp>>)
      ensures this.unique == unique && this.dayStart == dayStart && Value() == State(docs, {}, [])
    {
      this.unique, this.dayStart, this.docs, this.missing, this.wins := unique, dayStart, docs, {}, [];
    }

    ghost function Value(): State
      reads this
    {
      State(docs, missing, wins)
    }

    method FindState(process: nat)
      modifies this
      ensures Value() == Step(unique, dayStart, old(Value()), LookUp(process))
    {
      if docs == [] {
        missing := missing + {process};
      }
    }

    method InsertState(process: nat)
      modifies this
      ensures Value() == Step(unique, dayStart, old(Value()), Insert(process))
    {
      if process in missing && !(unique && docs != []) {
        docs := docs + [None];
      }
      missing := missing - {process};
    }

    /** The conditional update: it takes the first document that matches. */
    method ClaimDay(now: Stamp) returns (won: bool)
      modifies this
      ensures Value() == Step(unique, dayStart, old(Value()), Claim(now))
      ensures won <==> wins == old(wins) + [now]
      ensures !won ==> wins == old(wins)
    {
      var boundary := dayStart(now);
      var i := 0;
      while i < |docs|
        invariant i <= |docs| && Value() == old(Value())
        invariant forall j | 0 <= j < i :: !Open(docs[j], boundary)
      {
        if Open(docs[i], boundary) {
          FirstOpenIs(docs, boundary, i);
          docs := docs[i := Some(now)];
          wins := wins + [now];
          return true;
        }
        i := i + 1;
      }
      assert |wins + [now]| != |wins|;
      return false;
    }

    method RecordCompletion(stamp: Stamp)
      modifies this
      ensures Value() == Step(unique, dayStart, old(Value()), Complete(stamp))
    {
      if docs != [] {
        docs := docs[0 := Some(stamp)];
      }
    }

    /** One tick of one process that nobody interrupts: due tenants make sure of their document and claim the day. */
    method Dispatch(process: nat, now: Stamp, due: bool) returns (queued: bool)
      modifies this
      ensures !due ==> !queued && Value() == old(Value())
      ensures due ==> Value() == Exec(unique, dayStart, old(Value()), [LookUp(process), Insert(process), Claim(now)])
      ensures queued <==> wins == old(wins) + [now]
    {
      assert |wins + [now]| != |wins|;
      if !due {
        return false;
      }
      assert [LookUp(process), Insert(process), Claim(now)] == [LookUp(process), Insert(process), Claim(now)] + [];
      ThreeSteps(unique, dayStart, Value(), LookUp(process), Insert(process), Claim(now), []);
      FindState(process);
      InsertState(process);
      queued := ClaimDay(now);
    }

    /** One tick of the night audit and, if the day was won, the audit it queues, which closes with its own stamp. */
    method NightAudit(now: Stamp, due: bool, stamp: Stamp) returns (queued: bool)
      modifies this
      ensures !due ==> !queued && Value() == old(Value())
      ensures due && queued ==> Value() == Exec(unique, dayStart, old(Value()), [Claim(now), Complete(stamp)])
      ensures due && !queued ==> Value() == Exec(unique, dayStart, old(Value()), [Claim(now)])
      ensures queued <==> wins == old(wins) + [now]
    {
      assert |wins + [now]| != |wins|;
      if !due {
        return false;
      }
      ExecCons(unique, dayStart, Value(), Claim(now), []);
      ExecCons(unique, dayStart, Step(unique, dayStart, Value(), Claim(now)), Complete(stamp), []);
      ExecCons(unique, dayStart, Value(), Claim(now), [Complete(stamp)]);
      assert [Claim(now)] + [Complete(stamp)] == [Claim(now), Complete(stamp)];
      queued := ClaimDay(now);
      if queued {
        RecordCompletion(stamp);
      }
    }
  }

  lemma FirstOpenIs(docs: seq<Option<Stamp>>, boundary: Stamp, i: nat)
    requires i < |docs| && Open(docs[i], boundary) && forall j | 0 <= j < i :: !Open(docs[j], boundary)
    ensures FirstOpen(docs, boundary) == i
  {
  }
}
