/**
 Start, stop and run of one worker instance, over every interleaving: activations of `run` never
 overlap, a run older than the current revision is inert, and a switched-off sender stays off exactly when
 neither a run with the current revision nor the record such a run has left in the chain is ahead of a stop.
 */
module PoliceControl {
  import opened Options
  import opened EgmTransport
  import opened PoliceAgent

  /** The state after a sequence of events; request names do not matter to a single instance. */
  function Play(a: Agent, events: seq<Event>): Agent
    decreases |events|
  {
    if events == [] then a else Play(After(a, events[0], 0), events[1..])
  }

  function SavesOf(chain: seq<Command>): set<RunId> {
    set i | 0 <= i < |chain| && chain[i].Save? :: chain[i].run
  }

  ghost predicate SaveMatches(a: Agent, c: Command)
    requires c.Save?
  {
    && c.run in a.runs
    && a.runs[c.run].pc.Saving?
    && a.runs[c.run].revision == c.revision
    && a.runs[c.run].record == c.record
  }

  predicate Pausing(pc: Pc) {
    pc.Clearing? || ((pc.Saving? || pc.Resumed?) && pc.kind.Pause?)
  }

  /** The run is working on its page; its copy of the record is an enabled one. */
  predicate Working(pc: Pc) {
    match pc
    case Reading => false
    case Clearing(_) => false
    case Saving(kind) => kind == Progress
    case Resumed(kind) => kind == Progress
    case _ => true
  }

  predicate RecordFits(r: Run) {
    (Pausing(r.pc) ==> !r.record.enabled) && (Working(r.pc) ==> r.record.enabled)
  }

  /** What holds between any two steps of an instance. */
  ghost predicate Consistent(a: Agent) {
    && (a.running <==> a.runs.Keys != {})
    && (forall k1, k2 | k1 in a.runs && k2 in a.runs :: k1 == k2)
    && (forall k | k in a.runs :: a.runs[k].revision <= a.revision)
    && (forall k | k in a.runs :: RecordFits(a.runs[k]))
    && (forall i | 0 <= i < |a.chain| && a.chain[i].Save? :: SaveMatches(a, a.chain[i]))
    && (forall i, j | 0 <= i < j < |a.chain| && a.chain[i].Save? :: !a.chain[j].Save?)
    && (forall k | k in a.runs && a.runs[k].pc.Saving? :: k in SavesOf(a.chain))
    && (forall i | 0 <= i < |a.chain| :: StopsOff(a.chain[i]))
  }

  /** What a stop is about to write is a disabled record. */
  predicate StopsOff(c: Command) {
    c.Stop? && c.stop.StopWriting? ==> !c.stop.record.enabled
  }

  lemma SavesOfAppend(chain: seq<Command>, c: Command)
    ensures SavesOf(chain + [c]) == SavesOf(chain) + (if c.Save? then {c.run} else {})
  {
    var longer := chain + [c];
    forall k | k in SavesOf(chain)
      ensures k in SavesOf(longer)
    {
      var i :| 0 <= i < |chain| && chain[i].Save? && chain[i].run == k;
      assert longer[i] == chain[i];
    }
    if c.Save? {
      assert longer[|chain|] == c;
    }
  }

  lemma SavesOfPop(chain: seq<Command>, head: Command)
    requires chain != [] && head.Save? == chain[0].Save? && (head.Save? ==> head.run == chain[0].run)
    ensures SavesOf([head] + chain[1..]) == SavesOf(chain)
    ensures !head.Save? ==> SavesOf(chain[1..]) == SavesOf(chain)
    ensures SavesOf(chain) <= SavesOf(chain[1..]) + (if head.Save? then {head.run} else {})
  {
    var tail := chain[1..];
    var swapped := [head] + tail;
    forall i | 0 < i < |chain|
      ensures tail[i - 1] == chain[i] && swapped[i] == chain[i]
    {
    }
    forall k | k in SavesOf(chain)
      ensures k in SavesOf(swapped)
      ensures k in SavesOf(tail) || (head.Save? && k == head.run)
    {
      var i :| 0 <= i < |chain| && chain[i].Save? && chain[i].run == k;
      assert i == 0 || tail[i - 1] == chain[i];
      assert swapped[i].Save? && swapped[i].run == k;
    }
    forall k | k in SavesOf(swapped)
      ensures k in SavesOf(chain)
    {
      var i :| 0 <= i < |swapped| && swapped[i].Save? && swapped[i].run == k;
      assert chain[i].Save? && chain[i].run == k;
    }
  }

  /** A move that keeps the captured revision and a record that fits. */
  predicate Tame(r: Run, move: Move) {
    match move
    case Stay => true
    case End => !r.pc.Saving?
    case Hold(r', kind) => !r.pc.Saving? && r'.revision == r.revision && RecordFits(r'.(pc := Saving(kind)))
    case Proceed(r', _) => !r.pc.Saving? && !r'.pc.Saving? && r'.revision == r.revision && RecordFits(r')
  }

  lemma DecideIsTame(r: Run, revision: nat, store: Option<Saved>, input: Input, next: RequestId)
    requires RecordFits(r)
    ensures Tame(r, Decide(r, revision, store, input, next).move)
  {
  }

  lemma CarryKeeps(a: Agent, k: RunId, move: Move)
    requires Consistent(a) && k in a.runs && Tame(a.runs[k], move)
    ensures Consistent(Carry(a, k, move))
  {
    if move.Hold? {
      SavesOfAppend(a.chain, Save(k, move.run.revision, move.run.record));
    }
  }

  lemma ServeIsTame(c: Command, ok: bool, running: bool, revision: nat, store: Option<Saved>, alarm: bool)
    ensures var served := Serve(c, ok, running, revision, store, alarm);
            && revision <= served.revision
            && (served.rest.Some? ==> !c.Save? && !served.rest.value.Save? && StopsOff(served.rest.value))
  {
  }

  lemma ServeSaveKeeps(a: Agent)
    requires Consistent(a) && a.chain != [] && a.chain[0].Save?
    ensures Consistent(Advance(a, true)) && Advance(a, false) == Advance(a, true)
  {
    var b := Advance(a, true);
    SavesOfPop(a.chain, a.chain[0]);
    assert b.chain == a.chain[1..];
    forall i | 0 <= i < |b.chain|
      ensures !b.chain[i].Save?
    {
      assert b.chain[i] == a.chain[i + 1];
    }
  }

  lemma ServeOtherKeeps(a: Agent, ok: bool)
    requires Consistent(a) && a.chain != [] && !a.chain[0].Save?
    ensures Consistent(Advance(a, ok))
  {
    hide Serve, RecordFits, StopsOff;
    var b := Advance(a, ok);
    var served := Serve(a.chain[0], ok, a.running, a.revision, a.store, a.alarm);
    ServeIsTame(a.chain[0], ok, a.running, a.revision, a.store, a.alarm);
    SavesOfPop(a.chain, if served.rest.Some? then served.rest.value else a.chain[0]);
    var shift := if served.rest.Some? then 0 else 1;
    assert b.runs == a.runs && b.running == a.running;
    assert SavesOf(b.chain) == SavesOf(a.chain);
    forall i | 0 <= i < |b.chain| && b.chain[i].Save?
      ensures i + shift < |a.chain| && b.chain[i] == a.chain[i + shift]
    {
    }
    forall i | 0 <= i < |b.chain|
      ensures StopsOff(b.chain[i])
    {
      assert (i == 0 && served.rest.Some?) || b.chain[i] == a.chain[i + shift];
    }
  }

  lemma AdvanceKeeps(a: Agent, ok: bool)
    requires Consistent(a)
    ensures Consistent(Advance(a, ok))
  {
    if a.chain != [] {
      if a.chain[0].Save? {
        ServeSaveKeeps(a);
      } else {
        ServeOtherKeeps(a, ok);
      }
    }
  }

  lemma AfterKeeps(a: Agent, event: Event, next: RequestId)
    requires Consistent(a)
    ensures Consistent(After(a, event, next))
  {
    match event
    case AlarmFires(k) =>
    case Settles(k, input) =>
      if k in a.runs {
        DecideIsTame(a.runs[k], a.revision, a.store, input, next);
        CarryKeeps(a, k, Decide(a.runs[k], a.revision, a.store, input, next).move);
      }
    case ChainStep(ok) => AdvanceKeeps(a, ok);
    case Submit(command) => SavesOfAppend(a.chain, command);
  }

  lemma {:induction false} PlayKeeps(a: Agent, events: seq<Event>)
    requires Consistent(a)
    ensures Consistent(Play(a, events))
    decreases |events|
  {
    if events != [] {
      AfterKeeps(a, events[0], 0);
      PlayKeeps(After(a, events[0], 0), events[1..]);
    }
  }

  /**
   However alarms, replies and commands interleave from the start of a service worker, at most one
   activation is under way, so at most one send is: the `running` flag is up exactly while there is one.
   */
  lemma RunsNeverOverlap(store: Option<Saved>, alarm: bool, events: seq<Event>)
    ensures var a := Play(Fresh(store, alarm), events);
            && (forall k1, k2 | k1 in a.runs && k2 in a.runs :: k1 == k2)
            && (a.running <==> exists k :: k in a.runs)
  {
    PlayKeeps(Fresh(store, alarm), events);
    var a := Play(Fresh(store, alarm), events);
    if a.runs.Keys != {} {
      var k :| k in a.runs.Keys;
      assert k in a.runs;
    }
  }

  // ---------- stale runs ----------

  /** A run of the instance that captured an older revision. */
  predicate Stale(a: Agent, k: RunId) {
    k in a.runs && a.runs[k].revision < a.revision
  }

  /**
   One step of, or for, a run: it does not reach `send`, and leaves the stored record -- also when the
   record it handed to the chain is served -- and the alarm alone.
   */
  predicate StepIsHarmless(a: Agent, k: RunId, event: Event) {
    var after := After(a, event, 0);
    && ((event.Settles? && event.run == k) || (event.ChainStep? && a.chain != [] && a.chain[0].Save? && a.chain[0].run == k) ==>
          after.store == a.store && after.alarm == a.alarm)
    && (event.Settles? && event.run == k ==> !EffectOf(a, event, 0).EnterSend?)
  }

  /** All steps of the run along the events, for as long as its activation lasts. */
  predicate Inert(a: Agent, k: RunId, events: seq<Event>)
    decreases |events|
  {
    events == [] || k !in a.runs || (StepIsHarmless(a, k, events[0]) && Inert(After(a, events[0], 0), k, events[1..]))
  }

  /** How many writes to the authority the run issues along the events while its activation lasts. */
  function WritesBy(a: Agent, k: RunId, events: seq<Event>): nat
    decreases |events|
  {
    if events == [] || k !in a.runs then 0
    else
      (if events[0].Settles? && events[0].run == k && EffectOf(a, events[0], 0).IssueWrite? then 1 else 0)
      + WritesBy(After(a, events[0], 0), k, events[1..])
  }

  lemma RevisionGrows(a: Agent, event: Event)
    ensures a.revision <= After(a, event, 0).revision
  {
    if event.ChainStep? && a.chain != [] {
      ServeIsTame(a.chain[0], event.ok, a.running, a.revision, a.store, a.alarm);
    }
  }

  lemma StaleStaysStale(a: Agent, k: RunId, event: Event)
    requires Consistent(a) && Stale(a, k)
    ensures var after := After(a, event, 0);
            k in after.runs ==>
              && after.runs[k].revision == a.runs[k].revision && Stale(after, k)
              && (after.runs[k].pc.EnteringSend? ==> a.runs[k].pc.EnteringSend?)
  {
    RevisionGrows(a, event);
    if event.Settles? && event.run in a.runs {
      DecideIsTame(a.runs[event.run], a.revision, a.store, event.input, 0);
    }
  }

  lemma StaleStepDoesNoHarm(a: Agent, k: RunId, event: Event)
    requires Consistent(a) && Stale(a, k)
    ensures StepIsHarmless(a, k, event)
  {
    if event.Settles? && event.run == k {
      DecideIsTame(a.runs[k], a.revision, a.store, event.input, 0);
    } else if event.ChainStep? && a.chain != [] && a.chain[0].Save? && a.chain[0].run == k {
      assert SaveMatches(a, a.chain[0]);
    }
  }

  /**
   A run that captured an older revision never reaches `send` again, never changes the stored record and
   never clears the alarm, whatever happens until it ends.
   */
  lemma {:induction false} StaleRunIsInert(a: Agent, k: RunId, events: seq<Event>)
    requires Consistent(a) && Stale(a, k)
    ensures Inert(a, k, events)
    decreases |events|
  {
    if events != [] {
      var after := After(a, events[0], 0);
      AfterKeeps(a, events[0], 0);
      StaleStepDoesNoHarm(a, k, events[0]);
      StaleStaysStale(a, k, events[0]);
      if k in after.runs {
        StaleRunIsInert(after, k, events[1..]);
      }
    }
  }

  lemma StaleStepWrites(a: Agent, k: RunId, event: Event)
    requires Consistent(a) && Stale(a, k) && event.Settles? && event.run == k && EffectOf(a, event, 0).IssueWrite?
    ensures a.runs[k].pc.EnteringSend?
    ensures k in After(a, event, 0).runs && !After(a, event, 0).runs[k].pc.EnteringSend?
  {
  }

  /** It issues no write, or one if it was inside `send` already. */
  lemma {:induction false} StaleRunWritesAtMost(a: Agent, k: RunId, events: seq<Event>)
    requires Consistent(a) && Stale(a, k)
    ensures WritesBy(a, k, events) <= if a.runs[k].pc.EnteringSend? then 1 else 0
    decreases |events|
  {
    if events != [] {
      var after := After(a, events[0], 0);
      AfterKeeps(a, events[0], 0);
      StaleStaysStale(a, k, events[0]);
      if events[0].Settles? && events[0].run == k && EffectOf(a, events[0], 0).IssueWrite? {
        StaleStepWrites(a, k, events[0]);
      }
      if k in after.runs {
        StaleRunWritesAtMost(after, k, events[1..]);
      }
    }
  }

  /**
   The revision is checked before `send` is entered, not before the request leaves: a stale run issues no
   write to the authority, whatever happens until it ends, exactly when it is not inside `send` already.
   */
  lemma StaleRunNeverWritesIffNotInSend(a: Agent, k: RunId)
    requires Consistent(a) && Stale(a, k)
    ensures (forall events :: WritesBy(a, k, events) == 0) <==> !a.runs[k].pc.EnteringSend?
  {
    if a.runs[k].pc.EnteringSend? {
      var events := [Settles(k, LookupDone(false, NoResponse, true))];
      assert WritesBy(a, k, events) >= 1;
    } else {
      forall events
        ensures WritesBy(a, k, events) == 0
      {
        StaleRunWritesAtMost(a, k, events);
      }
    }
  }

  /** A stale run inside `send` is reachable: the stop's revision change lands after the run's own check. */
  lemma StaleEntryIsReachable(record: Saved, item: Item) returns (events: seq<Event>)
    requires record.enabled && item.wellFormed
    ensures var a := Play(Fresh(Some(record), true), events);
            Consistent(a) && Stale(a, 0) && a.runs[0].pc == EnteringSend(item)
  {
    var a0 := Fresh(Some(record), true);
    events := [AlarmFires(0), Settles(0, ReadDone), Settles(0, PageReady([item], false)), Settles(0, Granted(item.id, true)),
               Settles(0, ContextOk), Submit(Stop(StopQueued)), ChainStep(true)];
    var a1 := After(a0, events[0], 0);
    var a2 := After(a1, events[1], 0);
    var a3 := After(a2, events[2], 0);
    var a4 := After(a3, events[3], 0);
    var a5 := After(a4, events[4], 0);
    var a6 := After(a5, events[5], 0);
    assert a5.runs[0].pc == EnteringSend(item) && a5.chain == [];
    PlayKeeps(a0, events);
    PlaySeven(a0, events);
  }

  lemma PlaySeven(a: Agent, e: seq<Event>)
    requires |e| == 7
    ensures Play(a, e) ==
            After(After(After(After(After(After(After(a, e[0], 0), e[1], 0), e[2], 0), e[3], 0), e[4], 0), e[5], 0), e[6], 0)
  {
    hide After;
    var a1 := After(a, e[0], 0);
    var a2 := After(a1, e[1], 0);
    var a3 := After(a2, e[2], 0);
    var a4 := After(a3, e[3], 0);
    var a5 := After(a4, e[4], 0);
    var a6 := After(a5, e[5], 0);
    assert e[1..][1..] == e[2..] && e[2..][1..] == e[3..] && e[3..][1..] == e[4..] && e[4..][1..] == e[5..]
           && e[5..][1..] == e[6..] && e[6..][1..] == [];
    assert Play(a, e) == Play(a1, e[1..]);
    assert Play(a1, e[1..]) == Play(a2, e[2..]);
    assert Play(a2, e[2..]) == Play(a3, e[3..]);
    assert Play(a3, e[3..]) == Play(a4, e[4..]);
    assert Play(a4, e[4..]) == Play(a5, e[5..]);
    assert Play(a5, e[5..]) == Play(a6, e[6..]);
    assert Play(a6, e[6..]) == Play(After(a6, e[6], 0), []);
  }

  // ---------- the cursor ----------

  /** The row is done with: refused by the claim, accepted and receipted, or reported as failed. */
  predicate Handles(pc: Pc, input: Input) {
    || (pc.Claiming? && input.Threw? && input.status in {404, 409, 422})
    || (pc.Completing? && input.Acknowledged?)
    || (pc.FailingUncertain? && !pc.fatal && (input.Acknowledged? || input.Threw?))
    || (pc.Failing? && !pc.pausing && input.Acknowledged?)
  }

  /**
   The cursor of a run moves to a row exactly when the row has been handled, goes back to the start exactly
   on an empty page, and stays otherwise: the sweep of FeedSweep, one await at a time.
   */
  lemma CursorMoves(r: Run, revision: nat, store: Option<Saved>, input: Input, next: RequestId)
    requires !r.pc.Reading?
    ensures var move := Decide(r, revision, store, input, next).move;
            && (move.Hold? && move.kind == Progress <==> Handles(r.pc, input))
            && (move.Hold? || move.Proceed? ==>
                  move.run.record.cursor ==
                  (if Handles(r.pc, input) then Some(r.pc.item)
                   else if r.pc.Preparing? && (input == PageReady([], true) || input == PageReady([], false)) then None
                   else r.record.cursor))
  {
  }

  /** An acknowledged completion counts as sent, and a reported failure as failed unless a refused login cut it short. */
  lemma CountsMove(r: Run, revision: nat, store: Option<Saved>, input: Input, next: RequestId)
    requires !r.pc.Reading?
    ensures var move := Decide(r, revision, store, input, next).move;
            move.Hold? || move.Proceed? ==>
              && move.run.record.sent == r.record.sent + (if r.pc.Completing? && input.Acknowledged? then 1 else 0)
              && move.run.record.failed ==
                 r.record.failed + (if (r.pc.Failing? && input.Acknowledged?) || (r.pc.FailingUncertain? && !r.pc.fatal) then 1 else 0)
  {
  }

  /** The row is given up: before the write, because the write was not accepted, or because its receipt failed. */
  predicate Fails(pc: Pc, current: bool, input: Input) {
    || (pc.Rechecking? && input.ContextOk? && !current)
    || (pc.EnteringSend? && (input.SendBlocked? || input.SendThrew?
                             || (input.LookupDone? && (!input.usable || (input.needed && EgmRequest(false, input.reply).Rejected?)))))
    || (pc.Writing? && input.WriteSettled? && input.outcome.Rejected?)
    || (pc.Completing? && input.Threw?)
  }

  /** Then the authority may have taken it. */
  predicate InDoubt(pc: Pc, input: Input) {
    input.SendThrew? || (pc.Writing? && input.WriteSettled? && input.outcome.Rejected? && input.outcome.uncertain) || pc.Completing?
  }

  /**
   What a run asks for, and when: it holds a row only after a grant of that row and tenant, enters `send` only
   with the current revision, writes only after a usable lookup, reports acceptance only of an accepted
   write, and reports a doubt exactly when there is one.
   */
  lemma AsksExactly(r: Run, revision: nat, store: Option<Saved>, input: Input, next: RequestId)
    ensures var d := Decide(r, revision, store, input, next);
            && (d.move.Proceed? && d.move.run.pc.Rechecking? <==> r.pc.Claiming? && input == Granted(r.pc.item.id, true))
            && (d.effect.EnterSend? <==> r.pc.Rechecking? && input.ContextOk? && revision == r.revision)
            && (d.effect.IssueWrite? <==> r.pc.EnteringSend? && input.LookupDone? && !Fails(r.pc, true, input))
            && (d.effect.AskComplete? <==> r.pc.Writing? && input == WriteSettled(Fulfilled))
            && (d.effect.AskFail? <==> Fails(r.pc, revision == r.revision, input))
            && (d.effect.AskFail? ==> (d.effect.uncertain <==> InDoubt(r.pc, input)))
            && (d.effect.EnterSend? || d.effect.IssueWrite? || d.effect.AskComplete? || d.effect.AskFail? ==> d.effect.job == r.pc.item.id)
  {
  }

  // ---------- stopping ----------

  /** Nothing in the chain can enable the sender again. */
  predicate NoStart(events: seq<Event>) {
    forall i | 0 <= i < |events| && events[i].Submit? :: !events[i].command.Start?
  }

  predicate Down(a: Agent) {
    a.store.None? || !a.store.value.enabled
  }

  /** The sender stays switched off, and no run enters `send`, all along the events. */
  predicate StaysDown(a: Agent, events: seq<Event>)
    decreases |events|
  {
    && Down(a)
    && (events != [] ==> !EffectOf(a, events[0], 0).EnterSend? && StaysDown(After(a, events[0], 0), events[1..]))
  }

  /** A working run that holds the current revision, unless it is on its way to pause. */
  predicate CanRevive(r: Run, revision: nat) {
    r.revision == revision && Working(r.pc) && !(r.pc.FailingUncertain? && r.pc.fatal)
  }

  /** Such a run that can reach `send` before the chain is served again. */
  predicate CanSend(r: Run) {
    match r.pc
    case Preparing => true
    case Claiming(_, _) => true
    case Rechecking(_) => true
    case Resumed(_) => r.items != [] && r.items[0].wellFormed
    case _ => false
  }

  /** A stop that has not yet moved the revision waits among the first commands. */
  predicate StopWaits(chain: seq<Command>, n: nat)
    requires n <= |chain|
  {
    exists i :: 0 <= i < n && chain[i] == Stop(StopQueued)
  }

  /** Served, this command would switch the sender on. */
  predicate Enables(c: Command, revision: nat) {
    c.Save? && c.revision == revision && c.record.enabled
  }

  /** Commands that write no enabled record, now and after any later revision, or come after a stop. */
  predicate Harmless(chain: seq<Command>, i: nat, revision: nat)
    requires i < |chain|
  {
    match chain[i]
    case Save(_, captured, record) => captured <= revision && (captured < revision || !record.enabled || StopWaits(chain, i))
    case Stop(_) => StopsOff(chain[i])
    case Start(_) => false
    case Restore(_) => true
  }

  /** A run that will not revive the sender: a stop is waiting, its record comes after it, and it cannot send before. */
  predicate Overtaken(a: Agent, k: RunId)
    requires k in a.runs
  {
    && StopWaits(a.chain, |a.chain|) && !CanSend(a.runs[k])
    && (forall i | 0 <= i < |a.chain| && a.chain[i].Save? && a.chain[i].run == k :: StopWaits(a.chain, i))
  }

  ghost predicate Cold(a: Agent) {
    && Down(a)
    && (forall k | k in a.runs ::
          && a.runs[k].revision <= a.revision && RecordFits(a.runs[k])
          && (CanRevive(a.runs[k], a.revision) ==> Overtaken(a, k)))
    && (forall i | 0 <= i < |a.chain| :: Harmless(a.chain, i, a.revision))
  }

  lemma DecideStaysCold(r: Run, revision: nat, store: Option<Saved>, input: Input, next: RequestId)
    requires r.revision <= revision && (CanRevive(r, revision) ==> !CanSend(r)) && RecordFits(r)
    requires store.None? || !store.value.enabled
    ensures var d := Decide(r, revision, store, input, next);
            && !d.effect.EnterSend?
            && Tame(r, d.move)
            && (d.move.Hold? ==> d.move.run.revision == r.revision)
            && (d.move.Hold? && !CanRevive(r, revision) ==>
                  !CanRevive(d.move.run.(pc := Saving(d.move.kind)), revision)
                  && (d.move.run.revision < revision || !d.move.run.record.enabled))
            && (d.move.Proceed? ==> (CanRevive(d.move.run, revision) ==> CanRevive(r, revision) && !CanSend(d.move.run)))
  {
  }

  lemma ServeStaysCold(chain: seq<Command>, ok: bool, running: bool, revision: nat, store: Option<Saved>, alarm: bool)
    requires chain != [] && Harmless(chain, 0, revision) && (store.None? || !store.value.enabled)
    ensures var served := Serve(chain[0], ok, running, revision, store, alarm);
            && revision <= served.revision && (chain[0] == Stop(StopQueued) ==> revision < served.revision)
            && (chain[0] != Stop(StopQueued) ==> revision == served.revision)
            && (served.store.None? || !served.store.value.enabled)
            && (served.rest.Some? ==> !served.rest.value.Start? && !served.rest.value.Save? && StopsOff(served.rest.value))
  {
  }

  /** Serving a command that is no waiting stop moves the stops that wait one place up, or leaves them. */
  lemma StopStillWaits(chain: seq<Command>, shorter: seq<Command>, shift: nat, n: nat)
    requires chain != [] && chain[0] != Stop(StopQueued) && shift <= n <= |chain| && shift <= 1
    requires |shorter| == |chain| - shift && (forall i | shift <= i < |shorter| + shift && 1 <= i :: shorter[i - shift] == chain[i])
    requires StopWaits(chain, n)
    ensures StopWaits(shorter, n - shift)
  {
    var i :| 0 <= i < n && chain[i] == Stop(StopQueued);
    assert shorter[i - shift] == chain[i];
  }

  lemma StopLater(chain: seq<Command>, longer: seq<Command>, n: nat)
    requires n <= |chain| && StopWaits(chain, n) && chain <= longer
    ensures StopWaits(longer, n)
  {
    var i :| 0 <= i < n && chain[i] == Stop(StopQueued);
    assert longer[i] == chain[i];
  }

  lemma ChainStaysHarmless(a: Agent, ok: bool)
    requires Cold(a) && a.chain != []
    ensures var b := Advance(a, ok); forall i | 0 <= i < |b.chain| :: Harmless(b.chain, i, b.revision)
  {
    hide RecordFits, CanRevive, Overtaken, StopWaits, Serve, Wake;
    var b := Advance(a, ok);
    var served := Serve(a.chain[0], ok, a.running, a.revision, a.store, a.alarm);
    ServeStaysCold(a.chain, ok, a.running, a.revision, a.store, a.alarm);
    var shift := if served.rest.Some? then 0 else 1;
    assert forall i | 0 <= i < |b.chain| && !(i == 0 && served.rest.Some?) :: b.chain[i] == a.chain[i + shift];
    forall i | 0 <= i < |b.chain|
      ensures Harmless(b.chain, i, b.revision)
    {
      if !(i == 0 && served.rest.Some?) {
        assert Harmless(a.chain, i + shift, a.revision);
        if a.chain[0] != Stop(StopQueued) && StopWaits(a.chain, i + shift) {
          StopStillWaits(a.chain, b.chain, shift, i + shift);
        }
      }
    }
  }

  lemma RunsStayCold(a: Agent, ok: bool)
    requires Cold(a) && a.chain != []
    ensures var b := Advance(a, ok);
            forall k | k in b.runs ::
              && b.runs[k].revision <= b.revision && RecordFits(b.runs[k])
              && (CanRevive(b.runs[k], b.revision) ==> Overtaken(b, k))
  {
    hide StopWaits, Serve;
    var b := Advance(a, ok);
    var served := Serve(a.chain[0], ok, a.running, a.revision, a.store, a.alarm);
    ServeStaysCold(a.chain, ok, a.running, a.revision, a.store, a.alarm);
    forall k | k in b.runs
      ensures b.runs[k].revision <= b.revision && RecordFits(b.runs[k]) && (CanRevive(b.runs[k], b.revision) ==> Overtaken(b, k))
    {
      assert k in a.runs && b.runs[k].revision == a.runs[k].revision;
      if CanRevive(b.runs[k], b.revision) {
        assert b.revision == a.revision && a.chain[0] != Stop(StopQueued);
        assert CanRevive(a.runs[k], a.revision);
        NotWoken(a, k, a.chain[0]);
        StaysOvertaken(a, b, k, if served.rest.Some? then 0 else 1);
      }
    }
  }

  /** The command at the head wakes no overtaken run: its record is behind a stop. */
  lemma NotWoken(a: Agent, k: RunId, c: Command)
    requires a.chain != [] && c == a.chain[0] && k in a.runs && Overtaken(a, k)
    ensures k in Wake(a.runs, c) && Wake(a.runs, c)[k] == a.runs[k]
  {
    assert !StopWaits(a.chain, 0);
  }

  lemma StaysOvertaken(a: Agent, b: Agent, k: RunId, shift: nat)
    requires k in a.runs && Overtaken(a, k) && k in b.runs && b.runs[k] == a.runs[k] && shift <= 1
    requires a.chain != [] && a.chain[0] != Stop(StopQueued) && |b.chain| == |a.chain| - shift
    requires forall i | shift <= i < |b.chain| + shift && 1 <= i :: b.chain[i - shift] == a.chain[i]
    requires shift == 0 ==> !b.chain[0].Save?
    ensures Overtaken(b, k)
  {
    hide StopWaits;
    StopStillWaits(a.chain, b.chain, shift, |a.chain|);
    forall i | 0 <= i < |b.chain| && b.chain[i].Save? && b.chain[i].run == k
      ensures StopWaits(b.chain, i)
    {
      assert b.chain[i + shift - shift] == a.chain[i + shift];
      StopStillWaits(a.chain, b.chain, shift, i + shift);
    }
  }

  lemma AdvanceStaysCold(a: Agent, ok: bool)
    requires Cold(a) && a.chain != []
    ensures Cold(Advance(a, ok))
  {
    ChainStaysHarmless(a, ok);
    RunsStayCold(a, ok);
    ServeStaysCold(a.chain, ok, a.running, a.revision, a.store, a.alarm);
    hide Harmless, Overtaken, CanRevive, RecordFits, Serve, Wake;
  }

  /** A longer chain leaves what is harmless harmless, and overtaken runs overtaken. */
  lemma AppendStaysCold(a: Agent, c: Command)
    requires Cold(a)
    ensures var longer := a.chain + [c];
            && (forall i | 0 <= i < |a.chain| :: Harmless(longer, i, a.revision))
            && (StopWaits(a.chain, |a.chain|) ==> StopWaits(longer, |a.chain|) && StopWaits(longer, |longer|))
            && (forall k | k in a.runs && CanRevive(a.runs[k], a.revision) && (c.Save? ==> c.run != k) ::
                  Overtaken(a.(chain := longer), k))
  {
    hide StopWaits, CanRevive, RecordFits, CanSend;
    var longer := a.chain + [c];
    if StopWaits(a.chain, |a.chain|) {
      StopLater(a.chain, longer, |a.chain|);
      assert StopWaits(longer, |longer|) by { MoreWait(longer, |a.chain|); }
    }
    forall i | 0 <= i < |a.chain|
      ensures Harmless(longer, i, a.revision)
    {
      assert Harmless(a.chain, i, a.revision);
      if StopWaits(a.chain, i) {
        StopLater(a.chain, longer, i);
      }
    }
    forall k | k in a.runs && CanRevive(a.runs[k], a.revision) && (c.Save? ==> c.run != k)
      ensures Overtaken(a.(chain := longer), k)
    {
      forall i | 0 <= i < |longer| && longer[i].Save? && longer[i].run == k
        ensures StopWaits(longer, i)
      {
        assert longer[i] == a.chain[i];
        StopLater(a.chain, longer, i);
      }
    }
  }

  lemma MoreWait(chain: seq<Command>, n: nat)
    requires n <= |chain| && StopWaits(chain, n)
    ensures StopWaits(chain, |chain|)
  {
  }

  lemma HoldStaysCold(a: Agent, k: RunId, r: Run, kind: SaveKind)
    requires Cold(a) && k in a.runs && r.revision == a.runs[k].revision && RecordFits(r.(pc := Saving(kind)))
    requires !CanRevive(a.runs[k], a.revision) ==>
               !CanRevive(r.(pc := Saving(kind)), a.revision) && (r.revision < a.revision || !r.record.enabled)
    ensures Cold(Carry(a, k, Hold(r, kind)))
  {
    var b := Carry(a, k, Hold(r, kind));
    var save := Save(k, r.revision, r.record);
    AppendStaysCold(a, save);
    hide StopWaits, RecordFits;
    assert b.chain == a.chain + [save] && b.chain[|a.chain|] == save;
    if CanRevive(a.runs[k], a.revision) {
      assert Overtaken(a, k) && StopWaits(b.chain, |a.chain|);
      forall i | 0 <= i < |b.chain| && b.chain[i].Save? && b.chain[i].run == k
        ensures StopWaits(b.chain, i)
      {
        if i < |a.chain| {
          assert b.chain[i] == a.chain[i];
          StopLater(a.chain, b.chain, i);
        }
      }
      assert Overtaken(b, k);
    }
    assert Harmless(b.chain, |a.chain|, b.revision);
    hide CanRevive, Harmless;
    forall k' | k' in b.runs && k' != k && CanRevive(b.runs[k'], b.revision)
      ensures Overtaken(b, k')
    {
      assert Overtaken(a.(chain := b.chain), k');
    }
  }

  lemma ProceedStaysCold(a: Agent, k: RunId, r: Run, disarm: bool)
    requires Cold(a) && k in a.runs && r.revision == a.runs[k].revision && RecordFits(r)
    requires CanRevive(r, a.revision) ==> CanRevive(a.runs[k], a.revision) && !CanSend(r)
    ensures Cold(Carry(a, k, Proceed(r, disarm)))
  {
    hide StopWaits, RecordFits, CanRevive, Harmless;
    var b := Carry(a, k, Proceed(r, disarm));
    assert b.chain == a.chain && b.revision == a.revision;
    forall k' | k' in b.runs && CanRevive(b.runs[k'], b.revision)
      ensures Overtaken(b, k')
    {
      assert Overtaken(a, k');
    }
  }

  lemma SettleStaysCold(a: Agent, k: RunId, input: Input)
    requires Cold(a) && k in a.runs
    ensures var d := Decide(a.runs[k], a.revision, a.store, input, 0);
            Cold(Carry(a, k, d.move)) && !d.effect.EnterSend?
  {
    var d := Decide(a.runs[k], a.revision, a.store, input, 0);
    assert CanRevive(a.runs[k], a.revision) ==> Overtaken(a, k);
    DecideStaysCold(a.runs[k], a.revision, a.store, input, 0);
    hide Decide, CanRevive, StopWaits, RecordFits, Harmless, CanSend;
    match d.move
    case Stay =>
    case End =>
      var b := Carry(a, k, End);
      forall k' | k' in b.runs && CanRevive(b.runs[k'], b.revision)
        ensures Overtaken(b, k')
      {
        assert Overtaken(a, k');
      }
    case Hold(r, kind) => HoldStaysCold(a, k, r, kind);
    case Proceed(r, disarm) => ProceedStaysCold(a, k, r, disarm);
  }

  lemma SubmitStaysCold(a: Agent, command: Command)
    requires Cold(a) && FromOutside(command) && !command.Start?
    ensures Cold(a.(chain := a.chain + [command]))
  {
    AppendStaysCold(a, command);
    hide StopWaits, RecordFits, CanRevive, Overtaken;
    var b := a.(chain := a.chain + [command]);
    assert b.chain[|a.chain|] == command;
    assert Harmless(b.chain, |a.chain|, b.revision);
    hide Harmless;
  }

  lemma AfterStaysCold(a: Agent, event: Event)
    requires Cold(a) && NoStart([event])
    ensures Cold(After(a, event, 0)) && !EffectOf(a, event, 0).EnterSend?
  {
    assert [event][0] == event;
    match event
    case AlarmFires(k) => ActivationStaysCold(a, k);
    case Settles(k, input) =>
      if k in a.runs {
        SettleStaysCold(a, k, input);
        hide Cold, Decide, Carry;
      }
    case ChainStep(ok) =>
      if a.chain != [] {
        AdvanceStaysCold(a, ok);
        hide Cold, Advance;
      }
    case Submit(command) =>
      if FromOutside(command) {
        SubmitStaysCold(a, command);
        hide Cold;
      }
  }

  lemma ActivationStaysCold(a: Agent, k: RunId)
    requires Cold(a)
    ensures Cold(After(a, AlarmFires(k), 0))
  {
    hide StopWaits, Harmless;
    var b := After(a, AlarmFires(k), 0);
    forall k' | k' in b.runs && CanRevive(b.runs[k'], b.revision)
      ensures Overtaken(b, k')
    {
      assert k' in a.runs && b.runs[k'] == a.runs[k'] && Overtaken(a, k');
    }
  }

  /** A switched-off instance that no run and no command can switch on again stays off. */
  lemma {:induction false} ColdStaysDown(a: Agent, events: seq<Event>)
    requires Cold(a) && NoStart(events)
    ensures StaysDown(a, events)
    decreases |events|
  {
    if events != [] {
      assert NoStart([events[0]]);
      AfterStaysCold(a, events[0]);
      ColdStaysDown(After(a, events[0], 0), events[1..]);
    }
  }

  // ---------- what switches the sender on again ----------

  /** How many steps a command in front takes before it is done. */
  function StepsLeft(c: Command): nat {
    match c
    case Save(_, _, _) => 0
    case Stop(pc) => (match pc case StopQueued => 3 case StopReading => 2 case StopWriting(_) => 1 case StopClearing => 0)
    case Start(_) => 0
    case Restore(pc) => (match pc case RestoreQueued => 1 case _ => 0)
  }

  /** No stop and no start waits among the first commands. */
  predicate Clear(chain: seq<Command>, n: nat)
    requires n <= |chain|
  {
    forall i | 0 <= i < n :: chain[i] != Stop(StopQueued) && !chain[i].Start?
  }

  lemma ServeInFront(c: Command, running: bool, revision: nat, store: Option<Saved>, alarm: bool)
    requires c != Stop(StopQueued) && !c.Start?
    ensures var served := Serve(c, true, running, revision, store, alarm);
            && served.revision == revision
            && (served.rest.Some? ==> served.rest.value != Stop(StopQueued) && !served.rest.value.Start?
                                      && StepsLeft(served.rest.value) < StepsLeft(c))
  {
  }

  /** Serving what is in front of such a record, and then the record, switches the sender on again. */
  lemma PendingRecordRevives(a: Agent, i: nat) returns (events: seq<Event>)
    requires i < |a.chain| && Clear(a.chain, i) && Enables(a.chain[i], a.revision)
    ensures NoStart(events) && !StaysDown(a, events)
    decreases i, StepsLeft(a.chain[0])
  {
    var b := After(a, ChainStep(true), 0);
    if i == 0 {
      events := [ChainStep(true)];
      assert events[1..] == [];
      assert !Down(b) && !StaysDown(b, []);
    } else {
      var served := Serve(a.chain[0], true, a.running, a.revision, a.store, a.alarm);
      ServeInFront(a.chain[0], a.running, a.revision, a.store, a.alarm);
      hide Serve, Wake, StepsLeft;
      var shift := if served.rest.Some? then 0 else 1;
      forall j | 0 <= j < |b.chain| && !(j == 0 && shift == 0)
        ensures b.chain[j] == a.chain[j + shift]
      {
      }
      assert Clear(b.chain, i - shift) && b.chain[i - shift] == a.chain[i];
      var rest := PendingRecordRevives(b, i - shift);
      events := [ChainStep(true)] + rest;
      assert events[1..] == rest;
    }
  }

  lemma CheckedRunSends(a: Agent, k: RunId, item: Item) returns (events: seq<Event>)
    requires k in a.runs && a.runs[k].revision == a.revision && a.runs[k].pc == Rechecking(item)
    ensures NoStart(events) && !StaysDown(a, events)
  {
    events := [Settles(k, ContextOk)];
    assert EffectOf(a, events[0], 0).EnterSend?;
  }

  /** A run that can reach `send` without the chain does, if everything it asks for is granted. */
  lemma SendingRunSends(a: Agent, k: RunId) returns (events: seq<Event>)
    requires k in a.runs && a.runs[k].revision == a.revision && CanSend(a.runs[k])
    requires a.runs[k].pc.Resumed? ==> a.runs[k].pc.kind == Progress
    ensures NoStart(events) && !StaysDown(a, events)
    decreases match a.runs[k].pc case Rechecking(_) => 0 case Claiming(_, _) => 1 case _ => 2
  {
    var pc := a.runs[k].pc;
    if pc.Rechecking? {
      events := CheckedRunSends(a, k, pc.item);
    } else {
      var input := if pc.Preparing? then PageReady([Item(0, true)], false)
                   else if pc.Claiming? then Granted(pc.item.id, true)
                   else Go(false);
      var rest := SendingRunSends(After(a, Settles(k, input), 0), k);
      events := [Settles(k, input)] + rest;
      assert events[1..] == rest;
    }
  }

  /** The way a reviving run gives up its current await without the record being paused. */
  function GiveUp(pc: Pc): Input {
    match pc
    case EnteringSend(_) => SendThrew
    case Writing(_, _) => WriteSettled(Rejected(Network, true))
    case Resumed(_) => Go(true)
    case _ => Threw(0)
  }

  /** Letting any other reviving run fail its way to the chain, and serving the chain, does the same. */
  lemma RevivingRunRevives(a: Agent, k: RunId) returns (events: seq<Event>)
    requires k in a.runs && CanRevive(a.runs[k], a.revision) && RecordFits(a.runs[k]) && !a.runs[k].pc.Saving?
    requires Clear(a.chain, |a.chain|)
    ensures NoStart(events) && !StaysDown(a, events)
    decreases match a.runs[k].pc
              case Failing(_, _, _) => 0
              case FailingUncertain(_, _, _) => 0
              case _ => 1
  {
    var r := a.runs[k];
    var leaving := Settles(k, GiveUp(r.pc));
    var b := After(a, leaving, 0);
    var rest;
    if r.pc.EnteringSend? || r.pc.Writing? || r.pc.Completing? {
      rest := RevivingRunRevives(b, k);
    } else {
      assert b.chain == a.chain + [Save(k, a.revision, b.runs[k].record)] && b.runs[k].record.enabled;
      rest := PendingRecordRevives(b, |a.chain|);
    }
    events := [leaving] + rest;
    assert events[1..] == rest;
  }

  // ---------- when a stop is final ----------

  /** A record that will be served with the current revision, before any stop moves it, would switch the sender on. */
  predicate RecordRevives(a: Agent) {
    exists i :: 0 <= i < |a.chain| && Enables(a.chain[i], a.revision) && !StopWaits(a.chain, i)
  }

  /** A run would, or would send: before the stop that waits, or at all if none does. */
  predicate RunRevives(a: Agent) {
    exists k :: k in a.runs && CanRevive(a.runs[k], a.revision) && (StopWaits(a.chain, |a.chain|) ==> CanSend(a.runs[k]))
  }

  predicate NoStartWaits(chain: seq<Command>) {
    forall i | 0 <= i < |chain| :: !chain[i].Start?
  }

  lemma NotRevivedIsCold(a: Agent)
    requires Consistent(a) && NoStartWaits(a.chain) && Down(a) && !RecordRevives(a) && !RunRevives(a)
    ensures Cold(a)
  {
    hide StopWaits, CanSend, RecordFits;
    forall i | 0 <= i < |a.chain|
      ensures Harmless(a.chain, i, a.revision)
    {
      assert !a.chain[i].Start? && StopsOff(a.chain[i]);
      if a.chain[i].Save? {
        assert SaveMatches(a, a.chain[i]);
      }
    }
    forall k | k in a.runs && CanRevive(a.runs[k], a.revision)
      ensures Overtaken(a, k)
    {
      forall i | 0 <= i < |a.chain| && a.chain[i].Save? && a.chain[i].run == k
        ensures StopWaits(a.chain, i)
      {
        assert SaveMatches(a, a.chain[i]) && RecordFits(a.runs[k]);
        assert Enables(a.chain[i], a.revision) by { WorkingIsEnabled(a.runs[k], a.revision); }
      }
    }
  }

  lemma WorkingIsEnabled(r: Run, revision: nat)
    requires RecordFits(r) && CanRevive(r, revision)
    ensures r.record.enabled
  {
  }

  /** The record of a reviving run that waits for the chain is in the chain. */
  lemma SavingIsPending(a: Agent, k: RunId) returns (i: nat)
    requires Consistent(a) && k in a.runs && CanRevive(a.runs[k], a.revision) && a.runs[k].pc.Saving?
    ensures i < |a.chain| && Enables(a.chain[i], a.revision)
  {
    assert k in SavesOf(a.chain);
    i :| 0 <= i < |a.chain| && a.chain[i].Save? && a.chain[i].run == k;
    assert SaveMatches(a, a.chain[i]);
    WorkingIsEnabled(a.runs[k], a.revision);
  }

  lemma NoStopIsClear(chain: seq<Command>, n: nat)
    requires n <= |chain| && NoStartWaits(chain) && !StopWaits(chain, n)
    ensures Clear(chain, n)
  {
  }

  lemma RevivedComesBack(a: Agent) returns (events: seq<Event>)
    requires Consistent(a) && NoStartWaits(a.chain) && (RecordRevives(a) || RunRevives(a))
    ensures NoStart(events) && !StaysDown(a, events)
  {
    hide StopWaits, StaysDown, NoStart;
    if RecordRevives(a) {
      var i :| 0 <= i < |a.chain| && Enables(a.chain[i], a.revision) && !StopWaits(a.chain, i);
      NoStopIsClear(a.chain, i);
      events := PendingRecordRevives(a, i);
    } else {
      var k :| k in a.runs && CanRevive(a.runs[k], a.revision) && (StopWaits(a.chain, |a.chain|) ==> CanSend(a.runs[k]));
      if CanSend(a.runs[k]) {
        events := SendingRunSends(a, k);
      } else {
        NoStopIsClear(a.chain, |a.chain|);
        if a.runs[k].pc.Saving? {
          var i := SavingIsPending(a, k);
          events := PendingRecordRevives(a, i);
        } else {
          events := RevivingRunRevives(a, k);
        }
      }
    }
  }

  /**
   An instance whose sender is switched off, whatever commands other than start still wait in its chain, stays
   off and enters no `send`, whatever alarms, replies and commands other than start follow, exactly when no
   record that waits in the chain and no working run with the current revision gets ahead of a stop.
   */
  lemma StopIsFinalUnlessARunSlippedIn(a: Agent)
    requires Consistent(a) && NoStartWaits(a.chain) && Down(a)
    ensures (forall events | NoStart(events) :: StaysDown(a, events)) <==> !RecordRevives(a) && !RunRevives(a)
  {
    hide NoStartWaits, RecordRevives, RunRevives, Cold, Consistent, Down;
    if RecordRevives(a) || RunRevives(a) {
      var events := RevivedComesBack(a);
    } else {
      NotRevivedIsCold(a);
      forall events | NoStart(events)
        ensures StaysDown(a, events)
      {
        ColdStaysDown(a, events);
      }
    }
  }

  /** A run can slip in: it starts after the stop command has moved the revision and reads before it writes. */
  lemma ARunCanSlipIn(record: Saved)
    requires record.enabled
    ensures var stopping := [Submit(Stop(StopQueued)), ChainStep(true)];
            var run := [AlarmFires(0), Settles(0, ReadDone)];
            var stopped := [ChainStep(true), ChainStep(true), ChainStep(true)];
            var a := Play(Play(Play(Fresh(Some(record), true), stopping), run), stopped);
            a.chain == [] && Down(a) && !a.alarm && 0 in a.runs && CanRevive(a.runs[0], a.revision)
  {
    var a0 := Fresh(Some(record), true);
    var a1 := After(a0, Submit(Stop(StopQueued)), 0);
    var a2 := After(a1, ChainStep(true), 0);
    var stopping := [Submit(Stop(StopQueued)), ChainStep(true)];
    assert stopping[1..] == [ChainStep(true)] && stopping[1..][1..] == [];
    assert Play(a2, []) == a2;
    assert Play(a0, stopping) == a2;
    var a3 := After(a2, AlarmFires(0), 0);
    var a4 := After(a3, Settles(0, ReadDone), 0);
    var run := [AlarmFires(0), Settles(0, ReadDone)];
    assert run[1..] == [Settles(0, ReadDone)] && run[1..][1..] == [];
    assert Play(a4, []) == a4;
    assert Play(a2, run) == a4;
    var a5 := After(a4, ChainStep(true), 0);
    var a6 := After(a5, ChainStep(true), 0);
    var a7 := After(a6, ChainStep(true), 0);
    var stopped := [ChainStep(true), ChainStep(true), ChainStep(true)];
    assert stopped[1..][1..] == [ChainStep(true)] && stopped[1..][1..][1..] == [];
    assert Play(a7, []) == a7;
    assert Play(a4, stopped) == a7;
  }

  /** A run that starts after the stop has moved the revision and finds an empty page leaves its record behind the stop. */
  lemma RunLeavesRecord(record: Saved)
    requires record.enabled
    ensures var a0 := After(After(Fresh(Some(record), true), Submit(Stop(StopQueued)), 0), ChainStep(true), 0);
            var a := After(After(After(a0, AlarmFires(0), 0), Settles(0, ReadDone), 0), Settles(0, PageReady([], false)), 0);
            var save := Save(0, a.revision, record.(cursor := None));
            && a.chain == [Stop(StopReading), save] && a.store.Some? && a.runs.Keys == {0} && a.runs[0].pc == Saving(Last)
  {
    var a0 := After(After(Fresh(Some(record), true), Submit(Stop(StopQueued)), 0), ChainStep(true), 0);
    assert a0 == Agent(false, 1, map[], [Stop(StopReading)], Some(record), true);
  }

  lemma PlayTwo(a: Agent, e: seq<Event>)
    requires |e| == 2
    ensures Play(a, e) == After(After(a, e[0], 0), e[1], 0)
  {
    hide After;
    var a1 := After(a, e[0], 0);
    assert e[1..][1..] == [];
    assert Play(a, e) == Play(a1, e[1..]) == Play(After(a1, e[1], 0), []);
  }

  /** So the stop can be served, and the next step of the chain switches the sender on again. */
  lemma AServedStopCanBeUndone(record: Saved)
    requires record.enabled
    ensures var stopping := [Submit(Stop(StopQueued)), ChainStep(true)];
            var run := [AlarmFires(0), Settles(0, ReadDone), Settles(0, PageReady([], false))];
            var stopped := [ChainStep(true), ChainStep(true), ChainStep(true)];
            var a := Play(Play(Play(Fresh(Some(record), true), stopping), run), stopped);
            && Consistent(a) && NoStartWaits(a.chain) && Down(a) && !a.alarm && RecordRevives(a) && !RunRevives(a)
            && !Down(After(a, ChainStep(true), 0))
  {
    var stopping := [Submit(Stop(StopQueued)), ChainStep(true)];
    var run := [AlarmFires(0), Settles(0, ReadDone), Settles(0, PageReady([], false))];
    var stopped := [ChainStep(true), ChainStep(true), ChainStep(true)];
    var a0 := Fresh(Some(record), true);
    FreshIsConsistent(Some(record), true);
    hide After, Play, Consistent, NoStartWaits, RecordRevives, RunRevives, Down, Fresh;
    var a2 := Play(a0, stopping);
    var a5 := Play(a2, run);
    PlayTwo(a0, stopping);
    PlayThree(a2, run);
    PlayThree(a5, stopped);
    RunLeavesRecord(record);
    PlayKeeps(a0, stopping);
    PlayKeeps(a2, run);
    PlayKeeps(a5, stopped);
    StopLeavesRecord(a5, Save(0, a5.revision, record.(cursor := None)));
  }

  lemma FreshIsConsistent(store: Option<Saved>, alarm: bool)
    ensures Consistent(Fresh(store, alarm))
  {
  }

  lemma PlayThree(a: Agent, e: seq<Event>)
    requires |e| == 3
    ensures Play(a, e) == After(After(After(a, e[0], 0), e[1], 0), e[2], 0)
  {
    hide After;
    var a1 := After(a, e[0], 0);
    var a2 := After(a1, e[1], 0);
    assert e[1..][1..] == e[2..] && e[2..][1..] == [];
    assert Play(a, e) == Play(a1, e[1..]);
    assert Play(a1, e[1..]) == Play(a2, e[2..]);
    assert Play(a2, e[2..]) == Play(After(a2, e[2], 0), []);
  }

  /** The rest of the stop command, with a record behind it. */
  lemma StopLeavesRecord(a: Agent, save: Command)
    requires a.chain == [Stop(StopReading), save] && Enables(save, a.revision) && a.store.Some?
    requires forall k | k in a.runs :: a.runs[k].pc == Saving(Last)
    ensures var b := After(After(After(a, ChainStep(true), 0), ChainStep(true), 0), ChainStep(true), 0);
            && b.chain == [save] && NoStartWaits(b.chain) && Down(b) && !b.alarm && RecordRevives(b) && !RunRevives(b)
            && !Down(After(b, ChainStep(true), 0))
  {
    var b1 := After(a, ChainStep(true), 0);
    assert b1.chain == [Stop(StopWriting(Disabled(a.store.value))), save] && b1.runs == a.runs && b1.revision == a.revision;
    var b2 := After(b1, ChainStep(true), 0);
    assert b2.chain == [Stop(StopClearing), save] && b2.runs == a.runs && Down(b2) && b2.revision == a.revision;
    var b := After(b2, ChainStep(true), 0);
    assert b.chain == [save] && b.runs == a.runs && b.revision == a.revision;
    assert b.chain[0] == save && Enables(b.chain[0], b.revision) && !StopWaits(b.chain, 0);
  }
}
