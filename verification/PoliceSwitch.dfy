/** What switches the police sender on and off: the three commands, undisturbed, and the answers a run gives up on. */
module PoliceSwitch {
  import opened Options
  import opened EgmTransport
  import opened PoliceAgent
  import opened PoliceControl

  predicate Answered(input: Input) {
    input.Acknowledged? || input.Threw?
  }

  /**
   What a run must give up on: a server that wants a login, tests, or manages the queue itself; a profile of
   another mode; and the end of the report after a refused login.
   */
  predicate GivesUp(pc: Pc, input: Input) {
    || (pc.Preparing? && input == WrongMode)
    || ((pc.Preparing? || pc.Rechecking? || pc.Releasing? || pc.Failing?) && input.Threw? && input.status in {401, 403, 409, 423})
    || (pc.Claiming? && input.Threw? && input.status in {401, 403, 423})
    || (pc.FailingUncertain? && pc.fatal && Answered(input))
    || (pc.Failing? && pc.pausing && input.Acknowledged?)
  }

  /** A step hands in a record for a pause exactly then, and the record is disabled. */
  lemma PausesExactly(r: Run, revision: nat, store: Option<Saved>, input: Input, next: RequestId)
    ensures var move := Decide(r, revision, store, input, next).move;
            && (move.Hold? && move.kind.Pause? <==> GivesUp(r.pc, input))
            && (move.Hold? && move.kind.Pause? ==>
                  && !move.run.record.enabled && move.run.revision == r.revision
                  && (move.kind.thenFinal <==> r.pc.Failing? && r.pc.pausing && input.Acknowledged?))
  {
  }

  /** A paused run ends there, or, if it paused inside the loop, hands its record in once more. */
  lemma PauseEnds(r: Run, revision: nat, store: Option<Saved>, late: bool, next: RequestId)
    requires r.pc.Clearing? || (r.pc.Resumed? && r.pc.kind.Pause? && revision != r.revision)
    ensures var again := if r.pc.Clearing? then r.pc.thenFinal else r.pc.kind.thenFinal;
            Decide(r, revision, store, Go(late), next) == if again then Decision(Hold(r, Last), Quiet) else Decision(End, Quiet)
  {
  }

  /** Switched off: the record is disabled and no alarm wakes the sender. */
  predicate Off(a: Agent) {
    a.store.Some? && !a.store.value.enabled && !a.alarm
  }

  predicate Holds(a: Agent, k: RunId, pc: Pc) {
    k in a.runs && a.runs[k].pc == pc && a.runs[k].revision == a.revision && a.chain == []
  }

  /** With the current revision such an answer switches the sender off, unless another command comes between. */
  lemma GivingUpSwitchesOff(a: Agent, k: RunId, input: Input, late: bool)
    requires k in a.runs && a.runs[k].revision == a.revision && a.chain == [] && GivesUp(a.runs[k].pc, input)
    ensures Off(Play(a, [Settles(k, input), ChainStep(true), Settles(k, Go(late))]))
  {
    hide Play;
    var e := [Settles(k, input), ChainStep(true), Settles(k, Go(late))];
    PausesExactly(a.runs[k], a.revision, a.store, input, 0);
    var r := Decide(a.runs[k], a.revision, a.store, input, 0).move.run;
    var kind := Decide(a.runs[k], a.revision, a.store, input, 0).move.kind;
    var a1 := After(a, e[0], 0);
    assert a1.chain == [Save(k, a.revision, r.record)] && a1.runs[k] == r.(pc := Saving(kind)) && a1.revision == a.revision;
    ServesPause(a1, k, r, kind);
    var a2 := After(a1, e[1], 0);
    EndsPause(a2, k, kind, late);
    PlayThree(a, e);
  }

  lemma ServesPause(a: Agent, k: RunId, r: Run, kind: SaveKind)
    requires k in a.runs && a.chain == [Save(k, a.revision, r.record)] && a.runs[k] == r.(pc := Saving(kind))
    requires r.revision == a.revision && !r.record.enabled
    ensures var b := After(a, ChainStep(true), 0);
            b.store == Some(r.record) && k in b.runs && b.runs[k].pc == Resumed(kind) && b.runs[k].revision == b.revision
  {
  }

  lemma EndsPause(a: Agent, k: RunId, kind: SaveKind, late: bool)
    requires k in a.runs && a.runs[k].pc == Resumed(kind) && kind.Pause? && a.runs[k].revision == a.revision
    requires a.store.Some? && !a.store.value.enabled
    ensures Off(After(a, Settles(k, Go(late)), 0))
  {
  }

  /** A write or its lookup that meets a login page is reported to the queue and then switches the sender off. */
  lemma LoginSwitchesOff(a: Agent, k: RunId, item: Item, id: RequestId, lookup: bool, reply: Reply, late: bool)
    requires Holds(a, k, if lookup then EnteringSend(item) else Writing(item, id)) && WantsLogin(reply)
    ensures var told := if lookup then LookupDone(true, reply, true) else WriteSettled(EgmRequest(true, reply));
            && EffectOf(a, Settles(k, told), 0).AskFail?
            && Off(Play(a, [Settles(k, told), Settles(k, Acknowledged), ChainStep(true), Settles(k, Go(late))]))
  {
    var told := if lookup then LookupDone(true, reply, true) else WriteSettled(EgmRequest(true, reply));
    var b := After(a, Settles(k, told), 0);
    assert b.runs[k].pc == Failing(item, 0, true) && b.runs[k].revision == b.revision && b.chain == [];
    GivingUpSwitchesOff(b, k, Acknowledged, late);
    var rest := [Settles(k, Acknowledged), ChainStep(true), Settles(k, Go(late))];
    assert ([Settles(k, told)] + rest)[1..] == rest;
    assert [Settles(k, told)] + rest == [Settles(k, told), Settles(k, Acknowledged), ChainStep(true), Settles(k, Go(late))];
  }

  /** So does a completed write whose receipt meets a refused login, after the doubt has been reported. */
  lemma FatalReceiptSwitchesOff(a: Agent, k: RunId, item: Item, id: RequestId, status: int, settled: Input, late: bool)
    requires Holds(a, k, Completing(item, id)) && status in {401, 403} && Answered(settled)
    ensures EffectOf(a, Settles(k, Threw(status)), 0) == AskFail(item.id, true)
    ensures Off(Play(a, [Settles(k, Threw(status)), Settles(k, settled), ChainStep(true), Settles(k, Go(late))]))
  {
    var b := After(a, Settles(k, Threw(status)), 0);
    assert b.runs[k].pc == FailingUncertain(item, 0, true) && b.runs[k].revision == b.revision && b.chain == [];
    GivingUpSwitchesOff(b, k, settled, late);
    var rest := [Settles(k, settled), ChainStep(true), Settles(k, Go(late))];
    assert ([Settles(k, Threw(status))] + rest)[1..] == rest;
    assert [Settles(k, Threw(status))] + rest == [Settles(k, Threw(status)), Settles(k, settled), ChainStep(true), Settles(k, Go(late))];
  }

  // ---------- the commands ----------

  /** The chain is served, and nothing comes between; steps of an empty chain do nothing. */
  function Serving(a: Agent, oks: seq<bool>): Agent
    decreases |oks|
  {
    if oks == [] then a else Serving(Advance(a, oks[0]), oks[1..])
  }

  lemma ServingThree(a: Agent, p: bool, q: bool, r: bool)
    ensures Serving(a, [p, q, r]) == Advance(Advance(Advance(a, p), q), r)
  {
    hide Advance;
    assert [p, q, r][1..] == [q, r] && [q, r][1..] == [r] && [r][1..] == [];
    assert Serving(Advance(Advance(a, p), q), [r]) == Serving(Advance(Advance(Advance(a, p), q), r), []);
  }

  lemma ServingTwice(a: Agent, first: seq<bool>, second: seq<bool>)
    ensures Serving(a, first + second) == Serving(Serving(a, first), second)
    decreases |first|
  {
    hide Advance;
    if first == [] {
      assert first + second == second;
    } else {
      assert (first + second)[1..] == first[1..] + second;
      ServingTwice(Advance(a, first[0]), first[1..], second);
    }
  }

  /**
   A start without a run under way, with consent, for nobody else's sender and in a valid context moves the
   revision, writes a fresh enabled record and sets the alarm; without the alarm the record is disabled. Any
   other start changes nothing.
   */
  lemma StartsExactly(a: Agent, consent: bool, free: bool, context: bool, armed: bool)
    requires a.chain == [Start(StartQueued(consent))]
    ensures var agreed := consent && !a.running && (free || a.store.None? || !a.store.value.enabled) && context;
            Serving(a, [true, free, context] + [true, armed, true]) ==
            if agreed then
              a.(chain := [], revision := a.revision + 1, store := Some(Saved(armed, None, 0, 0)), alarm := a.alarm || armed)
            else a.(chain := [])
  {
    ServingTwice(a, [true, free, context], [true, armed, true]);
    ServingThree(a, true, free, context);
    var b := Serving(a, [true, free, context]);
    var agreed := consent && !a.running && (free || a.store.None? || !a.store.value.enabled) && context;
    FirstHalf(a, consent, free, context);
    ServingThree(b, true, armed, true);
    if agreed {
      SecondHalf(b, armed);
    }
  }

  lemma FirstHalf(a: Agent, consent: bool, free: bool, context: bool)
    requires a.chain == [Start(StartQueued(consent))]
    ensures var agreed := consent && !a.running && (free || a.store.None? || !a.store.value.enabled) && context;
            Advance(Advance(Advance(a, true), free), context) ==
            if agreed then a.(chain := [Start(StartWriting)], revision := a.revision + 1) else a.(chain := [])
  {
    hide Decide;
  }

  lemma SecondHalf(a: Agent, armed: bool)
    requires a.chain == [Start(StartWriting)]
    ensures Advance(Advance(Advance(a, true), armed), true) ==
            a.(chain := [], store := Some(Saved(armed, None, 0, 0)), alarm := a.alarm || armed)
  {
    hide Decide;
  }

  /** A restart keeps an enabled sender awake, or disables it if the alarm cannot be set, and puts any other to sleep. */
  lemma RestoresExactly(a: Agent, armed: bool)
    requires a.chain == [Restore(RestoreQueued)]
    ensures Serving(a, [true, armed, true]) ==
            if a.store.Some? && a.store.value.enabled then
              a.(chain := [], alarm := a.alarm || armed, store := if armed then a.store else Some(a.store.value.(enabled := false)))
            else a.(chain := [], alarm := false)
  {
    ServingThree(a, true, armed, true);
  }

  /** A stop moves the revision, disables the record if there is one, and clears the alarm. */
  lemma StopsExactly(a: Agent)
    requires a.chain == [Stop(StopQueued)]
    ensures Serving(a, [true] + [true, true, true]) ==
            a.(chain := [], revision := a.revision + 1, alarm := false,
               store := if a.store.Some? then Some(a.store.value.(enabled := false)) else None)
  {
    ServingTwice(a, [true], [true, true, true]);
    assert [true][1..] == [];
    ServingThree(Advance(a, true), true, true, true);
  }
}
