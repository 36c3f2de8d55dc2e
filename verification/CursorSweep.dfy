/**
 The await-level worker sweeps as FeedSweep says. Along any events of an instance, other runs' and commands'
 included, a run whose transport works and that nobody stops handles the rows of its page in order, and its
 cursor is at all times the one of the sweep.
 */
module CursorSweep {
  import opened Options
  import opened EgmTransport
  import opened PoliceAgent
  import PoliceControl
  import FeedSweep

  /** The cursor after the first rows of the page. */
  function Cursor(start: Option<Item>, page: seq<Item>, tried: nat): Option<Item>
    requires tried <= |page|
  {
    if page == [] then None else if tried == 0 then start else Some(page[tried - 1])
  }

  /** What a working transport answers at each await; `late` is the run's own time limit. */
  predicate Clean(pc: Pc, input: Input) {
    match pc
    case Claiming(item, _) => (input.Granted? ==> input == Granted(item.id, true)) && (input.Threw? ==> input.status in {409, 422, 404})
    case Rechecking(_) => !input.Threw?
    case EnteringSend(_) =>
      && input != SendBlocked(true)
      && (input.LookupDone? && input.needed ==>
            var lookup := EgmRequest(false, input.reply); lookup.Rejected? ==> lookup.error != LoginRequired)
    case Writing(_, _) => input.WriteSettled? && input.outcome.Rejected? ==> input.outcome.error != LoginRequired
    case Completing(_, _) => input.Threw? ==> !Fatal(input.status)
    case Failing(_, _, _) => !input.Threw?
    case _ => true
  }

  predicate IsLate(input: Input) {
    (input.Go? || input.PageReady?) && input.late
  }

  /** The run has tried so many rows of its page; `tired` if it ran into its time limit on the way. */
  predicate At(r: Run, start: Option<Item>, page: seq<Item>, tried: nat, tired: bool) {
    tried <= |page| && r.record.cursor == Cursor(start, page, tried) &&
    match r.pc
    case Claiming(item, _) => InHand(r, page, tried, item)
    case Rechecking(item) => InHand(r, page, tried, item)
    case EnteringSend(item) => InHand(r, page, tried, item)
    case Writing(item, _) => InHand(r, page, tried, item)
    case Completing(item, _) => InHand(r, page, tried, item)
    case FailingUncertain(item, _, fatal) => !fatal && InHand(r, page, tried, item)
    case Failing(item, _, pausing) => !pausing && InHand(r, page, tried, item)
    case Saving(kind) => Between(r, kind, page, tried, tired)
    case Resumed(kind) => Between(r, kind, page, tried, tired)
    case _ => false
  }

  predicate InHand(r: Run, page: seq<Item>, tried: nat, item: Item) {
    tried < |page| && item == page[tried] && r.items == page[tried + 1..]
  }

  predicate Between(r: Run, kind: SaveKind, page: seq<Item>, tried: nat, tired: bool) {
    match kind
    case Progress => tried <= |page| && r.items == page[tried..]
    case Last => tried == |page| || tired
    case Pause(_) => false
  }

  predicate WellFormed(page: seq<Item>) {
    forall item | item in page :: item.wellFormed
  }

  /** Where the run waits after a move that does not end it. */
  function Moved(move: Move): Run
    requires move.Hold? || move.Proceed?
  {
    if move.Hold? then move.run.(pc := Saving(move.kind)) else move.run
  }

  lemma NextItemAt(r: Run, late: bool, next: RequestId, start: Option<Item>, page: seq<Item>, tried: nat, tired: bool)
    requires tried <= |page| && r.record.cursor == Cursor(start, page, tried) && r.items == page[tried..] && WellFormed(page)
    ensures var move := NextItem(r, r.revision, late, next).move;
            (move.Hold? || move.Proceed?) && At(Moved(move), start, page, tried, tired || late)
  {
    if tried < |page| {
      assert page[tried] in page && page[tried..][1..] == page[tried + 1..];
    }
  }

  /** One await of the run settles. */
  lemma SettleAt(r: Run, store: Option<Saved>, input: Input, next: RequestId, start: Option<Item>,
                 page: seq<Item>, tried: nat, tired: bool)
    returns (after: nat)
    requires At(r, start, page, tried, tired) && WellFormed(page) && Clean(r.pc, input)
    ensures var move := Decide(r, r.revision, store, input, next).move;
            && tried <= after <= tried + 1
            && (move.Stay? ==> after == tried)
            && (move.End? ==> r.pc == Resumed(Last) && after == tried)
            && (move.Hold? || move.Proceed? ==>
                  Moved(move).revision == r.revision && At(Moved(move), start, page, after, tired || IsLate(input)))
  {
    var move := Decide(r, r.revision, store, input, next).move;
    after := if move.Hold? && move.kind == Progress then tried + 1 else tried;
    if r.pc == Resumed(Progress) && input.Go? {
      NextItemAt(r, input.late, next, start, page, tried, tired);
    } else if after == tried + 1 {
      assert page[tried + 1 - 1] == page[tried];
    }
  }

  // ---------- along the events of an instance ----------

  /** The run is there until the last event, nobody stops it, and its own answers are those of a working transport. */
  predicate CleanRun(a: Agent, k: RunId, events: seq<Event>)
    decreases |events|
  {
    events != [] ==>
      && k in a.runs && After(a, events[0], 0).revision == a.revision
      && (events[0].Settles? && events[0].run == k ==> Clean(a.runs[k].pc, events[0].input))
      && CleanRun(After(a, events[0], 0), k, events[1..])
  }

  predicate Tires(k: RunId, events: seq<Event>) {
    exists e :: e in events && e.Settles? && e.run == k && IsLate(e.input)
  }

  predicate AgentAt(a: Agent, k: RunId, start: Option<Item>, page: seq<Item>, tried: nat, tired: bool) {
    k in a.runs && a.runs[k].revision == a.revision && At(a.runs[k], start, page, tried, tired)
  }

  lemma OthersLeave(a: Agent, k: RunId, event: Event)
    requires k in a.runs && !(event.Settles? && event.run == k)
    ensures var after := After(a, event, 0);
            k in after.runs && (after.runs[k] == a.runs[k]
                                || (a.runs[k].pc.Saving? && after.runs[k] == a.runs[k].(pc := Resumed(a.runs[k].pc.kind))))
  {
    hide Decide, Serve;
  }

  lemma EventAt(a: Agent, k: RunId, event: Event, start: Option<Item>, page: seq<Item>, tried: nat, tired: bool)
    returns (after: nat)
    requires AgentAt(a, k, start, page, tried, tired) && WellFormed(page) && CleanRun(a, k, [event])
    ensures var b, now := After(a, event, 0), tired || Tires(k, [event]);
            && tried <= after
            && (k in b.runs ==> AgentAt(b, k, start, page, after, now))
            && (k !in b.runs ==> after == tried && a.runs[k].pc == Resumed(Last))
  {
    assert [event][0] == event;
    if event.Settles? && event.run == k {
      assert IsLate(event.input) ==> event in [event] && Tires(k, [event]);
      after := SettleAt(a.runs[k], a.store, event.input, 0, start, page, tried, tired);
      hide Decide, Clean;
      StepOf(a, k, event, start, page, after, tired);
    } else {
      after := tried;
      OthersLeave(a, k, event);
      hide After;
      var b := After(a, event, 0);
      assert Tires(k, [event]) ==> false;
    }
  }

  /** The instance after a step of the run. */
  lemma StepOf(a: Agent, k: RunId, event: Event, start: Option<Item>, page: seq<Item>, after: nat, tired: bool)
    requires k in a.runs && event.Settles? && event.run == k
    ensures var move := Decide(a.runs[k], a.revision, a.store, event.input, 0).move;
            var b := After(a, event, 0);
            && (move.Stay? ==> b == a) && (move.End? ==> k !in b.runs)
            && (move.Hold? || move.Proceed? ==> k in b.runs && b.runs[k] == Moved(move) && b.revision == a.revision)
  {
    hide Decide;
  }

  /** The run as it is after the events, or was when it ended. */
  function LastRun(a: Agent, k: RunId, events: seq<Event>): Run
    requires k in a.runs
    decreases |events|
  {
    if events == [] || k !in After(a, events[0], 0).runs then a.runs[k] else LastRun(After(a, events[0], 0), k, events[1..])
  }

  lemma {:induction false} RunAlong(a: Agent, k: RunId, events: seq<Event>, start: Option<Item>,
                                    page: seq<Item>, tried: nat, tired: bool)
    returns (after: nat)
    requires AgentAt(a, k, start, page, tried, tired) && WellFormed(page) && CleanRun(a, k, events)
    ensures tried <= after <= |page| && LastRun(a, k, events).record.cursor == Cursor(start, page, after)
    ensures k !in PoliceControl.Play(a, events).runs ==> after == |page| || tired || Tires(k, events)
    decreases |events|
  {
    if events == [] {
      after := tried;
    } else {
      var event, rest := events[0], events[1..];
      var b := After(a, event, 0);
      hide After, At, Clean;
      CleanOne(a, k, event);
      var next := EventAt(a, k, event, start, page, tried, tired);
      assert Tires(k, [event]) ==> Tires(k, events) by { TiresSooner(k, events); }
      assert Tires(k, rest) ==> Tires(k, events) by { TiresSooner(k, events); }
      if k in b.runs {
        after := RunAlong(b, k, rest, start, page, next, tired || Tires(k, [event]));
      } else {
        after := tried;
        AtEnd(a.runs[k], start, page, tried, tired);
      }
    }
  }

  lemma CleanOne(a: Agent, k: RunId, event: Event)
    requires k in a.runs && After(a, event, 0).revision == a.revision
    requires event.Settles? && event.run == k ==> Clean(a.runs[k].pc, event.input)
    ensures CleanRun(a, k, [event])
  {
    hide After, Clean;
    assert [event][1..] == [];
    assert CleanRun(After(a, event, 0), k, []);
  }

  lemma TiresSooner(k: RunId, events: seq<Event>)
    requires events != []
    ensures Tires(k, [events[0]]) || Tires(k, events[1..]) ==> Tires(k, events)
  {
    hide IsLate;
    if e :| e in [events[0]] && e.Settles? && e.run == k && IsLate(e.input) {
      assert e in events;
    }
    if e :| e in events[1..] && e.Settles? && e.run == k && IsLate(e.input) {
      assert e in events;
    }
  }

  lemma AtEnd(r: Run, start: Option<Item>, page: seq<Item>, tried: nat, tired: bool)
    requires At(r, start, page, tried, tired) && r.pc == Resumed(Last)
    ensures tried <= |page| && r.record.cursor == Cursor(start, page, tried) && (tried == |page| || tired)
  {
  }

  lemma PageArrives(a: Agent, k: RunId, page: seq<Item>, late: bool)
    requires k in a.runs && a.runs[k].pc == Preparing && a.runs[k].revision == a.revision && WellFormed(page)
    ensures AgentAt(After(a, Settles(k, PageReady(page, late)), 0), k, a.runs[k].record.cursor, page, 0, late)
  {
    var r := a.runs[k];
    var record := if page == [] then r.record.(cursor := None) else r.record;
    NextItemAt(r.(items := page, record := record), late, 0, r.record.cursor, page, 0, false);
  }

  /** The page the run was given is the feed's. */
  predicate SameRows(key: Item -> FeedSweep.Key, page: seq<Item>, rows: seq<FeedSweep.Key>) {
    |page| == |rows| && forall i | 0 <= i < |page| :: key(page[i]) == rows[i]
  }

  function KeyOf(key: Item -> FeedSweep.Key, cursor: Option<Item>): Option<FeedSweep.Key> {
    if cursor.None? then None else Some(key(cursor.value))
  }

  /**
   From the page to its end, or as far as it gets, the run's cursor is the sweep's: the one after the rows of
   the page that it tried; and it ends only after the last row or at its time limit.
   */
  lemma RunSweeps(a: Agent, k: RunId, page: seq<Item>, late: bool, events: seq<Event>,
                  key: Item -> FeedSweep.Key, rows: seq<FeedSweep.Key>) returns (tried: nat)
    requires k in a.runs && a.runs[k].pc == Preparing && a.runs[k].revision == a.revision && WellFormed(page)
    requires CleanRun(a, k, [Settles(k, PageReady(page, late))] + events)
    requires var cursor := KeyOf(key, a.runs[k].record.cursor);
             SameRows(key, page, FeedSweep.Page(rows, cursor))
    ensures var all := [Settles(k, PageReady(page, late))] + events;
            && KeyOf(key, LastRun(a, k, all).record.cursor) == FeedSweep.CursorAfter(rows, KeyOf(key, a.runs[k].record.cursor), tried)
            && tried <= |page|
            && (k !in PoliceControl.Play(a, all).runs ==> tried == |page| || late || Tires(k, events))
  {
    var arrival := Settles(k, PageReady(page, late));
    var all, start := [arrival] + events, a.runs[k].record.cursor;
    assert all[0] == arrival && all[1..] == events;
    var b := After(a, arrival, 0);
    PageArrives(a, k, page, late);
    hide After, At, Clean;
    tried := RunAlong(b, k, events, start, page, 0, late);
    SameCursor(key, rows, start, page, tried);
  }

  lemma SameCursor(key: Item -> FeedSweep.Key, rows: seq<FeedSweep.Key>, start: Option<Item>, page: seq<Item>, tried: nat)
    requires tried <= |page|
    requires SameRows(key, page, FeedSweep.Page(rows, KeyOf(key, start)))
    ensures KeyOf(key, Cursor(start, page, tried)) == FeedSweep.CursorAfter(rows, KeyOf(key, start), tried)
  {
    hide FeedSweep.Page;
  }
}
