/**
 The backlog alert: one state document, one run a day with the size of the backlog, and a dispatch that may
 fail. It alerts at the start of a streak of non-zero runs and again only when the backlog has grown by
 five since the last delivered alert.
 */
module AlertSuppression {
  import opened Options

  const DELTA: int := 5

  /** The stored document; absent fields are None. */
  datatype Doc = Doc(
    active: bool,
    activeSince: Option<int>,
    lastCount: nat,
    lastAlertCount: nat,
    lastAlertAt: Option<int>,
    failedAt: Option<int>,
    clearedAt: Option<int>)

  /** One daily run: the backlog, whether any channel takes the alert if one is sent, and the time. */
  datatype Run = Run(count: nat, delivers: bool, now: int)

  datatype Reason = FirstDetection | Escalated
  datatype Result =
    | CountZero(cleared: bool)
    | Suppressed(lastAlertCount: nat)
    | NotDelivered(previous: nat)
    | Sent(reason: Reason, previous: nat)

  function EmptyDoc(): Doc {
    Doc(false, None, 0, 0, None, None, None)
  }

  function DocOf(stored: Option<Doc>): Doc {
    if stored.Some? then stored.value else EmptyDoc()
  }

  /** A run with a backlog that has to be told: a new streak, or one that has grown enough. */
  predicate Due(doc: Doc, count: nat) {
    count > 0 && (!doc.active || count - doc.lastAlertCount >= DELTA)
  }

  /** The document after a run. */
  function After(stored: Option<Doc>, run: Run): Option<Doc> {
    var doc := DocOf(stored);
    if run.count == 0 then
      if doc.active then Some(doc.(active := false, lastCount := 0, clearedAt := Some(run.now), activeSince := None)) else stored
    else if !Due(doc, run.count) then
      Some(doc.(lastCount := run.count))
    else if !run.delivers then
      Some(doc.(lastCount := run.count, failedAt := Some(run.now)))
    else
      Some(doc.(active := true, lastCount := run.count, lastAlertCount := run.count, lastAlertAt := Some(run.now), failedAt := None,
                activeSince := if doc.active && doc.activeSince.Some? then doc.activeSince else Some(run.now)))
  }

  function Delivered(stored: Option<Doc>, run: Run): bool {
    Due(DocOf(stored), run.count) && run.delivers
  }

  class Monitor {
    var stored: Option<Doc>

    constructor ()
      ensures stored == None
    {
      stored := None;
    }

    /**
     One run: what is stored and what is answered. A backlog is suppressed during a streak as long as it lies
     less than five above the last alerted count; any other backlog is told if a channel takes it.
     */
    method Notify(run: Run) returns (result: Result)
      modifies this
      ensures stored == After(old(stored), run)
      ensures var doc, now := old(DocOf(stored)), DocOf(stored);
              if run.count == 0 then
                result == CountZero(doc.active) && !now.active && now.lastAlertCount == doc.lastAlertCount
              else if doc.active && run.count < doc.lastAlertCount + 5 then
                result == Suppressed(doc.lastAlertCount) && now == doc.(lastCount := run.count)
              else if !run.delivers then
                result == NotDelivered(doc.lastAlertCount) && now == doc.(lastCount := run.count, failedAt := Some(run.now))
              else
                && result == Sent(if doc.active then Escalated else FirstDetection, doc.lastAlertCount)
                && now.active && now.lastCount == now.lastAlertCount == run.count
                && now.lastAlertAt == Some(run.now) && now.failedAt == None
    {
      var doc := DocOf(stored);
      if run.count == 0 {
        if doc.active {
          stored := Some(doc.(active := false, lastCount := 0, clearedAt := Some(run.now), activeSince := None));
        }
        return CountZero(doc.active);
      }
      var lastAlertCount := doc.lastAlertCount;
      var escalated := run.count - lastAlertCount >= DELTA;
      if doc.active && !escalated {
        stored := Some(doc.(lastCount := run.count));
        return Suppressed(lastAlertCount);
      }
      if !run.delivers {
        stored := Some(doc.(lastCount := run.count, failedAt := Some(run.now)));
        return NotDelivered(lastAlertCount);
      }
      var since := doc.activeSince;
      if !doc.active || doc.activeSince.None? {
        since := Some(run.now);
      }
      stored := Some(doc.(active := true, lastCount := run.count, lastAlertCount := run.count, lastAlertAt := Some(run.now),
                          failedAt := None, activeSince := since));
      result := Sent(if doc.active then Escalated else FirstDetection, lastAlertCount);
    }
  }

  // ---------- whole histories ----------

  function Play(stored: Option<Doc>, runs: seq<Run>): Option<Doc> {
    if runs == [] then stored else After(Play(stored, runs[..|runs| - 1]), runs[|runs| - 1])
  }

  /** The runs whose alert was delivered. */
  function Alerts(stored: Option<Doc>, runs: seq<Run>): (alerts: seq<Run>)
    ensures |alerts| <= |runs|
  {
    if runs == [] then []
    else
      var init, last := runs[..|runs| - 1], runs[|runs| - 1];
      Alerts(stored, init) + (if Delivered(Play(stored, init), last) then [last] else [])
  }

  predicate Backlogged(runs: seq<Run>) {
    forall i | 0 <= i < |runs| :: runs[i].count > 0
  }

  predicate AtMost(runs: seq<Run>, max: nat) {
    forall i | 0 <= i < |runs| :: runs[i].count <= max
  }

  /** What holds of the document whenever a run starts. */
  predicate Sound(stored: Option<Doc>) {
    DocOf(stored).active ==> DocOf(stored).activeSince.Some? && DocOf(stored).lastAlertCount > 0
  }

  lemma {:induction false} PlayKeepsSound(stored: Option<Doc>, runs: seq<Run>)
    requires Sound(stored)
    ensures Sound(Play(stored, runs))
  {
    if runs != [] {
      PlayKeepsSound(stored, runs[..|runs| - 1]);
    }
  }

  /** What the document remembers of the alerts of a streak that began with the count `before` alerted. */
  predicate Remembers(doc: Doc, before: nat, alerts: seq<Run>) {
    && (doc.active <==> alerts != [])
    && (alerts == [] ==> doc.lastAlertCount == before)
    && (alerts != [] ==>
          && doc.activeSince == Some(alerts[0].now)
          && doc.lastAlertCount == alerts[|alerts| - 1].count
          && doc.lastAlertAt == Some(alerts[|alerts| - 1].now)
          && DELTA * (|alerts| - 1) <= doc.lastAlertCount - alerts[0].count)
  }

  lemma OneRun(stored: Option<Doc>, before: nat, alerts: seq<Run>, run: Run)
    requires Remembers(DocOf(stored), before, alerts) && run.count > 0
    ensures Remembers(DocOf(After(stored, run)), before, alerts + (if Delivered(stored, run) then [run] else []))
  {
    if alerts != [] {
      assert (alerts + [run])[0] == alerts[0];
    }
  }

  /**
   A streak: runs with a backlog, one after another, after a run without one. The document remembers the
   first delivery as the start and the last delivered count; each alert after the first stands for five more.
   */
  lemma {:induction false} StreakSoFar(stored: Option<Doc>, runs: seq<Run>)
    requires !DocOf(stored).active && Backlogged(runs)
    ensures Remembers(DocOf(Play(stored, runs)), DocOf(stored).lastAlertCount, Alerts(stored, runs))
    ensures forall r | r in Alerts(stored, runs) :: r in runs
  {
    hide After, Delivered, Remembers;
    if runs != [] {
      var init, last := runs[..|runs| - 1], runs[|runs| - 1];
      StreakSoFar(stored, init);
      OneRun(Play(stored, init), DocOf(stored).lastAlertCount, Alerts(stored, init), last);
    } else {
      NoRuns(stored);
    }
  }

  lemma NoRuns(stored: Option<Doc>)
    requires !DocOf(stored).active
    ensures Remembers(DocOf(stored), DocOf(stored).lastAlertCount, [])
  {
  }

  /** At most one alert and one more for every five the backlog grew since the first: no daily noise. */
  lemma StreakIsQuiet(stored: Option<Doc>, runs: seq<Run>, max: nat)
    requires !DocOf(stored).active && Backlogged(runs) && AtMost(runs, max)
    ensures var alerts := Alerts(stored, runs);
            alerts != [] ==> alerts[0].count <= max && |alerts| <= 1 + (max - alerts[0].count) / DELTA
  {
    StreakSoFar(stored, runs);
    var alerts := Alerts(stored, runs);
    if alerts != [] {
      InBounds(runs, max, alerts[0]);
      InBounds(runs, max, alerts[|alerts| - 1]);
    }
  }

  lemma InBounds(runs: seq<Run>, max: nat, run: Run)
    requires AtMost(runs, max) && run in runs
    ensures run.count <= max
  {
  }

  // ---------- which runs are told ----------

  /**
   The runs told after the count `last` was, or at the start of a streak: the first one that delivers, then
   each one that delivers and lies at least five above the last told; a run without a backlog ends the streak.
   */
  function Told(runs: seq<Run>, last: Option<nat>): seq<Run> {
    if runs == [] then []
    else if runs[0].count == 0 then Told(runs[1..], None)
    else if runs[0].delivers && (last.None? || runs[0].count >= last.value + 5) then
      [runs[0]] + Told(runs[1..], Some(runs[0].count))
    else Told(runs[1..], last)
  }

  function LastTold(stored: Option<Doc>): Option<nat> {
    if DocOf(stored).active then Some(DocOf(stored).lastAlertCount) else None
  }

  lemma {:induction false} PlayFromFirst(stored: Option<Doc>, runs: seq<Run>)
    requires runs != []
    ensures Play(stored, runs) == Play(After(stored, runs[0]), runs[1..])
  {
    hide After;
    var n := |runs| - 1;
    if n == 0 {
      assert runs[..0] == [] && runs[1..] == [];
    } else {
      PlayFromFirst(stored, runs[..n]);
      assert runs[..n][1..] == runs[1..][..n - 1];
    }
  }

  lemma {:induction false} AlertsFromFirst(stored: Option<Doc>, runs: seq<Run>)
    requires runs != []
    ensures Alerts(stored, runs) ==
            (if Delivered(stored, runs[0]) then [runs[0]] else []) + Alerts(After(stored, runs[0]), runs[1..])
  {
    hide After, Delivered, Play, Alerts;
    var n := |runs| - 1;
    AlertsLast(stored, runs);
    if n == 0 {
      assert runs[..0] == [] && runs[1..] == [];
      NothingYet(stored);
      NothingYet(After(stored, runs[0]));
    } else {
      AlertsFromFirst(stored, runs[..n]);
      PlayFromFirst(stored, runs[..n]);
      AlertsLast(After(stored, runs[0]), runs[1..]);
      assert runs[..n][1..] == runs[1..][..n - 1];
    }
  }

  lemma AlertsLast(stored: Option<Doc>, runs: seq<Run>)
    requires runs != []
    ensures var init, last := runs[..|runs| - 1], runs[|runs| - 1];
            Alerts(stored, runs) == Alerts(stored, init) + (if Delivered(Play(stored, init), last) then [last] else [])
  {
  }

  lemma NothingYet(stored: Option<Doc>)
    ensures Play(stored, []) == stored && Alerts(stored, []) == []
  {
  }

  /** Over every history the delivered alerts are the runs told: the document remembers just enough. */
  lemma {:induction false} AlertsAreTold(stored: Option<Doc>, runs: seq<Run>)
    ensures Alerts(stored, runs) == Told(runs, LastTold(stored))
    decreases |runs|
  {
    if runs != [] {
      AlertsFromFirst(stored, runs);
      AlertsAreTold(After(stored, runs[0]), runs[1..]);
    }
  }

  /**
   Whatever came before: in a streak whose channel always delivers, the backlog lies after every run less
   than five above the last alerted count, which is a backlog that the streak has told.
   */
  lemma {:induction false} BacklogIsKnown(stored: Option<Doc>, runs: seq<Run>)
    requires runs != [] && Backlogged(runs) && forall r | r in runs :: r.delivers
    ensures var doc := DocOf(Play(stored, runs));
            doc.active && doc.lastCount == runs[|runs| - 1].count < doc.lastAlertCount + 5
    ensures !DocOf(stored).active ==> exists r | r in runs :: r.count == DocOf(Play(stored, runs)).lastAlertCount
  {
    var n := |runs| - 1;
    if n > 0 {
      BacklogIsKnown(stored, runs[..n]);
    } else {
      assert Play(stored, runs[..n]) == stored;
    }
    assert runs[n] in runs && runs[n].delivers && runs[n].count > 0;
    if n > 0 && !DocOf(stored).active {
      var r :| r in runs[..n] && r.count == DocOf(Play(stored, runs[..n])).lastAlertCount;
      assert r in runs;
    }
  }

  /** The first run of a streak that can deliver does, and its alert is a first detection. */
  lemma {:induction false} FirstChanceIsTaken(stored: Option<Doc>, runs: seq<Run>, last: Run)
    requires !DocOf(stored).active && Backlogged(runs) && (forall r | r in runs :: !r.delivers) && last.count > 0
    ensures Alerts(stored, runs) == [] && !DocOf(Play(stored, runs)).active
    ensures Delivered(Play(stored, runs), last) <==> last.delivers
  {
    if runs != [] {
      FirstChanceIsTaken(stored, runs[..|runs| - 1], runs[|runs| - 1]);
      assert !runs[|runs| - 1].delivers;
    }
  }

  /** A run without a backlog ends the streak: the next one with a backlog is told again, whatever was told before. */
  lemma ClearedStreakAlertsAgain(stored: Option<Doc>, zero: Run, next: Run)
    requires zero.count == 0 && next.count > 0
    ensures var cleared := After(stored, zero);
            && !DocOf(cleared).active
            && (Delivered(cleared, next) <==> next.delivers)
            && (next.delivers ==> DocOf(After(cleared, next)).activeSince == Some(next.now))
  {
  }

  /** A failed delivery changes neither the streak nor the alerted count, so the next run tries again. */
  lemma FailedDeliveryIsRetried(stored: Option<Doc>, run: Run, next: Run)
    requires Due(DocOf(stored), run.count) && !run.delivers && next.count >= run.count
    ensures var doc, after := DocOf(stored), DocOf(After(stored, run));
            && after.active == doc.active && after.activeSince == doc.activeSince
            && after.lastAlertCount == doc.lastAlertCount && after.lastAlertAt == doc.lastAlertAt
            && Due(after, next.count)
  {
  }
}
