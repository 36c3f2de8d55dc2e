/**
 One browser-session instance of the police queue worker: the closure of `create`, with its
 variables `running`, `revision` and `commands`, the record it keeps in session storage and its
 alarm. Every await is a point where the environment may do anything else; the code between two
 awaits is one step. `Decide` continues a run whose await has settled, `Serve` continues the command
 at the head of the serialised chain.
 */
module PoliceAgent {
  import opened Options
  import opened EgmTransport

  type JobId = nat
  type RunId = nat
  type RequestId = nat

  /** One row of the feed; a row that fails the worker's own checks aborts the run. */
  datatype Item = Item(id: JobId, wellFormed: bool)

  /** The record in session storage. */
  datatype Saved = Saved(enabled: bool, cursor: Option<Item>, sent: nat, failed: nat)

  /** Why a run is waiting for the command chain, and what it does once its record is handled. */
  datatype SaveKind = Progress | Last | Pause(thenFinal: bool)

  /** The await a run is suspended at. */
  datatype Pc =
    | Reading
    | Preparing
    | Claiming(item: Item, request: RequestId)
    | Rechecking(item: Item)
    | Releasing(item: Item, request: RequestId)
    | EnteringSend(item: Item)
    | Writing(item: Item, request: RequestId)
    | Completing(item: Item, request: RequestId)
    | FailingUncertain(item: Item, request: RequestId, fatal: bool)
    | Failing(item: Item, request: RequestId, pausing: bool)
    | Saving(kind: SaveKind)
    | Resumed(kind: SaveKind)
    | Clearing(thenFinal: bool)

  /** An activation of `run`: the revision it captured, its copy of the record, the rest of its page. */
  datatype Run = Run(revision: nat, pc: Pc, record: Saved, items: seq<Item>)

  datatype StopPc = StopQueued | StopReading | StopWriting(record: Saved) | StopClearing
  datatype StartPc =
    | StartQueued(consent: bool)
    | StartReading
    | StartChecking
    | StartWriting
    | StartArming
    | StartUndoing
  datatype RestorePc = RestoreQueued | RestoreArming(record: Saved) | RestoreUndoing(record: Saved) | RestoreClearing

  datatype Command =
    | Save(run: RunId, revision: nat, record: Saved)
    | Stop(stop: StopPc)
    | Start(start: StartPc)
    | Restore(restore: RestorePc)

  datatype Agent = Agent(
    running: bool,
    revision: nat,
    runs: map<RunId, Run>,
    chain: seq<Command>,
    store: Option<Saved>,
    alarm: bool)

  /** A fresh service worker over whatever the browser kept. */
  function Fresh(store: Option<Saved>, alarm: bool): Agent {
    Agent(false, 0, map[], [], store, alarm)
  }

  /** What the await of a run settles with. `late` is the ninety-second guard of the loop. */
  datatype Input =
    | ReadDone
    | PageReady(items: seq<Item>, late: bool)
    | WrongMode
    | Granted(job: JobId, sameTenant: bool)
    | ContextOk
    | SendBlocked(pausing: bool)
    | SendThrew
    | LookupDone(needed: bool, reply: Reply, usable: bool)
    | WriteSettled(outcome: Outcome)
    | Acknowledged
    | Go(late: bool)
    | Threw(status: int)

  /** What a step asks of the outside world. */
  datatype Effect =
    | Quiet
    | AskClaim(job: JobId)
    | EnterSend(job: JobId)
    | IssueWrite(job: JobId)
    | AskComplete(job: JobId)
    | AskFail(job: JobId, uncertain: bool)

  // ---------- run ----------

  /**
   What one step of a run does to its instance: nothing, end the run, hand the record to the
   serialised chain and wait (`await persist`), or move to the next await; `disarm` is
   `chrome.alarms.clear`.
   */
  datatype Move = Stay | End | Hold(run: Run, kind: SaveKind) | Proceed(run: Run, disarm: bool)

  datatype Decision = Decision(move: Move, effect: Effect)

  function Await(r: Run, pc: Pc, effect: Effect): Decision {
    Decision(Proceed(r.(pc := pc), false), effect)
  }

  function Persist(r: Run, kind: SaveKind): Decision {
    Decision(Hold(r, kind), Quiet)
  }

  function Disabled(record: Saved): Saved {
    record.(enabled := false)
  }

  function PauseRun(r: Run, thenFinal: bool): Decision {
    Persist(r.(record := Disabled(r.record)), Pause(thenFinal))
  }

  predicate Fatal(status: int) {
    status == 401 || status == 403
  }

  /** The outer `catch`: login, test-mode and server-managed answers pause, the rest is remembered. */
  function Caught(r: Run, status: int): Decision {
    if Fatal(status) || status == 423 || status == 409 then PauseRun(r, false) else Persist(r, Last)
  }

  /** The head of the loop over the page. */
  function NextItem(r: Run, revision: nat, late: bool, next: RequestId): Decision {
    if r.items == [] || revision != r.revision || late then
      Persist(r, Last)
    else if !r.items[0].wellFormed then
      Caught(r, 0)
    else
      Await(r.(items := r.items[1..]), Claiming(r.items[0], next), AskClaim(r.items[0].id))
  }

  function Processed(r: Run, item: Item): Decision {
    Persist(r.(record := r.record.(cursor := Some(item))), Progress)
  }

  function CountFailure(r: Run): Run {
    r.(record := r.record.(failed := r.record.failed + 1))
  }

  function Reject(r: Run, item: Item, uncertain: bool, pausing: bool, next: RequestId): Decision {
    Await(r, Failing(item, next, pausing), AskFail(item.id, uncertain))
  }

  function AfterPause(r: Run, thenFinal: bool): Decision {
    if thenFinal then Persist(r, Last) else Decision(End, Quiet)
  }

  const Ignored := Decision(Stay, Quiet)

  /** A run continues with the value its await settled with; a value it is not waiting for is ignored. */
  function Decide(r: Run, revision: nat, store: Option<Saved>, input: Input, next: RequestId): Decision {
    match r.pc
    case Reading => (
      match input
      case ReadDone =>
        if store.None? || !store.value.enabled then Decision(End, Quiet)
        else Await(r.(record := store.value), Preparing, Quiet)
      case Threw(_) => Decision(End, Quiet)
      case _ => Ignored)
    case Preparing => (
      match input
      case PageReady(items, late) =>
        var record := if items == [] then r.record.(cursor := None) else r.record;
        NextItem(r.(items := items, record := record), revision, late, next)
      case WrongMode => PauseRun(r, false)
      case Threw(status) => Caught(r, status)
      case _ => Ignored)
    case Claiming(item, _) => (
      match input
      case Granted(job, sameTenant) =>
        if job != item.id || !sameTenant then Caught(r, 0) else Await(r, Rechecking(item), Quiet)
      case Threw(status) => if status in {409, 422, 404} then Processed(r, item) else Caught(r, status)
      case _ => Ignored)
    case Rechecking(item) => (
      match input
      case ContextOk =>
        if revision != r.revision then Await(r, Releasing(item, next), AskFail(item.id, false))
        else Await(r, EnteringSend(item), EnterSend(item.id))
      case Threw(status) => Caught(r, status)
      case _ => Ignored)
    case Releasing(item, _) => (
      match input
      case Acknowledged => Persist(r, Last)
      case Threw(status) => Caught(r, status)
      case _ => Ignored)
    case EnteringSend(item) => (
      match input
      case SendBlocked(pausing) => Reject(r, item, false, pausing, next)
      case SendThrew => Reject(r, item, true, false, next)
      case LookupDone(needed, reply, usable) =>
        var lookup := EgmRequest(false, reply);
        if needed && lookup.Rejected? then Reject(r, item, lookup.uncertain, lookup.error == LoginRequired, next)
        else if !usable then Reject(r, item, false, false, next)
        else Await(r, Writing(item, next), IssueWrite(item.id))
      case _ => Ignored)
    case Writing(item, _) => (
      match input
      case WriteSettled(Fulfilled) => Await(r, Completing(item, next), AskComplete(item.id))
      case WriteSettled(Rejected(error, uncertain)) => Reject(r, item, uncertain, error == LoginRequired, next)
      case _ => Ignored)
    case Completing(item, _) => (
      match input
      case Acknowledged => Processed(r.(record := r.record.(sent := r.record.sent + 1)), item)
      case Threw(status) => Await(r, FailingUncertain(item, next, Fatal(status)), AskFail(item.id, true))
      case _ => Ignored)
    case FailingUncertain(item, _, fatal) =>
      if !input.Acknowledged? && !input.Threw? then Ignored
      else if fatal then PauseRun(r, false)
      else Processed(CountFailure(r), item)
    case Failing(item, _, pausing) => (
      match input
      case Acknowledged => if pausing then PauseRun(CountFailure(r), true) else Processed(CountFailure(r), item)
      case Threw(status) => Caught(r, status)
      case _ => Ignored)
    case Saving(_) => Ignored
    case Resumed(kind) => (
      match input
      case Go(late) => (
        match kind
        case Progress => NextItem(r, revision, late, next)
        case Last => Decision(End, Quiet)
        case Pause(thenFinal) =>
          if revision == r.revision then Decision(Proceed(r.(pc := Clearing(thenFinal)), true), Quiet)
          else AfterPause(r, thenFinal))
      case _ => Ignored)
    case Clearing(thenFinal) => if input.Go? then AfterPause(r, thenFinal) else Ignored
  }

  /** A move is carried out on the instance; `End` also takes the `running` flag down. */
  function Carry(a: Agent, k: RunId, move: Move): Agent {
    match move
    case Stay => a
    case End => a.(running := false, runs := a.runs - {k})
    case Hold(r, kind) =>
      a.(runs := a.runs[k := r.(pc := Saving(kind))], chain := a.chain + [Save(k, r.revision, r.record)])
    case Proceed(r, disarm) => a.(runs := a.runs[k := r], alarm := a.alarm && !disarm)
  }

  // ---------- the serialised commands ----------

  /** What one step of the head command leaves: the command itself unless it is done, and the variables it writes. */
  datatype Served = Served(rest: Option<Command>, revision: nat, store: Option<Saved>, alarm: bool)

  /** The head command continues; `ok` is what the environment answers where it is asked something. */
  function Serve(c: Command, ok: bool, running: bool, revision: nat, store: Option<Saved>, alarm: bool): Served {
    match c
    case Save(k, captured, record) =>
      Served(None, revision, if revision == captured then Some(record) else store, alarm)
    case Stop(pc) => (
      match pc
      case StopQueued => Served(Some(Stop(StopReading)), revision + 1, store, alarm)
      case StopReading =>
        var following := if store.Some? then StopWriting(Disabled(store.value)) else StopClearing;
        Served(Some(Stop(following)), revision, store, alarm)
      case StopWriting(record) => Served(Some(Stop(StopClearing)), revision, Some(record), alarm)
      case StopClearing => Served(None, revision, store, false))
    case Start(pc) => (
      match pc
      case StartQueued(consent) =>
        Served(if !consent || running then None else Some(Start(StartReading)), revision, store, alarm)
      case StartReading =>
        var free := ok || store.None? || !store.value.enabled;
        Served(if free then Some(Start(StartChecking)) else None, revision, store, alarm)
      case StartChecking =>
        if ok then Served(Some(Start(StartWriting)), revision + 1, store, alarm) else Served(None, revision, store, alarm)
      case StartWriting => Served(Some(Start(StartArming)), revision, Some(Saved(true, None, 0, 0)), alarm)
      case StartArming => if ok then Served(None, revision, store, true) else Served(Some(Start(StartUndoing)), revision, store, alarm)
      case StartUndoing => Served(None, revision, Some(Saved(false, None, 0, 0)), alarm))
    case Restore(pc) => (
      match pc
      case RestoreQueued =>
        var following := if store.Some? && store.value.enabled then RestoreArming(store.value) else RestoreClearing;
        Served(Some(Restore(following)), revision, store, alarm)
      case RestoreArming(record) =>
        if ok then Served(None, revision, store, true) else Served(Some(Restore(RestoreUndoing(record))), revision, store, alarm)
      case RestoreUndoing(record) => Served(None, revision, Some(Disabled(record)), alarm)
      case RestoreClearing => Served(None, revision, store, false))
  }

  /** A run whose record has been handled may continue; any other command leaves the runs alone. */
  function Wake(runs: map<RunId, Run>, c: Command): map<RunId, Run> {
    if c.Save? && c.run in runs && runs[c.run].pc.Saving?
    then runs[c.run := runs[c.run].(pc := Resumed(runs[c.run].pc.kind))]
    else runs
  }

  function Advance(a: Agent, ok: bool): Agent {
    if a.chain == [] then a else
    var c := a.chain[0];
    var served := Serve(c, ok, a.running, a.revision, a.store, a.alarm);
    var chain := if served.rest.Some? then [served.rest.value] + a.chain[1..] else a.chain[1..];
    Agent(a.running, served.revision, Wake(a.runs, c), chain, served.store, served.alarm)
  }

  // ---------- the instance as a whole ----------

  datatype Event =
    | AlarmFires(run: RunId)
    | Settles(run: RunId, input: Input)
    | ChainStep(ok: bool)
    | Submit(command: Command)

  function Activate(a: Agent, k: RunId): Agent {
    a.(running := true, runs := a.runs[k := Run(a.revision, Reading, Saved(false, None, 0, 0), [])])
  }

  /** `AlarmFires` names its activation; a name in use belongs to the activation that has it. */
  function After(a: Agent, event: Event, next: RequestId): Agent {
    match event
    case AlarmFires(k) => if a.running || k in a.runs then a else Activate(a, k)
    case Settles(k, input) =>
      if k in a.runs then Carry(a, k, Decide(a.runs[k], a.revision, a.store, input, next).move) else a
    case ChainStep(ok) => Advance(a, ok)
    case Submit(command) => if FromOutside(command) then a.(chain := a.chain + [command]) else a
  }

  function EffectOf(a: Agent, event: Event, next: RequestId): Effect {
    if event.Settles? && event.run in a.runs
    then Decide(a.runs[event.run], a.revision, a.store, event.input, next).effect
    else Quiet
  }

  /** What a page message or the start of the service worker may append to the chain. */
  predicate FromOutside(command: Command) {
    command == Stop(StopQueued) || command == Restore(RestoreQueued)
    || (command.Start? && command.start.StartQueued?)
  }
}
