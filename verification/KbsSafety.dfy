/**
 No queued notification reaches the authority twice, whichever requests and answers are lost, late or
 overtaken and whichever workers die: the safety proof of the system in KbsSystem.
 */
module KbsSafety {
  import opened Options
  import opened EgmTransport
  import opened PoliceAgent
  import opened KbsQueue
  import opened KbsSystem

  /**
   Where the right to write a job currently is. It exists for the proof only: the invariant says that
   some assignment of phases fits the state.
   */
  datatype Phase =
    | Idle                                                      // no claim of the job can still lead to a write
    | Offered(request: RequestId)                               // in the answer to a claim
    | Held(agent: AgentId, run: RunId)                          // with a run that has not written yet
    | InFlight(request: RequestId, agent: AgentId, run: RunId)  // in a write request
    | Settled(request: RequestId, agent: AgentId, run: RunId)   // the authority handled the write request
    | GivingBack(request: RequestId)                            // in a request to re-queue the unwritten job
    | Spent                                                     // gone, without the queue knowing

  /**
   Phases for every job. In a loose state a job may besides be handed back by runs that have lost their
   right to it, as long as that does no harm; from the start there are no such runs.
   */
  datatype Phases = Phases(of: map<JobId, Phase>, loose: bool)

  function Put(ph: Phases, j: JobId, phase: Phase): Phases {
    ph.(of := ph.of[j := phase])
  }

  /** Jobs an operator or the queue can offer again. */
  predicate Free(job: Job) {
    job.status == Pending || (job.status == Dead && !job.uncertain)
  }

  /** No claim is granted such a job any more. */
  predicate Exhausted(job: Job) {
    job.maxAttempts <= job.attempts
  }

  /**
   A hand-back by the worker does no harm: no claim will be granted after it, or one at most, and then
   nobody else holds the job.
   */
  predicate HarmlessFor(job: Job, idle: bool, worker: WorkerId) {
    Exhausted(job) || (job.maxAttempts <= job.attempts + 1 && (idle || !Owns(job, worker)))
  }

  /** So does one of a job that is done with and belongs to somebody else: nobody is left who could put it back. */
  predicate Spare(s: System, ph: Phases, j: JobId, worker: WorkerId) {
    && ph.loose && j in ph.of && j in s.jobs
    && (HarmlessFor(s.jobs[j], ph.of[j] == Idle, worker) || (ph.of[j] == Spent && !Owns(s.jobs[j], worker)))
  }

  ghost predicate JobsFit(s: System, ph: Phases) {
    && ph.of.Keys == s.jobs.Keys
    && (forall j | j in ph.of && Free(s.jobs[j]) && !(ph.loose && Exhausted(s.jobs[j])) :: ph.of[j] == Idle)
  }

  ghost predicate WritesFit(s: System, ph: Phases) {
    && (forall j | j !in ph.of :: Applied(s, j) == 0)
    && (forall j | j in ph.of :: Applied(s, j) <= 1 && (Applied(s, j) == 1 ==> ph.of[j].Settled? || ph.of[j].Spent?))
  }

  predicate HandBackFits(s: System, ph: Phases, id: RequestId, j: JobId, worker: WorkerId) {
    (j in ph.of && ph.of[j] == GivingBack(id)) || Spare(s, ph, j, worker)
  }

  ghost predicate RequestsFit(s: System, ph: Phases) {
    && (forall id | id in s.requests :: id < s.nextRequest)
    && (forall id | id in s.requests && s.requests[id].WriteRequest? ::
          var j := s.requests[id].job; j in ph.of && ph.of[j].InFlight? && ph.of[j].request == id)
    && (forall id | id in s.requests && s.requests[id].FailRequest? && !s.requests[id].uncertain ::
          HandBackFits(s, ph, id, s.requests[id].job, s.requests[id].worker))
    && (forall j | j in ph.of && ph.of[j].InFlight? && ph.of[j].request in s.requests ::
          s.requests[ph.of[j].request] == WriteRequest(j))
    && (forall j | j in ph.of && ph.of[j].InFlight? :: ph.of[j].request < s.nextRequest)
    && (forall j | j in ph.of && ph.of[j].Settled? :: ph.of[j].request < s.nextRequest && ph.of[j].request !in s.requests)
  }

  predicate AnswersFit(s: System) {
    forall id | id in s.answers :: id < s.nextRequest && id !in s.requests && id !in s.open
  }

  ghost predicate OpenFits(s: System) {
    forall id | id in s.open ::
      id < s.nextRequest && id !in s.requests
  }

  predicate IsRefused(s: System, id: RequestId) {
    id in s.answers && s.answers[id].AuthorityAnswer? && ExplicitRefusal(s.answers[id].reply)
  }

  predicate IsOffered(s: System, item: Item, id: RequestId) {
    id in s.answers && s.answers[id] == GrantedAnswer(item.id)
  }

  /** The instance was stopped, or started again, since the run began. */
  predicate Stale(s: System, a: AgentId, k: RunId) {
    a in s.agents && k in s.agents[a].runs && s.agents[a].runs[k].revision < s.agents[a].revision
  }

  predicate SpareRun(s: System, ph: Phases, a: AgentId, j: JobId) {
    a in s.installs && Spare(s, ph, j, s.installs[a])
  }

  /** A write request that is gone: its run can report a doubt, or success, or hand the job back without harm. */
  predicate Moot(s: System, ph: Phases, a: AgentId, j: JobId, id: RequestId) {
    id < s.nextRequest && id !in s.requests && (IsRefused(s, id) ==> SpareRun(s, ph, a, j))
  }

  /** The answer to the run's write, if it is there, is a refusal only if the write was not applied. */
  predicate OwnWrite(s: System, ph: Phases, a: AgentId, k: RunId, j: JobId, id: RequestId) {
    && j in ph.of
    && (ph.of[j] == InFlight(id, a, k) || ph.of[j] == Settled(id, a, k))
    && (id in s.answers && s.answers[id].AuthorityAnswer? ==> ph.of[j] == Settled(id, a, k))
    && (IsRefused(s, id) ==> Applied(s, j) != 1)
  }

  predicate RunFits(s: System, ph: Phases, a: AgentId, k: RunId, pc: Pc) {
    match pc
    case Claiming(item, id) =>
      IsOffered(s, item, id) ==>
        (item.id in ph.of && ph.of[item.id] == Offered(id)) || (Stale(s, a, k) && SpareRun(s, ph, a, item.id))
    case Rechecking(item) =>
      (item.id in ph.of && ph.of[item.id] == Held(a, k)) || (Stale(s, a, k) && SpareRun(s, ph, a, item.id))
    case EnteringSend(item) => item.id in ph.of && ph.of[item.id] == Held(a, k)
    case Writing(item, id) => Moot(s, ph, a, item.id, id) || OwnWrite(s, ph, a, k, item.id, id)
    case _ => true
  }

  ghost predicate RunsFit(s: System, ph: Phases) {
    forall a, k | a in s.agents && k in s.agents[a].runs :: RunFits(s, ph, a, k, s.agents[a].runs[k].pc)
  }

  ghost predicate Fits(s: System, ph: Phases) {
    && JobsFit(s, ph) && WritesFit(s, ph) && RequestsFit(s, ph)
    && AnswersFit(s) && OpenFits(s) && RunsFit(s, ph)
  }

  ghost predicate Sound(s: System, loose: bool) {
    exists ph: Phases :: ph.loose == loose && Fits(s, ph)
  }

  ghost predicate Safe(s: System) {
    Sound(s, false)
  }

  // ---------- the worker's steps ----------

  /** The only steps that give a run a job, let it into `send`, write, or hand a job back. */
  predicate Shaped(r: Run, revision: nat, input: Input, d: Decision, next: RequestId) {
    && (d.move.Proceed? ==>
          && var pc := d.move.run.pc;
          && (pc.Claiming? ==> pc.request == next && d.effect == AskClaim(pc.item.id))
          && (pc.Rechecking? ==> r.pc.Claiming? && input.Granted? && pc.item == r.pc.item
                                 && input.job == pc.item.id && d.effect == Quiet)
          && (pc.EnteringSend? ==> r.pc.Rechecking? && pc.item == r.pc.item && d.effect == EnterSend(pc.item.id)
                                   && r.revision == revision)
          && (pc.Writing? ==> r.pc.EnteringSend? && pc.item == r.pc.item && pc.request == next
                              && d.effect == IssueWrite(pc.item.id)))
    && (d.effect.IssueWrite? ==> d.move.Proceed? && d.move.run.pc.Writing?)
    && (d.effect.AskFail? && !d.effect.uncertain ==>
          && d.move.Proceed? && (d.move.run.pc.Releasing? || d.move.run.pc.Failing?)
          && (r.pc.Rechecking? || r.pc.EnteringSend?
              || (r.pc.Writing? && input.WriteSettled? && input.outcome.Rejected? && !input.outcome.uncertain))
          && d.effect.job == r.pc.item.id)
    && (!d.move.Proceed? ==> d.effect == Quiet)
  }

  lemma DecideShape(r: Run, revision: nat, store: Option<Saved>, input: Input, next: RequestId)
    ensures Shaped(r, revision, input, Decide(r, revision, store, input, next), next)
  {
  }

  lemma DecideKeepsRevision(r: Run, revision: nat, store: Option<Saved>, input: Input, next: RequestId)
    ensures var move := Decide(r, revision, store, input, next).move;
            move.Hold? || move.Proceed? ==> move.run.revision == r.revision
  {
  }

  /** One run of one agent moved on: `pc` is where it waits now, if it is still there; `sent` is what it asked for. */
  ghost predicate Moved(s: System, t: System, a: AgentId, k: RunId, pc: Option<Pc>, sent: Option<Request>) {
    && t.jobs == s.jobs && t.applied == s.applied && t.open == s.open && t.answers == s.answers && t.now == s.now
    && a in s.agents && t.agents.Keys == s.agents.Keys
    && (forall a' | a' in s.agents && a' != a :: t.agents[a'] == s.agents[a'])
    && t.installs == s.installs && t.agents[a].revision == s.agents[a].revision
    && (forall k' | k' in t.agents[a].runs && k' != k :: k' in s.agents[a].runs && t.agents[a].runs[k'] == s.agents[a].runs[k'])
    && (k in t.agents[a].runs ==>
          && pc == Some(t.agents[a].runs[k].pc)
          && k in s.agents[a].runs && t.agents[a].runs[k].revision == s.agents[a].runs[k].revision)
    && (pc.Some? ==> k in t.agents[a].runs)
    && (if sent.None? then t.requests == s.requests && t.nextRequest == s.nextRequest
        else t.requests == s.requests[s.nextRequest := sent.value] && t.nextRequest == s.nextRequest + 1)
  }

  predicate CarriesNothing(pc: Pc) {
    !pc.Claiming? && !pc.Rechecking? && !pc.EnteringSend? && !pc.Writing?
  }

  /** A run without the right to write: it carries nothing, or has just asked for a claim. */
  predicate EmptyHanded(s: System, pc: Option<Pc>) {
    pc.Some? ==> CarriesNothing(pc.value) || (pc.value.Claiming? && pc.value.request == s.nextRequest)
  }

  lemma EmptyHandedFits(s: System, t: System, ph: Phases, a: AgentId, k: RunId, pc: Pc)
    requires AnswersFit(s) && t.answers == s.answers && EmptyHanded(s, Some(pc))
    ensures RunFits(t, ph, a, k, pc)
  {
  }

  /** It sends nothing that writes the job, or hands it back other than harmlessly. */
  predicate Indifferent(s: System, ph: Phases, sent: Option<Request>) {
    sent.Some? ==>
      && !sent.value.WriteRequest?
      && (sent.value.FailRequest? && !sent.value.uncertain ==> Spare(s, ph, sent.value.job, sent.value.worker))
  }

  /** Harmless hand-backs stay harmless. */
  ghost predicate SparesStay(s: System, t: System, ph: Phases, ph': Phases) {
    forall j, worker :: Spare(s, ph, j, worker) ==> Spare(t, ph', j, worker)
  }

  lemma MovesSpareNothing(s: System, t: System, ph: Phases, ph': Phases)
    requires t.jobs == s.jobs && ph'.of.Keys == ph.of.Keys && ph'.loose == ph.loose
    requires forall j | j in ph.of && (ph.of[j] == Idle || ph.of[j] == Spent) :: ph'.of[j] == ph.of[j]
    ensures SparesStay(s, t, ph, ph')
  {
  }

  /** A step that neither carries nor moves the right to write. */
  lemma PlainMoveKeeps(s: System, t: System, ph: Phases, a: AgentId, k: RunId, pc: Option<Pc>, sent: Option<Request>)
    requires Fits(s, ph) && Moved(s, t, a, k, pc, sent) && Indifferent(s, ph, sent)
    requires pc.Some? ==> RunFits(t, ph, a, k, pc.value)
    ensures Sound(t, ph.loose)
  {
    hide WritesFit, RequestsFit, AnswersFit, OpenFits, RunsFit, RunFits, SparesStay;
    MovesSpareNothing(s, t, ph, ph);
    WritesKeep(s, t, ph, ph);
    assert JobsFit(t, ph);
    RequestsKeep(s, t, ph, ph, sent);
    ClaimsKeep(s, t);
    RunsKeep(s, t, ph, ph, a, k, pc, sent);
    assert Fits(t, ph);
  }

  /** A step that loses the right to write a job it held. */
  lemma DropKeeps(s: System, t: System, ph: Phases, a: AgentId, k: RunId, pc: Option<Pc>, sent: Option<Request>, j: JobId)
    requires Fits(s, ph) && Moved(s, t, a, k, pc, sent) && Indifferent(s, ph, sent)
    requires EmptyHanded(s, pc)
    requires j in ph.of && ph.of[j] == Held(a, k)
    ensures Sound(t, ph.loose)
  {
    hide WritesFit, RequestsFit, AnswersFit, OpenFits, RunsFit, RunFits, EmptyHanded, SparesStay;
    var ph' := Put(ph, j, Spent);
    MovesSpareNothing(s, t, ph, ph');
    WritesKeep(s, t, ph, ph');
    assert JobsFit(t, ph');
    RequestsKeep(s, t, ph, ph', sent);
    ClaimsKeep(s, t);
    if pc.Some? {
      EmptyHandedFits(s, t, ph', a, k, pc.value);
    }
    RunsKeep(s, t, ph, ph', a, k, pc, sent);
    assert Fits(t, ph');
  }

  /** A step after which the run has nothing to write: what it held before, if anything, is lost. */
  lemma EmptyHandedKeeps(s: System, t: System, ph: Phases, a: AgentId, k: RunId, was: Pc, pc: Option<Pc>,
                         sent: Option<Request>)
    requires Fits(s, ph) && Moved(s, t, a, k, pc, sent) && Indifferent(s, ph, sent)
    requires EmptyHanded(s, pc)
    requires RunFits(s, ph, a, k, was)
    ensures Sound(t, ph.loose)
  {
    if (was.Rechecking? || was.EnteringSend?) && was.item.id in ph.of && ph.of[was.item.id] == Held(a, k) {
      DropKeeps(s, t, ph, a, k, pc, sent, was.item.id);
    } else {
      if pc.Some? {
        EmptyHandedFits(s, t, ph, a, k, pc.value);
      }
      PlainMoveKeeps(s, t, ph, a, k, pc, sent);
    }
  }

  lemma WritesKeep(s: System, t: System, ph: Phases, ph': Phases)
    requires WritesFit(s, ph) && t.applied == s.applied && ph'.of.Keys == ph.of.Keys
    requires forall j | j in ph.of && ph'.of[j] != ph.of[j] :: Applied(s, j) == 0 || (!ph.of[j].Settled? && !ph.of[j].Spent?)
    ensures WritesFit(t, ph')
  {
    forall j
      ensures Applied(t, j) == Applied(s, j)
    {
    }
  }

  /** Requests keep fitting when the phases that change belong to no request and the new one fits. */
  lemma RequestsKeep(s: System, t: System, ph: Phases, ph': Phases, sent: Option<Request>)
    requires RequestsFit(s, ph) && ph'.of.Keys == ph.of.Keys && SparesStay(s, t, ph, ph')
    requires if sent.None? then t.requests == s.requests && t.nextRequest == s.nextRequest
             else t.requests == s.requests[s.nextRequest := sent.value] && t.nextRequest == s.nextRequest + 1
    requires forall j | j in ph.of && ph'.of[j] != ph.of[j] ::
               && !ph.of[j].InFlight? && !ph.of[j].GivingBack? && !ph'.of[j].Settled?
               && (ph'.of[j].InFlight? ==> ph'.of[j].request == s.nextRequest && sent == Some(WriteRequest(j)))
    requires sent.Some? && sent.value.WriteRequest? ==>
               var j := sent.value.job; j in ph'.of && ph'.of[j].InFlight? && ph'.of[j].request == s.nextRequest
    requires sent.Some? && sent.value.FailRequest? && !sent.value.uncertain ==>
               HandBackFits(t, ph', s.nextRequest, sent.value.job, sent.value.worker)
    ensures RequestsFit(t, ph')
  {
  }

  lemma ClaimsKeep(s: System, t: System)
    requires AnswersFit(s) && OpenFits(s) && t.answers == s.answers && t.open == s.open
    requires s.nextRequest <= t.nextRequest && (forall id | id in t.requests && id !in s.requests :: id == s.nextRequest)
    ensures AnswersFit(t) && OpenFits(t)
  {
  }

  /** A run that did not move keeps fitting when a phase changes that is not its own. */
  lemma OtherRunKeeps(s: System, t: System, ph: Phases, ph': Phases, a: AgentId, k: RunId, pc: Pc)
    requires RunFits(s, ph, a, k, pc) && t.installs == s.installs && t.answers == s.answers && t.applied == s.applied
    requires (Stale(s, a, k) ==> Stale(t, a, k)) && s.nextRequest <= t.nextRequest
    requires forall id | id in t.requests && id !in s.requests :: s.nextRequest <= id
    requires ph'.of.Keys == ph.of.Keys && SparesStay(s, t, ph, ph')
    requires forall j | j in ph.of && ph'.of[j] != ph.of[j] ::
               (ph.of[j].Offered? && ph.of[j].request !in s.answers)
               || (!ph.of[j].Offered? && ph.of[j] != Held(a, k)
                   && (ph.of[j].Settled? || ph.of[j].InFlight? ==> ph.of[j].agent != a || ph.of[j].run != k))
    ensures RunFits(t, ph', a, k, pc)
  {
    hide ExplicitRefusal;
  }

  /** Runs other than the one that moved keep fitting when only a phase that is not theirs changes. */
  lemma RunsKeep(s: System, t: System, ph: Phases, ph': Phases, a: AgentId, k: RunId, pc: Option<Pc>, sent: Option<Request>)
    requires RunsFit(s, ph) && Moved(s, t, a, k, pc, sent)
    requires ph'.of.Keys == ph.of.Keys && SparesStay(s, t, ph, ph')
    requires forall j | j in ph.of && ph'.of[j] != ph.of[j] ::
               (ph.of[j].Offered? && ph.of[j].request !in s.answers) || ph.of[j] == Held(a, k)
               || ((ph.of[j].Settled? || ph.of[j].InFlight?) && ph.of[j].agent == a && ph.of[j].run == k)
    requires k in t.agents[a].runs ==> RunFits(t, ph', a, k, t.agents[a].runs[k].pc)
    ensures RunsFit(t, ph')
  {
    hide RunFits, SparesStay;
    forall a', k' | a' in t.agents && k' in t.agents[a'].runs
      ensures RunFits(t, ph', a', k', t.agents[a'].runs[k'].pc)
    {
      if a' != a || k' != k {
        assert t.agents[a'].runs[k'] == s.agents[a'].runs[k'];
        OtherRunKeeps(s, t, ph, ph', a', k', s.agents[a'].runs[k'].pc);
      }
    }
  }

  /** The run takes the job out of the answer to its claim. */
  lemma TakeKeeps(s: System, t: System, ph: Phases, a: AgentId, k: RunId, item: Item)
    requires Fits(s, ph) && Moved(s, t, a, k, Some(Rechecking(item)), None)
    requires item.id in ph.of && ph.of[item.id].Offered? && ph.of[item.id].request !in s.answers
    ensures Sound(t, ph.loose)
  {
    hide WritesFit, RequestsFit, AnswersFit, OpenFits, RunsFit;
    var ph' := Put(ph, item.id, Held(a, k));
    MovesSpareNothing(s, t, ph, ph');
    WritesKeep(s, t, ph, ph');
    RequestsKeep(s, t, ph, ph', None);
    assert JobsFit(t, ph');
    ClaimsKeep(s, t);
    RunsKeep(s, t, ph, ph', a, k, Some(Rechecking(item)), None);
    assert Fits(t, ph');
  }

  lemma EnterKeeps(s: System, t: System, ph: Phases, a: AgentId, k: RunId, item: Item)
    requires Fits(s, ph) && Moved(s, t, a, k, Some(EnteringSend(item)), None)
    requires item.id in ph.of && ph.of[item.id] == Held(a, k)
    ensures Sound(t, ph.loose)
  {
    PlainMoveKeeps(s, t, ph, a, k, Some(EnteringSend(item)), None);
  }

  lemma WriteKeeps(s: System, t: System, ph: Phases, a: AgentId, k: RunId, item: Item)
    requires Fits(s, ph) && Moved(s, t, a, k, Some(Writing(item, s.nextRequest)), Some(WriteRequest(item.id)))
    requires item.id in ph.of && ph.of[item.id] == Held(a, k)
    ensures Sound(t, ph.loose)
  {
    hide WritesFit, RequestsFit, OpenFits, RunsFit;
    var ph' := Put(ph, item.id, InFlight(s.nextRequest, a, k));
    MovesSpareNothing(s, t, ph, ph');
    WritesKeep(s, t, ph, ph');
    assert JobsFit(t, ph');
    RequestsKeep(s, t, ph, ph', Some(WriteRequest(item.id)));
    ClaimsKeep(s, t);
    RunsKeep(s, t, ph, ph', a, k, Some(Writing(item, s.nextRequest)), Some(WriteRequest(item.id)));
    assert Fits(t, ph');
  }

  lemma GiveBackKeeps(s: System, t: System, ph: Phases, a: AgentId, k: RunId, pc: Pc, j: JobId, worker: WorkerId)
    requires Fits(s, ph) && Moved(s, t, a, k, Some(pc), Some(FailRequest(j, worker, false))) && CarriesNothing(pc)
    requires j in ph.of && (ph.of[j] == Held(a, k) || (ph.of[j].Settled? && ph.of[j].agent == a && ph.of[j].run == k)) && Applied(s, j) == 0
    ensures Sound(t, ph.loose)
  {
    hide WritesFit, RequestsFit, AnswersFit, OpenFits, RunsFit;
    var ph' := Put(ph, j, GivingBack(s.nextRequest));
    MovesSpareNothing(s, t, ph, ph');
    WritesKeep(s, t, ph, ph');
    assert JobsFit(t, ph');
    RequestsKeep(s, t, ph, ph', Some(FailRequest(j, worker, false)));
    ClaimsKeep(s, t);
    RunsKeep(s, t, ph, ph', a, k, Some(pc), Some(FailRequest(j, worker, false)));
    assert Fits(t, ph');
  }

  /** What an input must come with: the offer it consumes, or the refusal it reports. */
  ghost predicate InputFits(s: System, ph: Phases, a: AgentId, k: RunId, pc: Pc, input: Input) {
    && (pc.Claiming? && input.Granted? && input.job == pc.item.id ==>
          || (input.job in ph.of && ph.of[input.job].Offered? && ph.of[input.job].request !in s.answers)
          || (Stale(s, a, k) && SpareRun(s, ph, a, input.job)))
    && (pc.Writing? && input.WriteSettled? && input.outcome.Rejected? && !input.outcome.uncertain ==>
          || (pc.item.id in ph.of && ph.of[pc.item.id] == Settled(pc.request, a, k) && Applied(s, pc.item.id) == 0)
          || SpareRun(s, ph, a, pc.item.id))
  }

  /** Where a run waits after a move, if it is still there. */
  function PcAfter(r: Run, move: Move): Option<Pc> {
    match move
    case Stay => Some(r.pc)
    case End => None
    case Hold(_, kind) => Some(Saving(kind))
    case Proceed(r', _) => Some(r'.pc)
  }

  lemma CarryShape(a: Agent, k: RunId, move: Move)
    requires k in a.runs && (move.Hold? || move.Proceed? ==> move.run.revision == a.runs[k].revision)
    ensures var b := Carry(a, k, move);
            && b.revision == a.revision
            && (forall k' | k' in b.runs && k' != k :: k' in a.runs && b.runs[k'] == a.runs[k'])
            && (k in b.runs ==> PcAfter(a.runs[k], move) == Some(b.runs[k].pc) && b.runs[k].revision == a.runs[k].revision)
            && (PcAfter(a.runs[k], move).Some? ==> k in b.runs)
  {
  }

  lemma SettleMoves(s: System, a: AgentId, k: RunId, input: Input)
    requires a in s.agents && a in s.installs && k in s.agents[a].runs
    ensures var r := s.agents[a].runs[k];
            var d := Decide(r, s.agents[a].revision, s.agents[a].store, input, s.nextRequest);
            Moved(s, AgentStep(s, a, Settles(k, input)), a, k, PcAfter(r, d.move), RequestOf(d.effect, s.installs[a]))
  {
    hide Decide, Carry, PcAfter, RequestOf;
    var r := s.agents[a].runs[k];
    DecideKeepsRevision(r, s.agents[a].revision, s.agents[a].store, input, s.nextRequest);
    CarryShape(s.agents[a], k, Decide(r, s.agents[a].revision, s.agents[a].store, input, s.nextRequest).move);
  }

  lemma TakenOrSpareKeeps(s: System, t: System, ph: Phases, a: AgentId, k: RunId, item: Item)
    requires Fits(s, ph) && Moved(s, t, a, k, Some(Rechecking(item)), None) && k in t.agents[a].runs
    requires || (item.id in ph.of && ph.of[item.id].Offered? && ph.of[item.id].request !in s.answers)
             || (Stale(s, a, k) && SpareRun(s, ph, a, item.id))
    ensures Sound(t, ph.loose)
  {
    if item.id in ph.of && ph.of[item.id].Offered? && ph.of[item.id].request !in s.answers {
      TakeKeeps(s, t, ph, a, k, item);
    } else {
      assert RunFits(t, ph, a, k, Rechecking(item));
      PlainMoveKeeps(s, t, ph, a, k, Some(Rechecking(item)), None);
    }
  }

  lemma HandBackKeeps(s: System, t: System, ph: Phases, a: AgentId, k: RunId, was: Pc, pc: Pc, j: JobId)
    requires Fits(s, ph) && a in s.installs && RunFits(s, ph, a, k, was)
    requires Moved(s, t, a, k, Some(pc), Some(FailRequest(j, s.installs[a], false))) && CarriesNothing(pc)
    requires (was.Rechecking? || was.EnteringSend? || was.Writing?) && was.item.id == j
    requires was.Writing? ==>
               || (j in ph.of && ph.of[j] == Settled(was.request, a, k) && Applied(s, j) == 0)
               || SpareRun(s, ph, a, j)
    ensures Sound(t, ph.loose)
  {
    if SpareRun(s, ph, a, j) {
      EmptyHandedKeeps(s, t, ph, a, k, was, Some(pc), Some(FailRequest(j, s.installs[a], false)));
    } else {
      GiveBackKeeps(s, t, ph, a, k, pc, j, s.installs[a]);
    }
  }

  lemma ProceedKeeps(s: System, t: System, ph: Phases, a: AgentId, k: RunId, r: Run, r': Run, input: Input, d: Decision)
    requires Fits(s, ph) && a in s.agents && a in s.installs && k in s.agents[a].runs && s.agents[a].runs[k] == r
    requires RunFits(s, ph, a, k, r.pc) && InputFits(s, ph, a, k, r.pc, input)
    requires d.move.Proceed? && d.move.run == r' && Shaped(r, s.agents[a].revision, input, d, s.nextRequest)
    requires Moved(s, t, a, k, Some(r'.pc), RequestOf(d.effect, s.installs[a]))
    ensures Sound(t, ph.loose)
  {
    hide Fits;
    if r'.pc.Rechecking? {
      TakenOrSpareKeeps(s, t, ph, a, k, r'.pc.item);
    } else if r'.pc.EnteringSend? {
      EnterKeeps(s, t, ph, a, k, r'.pc.item);
    } else if r'.pc.Writing? {
      WriteKeeps(s, t, ph, a, k, r'.pc.item);
    } else if d.effect.AskFail? && !d.effect.uncertain {
      HandBackKeeps(s, t, ph, a, k, r.pc, r'.pc, d.effect.job);
    } else {
      EmptyHandedKeeps(s, t, ph, a, k, r.pc, Some(r'.pc), RequestOf(d.effect, s.installs[a]));
    }
  }

  lemma StayKeeps(s: System, t: System, ph: Phases, a: AgentId, k: RunId, r: Run)
    requires Fits(s, ph) && a in s.agents && k in s.agents[a].runs && s.agents[a].runs[k] == r
    requires Moved(s, t, a, k, Some(r.pc), None)
    ensures Sound(t, ph.loose)
  {
    assert RunFits(s, ph, a, k, r.pc);
    SameRun(s, t, ph, a, k, r.pc);
    hide RunFits;
    PlainMoveKeeps(s, t, ph, a, k, Some(r.pc), None);
  }

  lemma SameRun(s: System, t: System, ph: Phases, a: AgentId, k: RunId, pc: Pc)
    requires RunFits(s, ph, a, k, pc) && Moved(s, t, a, k, Some(pc), None)
    ensures RunFits(t, ph, a, k, pc)
  {
    hide ExplicitRefusal;
  }

  lemma DecisionKeeps(s: System, t: System, ph: Phases, a: AgentId, k: RunId, input: Input, d: Decision)
    requires Fits(s, ph) && a in s.agents && a in s.installs && k in s.agents[a].runs
    requires InputFits(s, ph, a, k, s.agents[a].runs[k].pc, input)
    requires Shaped(s.agents[a].runs[k], s.agents[a].revision, input, d, s.nextRequest)
    requires Moved(s, t, a, k, PcAfter(s.agents[a].runs[k], d.move), RequestOf(d.effect, s.installs[a]))
    ensures Sound(t, ph.loose)
  {
    var r := s.agents[a].runs[k];
    var sent := RequestOf(d.effect, s.installs[a]);
    assert RunFits(s, ph, a, k, r.pc);
    hide RunFits, RunsFit, Moved, RequestOf;
    match d.move
    case Stay => StayKeeps(s, t, ph, a, k, r);
    case End => EmptyHandedKeeps(s, t, ph, a, k, r.pc, None, sent);
    case Hold(_, kind) => EmptyHandedKeeps(s, t, ph, a, k, r.pc, Some(Saving(kind)), sent);
    case Proceed(r', _) => ProceedKeeps(s, t, ph, a, k, r, r', input, d);
  }

  lemma SettleKeeps(s: System, ph: Phases, a: AgentId, k: RunId, input: Input)
    requires Fits(s, ph) && a in s.agents && a in s.installs && k in s.agents[a].runs
    requires InputFits(s, ph, a, k, s.agents[a].runs[k].pc, input)
    ensures Sound(AgentStep(s, a, Settles(k, input)), ph.loose)
  {
    var agent := s.agents[a];
    var d := Decide(agent.runs[k], agent.revision, agent.store, input, s.nextRequest);
    DecideShape(agent.runs[k], agent.revision, agent.store, input, s.nextRequest);
    SettleMoves(s, a, k, input);
    DecisionKeeps(s, AgentStep(s, a, Settles(k, input)), ph, a, k, input, d);
  }

  // ---------- the other steps ----------

  lemma NothingFits(s: System, ph: Phases, a: AgentId, k: RunId, pc: Pc)
    requires CarriesNothing(pc)
    ensures RunFits(s, ph, a, k, pc)
  {
  }

  /** An agent whose runs keep their rights, or lose them with the process. */
  lemma AgentKeeps(s: System, ph: Phases, a: AgentId, b: Agent)
    requires Fits(s, ph) && a in s.agents
    requires forall k | k in b.runs ::
               CarriesNothing(b.runs[k].pc) || (k in s.agents[a].runs && s.agents[a].runs[k] == b.runs[k] && s.agents[a].revision <= b.revision)
    ensures Sound(s.(agents := s.agents[a := b]), ph.loose)
  {
    hide RunFits, SparesStay, WritesFit, RequestsFit, CarriesNothing;
    var t := s.(agents := s.agents[a := b]);
    MovesSpareNothing(s, t, ph, ph);
    forall a', k' | a' in t.agents && k' in t.agents[a'].runs
      ensures RunFits(t, ph, a', k', t.agents[a'].runs[k'].pc)
    {
      var pc := t.agents[a'].runs[k'].pc;
      if CarriesNothing(pc) {
        NothingFits(t, ph, a', k', pc);
      } else {
        assert a' in s.agents && k' in s.agents[a'].runs && s.agents[a'].runs[k'].pc == pc;
        OtherRunKeeps(s, t, ph, ph, a', k', pc);
      }
    }
    SameWrites(s, t, ph);
    RequestsKeep(s, t, ph, ph, None);
    assert JobsFit(t, ph) && AnswersFit(t) && OpenFits(t);
    assert Fits(t, ph);
  }

  lemma LocalKeeps(s: System, ph: Phases, a: AgentId, event: Event)
    requires Fits(s, ph) && Enabled(s, Local(a, event))
    ensures Sound(AgentStep(s, a, event), ph.loose)
  {
    if event.Settles? && event.run in s.agents[a].runs {
      SettleKeeps(s, ph, a, event.run, event.input);
    } else {
      AgentKeeps(s, ph, a, After(s.agents[a], event, s.nextRequest));
    }
  }

  lemma TakenAnswerKeeps(s: System, ph: Phases, id: RequestId)
    requires Fits(s, ph)
    ensures Fits(s.(answers := s.answers - {id}), ph)
  {
    var t := s.(answers := s.answers - {id});
    forall a, k | a in t.agents && k in t.agents[a].runs
      ensures RunFits(t, ph, a, k, t.agents[a].runs[k].pc)
    {
      assert RunFits(s, ph, a, k, s.agents[a].runs[k].pc);
    }
  }

  /** A delivered offer is the only one, and a delivered refusal is of a write that was not applied. */
  lemma DeliveredInputFits(s: System, ph: Phases, a: AgentId, k: RunId)
    requires Fits(s, ph) && HasAnswer(s, a, k)
    ensures var pc := s.agents[a].runs[k].pc;
            var id := Awaited(pc).value;
            InputFits(s.(answers := s.answers - {id}), ph, a, k, pc, AnswerInput(s.answers[id]))
  {
    var pc := s.agents[a].runs[k].pc;
    var answer := s.answers[Awaited(pc).value];
    assert RunFits(s, ph, a, k, pc);
    if answer.AuthorityAnswer? {
      DefiniteRejectionIsExplicitRefusal(answer.reply);
    }
  }

  lemma DeliverKeeps(s: System, ph: Phases, a: AgentId, k: RunId)
    requires Fits(s, ph) && HasAnswer(s, a, k)
    ensures Sound(Delivered(s, a, k), ph.loose)
  {
    var id := Awaited(s.agents[a].runs[k].pc).value;
    TakenAnswerKeeps(s, ph, id);
    DeliveredInputFits(s, ph, a, k);
    SettleKeeps(s.(answers := s.answers - {id}), ph, a, k, AnswerInput(s.answers[id]));
  }

  lemma SameWrites(s: System, t: System, ph: Phases)
    requires WritesFit(s, ph) && t.applied == s.applied
    ensures WritesFit(t, ph)
  {
    WritesKeep(s, t, ph, ph);
  }

  lemma SameRuns(s: System, t: System, ph: Phases)
    requires RunsFit(s, ph) && t.agents == s.agents && t.answers == s.answers && t.applied == s.applied
    requires t.requests.Keys <= s.requests.Keys && t.nextRequest == s.nextRequest
    requires t.installs == s.installs && SparesStay(s, t, ph, ph)
    ensures RunsFit(t, ph)
  {
    hide RunFits, SparesStay;
    forall a', k' | a' in t.agents && k' in t.agents[a'].runs
      ensures RunFits(t, ph, a', k', t.agents[a'].runs[k'].pc)
    {
      OtherRunKeeps(s, t, ph, ph, a', k', s.agents[a'].runs[k'].pc);
    }
  }

  /** Whoever waits for a claim of the job under this name is offered it there, or can only hand it back without harm. */
  ghost predicate OnlyOffered(s: System, ph: Phases, id: RequestId, j: JobId) {
    forall a, k | a in s.agents && k in s.agents[a].runs && Asks(s.agents[a].runs[k].pc, id, j) ::
      (j in ph.of && ph.of[j] == Offered(id)) || (Stale(s, a, k) && SpareRun(s, ph, a, j))
  }

  predicate Asks(pc: Pc, id: RequestId, j: JobId) {
    pc.Claiming? && pc.request == id && pc.item.id == j
  }

  /** Handling a request, or an open claim, and answering it moves no right. */
  lemma AnsweredKeeps(s: System, ph: Phases, id: RequestId, answer: Answer)
    requires Fits(s, ph) && (id in s.requests || id in s.open)
    requires !answer.AuthorityAnswer? && (answer.GrantedAnswer? ==> OnlyOffered(s, ph, id, answer.job))
    ensures Fits(Answered(s, id, answer), ph)
  {
    AnsweredRuns(s, ph, id, answer);
    AnsweredRequests(s, ph, id, answer);
    hide RequestsFit, RunsFit, OnlyOffered;
    var t := Answered(s, id, answer);
    SameWrites(s, t, ph);
    hide WritesFit;
    assert JobsFit(t, ph) && AnswersFit(t) && OpenFits(t);
  }

  lemma AnsweredRequests(s: System, ph: Phases, id: RequestId, answer: Answer)
    requires RequestsFit(s, ph)
    ensures RequestsFit(Answered(s, id, answer), ph)
  {
  }

  lemma AnsweredRuns(s: System, ph: Phases, id: RequestId, answer: Answer)
    requires RunsFit(s, ph)
    requires !answer.AuthorityAnswer? && (answer.GrantedAnswer? ==> OnlyOffered(s, ph, id, answer.job))
    ensures RunsFit(Answered(s, id, answer), ph)
  {
    var t := Answered(s, id, answer);
    forall a, k | a in t.agents && k in t.agents[a].runs
      ensures RunFits(t, ph, a, k, t.agents[a].runs[k].pc)
    {
      assert RunFits(s, ph, a, k, s.agents[a].runs[k].pc);
    }
  }

  /** Hand-backs that do no harm before a step do none after it. */
  ghost predicate StaysHarmless(before: Job, wasIdle: bool, job: Job, idle: bool) {
    forall worker :: HarmlessFor(before, wasIdle, worker) ==> HarmlessFor(job, idle, worker)
  }

  /** The step hands the job to nobody else, or with the last attempt. */
  predicate GainsNoOwner(before: Job, job: Job) {
    job.status != InProgress || Exhausted(job) || (before.status == InProgress && before.worker == job.worker)
  }

  lemma JobSparesStay(s: System, ph: Phases, ph': Phases, j: JobId, job: Job)
    requires j in s.jobs && j in ph.of && j in ph'.of && ph' == Put(ph, j, ph'.of[j])
    requires ph.loose && ph.of[j] == Spent ==> ph'.of[j] == Spent && GainsNoOwner(s.jobs[j], job)
    requires StaysHarmless(s.jobs[j], ph.of[j] == Idle, job, ph'.of[j] == Idle)
    ensures SparesStay(s, s.(jobs := s.jobs[j := job]), ph, ph')
  {
  }

  /** A job may change under a handler, into one that claims can take only if nobody can write it. */
  lemma TiedJobKeeps(s: System, ph: Phases, j: JobId, job: Job)
    requires Fits(s, ph) && j in s.jobs && (Free(job) && !(ph.loose && Exhausted(job)) ==> ph.of[j] == Idle)
    requires StaysHarmless(s.jobs[j], ph.of[j] == Idle, job, ph.of[j] == Idle)
    requires ph.loose && ph.of[j] == Spent ==> GainsNoOwner(s.jobs[j], job)
    ensures Fits(s.(jobs := s.jobs[j := job]), ph)
  {
    var t := s.(jobs := s.jobs[j := job]);
    JobSparesStay(s, ph, ph, j, job);
    SameRuns(s, t, ph);
    SameWrites(s, t, ph);
    RequestsKeep(s, t, ph, ph, None);
    hide WritesFit, RunsFit, RequestsFit;
    assert JobsFit(t, ph);
    assert AnswersFit(t) && OpenFits(t);
  }

  lemma OpenClaimKeeps(s: System, ph: Phases, id: RequestId)
    requires Fits(s, ph) && Enabled(s, OpenClaimHandler(id))
    ensures Sound(Opened(s, id), ph.loose)
  {
    var c := s.requests[id];
    if c.job !in s.jobs {
      AnsweredKeeps(s, ph, id, Error(404));
    } else if Expired(s.jobs[c.job], s.now) {
      TiedJobKeeps(s, ph, c.job, Park(s.jobs[c.job]));
      AnsweredKeeps(s.(jobs := s.jobs[c.job := Park(s.jobs[c.job])]), ph, id, Error(409));
    } else {
      OpenedFits(s, Opened(s, id), ph, id);
    }
  }

  lemma OpenedFits(s: System, t: System, ph: Phases, id: RequestId)
    requires Fits(s, ph) && id in s.requests && s.requests[id].ClaimRequest?
    requires var c := s.requests[id];
             t == s.(requests := s.requests - {id}, open := s.open[id := OpenClaim(c.job, c.worker, s.now)])
    ensures Fits(t, ph)
  {
    hide WritesFit, RunsFit, SparesStay, RequestsFit;
    MovesSpareNothing(s, t, ph, ph);
    SameRuns(s, t, ph);
    SameWrites(s, t, ph);
    FewerRequests(s, t, ph, id);
    assert id < s.nextRequest by { RequestBound(s, ph, id); }
    assert JobsFit(t, ph) && AnswersFit(t) && OpenFits(t);
  }

  lemma RequestBound(s: System, ph: Phases, id: RequestId)
    requires RequestsFit(s, ph) && id in s.requests
    ensures id < s.nextRequest
  {
  }

  lemma SameClaims(s: System, t: System)
    requires AnswersFit(s) && OpenFits(s)
    requires t.answers == s.answers && t.open == s.open && t.requests == s.requests && t.nextRequest == s.nextRequest
    ensures AnswersFit(t) && OpenFits(t)
  {
  }

  /** A handler that changes one job, and the phase of that job away from or to no run's business. */
  lemma RunsKeepJob(s: System, t: System, ph: Phases, ph': Phases, j: JobId)
    requires RunsFit(s, ph) && t.agents == s.agents && t.answers == s.answers && t.applied == s.applied
    requires t.requests == s.requests && t.nextRequest == s.nextRequest
    requires j in ph.of ==> !ph.of[j].Offered? && !ph.of[j].Held? && !ph.of[j].InFlight? && !ph.of[j].Settled?
    requires ph.of.Keys <= ph'.of.Keys && forall i | i in ph.of && i != j :: ph'.of[i] == ph.of[i]
    requires t.installs == s.installs && SparesStay(s, t, ph, ph')
    ensures RunsFit(t, ph')
  {
    forall a', k' | a' in t.agents && k' in t.agents[a'].runs
      ensures RunFits(t, ph', a', k', t.agents[a'].runs[k'].pc)
    {
      assert RunFits(s, ph, a', k', s.agents[a'].runs[k'].pc);
    }
  }

  /** A job nobody can write goes into the answer of an open claim. */
  lemma OfferKeeps(s: System, ph: Phases, id: RequestId, j: JobId, job: Job)
    requires Fits(s, ph) && id in s.open && j in s.jobs && ph.of[j] == Idle && job.status == InProgress
    requires StaysHarmless(s.jobs[j], true, job, false)
    ensures Fits(s.(jobs := s.jobs[j := job]), Put(ph, j, Offered(id)))
  {
    hide WritesFit, RequestsFit, AnswersFit, OpenFits, RunsFit, SparesStay, StaysHarmless;
    var t := s.(jobs := s.jobs[j := job]);
    var ph' := Put(ph, j, Offered(id));
    JobSparesStay(s, ph, ph', j, job);
    RunsKeepJob(s, t, ph, ph', j);
    WritesKeep(s, t, ph, ph');
    RequestsKeep(s, t, ph, ph', None);
    SameClaims(s, t);
    assert JobsFit(t, ph');
  }

  lemma ClaimShape(job: Job, worker: WorkerId, at: int, complete: bool)
    requires !Expired(job, at)
    ensures var result := Claim(job, worker, at, complete);
            && (result.granted ==> job.status == Pending && !Exhausted(job) && result.job.status == InProgress
                                   && StaysHarmless(job, true, result.job, false))
            && (!result.granted ==> result.job == job
                                    || (job.status == Pending && result.job.status == Dead
                                        && job.attempts <= result.job.attempts && result.job.maxAttempts == job.maxAttempts))
  {
  }

  /** The compare-and-set of a claim that takes no job in progress finds only jobs that nobody can write. */
  lemma CommitKeeps(s: System, ph: Phases, id: RequestId, complete: bool)
    requires Fits(s, ph) && id in s.open && !TakesOver(s, CommitClaim(id, complete))
    ensures Sound(Commit(s, id, complete), ph.loose)
  {
    hide WritesFit, RequestsFit, AnswersFit, RunsFit;
    var c := s.open[id];
    if c.job !in s.jobs {
      AnsweredKeeps(s, ph, id, Error(404));
    } else {
      var job := s.jobs[c.job];
      ClaimShape(job, c.worker, c.at, complete);
      var result := Claim(job, c.worker, c.at, complete);
      var status := if result.job != job && !complete then 422 else 409;
      if result.granted {
        OfferKeeps(s, ph, id, c.job, result.job);
        AnsweredKeeps(s.(jobs := s.jobs[c.job := result.job]), Put(ph, c.job, Offered(id)), id, GrantedAnswer(c.job));
      } else {
        if result.job == job {
          assert s.jobs[c.job := job] == s.jobs;
        } else {
          TiedJobKeeps(s, ph, c.job, result.job);
        }
        AnsweredKeeps(s.(jobs := s.jobs[c.job := result.job]), ph, id, Error(status));
      }
    }
  }

  lemma CompleteKeeps(s: System, ph: Phases, id: RequestId)
    requires Fits(s, ph) && Enabled(s, HandleComplete(id))
    ensures Sound(Completed(s, id), ph.loose)
  {
    var c := s.requests[id];
    if c.job !in s.jobs {
      AnsweredKeeps(s, ph, id, Error(404));
    } else {
      var job := s.jobs[c.job];
      if Owns(job, c.worker) {
        TiedJobKeeps(s, ph, c.job, Complete(job, c.worker));
      } else {
        assert s.jobs[c.job := job] == s.jobs;
      }
      AnsweredKeeps(s.(jobs := s.jobs[c.job := Complete(job, c.worker)]), ph, id,
                    OwnerAnswer(job, c.worker));
    }
  }

  /** The request to hand a job back has been handled: nobody is left who could write it. */
  lemma GivenBackKeeps(s: System, ph: Phases, id: RequestId, j: JobId, job: Job)
    requires Fits(s, ph) && j in ph.of && ph.of[j] == GivingBack(id) && id !in s.requests
    requires job.status != InProgress && StaysHarmless(s.jobs[j], false, job, true)
    ensures Sound(s.(jobs := s.jobs[j := job]), ph.loose)
  {
    hide RequestsFit, AnswersFit, OpenFits, WritesFit, RunsFit;
    var t := s.(jobs := s.jobs[j := job]);
    var ph' := Put(ph, j, Idle);
    JobSparesStay(s, ph, ph', j, job);
    SameClaims(s, t);
    GivenBackRequests(s, t, ph, id, j);
    WritesKeep(s, t, ph, ph');
    RunsKeepJob(s, t, ph, ph', j);
    assert JobsFit(t, ph');
    assert Fits(t, ph');
  }

  lemma GivenBackRequests(s: System, t: System, ph: Phases, id: RequestId, j: JobId)
    requires RequestsFit(s, ph) && j in ph.of && ph.of[j] == GivingBack(id) && id !in s.requests
    requires t.requests == s.requests && t.nextRequest == s.nextRequest && SparesStay(s, t, ph, Put(ph, j, Idle))
    ensures RequestsFit(t, Put(ph, j, Idle))
  {
  }

  lemma FailShape(job: Job, worker: WorkerId, uncertain: bool, permanent: bool, at: int)
    requires Owns(job, worker)
    ensures var failed := Fail(job, worker, !uncertain, uncertain, permanent, at);
            && failed.status != InProgress && (uncertain ==> !Free(failed)) && (Exhausted(failed) <==> Exhausted(job))
            && StaysHarmless(job, false, failed, true)
            && StaysHarmless(job, false, failed, false) && StaysHarmless(job, true, failed, true)
  {
  }

  /** A hand-back that is handled for the job's owner. */
  lemma HandedBackKeeps(s: System, ph: Phases, id: RequestId, failed: Job)
    requires RequestsFit(s, ph) && Fits(s, ph) && id in s.requests
    requires s.requests[id].FailRequest? && !s.requests[id].uncertain
    requires var c := s.requests[id];
             && c.job in s.jobs && Owns(s.jobs[c.job], c.worker)
             && failed.status != InProgress && (Exhausted(failed) <==> Exhausted(s.jobs[c.job]))
             && StaysHarmless(s.jobs[c.job], false, failed, true)
             && StaysHarmless(s.jobs[c.job], false, failed, false) && StaysHarmless(s.jobs[c.job], true, failed, true)
    ensures Sound(Answered(s.(jobs := s.jobs[s.requests[id].job := failed]), id, Ok), ph.loose)
  {
    var c := s.requests[id];
    assert HandBackFits(s, ph, id, c.job, c.worker);
    hide WritesFit, RequestsFit, JobsFit, AnswersFit, OpenFits, RunsFit, StaysHarmless;
    if c.job in ph.of && ph.of[c.job] == GivingBack(id) {
      AnsweredKeeps(s, ph, id, Ok);
      GivenBackKeeps(Answered(s, id, Ok), ph, id, c.job, failed);
    } else {
      TiedJobKeeps(s, ph, c.job, failed);
      AnsweredKeeps(s.(jobs := s.jobs[c.job := failed]), ph, id, Ok);
    }
  }

  lemma FailKeeps(s: System, ph: Phases, id: RequestId, permanent: bool)
    requires Fits(s, ph) && Enabled(s, HandleFail(id, permanent))
    ensures Sound(Failed(s, id, permanent), ph.loose)
  {
    var c := s.requests[id];
    if c.job !in s.jobs {
      AnsweredKeeps(s, ph, id, Error(404));
    } else {
      var job := s.jobs[c.job];
      var failed := Fail(job, c.worker, !c.uncertain, c.uncertain, permanent, s.now);
      if !Owns(job, c.worker) {
        assert s.jobs[c.job := job] == s.jobs;
        AnsweredKeeps(s, ph, id, OwnerAnswer(job, c.worker));
      } else {
        FailShape(job, c.worker, c.uncertain, permanent, s.now);
        hide WritesFit, AnswersFit, OpenFits, RunsFit, RequestsFit, JobsFit, Fail, StaysHarmless;
        if c.uncertain {
          TiedJobKeeps(s, ph, c.job, failed);
          AnsweredKeeps(s.(jobs := s.jobs[c.job := failed]), ph, id, Ok);
        } else {
          HandedBackKeeps(s, ph, id, failed);
        }
      }
    }
  }

  ghost predicate WrittenTo(s: System, t: System, id: RequestId, j: JobId) {
    && id in s.requests && s.requests[id] == WriteRequest(j) && id in t.answers && t.answers[id].AuthorityAnswer?
    && t == s.(requests := s.requests - {id}, open := s.open - {id}, answers := s.answers[id := t.answers[id]], applied := t.applied)
    && (forall i | i != j :: Applied(t, i) == Applied(s, i)) && (IsRefused(t, id) ==> Applied(t, j) == 0)
  }

  lemma WrittenWriter(s: System, t: System, ph: Phases, id: RequestId, j: JobId, a: AgentId, k: RunId, pc: Pc)
    requires RequestsFit(s, ph) && WrittenTo(s, t, id, j) && RunFits(s, ph, a, k, pc) && pc.Writing?
    ensures j in ph.of && ph.of[j].InFlight? && RunFits(t, Put(ph, j, Settled(id, ph.of[j].agent, ph.of[j].run)), a, k, pc)
  {
    hide ExplicitRefusal, Spare;
    MovesSpareNothing(s, t, ph, Put(ph, j, Settled(id, ph.of[j].agent, ph.of[j].run)));
    if pc.item.id != j {
      assert pc.request != id;
    }
  }

  lemma WrittenRun(s: System, t: System, ph: Phases, id: RequestId, j: JobId, a: AgentId, k: RunId, pc: Pc)
    requires RequestsFit(s, ph) && WrittenTo(s, t, id, j) && RunFits(s, ph, a, k, pc)
    ensures j in ph.of && ph.of[j].InFlight? && RunFits(t, Put(ph, j, Settled(id, ph.of[j].agent, ph.of[j].run)), a, k, pc)
  {
    hide ExplicitRefusal, Spare, Moot, OwnWrite;
    MovesSpareNothing(s, t, ph, Put(ph, j, Settled(id, ph.of[j].agent, ph.of[j].run)));
    if pc.Writing? {
      WrittenWriter(s, t, ph, id, j, a, k, pc);
    }
  }

  lemma WriteInFlight(s: System, ph: Phases, id: RequestId, j: JobId)
    requires RequestsFit(s, ph) && WritesFit(s, ph) && id in s.requests && s.requests[id] == WriteRequest(j)
    ensures j in ph.of && ph.of[j].InFlight? && Applied(s, j) == 0
  {
  }

  /** The answer to a write reaches only the run that wrote, and an applied write is not refused. */
  lemma WrittenRuns(s: System, ph: Phases, id: RequestId, applies: bool, reply: Reply)
    requires Fits(s, ph) && Enabled(s, AuthorityHandles(id, applies, reply)) && Honest(applies, reply)
    ensures var j := s.requests[id].job;
            j in ph.of && ph.of[j].InFlight? && RunsFit(Written(s, id, applies, reply), Put(ph, j, Settled(id, ph.of[j].agent, ph.of[j].run)))
  {
    hide RunFits, ExplicitRefusal, AnswersFit, OpenFits;
    var j := s.requests[id].job;
    var t := Written(s, id, applies, reply);
    WriteInFlight(s, ph, id, j);
    var ph' := Put(ph, j, Settled(id, ph.of[j].agent, ph.of[j].run));
    assert WrittenTo(s, t, id, j);
    forall a', k' | a' in t.agents && k' in t.agents[a'].runs
      ensures RunFits(t, ph', a', k', t.agents[a'].runs[k'].pc)
    {
      WrittenRun(s, t, ph, id, j, a', k', s.agents[a'].runs[k'].pc);
    }
  }

  lemma WrittenRequests(s: System, t: System, ph: Phases, id: RequestId, j: JobId)
    requires RequestsFit(s, ph) && id in s.requests && s.requests[id] == WriteRequest(j)
    requires t.requests == s.requests - {id} && t.nextRequest == s.nextRequest && t.jobs == s.jobs
    ensures j in ph.of && ph.of[j].InFlight? && RequestsFit(t, Put(ph, j, Settled(id, ph.of[j].agent, ph.of[j].run)))
  {
  }

  lemma WrittenAnswers(s: System, ph: Phases, id: RequestId, applies: bool, reply: Reply)
    requires Fits(s, ph) && Enabled(s, AuthorityHandles(id, applies, reply)) && Honest(applies, reply)
    ensures var t := Written(s, id, applies, reply); AnswersFit(t) && OpenFits(t)
  {
    hide WritesFit, RunsFit;
    assert id < s.nextRequest;
  }

  lemma WrittenWrites(s: System, t: System, ph: Phases, id: RequestId, j: JobId, applies: bool)
    requires RequestsFit(s, ph) && WritesFit(s, ph) && id in s.requests && s.requests[id] == WriteRequest(j)
    requires t.applied == s.applied[j := Applied(s, j) + if applies then 1 else 0]
    ensures j in ph.of && ph.of[j].InFlight? && WritesFit(t, Put(ph, j, Settled(id, ph.of[j].agent, ph.of[j].run)))
  {
    WriteInFlight(s, ph, id, j);
    hide RequestsFit;
    forall i | i != j
      ensures Applied(t, i) == Applied(s, i)
    {
    }
  }

  lemma AuthorityKeeps(s: System, ph: Phases, id: RequestId, applies: bool, reply: Reply)
    requires Fits(s, ph) && Enabled(s, AuthorityHandles(id, applies, reply)) && Honest(applies, reply)
    ensures Sound(Written(s, id, applies, reply), ph.loose)
  {
    hide RequestsFit, AnswersFit, OpenFits, RunsFit, WritesFit, Honest;
    var j := s.requests[id].job;
    var t := Written(s, id, applies, reply);
    WriteInFlight(s, ph, id, j);
    var ph' := Put(ph, j, Settled(id, ph.of[j].agent, ph.of[j].run));
    WrittenRuns(s, ph, id, applies, reply);
    WrittenRequests(s, t, ph, id, j);
    WrittenAnswers(s, ph, id, applies, reply);
    WrittenWrites(s, t, ph, id, j, applies);
    assert JobsFit(t, ph');
    assert Fits(t, ph');
  }

  lemma EnqueueKeeps(s: System, ph: Phases, j: JobId, job: Job)
    requires Fits(s, ph) && j !in s.jobs && job.status == Pending
    ensures Sound(s.(jobs := s.jobs[j := job]), ph.loose)
  {
    var t := s.(jobs := s.jobs[j := job]);
    var ph' := Put(ph, j, Idle);
    NewJobFits(s, t, ph, ph', j);
    NewJobRequests(s, t, ph, ph', j);
    hide WritesFit, RequestsFit, AnswersFit, OpenFits, RunsFit;
    NewSparesNothing(s, t, ph, ph', j);
    RunsKeepJob(s, t, ph, ph', j);
    assert Fits(t, ph');
  }

  lemma NewSparesNothing(s: System, t: System, ph: Phases, ph': Phases, j: JobId)
    requires j !in s.jobs && j in t.jobs && t == s.(jobs := s.jobs[j := t.jobs[j]]) && ph' == Put(ph, j, Idle)
    ensures SparesStay(s, t, ph, ph')
  {
  }

  lemma NewJobFits(s: System, t: System, ph: Phases, ph': Phases, j: JobId)
    requires Fits(s, ph) && j !in s.jobs && j in t.jobs && t == s.(jobs := s.jobs[j := t.jobs[j]]) && ph' == Put(ph, j, Idle)
    requires t.jobs[j].status == Pending
    ensures JobsFit(t, ph') && WritesFit(t, ph') && OpenFits(t)
  {
    hide RequestsFit, AnswersFit, RunsFit;
  }

  lemma NewJobRequests(s: System, t: System, ph: Phases, ph': Phases, j: JobId)
    requires Fits(s, ph) && j !in s.jobs && j in t.jobs && t == s.(jobs := s.jobs[j := t.jobs[j]]) && ph' == Put(ph, j, Idle)
    ensures RequestsFit(t, ph') && AnswersFit(t)
  {
    hide WritesFit, OpenFits, RunsFit;
  }

  lemma RequeueKeeps(s: System, ph: Phases, j: JobId)
    requires Fits(s, ph) && j in s.jobs
    ensures Sound(s.(jobs := s.jobs[j := Requeue(s.jobs[j])]), ph.loose)
  {
    if s.jobs[j].status == Dead && !s.jobs[j].uncertain {
      TiedJobKeeps(s, ph, j, Requeue(s.jobs[j]));
    } else {
      assert s.jobs[j := s.jobs[j]] == s.jobs;
    }
  }

  lemma TickKeeps(s: System, ph: Phases, elapsed: nat)
    requires Fits(s, ph)
    ensures Fits(Next(s, Tick(elapsed)), ph)
  {
    hide AgentStep, Delivered, Opened, Commit, Completed, Failed, Written;
    var t := Next(s, Tick(elapsed));
    assert t == s.(now := s.now + elapsed);
    hide Next;
    LaterFits(s, t, ph);
  }

  lemma LostKeeps(s: System, ph: Phases, id: RequestId)
    requires Fits(s, ph)
    ensures Fits(Next(s, Lost(id)), ph)
  {
    hide AgentStep, Delivered, Opened, Commit, Completed, Failed, Written;
    var t := Next(s, Lost(id));
    assert t == s.(requests := s.requests - {id}) || t == s;
    hide Next;
    if t != s {
      FewerRequestsFit(s, t, ph, id);
    }
  }

  lemma LaterFits(s: System, t: System, ph: Phases)
    requires Fits(s, ph) && s.now <= t.now && t == s.(now := t.now)
    ensures Fits(t, ph)
  {
    MovesSpareNothing(s, t, ph, ph);
    SameRuns(s, t, ph);
    SameWrites(s, t, ph);
    RequestsKeep(s, t, ph, ph, None);
    hide WritesFit, RunsFit, RequestsFit;
    assert JobsFit(t, ph);
    assert AnswersFit(t) && OpenFits(t);
  }

  lemma FewerRequestsFit(s: System, t: System, ph: Phases, id: RequestId)
    requires Fits(s, ph) && t == s.(requests := s.requests - {id})
    ensures Fits(t, ph)
  {
    MovesSpareNothing(s, t, ph, ph);
    SameRuns(s, t, ph);
    SameWrites(s, t, ph);
    hide WritesFit, RunsFit;
    FewerRequests(s, t, ph, id);
    hide RequestsFit;
    assert JobsFit(t, ph);
    assert AnswersFit(t) && OpenFits(t);
  }

  lemma FewerRequests(s: System, t: System, ph: Phases, id: RequestId)
    requires RequestsFit(s, ph) && t.requests == s.requests - {id} && t.jobs == s.jobs && t.nextRequest == s.nextRequest
    ensures RequestsFit(t, ph)
  {
  }

  lemma BrowserActionKeeps(s: System, ph: Phases, action: Action)
    requires Fits(s, ph) && Enabled(s, action) && (action.Local? || action.Deliver? || action.Dies?)
    ensures Sound(Next(s, action), ph.loose)
  {
    match action
    case Local(a, event) => LocalKeeps(s, ph, a, event);
    case Deliver(a, k) => DeliverKeeps(s, ph, a, k);
    case Dies(a) => AgentKeeps(s, ph, a, Fresh(s.agents[a].store, s.agents[a].alarm));
  }

  lemma HandlerActionKeeps(s: System, ph: Phases, action: Action)
    requires Fits(s, ph) && Enabled(s, action) && Guarded(s, action)
    requires action.OpenClaimHandler? || action.CommitClaim? || action.HandleComplete? || action.HandleFail?
             || action.AuthorityHandles?
    ensures Sound(Next(s, action), ph.loose)
  {
    match action
    case OpenClaimHandler(id) => OpenClaimKeeps(s, ph, id);
    case CommitClaim(id, complete) => CommitKeeps(s, ph, id, complete);
    case HandleComplete(id) => CompleteKeeps(s, ph, id);
    case HandleFail(id, permanent) => FailKeeps(s, ph, id, permanent);
    case AuthorityHandles(id, applies, reply) => AuthorityKeeps(s, ph, id, applies, reply);
  }

  lemma OperatorActionKeeps(s: System, ph: Phases, action: Action)
    requires Fits(s, ph) && Enabled(s, action) && (action.Enqueue? || action.OperatorRequeue?)
    ensures Sound(Next(s, action), ph.loose)
  {
    match action
    case Enqueue(j, maxAttempts) => EnqueueKeeps(s, ph, j, NewJob(maxAttempts));
    case OperatorRequeue(j) => RequeueKeeps(s, ph, j);
  }

  lemma NextKeeps(s: System, loose: bool, action: Action)
    requires Sound(s, loose) && Guarded(s, action)
    ensures Sound(Next(s, action), loose)
  {
    var ph: Phases :| ph.loose == loose && Fits(s, ph);
    if Enabled(s, action) {
      if action.Local? || action.Deliver? || action.Dies? {
        BrowserActionKeeps(s, ph, action);
      } else if action.Tick? {
        TickKeeps(s, ph, action.elapsed);
      } else if action.Lost? {
        LostKeeps(s, ph, action.request);
      } else if action.Enqueue? || action.OperatorRequeue? {
        OperatorActionKeeps(s, ph, action);
      } else {
        HandlerActionKeeps(s, ph, action);
      }
    }
  }

  lemma {:induction false} ExecKeeps(s: System, loose: bool, actions: seq<Action>)
    requires Sound(s, loose) && AlwaysGuarded(s, actions)
    ensures Sound(Exec(s, actions), loose)
    decreases |actions|
  {
    if actions != [] {
      NextKeeps(s, loose, actions[0]);
      ExecKeeps(Next(s, actions[0]), loose, actions[1..]);
    }
  }

  lemma InitialIsSafe(s: System)
    requires Initial(s)
    ensures Safe(s)
  {
    var ph := Phases(map[], false);
    assert Fits(s, ph);
  }

  /** Whatever happens, the authority applies no queued job more than once. */
  lemma AtMostOnce(s: System, actions: seq<Action>, j: JobId)
    requires Initial(s) && AlwaysGuarded(s, actions)
    ensures Applied(Exec(s, actions), j) <= 1
  {
    InitialIsSafe(s);
    ExecKeeps(s, false, actions);
  }

  /**
   A job the authority applied is completed, held by its lease or parked as uncertain: no claim can take
   it now, and neither can one after an operator's retry.
   */
  lemma AppliedIsNeverQueuedAgain(s: System, actions: seq<Action>, j: JobId)
    requires Initial(s) && AlwaysGuarded(s, actions)
    ensures var t := Exec(s, actions);
            Applied(t, j) == 1 ==>
              && j in t.jobs
              && (t.jobs[j].status == Done || t.jobs[j].status == InProgress || (t.jobs[j].status == Dead && t.jobs[j].uncertain))
  {
    InitialIsSafe(s);
    ExecKeeps(s, false, actions);
  }
}
