/**
 Exactly which claims are dangerous. A claim that takes a job over from its holder is safe, whatever follows,
 unless the authority can be brought to apply the job twice; this decides it for every state.
 */
module KbsTakeover {
  import opened EgmTransport
  import opened PoliceAgent
  import opened KbsQueue
  import opened KbsSystem
  import opened KbsSafety
  import opened KbsSane
  import opened KbsGrants
  import opened KbsHandBacks
  import opened KbsDoubles

  // ---------- what may still be done with the job ----------

  predicate RunUnheld(s: System, j: JobId, pc: Pc) {
    match pc
    case Claiming(item, id) => item.id == j ==> !IsOffered(s, item, id)
    case Rechecking(item) => item.id != j
    case EnteringSend(item) => item.id != j
    case Writing(item, id) => item.id == j ==> id < s.nextRequest && id !in s.requests && !IsRefused(s, id)
    case _ => true
  }

  /** Every run has nothing to do with the job, or can only hand it back. */
  ghost predicate OnlyReturns(s: System, j: JobId) {
    forall a, k | a in s.agents && k in s.agents[a].runs :: RunUnheld(s, j, s.agents[a].runs[k].pc) || Returns(s, j, a, k)
  }

  lemma HeldRun(s: System, ph: Phases, j: JobId, a: AgentId, k: RunId)
    requires Fits(s, ph) && !ph.loose && a in s.agents && a in s.installs && k in s.agents[a].runs
    requires !Returns(s, j, a, k) && forall g :: !Alive(s, j, g)
    ensures RunUnheld(s, j, s.agents[a].runs[k].pc)
  {
    var pc := s.agents[a].runs[k].pc;
    assert RunFits(s, ph, a, k, pc);
    match pc
    case Claiming(item, id) => assert !Alive(s, j, Offer(a, k, id));
    case Rechecking(item) => assert !Alive(s, j, Check(a, k));
    case EnteringSend(item) => assert !Alive(s, j, Entry(a, k));
    case Writing(item, id) => assert !Alive(s, j, Wire(id));
    case _ =>
  }

  /** Without a grant that can be used, or was, the job was not applied and can only be handed back. */
  lemma NotEngaged(s: System, ph: Phases, j: JobId)
    requires Fits(s, ph) && !ph.loose && Sane(s) && !Engaged(s, j)
    ensures Applied(s, j) == 0 && OnlyReturns(s, j) && forall id | id in s.requests :: s.requests[id] != WriteRequest(j)
  {
    forall id | id in s.requests
      ensures s.requests[id] != WriteRequest(j)
    {
      assert !Alive(s, j, Wire(id));
    }
    forall a, k | a in s.agents && k in s.agents[a].runs
      ensures RunUnheld(s, j, s.agents[a].runs[k].pc) || Returns(s, j, a, k)
    {
      if !Returns(s, j, a, k) {
        HeldRun(s, ph, j, a, k);
      }
    }
    assert Applied(s, j) == 0;
  }

  // ---------- the states after harmless takeovers ----------

  /** Every hand-back of the job does no harm once the job is in this state. */
  ghost predicate HandBacksHarmless(s: System, j: JobId, job: Job, idle: bool) {
    forall worker | HandsBackAs(s, j, worker) :: HarmlessFor(job, idle, worker)
  }

  function Loosely(ph: Phases, j: JobId, phase: Phase): Phases {
    Phases(ph.of[j := phase], true)
  }

  lemma LooseRun(s: System, t: System, ph: Phases, ph': Phases, j: JobId, a: AgentId, k: RunId)
    requires Fits(s, ph) && !ph.loose && RunsSane(s) && a in s.agents && k in s.agents[a].runs
    requires j in s.jobs && j in t.jobs && t == s.(jobs := s.jobs[j := t.jobs[j]])
    requires j in ph'.of && ph' == Loosely(ph, j, ph'.of[j]) && HandBacksHarmless(s, j, t.jobs[j], ph'.of[j] == Idle)
    requires RunUnheld(s, j, s.agents[a].runs[k].pc) || Returns(s, j, a, k)
    ensures RunFits(t, ph', a, k, t.agents[a].runs[k].pc)
  {
    hide ExplicitRefusal;
    var pc := s.agents[a].runs[k].pc;
    assert RunFits(s, ph, a, k, pc) && RunSane(s, a, s.agents[a].runs[k]);
    if Returns(s, j, a, k) {
      assert Hands(s, j, s.installs[a], Running(a, k));
    }
  }

  lemma LooseRequests(s: System, t: System, ph: Phases, ph': Phases, j: JobId)
    requires RequestsFit(s, ph) && !ph.loose && j in s.jobs && j in t.jobs && t == s.(jobs := s.jobs[j := t.jobs[j]])
    requires j in ph.of && j in ph'.of && ph' == Loosely(ph, j, ph'.of[j]) && (ph'.of[j] == Idle || ph'.of[j].Offered?)
    requires HandBacksHarmless(s, j, t.jobs[j], ph'.of[j] == Idle)
    requires forall id | id in s.requests :: s.requests[id] != WriteRequest(j)
    ensures RequestsFit(t, ph')
  {
    forall id | id in t.requests && t.requests[id].FailRequest? && !t.requests[id].uncertain
      ensures HandBackFits(t, ph', id, t.requests[id].job, t.requests[id].worker)
    {
      assert HandBackFits(s, ph, id, s.requests[id].job, s.requests[id].worker);
      if t.requests[id].job == j {
        assert Hands(s, j, t.requests[id].worker, Sent(id));
      }
    }
  }

  /** A job that was not applied and can only be handed back, harmlessly, may be offered or left to the operator. */
  lemma LooseFits(s: System, ph: Phases, j: JobId, job: Job, phase: Phase)
    requires Fits(s, ph) && !ph.loose && Sane(s) && !Engaged(s, j) && j in s.jobs
    requires phase == Idle || phase.Offered?
    requires HandBacksHarmless(s, j, job, phase == Idle) && (Free(job) && !Exhausted(job) ==> phase == Idle)
    ensures Fits(s.(jobs := s.jobs[j := job]), Loosely(ph, j, phase))
  {
    hide RunFits, RequestsFit, HandBacksHarmless, Engaged, JobsSane, RequestsSane, RunsSane;
    var t := s.(jobs := s.jobs[j := job]);
    var ph' := Loosely(ph, j, phase);
    NotEngaged(s, ph, j);
    LooseRequests(s, t, ph, ph', j);
    forall a, k | a in t.agents && k in t.agents[a].runs
      ensures RunFits(t, ph', a, k, t.agents[a].runs[k].pc)
    {
      LooseRun(s, t, ph, ph', j, a, k);
    }
    assert JobsFit(t, ph') && WritesFit(t, ph') && AnswersFit(t) && OpenFits(t);
  }

  /** A state without harmless hand-backs is one with. */
  lemma Loosen(s: System, ph: Phases)
    requires Fits(s, ph)
    ensures Fits(s, ph.(loose := true))
  {
    var ph' := ph.(loose := true);
    forall a, k | a in s.agents && k in s.agents[a].runs
      ensures RunFits(s, ph', a, k, s.agents[a].runs[k].pc)
    {
      assert RunFits(s, ph, a, k, s.agents[a].runs[k].pc);
    }
    assert RequestsFit(s, ph');
    assert JobsFit(s, ph') && WritesFit(s, ph');
  }

  // ---------- takeovers that do no harm ----------

  function TakenOver(s: System, id: RequestId): Job
    requires id in s.open && s.open[id].job in s.jobs
  {
    Claim(s.jobs[s.open[id].job], s.open[id].worker, s.open[id].at, true).job
  }

  lemma TakenOverFacts(s: System, id: RequestId, j: JobId)
    requires GrantedTakeover(s, id) && s.open[id].job == j
    ensures var job := TakenOver(s, id);
            && Owns(job, s.open[id].worker) && job.attempts == s.jobs[j].attempts + 1 && job.maxAttempts == s.jobs[j].maxAttempts
            && (forall idle :: StaysHarmless(s.jobs[j], idle, job, idle))
            && Next(s, CommitClaim(id, true)) == Answered(s.(jobs := s.jobs[j := job]), id, GrantedAnswer(j))
  {
    TakenJob(s, id, j);
    hide Next;
  }

  /** Nobody will take up the offer. */
  lemma DeadTakeoverIsSafe(s: System, ph: Phases, id: RequestId, j: JobId)
    requires Fits(s, ph) && !ph.loose && GrantedTakeover(s, id) && s.open[id].job == j && !AskedFor(s, id, j)
    ensures Sound(Next(s, CommitClaim(id, true)), false)
  {
    TakenOverFacts(s, id, j);
    hide Next, TakenOver, WritesFit, RequestsFit, AnswersFit, RunsFit, StaysHarmless;
    var job := TakenOver(s, id);
    TiedJobKeeps(s, ph, j, job);
    AnsweredKeeps(s.(jobs := s.jobs[j := job]), ph, id, GrantedAnswer(j));
  }

  /** Stopped claimants can only hand the job back. */
  lemma StoppedAreSpare(s: System, t: System, ph: Phases, id: RequestId, j: JobId)
    requires RunsSane(s) && !Awaits(s, id, j) && t.agents == s.agents && t.installs == s.installs
    requires ph.loose && j in ph.of && j in t.jobs
    requires Exhausted(t.jobs[j]) || (ph.of[j] == Idle && t.jobs[j].maxAttempts <= t.jobs[j].attempts + 1)
    ensures OnlyOffered(t, ph, id, j)
  {
    forall a, k | a in t.agents && k in t.agents[a].runs && Asks(t.agents[a].runs[k].pc, id, j)
      ensures Stale(t, a, k) && SpareRun(t, ph, a, j)
    {
      assert RunSane(s, a, s.agents[a].runs[k]);
      assert !Waits(s, a, k, id, j);
    }
  }

  /** A stopped claimant that gets the last attempt, while an earlier grant can be used or was. */
  lemma StoppedLastIsSafe(s: System, ph: Phases, id: RequestId, j: JobId)
    requires Fits(s, ph) && RunsSane(s) && GrantedTakeover(s, id) && s.open[id].job == j && !Awaits(s, id, j)
    requires s.jobs[j].maxAttempts <= s.jobs[j].attempts + 1
    ensures Sound(Next(s, CommitClaim(id, true)), true)
  {
    TakenOverFacts(s, id, j);
    Loosen(s, ph);
    hide Next, TakenOver, WritesFit, RequestsFit, AnswersFit, RunsFit, StaysHarmless, RunsSane, Awaits, OnlyOffered;
    var job, ph' := TakenOver(s, id), ph.(loose := true);
    var t := s.(jobs := s.jobs[j := job]);
    TiedJobKeeps(s, ph', j, job);
    StoppedAreSpare(s, t, ph', id, j);
    AnsweredKeeps(t, ph', id, GrantedAnswer(j));
  }

  /** The claimant becomes the only one who can write the job. */
  lemma OfferedIsSafe(s: System, ph: Phases, id: RequestId, j: JobId)
    requires Fits(s, ph) && !ph.loose && Sane(s) && GrantedTakeover(s, id) && s.open[id].job == j && !Engaged(s, j)
    requires HandBacksHarmless(s, j, TakenOver(s, id), false)
    ensures Sound(Next(s, CommitClaim(id, true)), true)
  {
    TakenOverFacts(s, id, j);
    hide Next, TakenOver, Sane, Engaged, HandBacksHarmless, Fits, StaysHarmless;
    var job := TakenOver(s, id);
    LooseFits(s, ph, j, job, Offered(id));
    AnsweredKeeps(s.(jobs := s.jobs[j := job]), Loosely(ph, j, Offered(id)), id, GrantedAnswer(j));
  }

  /** A stopped claimant and an earlier holder that both hand the job back, with one attempt left after that. */
  lemma StoppedIsSafe(s: System, ph: Phases, id: RequestId, j: JobId)
    requires Fits(s, ph) && !ph.loose && Sane(s) && GrantedTakeover(s, id) && s.open[id].job == j && !Engaged(s, j)
    requires !Awaits(s, id, j) && s.jobs[j].maxAttempts <= s.jobs[j].attempts + 2
    ensures Sound(Next(s, CommitClaim(id, true)), true)
  {
    TakenOverFacts(s, id, j);
    var job := TakenOver(s, id);
    var t := s.(jobs := s.jobs[j := job]);
    hide Next, TakenOver, Engaged, JobsSane, RequestsSane, RunsSane, Fits, StaysHarmless, Awaits, OnlyOffered, HandsBackAs;
    LooseFits(s, ph, j, job, Idle);
    StoppedAreSpare(s, t, Loosely(ph, j, Idle), id, j);
    AnsweredKeeps(t, Loosely(ph, j, Idle), id, GrantedAnswer(j));
  }

  lemma RefusalIsSafe(s: System, ph: Phases, id: RequestId, j: JobId)
    requires Fits(s, ph) && !ph.loose && Sane(s)
    requires TakesOver(s, CommitClaim(id, false)) && s.open[id].job == j && !Engaged(s, j)
    requires HandsBack(s, j) ==> s.jobs[j].maxAttempts <= s.jobs[j].attempts + 1
    ensures Sound(Next(s, CommitClaim(id, false)), true)
  {
    RefusedJob(s, id, j);
    var job := s.jobs[j].(status := Dead, worker := 0, leasedUntil := 0, nextRetryAt := 0);
    hide Next, Engaged, JobsSane, RequestsSane, RunsSane, Fits, HandsBackAs;
    LooseFits(s, ph, j, job, Idle);
    AnsweredKeeps(s.(jobs := s.jobs[j := job]), Loosely(ph, j, Idle), id, Error(422));
  }

  lemma LastClaim(job: Job, worker: WorkerId, at: int, complete: bool)
    requires Expired(job, at) && Exhausted(job)
    ensures var result := Claim(job, worker, at, complete);
            && !result.granted && Exhausted(result.job) && forall idle :: StaysHarmless(job, idle, result.job, idle)
  {
  }

  lemma RefusedCommit(s: System, id: RequestId, complete: bool) returns (status: int)
    requires id in s.open && s.open[id].job in s.jobs
    requires !Claim(s.jobs[s.open[id].job], s.open[id].worker, s.open[id].at, complete).granted
    ensures var c := s.open[id];
            var job := Claim(s.jobs[c.job], c.worker, c.at, complete).job;
            Next(s, CommitClaim(id, complete)) == Answered(s.(jobs := s.jobs[c.job := job]), id, Error(status))
  {
    hide Claim, AgentStep, Delivered, Opened, Completed, Failed, Written;
    var c := s.open[id];
    var result := Claim(s.jobs[c.job], c.worker, c.at, complete);
    status := if result.job != s.jobs[c.job] && !complete then 422 else 409;
  }

  /** Taking over a job without an attempt left only parks it. */
  lemma LastAttemptIsSafe(s: System, ph: Phases, id: RequestId, j: JobId, complete: bool)
    requires Fits(s, ph) && TakesOver(s, CommitClaim(id, complete)) && s.open[id].job == j && Exhausted(s.jobs[j])
    ensures Sound(Next(s, CommitClaim(id, complete)), true)
  {
    LastClaim(s.jobs[j], s.open[id].worker, s.open[id].at, complete);
    var status := RefusedCommit(s, id, complete);
    Loosen(s, ph);
    hide Next, Claim, WritesFit, RequestsFit, AnswersFit, RunsFit, StaysHarmless;
    var job, ph' := Claim(s.jobs[j], s.open[id].worker, s.open[id].at, complete).job, ph.(loose := true);
    TiedJobKeeps(s, ph', j, job);
    AnsweredKeeps(s.(jobs := s.jobs[j := job]), ph', id, Error(status));
  }

  // ---------- exactly the reckless ones ----------

  function Left(job: Job): int {
    job.maxAttempts - job.attempts
  }

  /**
   What makes a takeover with this many attempts left dangerous. A claim that is granted puts the job into the
   hands of a run that waits: beside a grant that can be used or was; or beside a hand-back, its own
   installation's or, with an attempt more, anybody's. A stopped run gives the job back and takes an attempt
   more. A claim that is refused leaves the job to the operator.
   */
  ghost predicate Dangerous(s: System, id: RequestId, j: JobId, complete: bool, left: int)
    requires id in s.open
  {
    if complete then
      || (Engaged(s, j) && Awaits(s, id, j))
      || (Engaged(s, j) && AskedFor(s, id, j) && 2 <= left)
      || (HandsBackAs(s, j, s.open[id].worker) && Awaits(s, id, j) && 2 <= left)
      || (HandsBack(s, j) && AskedFor(s, id, j) && 3 <= left)
    else
      Engaged(s, j) || (HandsBack(s, j) && 2 <= left)
  }

  ghost predicate Reckless(s: System, id: RequestId, j: JobId, complete: bool) {
    && TakesOver(s, CommitClaim(id, complete)) && s.open[id].job == j
    && 1 <= Left(s.jobs[j]) && Dangerous(s, id, j, complete, Left(s.jobs[j]))
  }

  lemma StoppedGrantSendsTwice(s: System, ph: Phases, id: RequestId, j: JobId)
    requires Fits(s, ph) && Sane(s) && GrantedTakeover(s, id) && s.open[id].job == j
    requires Engaged(s, j) && AskedFor(s, id, j) && !Awaits(s, id, j) && 2 <= Left(s.jobs[j])
    ensures !OnceFrom(Next(s, CommitClaim(id, true)), j)
  {
    hide Next, Fits, Sane, OnceFrom, Engaged;
    var a, k :| a in s.agents && k in s.agents[a].runs && Asks(s.agents[a].runs[k].pc, id, j);
    ClaimantIsOffered(s, ph, id, j, a, k);
    assert !Waits(s, a, k, id, j);
    StoppedSendsTwice(s, Next(s, CommitClaim(id, true)), ph, id, j, a, k);
  }

  lemma OwnHandBackGrantSendsTwice(s: System, ph: Phases, id: RequestId, j: JobId)
    requires Fits(s, ph) && Sane(s) && GrantedTakeover(s, id) && s.open[id].job == j
    requires HandsBackAs(s, j, s.open[id].worker) && Awaits(s, id, j) && 2 <= Left(s.jobs[j])
    ensures !OnceFrom(Next(s, CommitClaim(id, true)), j)
  {
    hide Next, Fits, Sane, OnceFrom;
    var a, k :| Waits(s, a, k, id, j);
    var source :| Hands(s, j, s.open[id].worker, source);
    ClaimantIsOffered(s, ph, id, j, a, k);
    OwnHandBackSendsTwice(s, Next(s, CommitClaim(id, true)), id, j, a, k, source);
  }

  lemma HandBackGrantSendsTwice(s: System, ph: Phases, id: RequestId, j: JobId)
    requires Fits(s, ph) && Sane(s) && GrantedTakeover(s, id) && s.open[id].job == j
    requires HandsBack(s, j) && AskedFor(s, id, j) && 3 <= Left(s.jobs[j])
    ensures !OnceFrom(Next(s, CommitClaim(id, true)), j)
  {
    hide Next, Fits, Sane, OnceFrom;
    var a, k :| a in s.agents && k in s.agents[a].runs && Asks(s.agents[a].runs[k].pc, id, j);
    var worker :| HandsBackAs(s, j, worker);
    var source :| Hands(s, j, worker, source);
    var b := HandsWorker(s, j, worker, source);
    ClaimantIsOffered(s, ph, id, j, a, k);
    HandBackSendsTwice(s, Next(s, CommitClaim(id, true)), id, j, a, k, b, source);
  }

  lemma RecklessGrantSendsTwice(s: System, id: RequestId, j: JobId)
    requires Safe(s) && Sane(s) && Reckless(s, id, j, true)
    ensures !OnceFrom(Next(s, CommitClaim(id, true)), j)
  {
    hide Next, Fits, Sane, OnceFrom, Engaged, Awaits, AskedFor, HandsBackAs, HandsBack;
    var ph: Phases :| !ph.loose && Fits(s, ph);
    if Engaged(s, j) && Awaits(s, id, j) {
      EngagedTakeoverSendsTwice(s, id, j);
    } else if Engaged(s, j) && AskedFor(s, id, j) {
      StoppedGrantSendsTwice(s, ph, id, j);
    } else if HandsBackAs(s, j, s.open[id].worker) && Awaits(s, id, j) {
      OwnHandBackGrantSendsTwice(s, ph, id, j);
    } else {
      HandBackGrantSendsTwice(s, ph, id, j);
    }
  }

  /** The installation that hands the job back has an instance that can claim it. */
  lemma HandsWorker(s: System, j: JobId, worker: WorkerId, source: Source) returns (b: AgentId)
    requires Sane(s) && Hands(s, j, worker, source)
    ensures b in s.agents && b in s.installs && s.installs[b] == worker
  {
    match source
    case Sent(f) =>
      assert HasWorker(s, s.requests[f].worker);
      b :| b in s.agents && b in s.installs && s.installs[b] == worker;
    case Running(a, _) => b := a;
  }

  lemma RecklessRefusalSendsTwice(s: System, id: RequestId, j: JobId)
    requires Safe(s) && Sane(s) && Reckless(s, id, j, false)
    ensures !OnceFrom(Next(s, CommitClaim(id, false)), j)
  {
    if Engaged(s, j) {
      assert HasWorker(s, s.open[id].worker);
      var a :| a in s.agents && a in s.installs && s.installs[a] == s.open[id].worker;
      RefusalSendsTwice(s, id, j, a);
    } else {
      var worker :| HandsBackAs(s, j, worker);
      var source :| Hands(s, j, worker, source);
      var b := HandsWorker(s, j, worker, source);
      var ph: Phases :| !ph.loose && Fits(s, ph);
      RefusalKeepsSource(s, ph, id, j, worker, source);
      RefusalWithHandBackSendsTwice(Next(s, CommitClaim(id, false)), j, b, source);
    }
  }

  lemma RefusalKeepsSource(s: System, ph: Phases, id: RequestId, j: JobId, worker: WorkerId, source: Source)
    requires Fits(s, ph) && Sane(s) && TakesOver(s, CommitClaim(id, false))
    requires s.open[id].job == j && Hands(s, j, worker, source)
    ensures var t := Next(s, CommitClaim(id, false));
            && Hands(t, j, worker, source) && t.agents == s.agents && t.installs == s.installs
            && j in t.jobs && t.jobs[j].status == Dead && !t.jobs[j].uncertain
            && t.jobs[j].attempts == s.jobs[j].attempts && t.jobs[j].maxAttempts == s.jobs[j].maxAttempts
  {
    hide Next, JobsFit, WritesFit, RunsFit, RequestsFit, RequestsSane, RunsSane, ExplicitRefusal;
    RefusedJob(s, id, j);
    assert forall i | i in s.answers :: i !in s.open;
    assert id !in s.requests;
  }

  lemma CarefulGrantIsSafe(s: System, ph: Phases, id: RequestId, j: JobId)
    requires Fits(s, ph) && !ph.loose && Sane(s) && GrantedTakeover(s, id) && s.open[id].job == j
    requires !Reckless(s, id, j, true)
    ensures Sound(Next(s, CommitClaim(id, true)), true) || Sound(Next(s, CommitClaim(id, true)), false)
  {
    hide Next, Fits, Sane, Sound;
    if !AskedFor(s, id, j) {
      DeadTakeoverIsSafe(s, ph, id, j);
    } else if Engaged(s, j) {
      SaneRuns(s);
      StoppedLastIsSafe(s, ph, id, j);
    } else if Awaits(s, id, j) || !HandsBack(s, j) {
      TakenOverFacts(s, id, j);
      forall worker | HandsBackAs(s, j, worker)
        ensures HarmlessFor(TakenOver(s, id), false, worker)
      {
      }
      OfferedIsSafe(s, ph, id, j);
    } else {
      StoppedIsSafe(s, ph, id, j);
    }
  }

  lemma SaneRuns(s: System)
    requires Sane(s)
    ensures RunsSane(s)
  {
  }

  lemma CarefulIsSafe(s: System, id: RequestId, j: JobId, complete: bool)
    requires Safe(s) && Sane(s) && id in s.open && s.open[id].job == j && !Reckless(s, id, j, complete)
    ensures Sound(Next(s, CommitClaim(id, complete)), true) || Sound(Next(s, CommitClaim(id, complete)), false)
  {
    if !TakesOver(s, CommitClaim(id, complete)) {
      NextKeeps(s, false, CommitClaim(id, complete));
    } else {
      var ph: Phases :| !ph.loose && Fits(s, ph);
      hide Next, Fits, Sane, Sound;
      if Exhausted(s.jobs[j]) {
        LastAttemptIsSafe(s, ph, id, j, complete);
      } else if complete {
        CarefulGrantIsSafe(s, ph, id, j);
      } else {
        RefusalIsSafe(s, ph, id, j);
      }
    }
  }

  /** A claim's commit is safe, whatever follows without a takeover, exactly when it is not reckless. */
  lemma CommitIsSafeIffNotReckless(s: System, id: RequestId, j: JobId, complete: bool)
    requires Safe(s) && Sane(s) && id in s.open && s.open[id].job == j
    ensures OnceFrom(Next(s, CommitClaim(id, complete)), j) <==> !Reckless(s, id, j, complete)
  {
    hide Next, Safe, Sane, Reckless, Sound, OnceFrom;
    if !Reckless(s, id, j, complete) {
      CarefulIsSafe(s, id, j, complete);
      if Sound(Next(s, CommitClaim(id, complete)), true) {
        SoundOnce(Next(s, CommitClaim(id, complete)), true, j);
      } else {
        SoundOnce(Next(s, CommitClaim(id, complete)), false, j);
      }
    } else if complete {
      RecklessGrantSendsTwice(s, id, j);
    } else {
      RecklessRefusalSendsTwice(s, id, j);
    }
  }
}
