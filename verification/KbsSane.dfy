/**
 What holds in every state of the system beside its safety: workers have installations, requests come from
 them, only parked jobs have an unknown delivery, and no run is ahead of its instance.
 */
module KbsSane {
  import opened Options
  import opened EgmTransport
  import opened PoliceAgent
  import opened KbsQueue
  import opened KbsSystem
  import opened KbsSafety

  predicate JobsSane(s: System) {
    forall j | j in s.jobs && (s.jobs[j].status == Pending || s.jobs[j].status == InProgress) :: !s.jobs[j].uncertain
  }

  /** Some instance belongs to the installation. */
  predicate HasWorker(s: System, worker: WorkerId) {
    exists a :: a in s.agents && a in s.installs && s.installs[a] == worker
  }

  predicate RequestsSane(s: System) {
    && (forall id | id in s.requests :: id < s.nextRequest && (s.requests[id].WriteRequest? || HasWorker(s, s.requests[id].worker)))
    && (forall id | id in s.open :: id < s.nextRequest && HasWorker(s, s.open[id].worker))
  }

  /** A claim carries the installation of the instance whose run waits for it. */
  predicate RunSane(s: System, a: AgentId, r: Run) {
    && a in s.agents && a in s.installs && r.revision <= s.agents[a].revision
    && (r.pc.Claiming? ==>
          && r.pc.request < s.nextRequest
          && (r.pc.request in s.requests && s.requests[r.pc.request].ClaimRequest? ==> s.requests[r.pc.request].worker == s.installs[a])
          && (r.pc.request in s.open ==> s.open[r.pc.request].worker == s.installs[a]))
  }

  predicate RunsSane(s: System) {
    forall a, k | a in s.agents && k in s.agents[a].runs :: RunSane(s, a, s.agents[a].runs[k])
  }

  ghost predicate Sane(s: System) {
    s.agents.Keys <= s.installs.Keys && JobsSane(s) && RequestsSane(s) && RunsSane(s)
  }

  // ---------- jobs ----------

  function JobsAfter(jobs: map<JobId, Job>, j: JobId, op: JobOp): map<JobId, Job> {
    if j in jobs then jobs[j := Apply(jobs[j], op)] else jobs
  }

  /** The step leaves workers and installations, and sends one job through one of the handlers' operations. */
  predicate OneOpStep(s: System, t: System, j: JobId, op: JobOp) {
    t.installs == s.installs && t.agents.Keys == s.agents.Keys && t.jobs == JobsAfter(s.jobs, j, op)
  }

  lemma OpenedStep(s: System, id: RequestId)
    requires id in s.requests && s.requests[id].ClaimRequest?
    ensures OneOpStep(s, Opened(s, id), s.requests[id].job, ParkOp(s.now))
  {
    hide Park, Expired;
  }

  lemma CommitStep(s: System, id: RequestId, complete: bool)
    requires id in s.open
    ensures OneOpStep(s, Commit(s, id, complete), s.open[id].job, ClaimOp(s.open[id].worker, s.open[id].at, complete))
  {
    hide Claim;
    var c := s.open[id];
    if c.job in s.jobs {
      var result := Claim(s.jobs[c.job], c.worker, c.at, complete);
      assert Commit(s, id, complete).jobs == s.jobs[c.job := result.job];
    }
  }

  lemma CompletedStep(s: System, id: RequestId)
    requires id in s.requests && s.requests[id].CompleteRequest?
    ensures OneOpStep(s, Completed(s, id), s.requests[id].job, CompleteOp(s.requests[id].worker))
  {
    hide Complete, OwnerAnswer;
  }

  lemma FailedStep(s: System, id: RequestId, permanent: bool)
    requires id in s.requests && s.requests[id].FailRequest?
    ensures var c := s.requests[id];
            OneOpStep(s, Failed(s, id, permanent), c.job, FailOp(c.worker, !c.uncertain, c.uncertain, permanent, s.now))
  {
    hide Fail, OwnerAnswer;
  }

  lemma RequeuedStep(s: System, j: JobId)
    requires j in s.jobs
    ensures OneOpStep(s, s.(jobs := s.jobs[j := Requeue(s.jobs[j])]), j, RequeueOp)
  {
    hide Requeue;
  }

  lemma QuietStep(s: System, action: Action)
    requires Enabled(s, action) && (action.Local? || action.Deliver? || action.AuthorityHandles?)
    ensures var t := Next(s, action);
            t.installs == s.installs && t.agents.Keys == s.agents.Keys && t.jobs == s.jobs
  {
    hide After, EffectOf, Opened, Commit, Completed, Failed;
  }

  /** Whatever the system does, jobs are left alone, or one goes through one of the handlers' operations, or a new one appears. */
  lemma JobStep(s: System, action: Action)
    ensures var t := Next(s, action);
            && t.installs == s.installs && t.agents.Keys == s.agents.Keys
            && (t.jobs == s.jobs
                || (exists j, op :: OneOpStep(s, t, j, op))
                || (exists j: JobId, n: nat :: j !in s.jobs && t.jobs == s.jobs[j := NewJob(n)]))
  {
    hide AgentStep, Delivered, Opened, Commit, Completed, Failed, Written, Apply, JobsAfter, NewJob;
    if Enabled(s, action) {
      match action
      case OperatorRequeue(j) =>
        RequeuedStep(s, j);
      case OpenClaimHandler(id) => OpenedStep(s, id);
      case CommitClaim(id, complete) => CommitStep(s, id, complete);
      case HandleComplete(id) => CompletedStep(s, id);
      case HandleFail(id, permanent) => FailedStep(s, id, permanent);
      case Local(_, _) => QuietStep(s, action);
      case Deliver(_, _) => QuietStep(s, action);
      case AuthorityHandles(_, _, _) => QuietStep(s, action);
      case _ =>
    }
  }

  lemma NextKeepsJobsSane(s: System, action: Action)
    requires JobsSane(s)
    ensures JobsSane(Next(s, action))
  {
    JobStep(s, action);
    hide Next;
  }

  // ---------- requests and runs ----------

  /** A handler's step leaves the workers; what it opens was a claim request. */
  predicate HandlerStep(s: System, t: System) {
    && t.agents == s.agents && t.installs == s.installs && t.nextRequest == s.nextRequest
    && (forall id | id in t.requests :: id in s.requests && t.requests[id] == s.requests[id])
    && (forall id | id in t.open ::
          || (id in s.open && t.open[id] == s.open[id])
          || (id in s.requests && s.requests[id].ClaimRequest? && t.open[id].worker == s.requests[id].worker))
  }

  lemma OpenedHandler(s: System, id: RequestId)
    requires id in s.requests && s.requests[id].ClaimRequest?
    ensures HandlerStep(s, Opened(s, id))
  {
    hide Park, Expired;
  }

  lemma AnsweredHandler(s: System, jobs: map<JobId, Job>, applied: map<JobId, nat>, id: RequestId, answer: Answer)
    ensures HandlerStep(s, Answered(s.(jobs := jobs, applied := applied), id, answer))
  {
  }

  lemma CommitHandler(s: System, id: RequestId, complete: bool)
    requires id in s.open
    ensures HandlerStep(s, Commit(s, id, complete))
  {
    hide Claim, HandlerStep, Answered;
    var c := s.open[id];
    if c.job !in s.jobs {
      AnsweredHandler(s, s.jobs, s.applied, id, Error(404));
    } else {
      var result := Claim(s.jobs[c.job], c.worker, c.at, complete);
      var jobs := s.jobs[c.job := result.job];
      AnsweredHandler(s, jobs, s.applied, id, GrantedAnswer(c.job));
      AnsweredHandler(s, jobs, s.applied, id, Error(422));
      AnsweredHandler(s, jobs, s.applied, id, Error(409));
    }
  }

  lemma AnsweringHandlers(s: System, id: RequestId, permanent: bool, applies: bool, reply: Reply)
    requires id in s.requests
    ensures s.requests[id].CompleteRequest? ==> HandlerStep(s, Completed(s, id))
    ensures s.requests[id].FailRequest? ==> HandlerStep(s, Failed(s, id, permanent))
    ensures s.requests[id].WriteRequest? ==> HandlerStep(s, Written(s, id, applies, reply))
  {
    hide Complete, Fail, OwnerAnswer;
  }

  lemma HandlersStep(s: System, action: Action)
    requires Enabled(s, action) && !action.Local? && !action.Deliver? && !action.Dies?
    ensures HandlerStep(s, Next(s, action))
  {
    hide AgentStep, Delivered, Opened, Commit, Completed, Failed, Written, Requeue;
    match action
    case OpenClaimHandler(id) => OpenedHandler(s, id);
    case CommitClaim(id, complete) => CommitHandler(s, id, complete);
    case HandleComplete(id) => AnsweringHandlers(s, id, true, true, NoResponse);
    case HandleFail(id, permanent) => AnsweringHandlers(s, id, permanent, true, NoResponse);
    case AuthorityHandles(id, applies, reply) => AnsweringHandlers(s, id, true, applies, reply);
    case _ =>
  }

  lemma HandlerStepSane(s: System, t: System)
    requires HandlerStep(s, t) && RequestsSane(s) && RunsSane(s)
    ensures RequestsSane(t) && RunsSane(t)
  {
    forall worker | HasWorker(s, worker)
      ensures HasWorker(t, worker)
    {
    }
    forall a, k | a in t.agents && k in t.agents[a].runs
      ensures RunSane(t, a, t.agents[a].runs[k])
    {
      assert RunSane(s, a, s.agents[a].runs[k]);
    }
  }

  /** An instance's step adds at most one request, of its own installation; a run that asks for a claim asks in it. */
  predicate OwnStep(s: System, t: System, a: AgentId, sent: Option<Request>) {
    && a in s.agents && a in s.installs && t.installs == s.installs && t.open == s.open && t.agents.Keys == s.agents.Keys
    && (forall b | b in s.agents && b != a :: t.agents[b] == s.agents[b])
    && (if sent.None? then t.requests == s.requests && t.nextRequest == s.nextRequest
        else t.requests == s.requests[s.nextRequest := sent.value] && t.nextRequest == s.nextRequest + 1)
    && (sent.Some? ==> sent.value.WriteRequest? || sent.value.worker == s.installs[a])
    && (forall k | k in t.agents[a].runs ::
          var r := t.agents[a].runs[k];
          || (k in s.agents[a].runs && r == s.agents[a].runs[k] && s.agents[a].revision <= t.agents[a].revision)
          || (r.revision <= t.agents[a].revision
              && (r.pc.Claiming? ==> r.pc.request == s.nextRequest && sent == Some(ClaimRequest(r.pc.item.id, s.installs[a])))))
  }

  lemma OwnStepRequests(s: System, t: System, a: AgentId, sent: Option<Request>)
    requires OwnStep(s, t, a, sent) && RequestsSane(s)
    ensures RequestsSane(t)
  {
    forall worker | HasWorker(s, worker)
      ensures HasWorker(t, worker)
    {
    }
    assert HasWorker(s, s.installs[a]);
  }

  lemma OwnStepSane(s: System, t: System, a: AgentId, sent: Option<Request>)
    requires OwnStep(s, t, a, sent) && RequestsSane(s) && RunsSane(s)
    ensures RunsSane(t)
  {
    hide HasWorker;
    forall b, k | b in t.agents && k in t.agents[b].runs
      ensures RunSane(t, b, t.agents[b].runs[k])
    {
      if b != a || (k in s.agents[a].runs && t.agents[b].runs[k] == s.agents[a].runs[k]) {
        assert RunSane(s, b, s.agents[b].runs[k]);
      }
    }
  }

  lemma SettledStep(s: System, a: AgentId, k: RunId, input: Input)
    requires a in s.agents && a in s.installs && k in s.agents[a].runs && RunsSane(s)
    ensures var agent := s.agents[a];
            var d := Decide(agent.runs[k], agent.revision, agent.store, input, s.nextRequest);
            OwnStep(s, AgentStep(s, a, Settles(k, input)), a, RequestOf(d.effect, s.installs[a]))
  {
    var agent := s.agents[a];
    assert RunSane(s, a, agent.runs[k]);
    DecideShape(agent.runs[k], agent.revision, agent.store, input, s.nextRequest);
    SettleMoves(s, a, k, input);
    hide Decide, RunSane, RunsSane, AgentStep;
  }

  lemma QuietEvent(s: System, a: AgentId, event: Event)
    requires a in s.agents && a in s.installs && (event.Settles? ==> event.run !in s.agents[a].runs)
    requires RunsSane(s)
    ensures OwnStep(s, AgentStep(s, a, event), a, None)
  {
    forall k | k in s.agents[a].runs
      ensures s.agents[a].runs[k].revision <= s.agents[a].revision
    {
      assert RunSane(s, a, s.agents[a].runs[k]);
    }
    hide Decide, RunSane, RunsSane;
  }

  lemma LocalSane(s: System, a: AgentId, event: Event)
    requires a in s.agents && a in s.installs && RequestsSane(s) && RunsSane(s)
    ensures RequestsSane(AgentStep(s, a, event)) && RunsSane(AgentStep(s, a, event))
  {
    var t := AgentStep(s, a, event);
    if event.Settles? && event.run in s.agents[a].runs {
      var agent := s.agents[a];
      var d := Decide(agent.runs[event.run], agent.revision, agent.store, event.input, s.nextRequest);
      SettledStep(s, a, event.run, event.input);
      hide AgentStep, OwnStep, RequestsSane, RunsSane, Decide;
      OwnStepRequests(s, t, a, RequestOf(d.effect, s.installs[a]));
      OwnStepSane(s, t, a, RequestOf(d.effect, s.installs[a]));
    } else {
      QuietEvent(s, a, event);
      hide AgentStep, OwnStep, RequestsSane, RunsSane;
      OwnStepRequests(s, t, a, None);
      OwnStepSane(s, t, a, None);
    }
  }

  lemma DeliveredSane(s: System, a: AgentId, k: RunId)
    requires HasAnswer(s, a, k) && RequestsSane(s) && RunsSane(s)
    ensures RequestsSane(Delivered(s, a, k)) && RunsSane(Delivered(s, a, k))
  {
    var id := Awaited(s.agents[a].runs[k].pc).value;
    var u := s.(answers := s.answers - {id});
    assert HandlerStep(s, u);
    HandlerStepSane(s, u);
    hide AgentStep, RequestsSane, RunsSane, HandlerStep;
    LocalSane(u, a, Settles(k, AnswerInput(s.answers[id])));
  }

  lemma DeadSane(s: System, a: AgentId)
    requires a in s.agents && RequestsSane(s) && RunsSane(s)
    ensures var t := s.(agents := s.agents[a := Fresh(s.agents[a].store, s.agents[a].alarm)]); RequestsSane(t) && RunsSane(t)
  {
    var t := s.(agents := s.agents[a := Fresh(s.agents[a].store, s.agents[a].alarm)]);
    forall worker | HasWorker(s, worker)
      ensures HasWorker(t, worker)
    {
      var b :| b in s.agents && b in s.installs && s.installs[b] == worker;
      assert b in t.agents;
    }
    forall b, k | b in t.agents && k in t.agents[b].runs
      ensures RunSane(t, b, t.agents[b].runs[k])
    {
      assert RunSane(s, b, s.agents[b].runs[k]);
    }
  }

  lemma NextKeepsSane(s: System, action: Action)
    requires Sane(s)
    ensures Sane(Next(s, action))
  {
    hide JobsSane, RequestsSane, RunsSane, AgentStep, Delivered, Opened, Commit, Completed, Failed, Written;
    NextKeepsJobsSane(s, action);
    JobStep(s, action);
    if Enabled(s, action) {
      match action
      case Local(a, event) => LocalSane(s, a, event);
      case Deliver(a, k) => DeliveredSane(s, a, k);
      case Dies(a) => DeadSane(s, a);
      case _ =>
        HandlersStep(s, action);
        HandlerStepSane(s, Next(s, action));
    }
  }

  lemma {:induction false} ExecKeepsSane(s: System, actions: seq<Action>)
    requires Sane(s)
    ensures Sane(Exec(s, actions))
    decreases |actions|
  {
    if actions != [] {
      NextKeepsSane(s, actions[0]);
      ExecKeepsSane(Next(s, actions[0]), actions[1..]);
    }
  }

  /** Every state reached so far without a takeover is safe and sane. */
  lemma ReachedIsSafeAndSane(s: System, actions: seq<Action>)
    requires Initial(s) && AlwaysGuarded(s, actions)
    ensures Safe(Exec(s, actions)) && Sane(Exec(s, actions))
  {
    InitialIsSafe(s);
    ExecKeeps(s, false, actions);
    ExecKeepsSane(s, actions);
  }
}
