/**
 Prompt claim handlers never take a job over: a lease that a handler finds cannot have run out at the
 instant it looked at the clock, because a lease granted since then lasts until now.
 */
module KbsLeases {
  import opened PoliceAgent
  import opened KbsQueue
  import opened KbsSystem
  import opened KbsSafety

  /** The lease of a job in progress ends no earlier than any open claim looked. */
  predicate LeaseFits(job: Job, at: int) {
    job.status == InProgress ==> at <= job.leasedUntil
  }

  ghost predicate LeasesFit(s: System) {
    forall id | id in s.open ::
      s.open[id].at <= s.now && (s.open[id].job in s.jobs ==> LeaseFits(s.jobs[s.open[id].job], s.open[id].at))
  }

  /** One job changes, into one that is not in progress, or whose lease lasts until now. */
  lemma OneJobKeeps(s: System, j: JobId, job: Job)
    requires LeasesFit(s) && (job.status == InProgress ==> s.now <= job.leasedUntil || (j in s.jobs && job == s.jobs[j]))
    ensures LeasesFit(s.(jobs := s.jobs[j := job]))
  {
  }

  lemma AgentStepKeepsLeases(s: System, a: AgentId, event: Event)
    requires LeasesFit(s) && a in s.agents && a in s.installs
    ensures LeasesFit(AgentStep(s, a, event))
  {
    hide After, EffectOf, LeaseFits;
  }

  lemma CommitKeepsLeases(s: System, id: RequestId, complete: bool)
    requires LeasesFit(s) && id in s.open && s.now <= s.open[id].at + LEASE
    ensures LeasesFit(Commit(s, id, complete))
  {
    var c := s.open[id];
    if c.job in s.jobs {
      var result := Claim(s.jobs[c.job], c.worker, c.at, complete);
      OneJobKeeps(s, c.job, result.job);
    }
  }

  lemma OpenKeepsLeases(s: System, id: RequestId)
    requires LeasesFit(s) && id in s.requests && s.requests[id].ClaimRequest?
    ensures LeasesFit(Next(s, OpenClaimHandler(id)))
  {
    hide Commit, Completed, Failed, Written, AgentStep, Delivered;
    var j := s.requests[id].job;
    if j in s.jobs {
      OneJobKeeps(s, j, Park(s.jobs[j]));
    }
  }

  lemma CompleteKeepsLeases(s: System, id: RequestId)
    requires LeasesFit(s) && id in s.requests && s.requests[id].CompleteRequest?
    ensures LeasesFit(Next(s, HandleComplete(id)))
  {
    hide Commit, Opened, Failed, Written, AgentStep, Delivered;
    var c := s.requests[id];
    if c.job in s.jobs {
      OneJobKeeps(s, c.job, Complete(s.jobs[c.job], c.worker));
    }
  }

  lemma FailKeepsLeases(s: System, id: RequestId, permanent: bool)
    requires LeasesFit(s) && id in s.requests && s.requests[id].FailRequest?
    ensures LeasesFit(Next(s, HandleFail(id, permanent)))
  {
    hide Commit, Opened, Completed, Written, AgentStep, Delivered;
    var c := s.requests[id];
    if c.job in s.jobs {
      OneJobKeeps(s, c.job, Fail(s.jobs[c.job], c.worker, !c.uncertain, c.uncertain, permanent, s.now));
    }
  }

  lemma NextKeepsLeases(s: System, action: Action)
    requires LeasesFit(s) && Prompt(s, action)
    ensures LeasesFit(Next(s, action))
  {
    if Enabled(s, action) {
      match action
      case Local(a, event) => AgentStepKeepsLeases(s, a, event);
      case Deliver(a, k) =>
        var id := Awaited(s.agents[a].runs[k].pc).value;
        AgentStepKeepsLeases(s.(answers := s.answers - {id}), a, Settles(k, AnswerInput(s.answers[id])));
      case CommitClaim(id, complete) => CommitKeepsLeases(s, id, complete);
      case OpenClaimHandler(id) => OpenKeepsLeases(s, id);
      case HandleComplete(id) => CompleteKeepsLeases(s, id);
      case HandleFail(id, permanent) => FailKeepsLeases(s, id, permanent);
      case OperatorRequeue(j) => OneJobKeeps(s, j, Requeue(s.jobs[j]));
      case Enqueue(j, maxAttempts) => OneJobKeeps(s, j, NewJob(maxAttempts));
      case _ =>
    }
  }

  /** A prompt run never takes a job over. */
  lemma {:induction false} PromptRunIsGuarded(s: System, actions: seq<Action>)
    requires LeasesFit(s) && AlwaysPrompt(s, actions)
    ensures AlwaysGuarded(s, actions)
    decreases |actions|
  {
    if actions != [] {
      NextKeepsLeases(s, actions[0]);
      PromptRunIsGuarded(Next(s, actions[0]), actions[1..]);
    }
  }

  /** So prompt handlers are enough: the authority applies no job more than once. */
  lemma PromptHandlersSendOnce(s: System, actions: seq<Action>, j: JobId)
    requires Initial(s) && AlwaysPrompt(s, actions)
    ensures AlwaysGuarded(s, actions) && Applied(Exec(s, actions), j) <= 1
  {
    PromptRunIsGuarded(s, actions);
    AtMostOnce(s, actions, j);
  }
}
