/** How a job comes to its end: what an accepted report does for good, and that a grant can always be brought there. */
module KbsCompletion {
  import opened Options
  import opened EgmTransport
  import opened PoliceAgent
  import opened KbsQueue
  import opened KbsSystem
  import opened KbsGrants
  import opened KbsSane

  // ---------- done for good ----------

  predicate IsDone(s: System, j: JobId, job: Job) {
    j in s.jobs && s.jobs[j] == job && job.status == Done
  }

  lemma NextKeepsDone(s: System, j: JobId, job: Job, action: Action)
    requires IsDone(s, j, job)
    ensures IsDone(Next(s, action), j, job)
  {
    JobStep(s, action);
    hide Next;
  }

  lemma {:induction false} DoneStays(s: System, j: JobId, job: Job, actions: seq<Action>)
    requires IsDone(s, j, job)
    ensures IsDone(Exec(s, actions), j, job)
    decreases |actions|
  {
    hide IsDone, Next;
    if actions != [] {
      NextKeepsDone(s, j, job, actions[0]);
      DoneStays(Next(s, actions[0]), j, job, actions[1..]);
    }
  }

  /** Ok for the holder; an unknown job, somebody else's, and one that nobody holds each have their own error. */
  function ReportAnswer(s: System, j: JobId, worker: WorkerId): Answer {
    if j !in s.jobs then Error(404)
    else if s.jobs[j].status != InProgress then Error(409)
    else if s.jobs[j].worker != worker then Error(403)
    else Ok
  }

  /**
   The handler of an accepted report answers Ok exactly to the worker that holds the job. Then that job is
   done, for good, and whatever follows does not change it; any other answer leaves all jobs alone.
   */
  lemma CompletionIsFinal(s: System, id: RequestId, actions: seq<Action>)
    requires id in s.requests && s.requests[id].CompleteRequest?
    ensures var j, t := s.requests[id].job, Next(s, HandleComplete(id));
            && id in t.answers && t.answers[id] == ReportAnswer(s, j, s.requests[id].worker)
            && (t.answers[id] == Ok ==>
                  && t.jobs == s.jobs[j := s.jobs[j].(status := Done)]
                  && j in Exec(t, actions).jobs && Exec(t, actions).jobs[j] == s.jobs[j].(status := Done))
            && (t.answers[id] != Ok ==> t.jobs == s.jobs)
  {
    var j, t := s.requests[id].job, Next(s, HandleComplete(id));
    Handled(s, id);
    hide Next, Exec;
    if t.answers[id] == Ok {
      DoneStays(t, j, t.jobs[j], actions);
    }
  }

  lemma Handled(s: System, id: RequestId)
    requires id in s.requests && s.requests[id].CompleteRequest?
    ensures var j, t := s.requests[id].job, Next(s, HandleComplete(id));
            && id in t.answers && t.answers[id] == ReportAnswer(s, j, s.requests[id].worker)
            && t.jobs == (if t.answers[id] == Ok then s.jobs[j := s.jobs[j].(status := Done)] else s.jobs)
            && t.applied == s.applied && t.agents == s.agents && t.installs == s.installs
  {
    IsCompleted(s, id);
    hide Next;
  }

  lemma IsCompleted(s: System, id: RequestId)
    requires id in s.requests && s.requests[id].CompleteRequest?
    ensures Next(s, HandleComplete(id)) == Completed(s, id)
  {
    hide AgentStep, Delivered, Opened, Commit, Completed, Failed, Written;
  }

  // ---------- lost for good ----------

  predicate Gone(s: System, id: RequestId) {
    id < s.nextRequest && id !in s.requests && id !in s.open && id !in s.answers
  }

  lemma AgentStepKeepsGone(s: System, id: RequestId, a: AgentId, event: Event)
    requires Gone(s, id) && a in s.agents && a in s.installs
    ensures Gone(AgentStep(s, a, event), id)
  {
    hide After, EffectOf;
  }

  lemma DeliveredKeepsGone(s: System, id: RequestId, a: AgentId, k: RunId)
    requires Gone(s, id) && HasAnswer(s, a, k)
    ensures Gone(Delivered(s, a, k), id)
  {
    var request := Awaited(s.agents[a].runs[k].pc).value;
    hide AgentStep;
    AgentStepKeepsGone(s.(answers := s.answers - {request}), id, a, Settles(k, AnswerInput(s.answers[request])));
  }

  /** A handler takes its own request out and answers that one. */
  predicate Handles(s: System, t: System, request: RequestId) {
    && t.nextRequest == s.nextRequest
    && (request in s.requests || request in s.open)
    && t.requests.Keys <= s.requests.Keys && t.open.Keys <= s.open.Keys + {request} && t.answers.Keys <= s.answers.Keys + {request}
  }

  lemma HandledKeepsGone(s: System, t: System, id: RequestId, request: RequestId)
    requires Gone(s, id) && Handles(s, t, request)
    ensures Gone(t, id)
  {
  }

  lemma OpenedHandles(s: System, request: RequestId)
    requires request in s.requests && s.requests[request].ClaimRequest?
    ensures Handles(s, Opened(s, request), request)
  {
    hide Park, Expired;
  }

  lemma CommitHandles(s: System, request: RequestId, complete: bool)
    requires request in s.open
    ensures Handles(s, Commit(s, request, complete), request)
  {
    hide Claim;
  }

  lemma ReportHandles(s: System, request: RequestId, permanent: bool)
    requires request in s.requests
    ensures s.requests[request].CompleteRequest? ==> Handles(s, Completed(s, request), request)
    ensures s.requests[request].FailRequest? ==> Handles(s, Failed(s, request, permanent), request)
  {
    hide Complete, Fail, OwnerAnswer;
  }

  lemma WriteHandles(s: System, request: RequestId, applies: bool, reply: Reply)
    requires request in s.requests && s.requests[request].WriteRequest?
    ensures Handles(s, Written(s, request, applies, reply), request)
  {
  }

  lemma NextKeepsGone(s: System, id: RequestId, action: Action)
    requires Gone(s, id)
    ensures Gone(Next(s, action), id)
  {
    hide AgentStep, Delivered, Opened, Commit, Completed, Failed, Written, Fresh, NewJob, Requeue, Handles;
    if Enabled(s, action) {
      match action
      case Local(a, event) => AgentStepKeepsGone(s, id, a, event);
      case Deliver(a, k) => DeliveredKeepsGone(s, id, a, k);
      case OpenClaimHandler(request) =>
        OpenedHandles(s, request);
        HandledKeepsGone(s, Next(s, action), id, request);
      case CommitClaim(request, complete) =>
        CommitHandles(s, request, complete);
        HandledKeepsGone(s, Next(s, action), id, request);
      case HandleComplete(request) =>
        ReportHandles(s, request, false);
        HandledKeepsGone(s, Next(s, action), id, request);
      case HandleFail(request, permanent) =>
        ReportHandles(s, request, permanent);
        HandledKeepsGone(s, Next(s, action), id, request);
      case AuthorityHandles(request, applies, reply) =>
        WriteHandles(s, request, applies, reply);
        HandledKeepsGone(s, Next(s, action), id, request);
      case _ =>
    }
  }

  /** A request the network loses is never handled and never answered, whatever follows. */
  lemma {:induction false} LostStaysLost(s: System, id: RequestId, actions: seq<Action>)
    requires id in s.requests && id < s.nextRequest && id !in s.open && id !in s.answers
    ensures var t := Exec(Next(s, Lost(id)), actions); id !in t.requests && id !in t.open && id !in t.answers
  {
    LosesIt(s, id);
    GoneStays(Next(s, Lost(id)), id, actions);
  }

  lemma LosesIt(s: System, id: RequestId)
    requires id in s.requests && id < s.nextRequest && id !in s.open && id !in s.answers
    ensures Gone(Next(s, Lost(id)), id)
  {
    hide AgentStep, Delivered, Opened, Commit, Completed, Failed, Written;
  }

  lemma {:induction false} GoneStays(s: System, id: RequestId, actions: seq<Action>)
    requires Gone(s, id)
    ensures Gone(Exec(s, actions), id)
    decreases |actions|
  {
    hide Gone, Next;
    if actions != [] {
      NextKeepsGone(s, id, actions[0]);
      GoneStays(Next(s, actions[0]), id, actions[1..]);
    }
  }

  // ---------- a grant can be brought to its end ----------

  /** The run that has come so far with the job. */
  predicate RunOf(s: System, j: JobId, g: Grant, a: AgentId, k: RunId) {
    match g
    case Wire(id) => Runs(s, a, k) && var pc := s.agents[a].runs[k].pc; pc.Writing? && pc.item.id == j && pc.request == id
    case _ => g.agent == a && g.run == k
  }

  lemma EntryWaits(s: System, j: JobId, g: Grant)
    requires Alive(s, j, g) && g.Entry?
    ensures RunOf(Next(s, Use(g)), j, Used(s, g), g.agent, g.run)
  {
    hide Commit, Opened, Completed, Failed, Written, Delivered;
    RunStep(s, g.agent, g.run, LookupDone(false, NoResponse, true));
  }

  /** The write is on its way and its run waits for the answer. */
  predicate OnTheWire(s: System, j: JobId, a: AgentId, k: RunId, id: RequestId) {
    Alive(s, j, Wire(id)) && RunOf(s, j, Wire(id), a, k)
  }

  lemma {:induction false} GrantReachesTheWire(s: System, j: JobId, g: Grant, a: AgentId, k: RunId) returns (actions: seq<Action>, id: RequestId)
    requires Alive(s, j, g) && RunOf(s, j, g, a, k)
    ensures AlwaysGuarded(s, actions)
    ensures var t := Exec(s, actions);
            OnTheWire(t, j, a, k, id) && t.jobs == s.jobs && t.applied == s.applied && t.installs == s.installs
    decreases Stage(g)
  {
    hide Next, Guarded, Alive;
    if g.Wire? {
      actions, id := [], g.request;
    } else {
      UseIsGuarded(s, g);
      OneAction(s, Use(g));
      UseMoves(s, j, g);
      if g.Entry? {
        EntryWaits(s, j, g);
      }
      var rest;
      rest, id := GrantReachesTheWire(Next(s, Use(g)), j, Used(s, g), a, k);
      actions := [Use(g)];
      ExecAppend(s, actions, rest);
      actions := actions + rest;
    }
  }

  /** The authority has accepted the write, and the answer is on its way to the run. */
  predicate AcceptedFor(s: System, j: JobId, a: AgentId, k: RunId, id: RequestId) {
    RunOf(s, j, Wire(id), a, k) && id in s.answers && s.answers[id] == AuthorityAnswer(ACCEPTED)
  }

  lemma AuthorityAccepts(s: System, j: JobId, a: AgentId, k: RunId, id: RequestId)
    requires OnTheWire(s, j, a, k, id)
    ensures var t := Next(s, AuthorityHandles(id, true, ACCEPTED));
            && AcceptedFor(t, j, a, k, id) && t.jobs == s.jobs && t.installs == s.installs
            && t.applied == s.applied[j := Applied(s, j) + 1]
  {
    hide AgentStep, Delivered, Commit, Opened, Completed, Failed;
  }

  /** The run waits for the receipt of its report. */
  predicate Completes(s: System, a: AgentId, k: RunId, j: JobId, id: RequestId) {
    Runs(s, a, k) && var pc := s.agents[a].runs[k].pc; pc.Completing? && pc.item.id == j && pc.request == id
  }

  /** The run has its receipt: it counts the row as sent and hands in its record with the cursor on the row. */
  predicate Receipted(s: System, t: System, a: AgentId, k: RunId, j: JobId) {
    && a in s.agents && k in s.agents[a].runs && a in t.agents && k in t.agents[a].runs
    && var before, after := s.agents[a].runs[k], t.agents[a].runs[k];
    && after.pc == Saving(Progress) && after.record.sent == before.record.sent + 1
    && after.record.cursor.Some? && after.record.cursor.value.id == j
  }

  lemma RunIsReceipted(s: System, a: AgentId, k: RunId, j: JobId, id: RequestId)
    requires Completes(s, a, k, j, id) && id in s.answers && s.answers[id] == Ok
    ensures var t := Next(s, Deliver(a, k)); Receipted(s, t, a, k, j) && t.jobs == s.jobs && t.applied == s.applied
  {
    hide Commit, Opened, Completed, Failed, Written;
    RunStep(s.(answers := s.answers - {id}), a, k, Acknowledged);
  }

  lemma RunReports(s: System, j: JobId, a: AgentId, k: RunId, id: RequestId)
    requires AcceptedFor(s, j, a, k, id)
    ensures var t := Next(s, Deliver(a, k));
            && s.nextRequest in t.requests && t.requests[s.nextRequest] == CompleteRequest(j, s.installs[a])
            && t.jobs == s.jobs && t.applied == s.applied && Completes(t, a, k, j, s.nextRequest)
  {
    hide Commit, Opened, Completed, Failed, Written;
    RunStep(s.(answers := s.answers - {id}), a, k, WriteSettled(EgmRequest(true, ACCEPTED)));
  }

  /**
   A grant that can still be used, of a job its installation holds, can be brought to exactly one more
   application and then to its end: the job is done, neither it nor another job is changed otherwise, and the
   run has its receipt.
   */
  lemma GrantIsCompleted(s: System, j: JobId, g: Grant, a: AgentId, k: RunId) returns (actions: seq<Action>)
    requires Alive(s, j, g) && RunOf(s, j, g, a, k) && a in s.installs
    requires j in s.jobs && s.jobs[j].status == InProgress && s.jobs[j].worker == s.installs[a]
    ensures AlwaysGuarded(s, actions)
    ensures var t := Exec(s, actions);
            t.applied == s.applied[j := Applied(s, j) + 1] && t.jobs == s.jobs[j := s.jobs[j].(status := Done)]
    ensures exists prefix :: prefix < actions && Receipted(Exec(s, prefix), Exec(s, actions), a, k, j)
  {
    hide Next, Exec, AlwaysGuarded, Alive, RunOf, Completes, Receipted;
    var id;
    actions, id := GrantReachesTheWire(s, j, g, a, k);
    AuthorityAccepts(Exec(s, actions), j, a, k, id);
    OneMore(s, actions, AuthorityHandles(id, true, ACCEPTED));
    actions := actions + [AuthorityHandles(id, true, ACCEPTED)];
    var report := Exec(s, actions).nextRequest;
    RunReports(Exec(s, actions), j, a, k, id);
    actions := AndThen(s, actions, Deliver(a, k));
    Handled(Exec(s, actions), report);
    StillCompletes(Exec(s, actions), Next(Exec(s, actions), HandleComplete(report)), a, k, j, report);
    actions := AndThen(s, actions, HandleComplete(report));
    var prefix := actions;
    RunIsReceipted(Exec(s, prefix), a, k, j, report);
    OneMore(s, prefix, Deliver(a, k));
    actions := prefix + [Deliver(a, k)];
    assert prefix < actions;
  }

  lemma StillCompletes(s: System, t: System, a: AgentId, k: RunId, j: JobId, id: RequestId)
    requires Completes(s, a, k, j, id) && t.agents == s.agents && t.installs == s.installs
    ensures Completes(t, a, k, j, id)
  {
  }

  /** And so can a pending job with an attempt left, by any worker. */
  lemma PendingIsCompleted(s: System, a: AgentId, j: JobId) returns (actions: seq<Action>)
    requires Takeable(s, j) && a in s.agents && a in s.installs
    ensures AlwaysGuarded(s, actions)
    ensures var t := Exec(s, actions);
            Applied(t, j) == Applied(s, j) + 1 && j in t.jobs && t.jobs[j].status == Done
  {
    hide Next, Exec, AlwaysGuarded, Alive;
    var g;
    actions, g := PendingIsHeld(s, a, j);
    var t := Exec(s, actions);
    var rest := GrantIsCompleted(t, j, g, a, g.run);
    ExecAppend(s, actions, rest);
    actions := actions + rest;
  }
}
