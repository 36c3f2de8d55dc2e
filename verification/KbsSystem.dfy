/**
 Worker instances, the job queue, the network and the authority together. Requests wait in the network
 until the receiver handles them, however late, or are lost; answers are delivered, or the sender gives
 up first. A claim handler reads the clock and parks an expired lease in one step and does its
 compare-and-set in a later one. Service workers die at any point, and several may share an
 installation and so a worker id.
 */
module KbsSystem {
  import opened Options
  import opened EgmTransport
  import opened PoliceAgent
  import opened KbsQueue

  type AgentId = nat

  datatype Request =
    | ClaimRequest(job: JobId, worker: WorkerId)
    | CompleteRequest(job: JobId, worker: WorkerId)
    | FailRequest(job: JobId, worker: WorkerId, uncertain: bool)
    | WriteRequest(job: JobId)

  /** A claim whose handler has read the clock but not yet written. */
  datatype OpenClaim = OpenClaim(job: JobId, worker: WorkerId, at: int)

  datatype Answer = GrantedAnswer(job: JobId) | Ok | Error(status: int) | AuthorityAnswer(reply: Reply)

  datatype System = System(
    now: int,
    jobs: map<JobId, Job>,
    applied: map<JobId, nat>,
    agents: map<AgentId, Agent>,
    installs: map<AgentId, WorkerId>,
    requests: map<RequestId, Request>,
    open: map<RequestId, OpenClaim>,
    answers: map<RequestId, Answer>,
    nextRequest: RequestId)

  function Applied(s: System, j: JobId): nat {
    if j in s.applied then s.applied[j] else 0
  }

  datatype Action =
    | Tick(elapsed: nat)
    | Enqueue(job: JobId, maxAttempts: nat)
    | OperatorRequeue(job: JobId)
    | Local(agent: AgentId, event: Event)
    | Deliver(agent: AgentId, run: RunId)
    | Dies(agent: AgentId)
    | Lost(request: RequestId)
    | OpenClaimHandler(request: RequestId)
    | CommitClaim(request: RequestId, complete: bool)
    | HandleComplete(request: RequestId)
    | HandleFail(request: RequestId, permanent: bool)
    | AuthorityHandles(request: RequestId, applies: bool, reply: Reply)

  /** What an await can settle with when no answer reached the browser, or one from outside the handlers did. */
  predicate BrowserSide(input: Input) {
    match input
    case Granted(_, _) => false
    case Acknowledged => false
    case WriteSettled(outcome) => outcome.Rejected? && outcome.uncertain && outcome.error in {Network, BodyLost}
    case _ => true
  }

  /** The request a run waits for, if it waits for one. */
  function Awaited(pc: Pc): Option<RequestId> {
    match pc
    case Claiming(_, id) => Some(id)
    case Releasing(_, id) => Some(id)
    case Writing(_, id) => Some(id)
    case Completing(_, id) => Some(id)
    case FailingUncertain(_, id, _) => Some(id)
    case Failing(_, id, _) => Some(id)
    case _ => None
  }

  function AnswerInput(answer: Answer): Input {
    match answer
    case GrantedAnswer(job) => Granted(job, true)
    case Ok => Acknowledged
    case Error(status) => Threw(status)
    case AuthorityAnswer(reply) => WriteSettled(EgmRequest(true, reply))
  }

  /** The authority may answer a write it applied in any way except an explicit refusal. */
  predicate Honest(applies: bool, reply: Reply) {
    applies ==> !ExplicitRefusal(reply)
  }

  predicate HasAnswer(s: System, agent: AgentId, run: RunId) {
    && agent in s.agents && agent in s.installs
    && run in s.agents[agent].runs
    && Awaited(s.agents[agent].runs[run].pc).Some?
    && Awaited(s.agents[agent].runs[run].pc).value in s.answers
  }

  predicate Enabled(s: System, action: Action) {
    match action
    case Tick(_) => true
    case Enqueue(job, _) => job !in s.jobs
    case OperatorRequeue(job) => job in s.jobs
    case Local(agent, event) => agent in s.agents && agent in s.installs && (event.Settles? ==> BrowserSide(event.input))
    case Deliver(agent, run) => HasAnswer(s, agent, run)
    case Dies(agent) => agent in s.agents
    case Lost(request) => request in s.requests
    case OpenClaimHandler(request) => request in s.requests && s.requests[request].ClaimRequest?
    case CommitClaim(request, _) => request in s.open
    case HandleComplete(request) => request in s.requests && s.requests[request].CompleteRequest?
    case HandleFail(request, _) => request in s.requests && s.requests[request].FailRequest?
    case AuthorityHandles(request, _, _) =>
      request in s.requests && s.requests[request].WriteRequest?
  }

  /** An agent's effect becomes a request in the network. */
  function RequestOf(effect: Effect, worker: WorkerId): Option<Request> {
    match effect
    case AskClaim(job) => Some(ClaimRequest(job, worker))
    case AskComplete(job) => Some(CompleteRequest(job, worker))
    case AskFail(job, uncertain) => Some(FailRequest(job, worker, uncertain))
    case IssueWrite(job) => Some(WriteRequest(job))
    case _ => None
  }

  function Send(s: System, sent: Option<Request>): System {
    if sent.None? then s
    else s.(requests := s.requests[s.nextRequest := sent.value], nextRequest := s.nextRequest + 1)
  }

  function AgentStep(s: System, agent: AgentId, event: Event): System
    requires agent in s.agents && agent in s.installs
  {
    var a := s.agents[agent];
    var effect := EffectOf(a, event, s.nextRequest);
    Send(s.(agents := s.agents[agent := After(a, event, s.nextRequest)]), RequestOf(effect, s.installs[agent]))
  }

  function Answered(s: System, request: RequestId, answer: Answer): System {
    s.(requests := s.requests - {request}, open := s.open - {request}, answers := s.answers[request := answer])
  }

  /** Only pending jobs past their backoff, and jobs whose lease has run out, are claimed; the rest answer 409. */
  function Commit(s: System, request: RequestId, complete: bool): System
    requires request in s.open
  {
    var c := s.open[request];
    if c.job !in s.jobs then Answered(s, request, Error(404))
    else
      var result := Claim(s.jobs[c.job], c.worker, c.at, complete);
      var t := s.(jobs := s.jobs[c.job := result.job]);
      if result.granted then Answered(t, request, GrantedAnswer(c.job))
      else Answered(t, request, Error(if result.job != s.jobs[c.job] && !complete then 422 else 409))
  }

  function Delivered(s: System, agent: AgentId, run: RunId): System
    requires HasAnswer(s, agent, run)
  {
    var request := Awaited(s.agents[agent].runs[run].pc).value;
    AgentStep(s.(answers := s.answers - {request}), agent, Settles(run, AnswerInput(s.answers[request])))
  }

  /** The first half of a claim: the handler reads the clock and parks the job if its lease has run out. */
  function Opened(s: System, request: RequestId): System
    requires request in s.requests && s.requests[request].ClaimRequest?
  {
    var c := s.requests[request];
    if c.job !in s.jobs then Answered(s, request, Error(404))
    else if Expired(s.jobs[c.job], s.now) then
      Answered(s.(jobs := s.jobs[c.job := Park(s.jobs[c.job])]), request, Error(409))
    else
      s.(requests := s.requests - {request}, open := s.open[request := OpenClaim(c.job, c.worker, s.now)])
  }

  function Completed(s: System, request: RequestId): System
    requires request in s.requests && s.requests[request].CompleteRequest?
  {
    var c := s.requests[request];
    if c.job !in s.jobs then Answered(s, request, Error(404))
    else
      var job := s.jobs[c.job];
      Answered(s.(jobs := s.jobs[c.job := Complete(job, c.worker)]), request, OwnerAnswer(job, c.worker))
  }

  function OwnerAnswer(job: Job, worker: WorkerId): Answer {
    if Owns(job, worker) then Ok else Error(if job.status == InProgress then 403 else 409)
  }

  function Failed(s: System, request: RequestId, permanent: bool): System
    requires request in s.requests && s.requests[request].FailRequest?
  {
    var c := s.requests[request];
    if c.job !in s.jobs then Answered(s, request, Error(404))
    else
      var job := s.jobs[c.job];
      Answered(s.(jobs := s.jobs[c.job := Fail(job, c.worker, !c.uncertain, c.uncertain, permanent, s.now)]),
               request, OwnerAnswer(job, c.worker))
  }

  function Written(s: System, request: RequestId, applies: bool, reply: Reply): System
    requires request in s.requests && s.requests[request].WriteRequest?
  {
    var j := s.requests[request].job;
    Answered(s.(applied := s.applied[j := Applied(s, j) + (if applies then 1 else 0)]), request, AuthorityAnswer(reply))
  }

  function Next(s: System, action: Action): System {
    if !Enabled(s, action) then s else
    match action
    case Tick(elapsed) => s.(now := s.now + elapsed)
    case Enqueue(job, maxAttempts) => s.(jobs := s.jobs[job := NewJob(maxAttempts)])
    case OperatorRequeue(job) => s.(jobs := s.jobs[job := Requeue(s.jobs[job])])
    case Local(agent, event) => AgentStep(s, agent, event)
    case Deliver(agent, run) => Delivered(s, agent, run)
    case Dies(agent) => s.(agents := s.agents[agent := Fresh(s.agents[agent].store, s.agents[agent].alarm)])
    case Lost(request) => s.(requests := s.requests - {request})
    case OpenClaimHandler(request) => Opened(s, request)
    case CommitClaim(request, complete) => Commit(s, request, complete)
    case HandleComplete(request) => Completed(s, request)
    case HandleFail(request, permanent) => Failed(s, request, permanent)
    case AuthorityHandles(request, applies, reply) => Written(s, request, applies, reply)
  }

  function Exec(s: System, actions: seq<Action>): System
    decreases |actions|
  {
    if actions == [] then s else Exec(Next(s, actions[0]), actions[1..])
  }

  /** Fresh instances over whatever their browsers kept, an empty queue and an empty network. */
  predicate Initial(s: System) {
    && s.jobs == map[] && s.applied == map[]
    && s.requests == map[] && s.open == map[] && s.answers == map[]
    && s.agents.Keys == s.installs.Keys
    && forall a | a in s.agents :: s.agents[a].runs == map[] && !s.agents[a].running && s.agents[a].chain == []
  }

  /** A claim whose compare-and-set takes a job that is still in progress: the lease ran out after the first half looked. */
  predicate TakesOver(s: System, action: Action) {
    && action.CommitClaim? && action.request in s.open
    && var c := s.open[action.request]; c.job in s.jobs && Expired(s.jobs[c.job], c.at)
  }

  /** No job is taken over from its holder, and the authority does not refuse what it applied. */
  predicate Guarded(s: System, action: Action) {
    !TakesOver(s, action) && (action.AuthorityHandles? ==> Honest(action.applies, action.reply))
  }

  predicate AlwaysGuarded(s: System, actions: seq<Action>)
    decreases |actions|
  {
    actions != [] ==> Guarded(s, actions[0]) && AlwaysGuarded(Next(s, actions[0]), actions[1..])
  }

  /** Every claim handler does its write before the lease it is about to grant could run out. */
  predicate Prompt(s: System, action: Action) {
    && (action.CommitClaim? && action.request in s.open ==> s.now <= s.open[action.request].at + LEASE)
    && (action.AuthorityHandles? ==> Honest(action.applies, action.reply))
  }

  predicate AlwaysPrompt(s: System, actions: seq<Action>)
    decreases |actions|
  {
    actions != [] ==> Prompt(s, actions[0]) && AlwaysPrompt(Next(s, actions[0]), actions[1..])
  }
}
