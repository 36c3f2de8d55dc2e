/**
 What the system can be brought to do: a worker that was handed a job can be brought to have it applied,
 and a pending job with an attempt left can be brought into the hands of any worker.
 */
module KbsGrants {
  import opened Options
  import opened EgmTransport
  import opened PoliceAgent
  import opened KbsQueue
  import opened KbsSystem
  import opened KbsSafety

  const ACCEPTED := Response(200, false, Json(True))

  // ---------- a grant that can still be used ----------

  /** How far a worker has come that was handed the job. */
  datatype Grant =
    | Offer(agent: AgentId, run: RunId, request: RequestId)   // the answer is on its way
    | Check(agent: AgentId, run: RunId)                       // rechecking its context
    | Entry(agent: AgentId, run: RunId)                       // inside `send`
    | Wire(request: RequestId)                                // the write is on its way

  predicate Runs(s: System, a: AgentId, k: RunId) {
    a in s.agents && a in s.installs && k in s.agents[a].runs
  }

  /** The run holds the instance's current revision. */
  predicate Current(s: System, a: AgentId, k: RunId) {
    Runs(s, a, k) && s.agents[a].runs[k].revision == s.agents[a].revision
  }

  /** A run that waits for the answer to a claim of the job. */
  predicate Waits(s: System, a: AgentId, k: RunId, id: RequestId, j: JobId) {
    Current(s, a, k) && var pc := s.agents[a].runs[k].pc; pc.Claiming? && pc.item.id == j && pc.request == id
  }

  predicate Alive(s: System, j: JobId, g: Grant) {
    match g
    case Offer(a, k, id) => Waits(s, a, k, id, j) && id in s.answers && s.answers[id] == GrantedAnswer(j)
    case Check(a, k) => Current(s, a, k) && var pc := s.agents[a].runs[k].pc; pc.Rechecking? && pc.item.id == j
    case Entry(a, k) => Runs(s, a, k) && var pc := s.agents[a].runs[k].pc; pc.EnteringSend? && pc.item.id == j
    case Wire(id) => id in s.requests && s.requests[id] == WriteRequest(j)
  }

  /** The step that uses a grant, and the grant after it. */
  function Use(g: Grant): Action {
    match g
    case Offer(a, k, _) => Deliver(a, k)
    case Check(a, k) => Local(a, Settles(k, ContextOk))
    case Entry(a, k) => Local(a, Settles(k, LookupDone(false, NoResponse, true)))
    case Wire(id) => AuthorityHandles(id, true, ACCEPTED)
  }

  function Used(s: System, g: Grant): Grant {
    match g
    case Offer(a, k, _) => Check(a, k)
    case Check(a, k) => Entry(a, k)
    case Entry(_, _) => Wire(s.nextRequest)
    case Wire(_) => g
  }

  function Stage(g: Grant): nat {
    match g
    case Offer(_, _, _) => 3
    case Check(_, _) => 2
    case Entry(_, _) => 1
    case Wire(_) => 0
  }

  /** Two grants that do not get in each other's way. */
  predicate Apart(s: System, g: Grant, h: Grant) {
    && (g.Wire? || h.Wire? || (g.agent, g.run) != (h.agent, h.run))
    && (g.Offer? || g.Wire? ==> g.request < s.nextRequest)
    && (h.Offer? || h.Wire? ==> h.request < s.nextRequest)
    && ((g.Offer? || g.Wire?) && (h.Offer? || h.Wire?) ==> g.request != h.request)
  }

  lemma UseIsGuarded(s: System, g: Grant)
    ensures Guarded(s, Use(g))
  {
  }

  /** A run's step: what it does to the system. */
  lemma RunStep(s: System, a: AgentId, k: RunId, input: Input)
    requires Runs(s, a, k)
    ensures var d := Decide(s.agents[a].runs[k], s.agents[a].revision, s.agents[a].store, input, s.nextRequest);
            AgentStep(s, a, Settles(k, input)) ==
            Send(s.(agents := s.agents[a := Carry(s.agents[a], k, d.move)]), RequestOf(d.effect, s.installs[a]))
  {
    hide Decide;
  }

  /** A step of one run that keeps its place: other runs, and requests and answers of other names, stay. */
  predicate OnlyRun(s: System, t: System, a: AgentId, k: RunId) {
    && Runs(s, a, k) && t.installs == s.installs && t.agents.Keys == s.agents.Keys && s.nextRequest <= t.nextRequest
    && (forall b | b in s.agents && b != a :: t.agents[b] == s.agents[b])
    && t.agents[a].revision == s.agents[a].revision
    && k in t.agents[a].runs && t.agents[a].runs == s.agents[a].runs[k := t.agents[a].runs[k]]
  }

  /** What a step that uses a grant not yet on the wire does, and leaves. */
  predicate UseShape(s: System, t: System, j: JobId, g: Grant)
    requires !g.Wire?
  {
    && Alive(t, j, Used(s, g)) && OnlyRun(s, t, g.agent, g.run)
    && t.applied == s.applied && t.jobs == s.jobs && t.open == s.open
    && t.answers == (if g.Offer? then s.answers - {g.request} else s.answers)
    && t.requests == (if g.Entry? then s.requests[s.nextRequest := WriteRequest(j)] else s.requests)
    && t.nextRequest == s.nextRequest + (if g.Entry? then 1 else 0)
  }

  lemma OfferIsTaken(s: System, j: JobId, g: Grant)
    requires Alive(s, j, g) && g.Offer?
    ensures UseShape(s, Next(s, Use(g)), j, g)
  {
    hide Commit, Opened, Completed, Failed, Written;
    RunStep(s.(answers := s.answers - {g.request}), g.agent, g.run, Granted(j, true));
  }

  lemma CheckIsPassed(s: System, j: JobId, g: Grant)
    requires Alive(s, j, g) && g.Check?
    ensures UseShape(s, Next(s, Use(g)), j, g)
  {
    hide Commit, Opened, Completed, Failed, Written, Delivered;
    RunStep(s, g.agent, g.run, ContextOk);
  }

  lemma EntryWrites(s: System, j: JobId, g: Grant)
    requires Alive(s, j, g) && g.Entry?
    ensures UseShape(s, Next(s, Use(g)), j, g)
  {
    hide Commit, Opened, Completed, Failed, Written, Delivered;
    RunStep(s, g.agent, g.run, LookupDone(false, NoResponse, true));
  }

  lemma UseMoves(s: System, j: JobId, g: Grant)
    requires Alive(s, j, g) && !g.Wire?
    ensures UseShape(s, Next(s, Use(g)), j, g)
  {
    hide Next, UseShape;
    match g
    case Offer(_, _, _) => OfferIsTaken(s, j, g);
    case Check(_, _) => CheckIsPassed(s, j, g);
    case Entry(_, _) => EntryWrites(s, j, g);
  }

  lemma WireApplies(s: System, j: JobId, g: Grant)
    requires Alive(s, j, g) && g.Wire?
    ensures var t := Next(s, Use(g));
            && Applied(t, j) == Applied(s, j) + 1
            && t.jobs == s.jobs && t.agents.Keys == s.agents.Keys && t.installs == s.installs
  {
  }

  lemma OtherRunStays(s: System, t: System, j: JobId, a: AgentId, k: RunId, h: Grant)
    requires Alive(s, j, h) && OnlyRun(s, t, a, k) && (h.Wire? || (h.agent, h.run) != (a, k))
    requires h.Offer? ==> h.request in t.answers && t.answers[h.request] == s.answers[h.request]
    requires h.Wire? ==> h.request in t.requests && t.requests[h.request] == s.requests[h.request]
    ensures Alive(t, j, h)
  {
  }

  lemma OtherSurvivesWrite(s: System, j: JobId, g: Grant, h: Grant)
    requires Alive(s, j, g) && g.Wire? && Alive(s, j, h) && Apart(s, g, h)
    ensures var t := Next(s, Use(g)); Alive(t, j, h) && Apart(t, g, h)
  {
    hide AgentStep, Delivered, Commit, Opened, Completed, Failed;
  }

  /** Using one grant leaves the other as it is. */
  lemma OtherStays(s: System, j: JobId, g: Grant, h: Grant)
    requires Alive(s, j, g) && Alive(s, j, h) && Apart(s, g, h)
    ensures var t := Next(s, Use(g)); Alive(t, j, h) && Apart(t, Used(s, g), h)
  {
    var t := Next(s, Use(g));
    if g.Wire? {
      OtherSurvivesWrite(s, j, g, h);
    } else {
      UseMoves(s, j, g);
      hide Next;
      OtherRunStays(s, t, j, g.agent, g.run, h);
    }
  }

  lemma {:induction false} ExecAppend(s: System, first: seq<Action>, second: seq<Action>)
    ensures Exec(s, first + second) == Exec(Exec(s, first), second)
    ensures AlwaysGuarded(s, first + second) <==> AlwaysGuarded(s, first) && AlwaysGuarded(Exec(s, first), second)
    decreases |first|
  {
    hide Next, Guarded;
    if first == [] {
      assert first + second == second;
    } else {
      assert (first + second)[1..] == first[1..] + second;
      ExecAppend(Next(s, first[0]), first[1..], second);
    }
  }

  lemma OneAction(s: System, action: Action)
    ensures Exec(s, [action]) == Next(s, action)
    ensures AlwaysGuarded(s, [action]) <==> Guarded(s, action)
  {
    hide Next, Guarded;
    assert [action][1..] == [];
  }

  /** A usable grant can be used: one more application, without a takeover, and the other grant is left. */
  lemma {:induction false} GrantIsUsed(s: System, j: JobId, g: Grant, h: Option<Grant>) returns (actions: seq<Action>)
    requires Alive(s, j, g) && (h.Some? ==> Alive(s, j, h.value) && Apart(s, g, h.value))
    ensures AlwaysGuarded(s, actions) && Applied(Exec(s, actions), j) == Applied(s, j) + 1
    ensures var t := Exec(s, actions); t.jobs == s.jobs && t.agents.Keys == s.agents.Keys && t.installs == s.installs
    ensures h.Some? ==> Alive(Exec(s, actions), j, h.value)
    decreases Stage(g)
  {
    hide Next, Guarded, Alive, Apart;
    var t := Next(s, Use(g));
    UseIsGuarded(s, g);
    OneAction(s, Use(g));
    if h.Some? {
      OtherStays(s, j, g, h.value);
    }
    actions := [Use(g)];
    if g.Wire? {
      WireApplies(s, j, g);
    } else {
      UseMoves(s, j, g);
      var rest := GrantIsUsed(t, j, Used(s, g), h);
      ExecAppend(s, actions, rest);
      actions := actions + rest;
    }
  }

  // ---------- a pending job that is claimed ----------

  lemma OneMore(s: System, actions: seq<Action>, action: Action)
    ensures Exec(s, actions + [action]) == Next(Exec(s, actions), action)
    ensures AlwaysGuarded(s, actions + [action]) <==> AlwaysGuarded(s, actions) && Guarded(Exec(s, actions), action)
  {
    ExecAppend(s, actions, [action]);
    OneAction(Exec(s, actions), action);
  }

  /** The first run of an instance waits at this point. */
  predicate Has(s: System, a: AgentId, pc: Pc) {
    a in s.agents && a in s.installs && 0 in s.agents[a].runs && s.agents[a].runs[0].pc == pc
    && s.agents[a].runs[0].revision == s.agents[a].revision
  }

  /** A switched-on instance at rest. */
  predicate Ready(s: System, a: AgentId) {
    && a in s.agents && a in s.installs
    && var agent := s.agents[a];
       !agent.running && agent.runs == map[] && agent.chain == [] && agent.store.Some? && agent.store.value.enabled
  }

  /** Nothing but the instance changes. */
  predicate OnlyAgent(s: System, t: System, a: AgentId) {
    a in s.agents && a in t.agents && t == s.(agents := s.agents[a := t.agents[a]])
  }

  /** The state of an instance that has died and whose operator starts it again, before the given step of the command. */
  predicate Starting(s: System, a: AgentId, start: StartPc) {
    && a in s.agents && a in s.installs
    && var agent := s.agents[a];
       !agent.running && agent.runs == map[] && agent.chain == [Start(start)]
  }

  lemma DiesAndSubmits(s: System, a: AgentId)
    requires a in s.agents && a in s.installs
    ensures var t := Next(Next(s, Dies(a)), Local(a, Submit(Start(StartQueued(true)))));
            Starting(t, a, StartQueued(true)) && OnlyAgent(s, t, a)
  {
    hide Delivered, Opened, Commit, Completed, Failed, Written;
  }

  function AfterStart(start: StartPc): StartPc {
    match start
    case StartQueued(_) => StartReading
    case StartReading => StartChecking
    case StartChecking => StartWriting
    case _ => StartArming
  }

  lemma StartGoesOn(s: System, a: AgentId, start: StartPc)
    requires Starting(s, a, start) && start in {StartQueued(true), StartReading, StartChecking, StartWriting}
    ensures var t := Next(s, Local(a, ChainStep(true)));
            && Starting(t, a, AfterStart(start)) && OnlyAgent(s, t, a)
            && (start == StartWriting ==> t.agents[a].store == Some(Saved(true, None, 0, 0)))
  {
    hide Delivered, Opened, Commit, Completed, Failed, Written;
  }

  lemma StartEnds(s: System, a: AgentId)
    requires Starting(s, a, StartArming) && s.agents[a].store == Some(Saved(true, None, 0, 0))
    ensures var t := Next(s, Local(a, ChainStep(true))); Ready(t, a) && OnlyAgent(s, t, a)
  {
    hide Delivered, Opened, Commit, Completed, Failed, Written;
  }

  /** Any instance can be brought to rest and switched on. */
  lemma GetsReady(s: System, a: AgentId) returns (actions: seq<Action>)
    requires a in s.agents && a in s.installs
    ensures AlwaysGuarded(s, actions) && Ready(Exec(s, actions), a) && OnlyAgent(s, Exec(s, actions), a)
  {
    hide Exec, Next, Ready, Starting, AlwaysGuarded;
    DiesAndSubmits(s, a);
    OneAction(s, Dies(a));
    actions := [Dies(a)];
    actions := AndThen(s, actions, Local(a, Submit(Start(StartQueued(true)))));
    StartGoesOn(Exec(s, actions), a, StartQueued(true));
    actions := AndThen(s, actions, Local(a, ChainStep(true)));
    StartGoesOn(Exec(s, actions), a, StartReading);
    actions := AndThen(s, actions, Local(a, ChainStep(true)));
    StartGoesOn(Exec(s, actions), a, StartChecking);
    actions := AndThen(s, actions, Local(a, ChainStep(true)));
    StartGoesOn(Exec(s, actions), a, StartWriting);
    actions := AndThen(s, actions, Local(a, ChainStep(true)));
    StartEnds(Exec(s, actions), a);
    actions := AndThen(s, actions, Local(a, ChainStep(true)));
  }

  /** A step that is neither a claim's commit nor the authority's is guarded. */
  lemma AndThen(s: System, before: seq<Action>, action: Action) returns (actions: seq<Action>)
    requires AlwaysGuarded(s, before) && !action.CommitClaim? && !action.AuthorityHandles?
    ensures AlwaysGuarded(s, actions) && Exec(s, actions) == Next(Exec(s, before), action)
  {
    hide Next, Exec;
    OneMore(s, before, action);
    actions := before + [action];
  }

  lemma RecordIsRead(s: System, a: AgentId)
    requires Ready(s, a)
    ensures var t := Next(Next(s, Local(a, AlarmFires(0))), Local(a, Settles(0, ReadDone)));
            Has(t, a, Preparing) && OnlyAgent(s, t, a)
  {
    hide Delivered, Opened, Commit, Completed, Failed, Written;
    var t := Next(s, Local(a, AlarmFires(0)));
    assert Has(t, a, Reading) && OnlyAgent(s, t, a) && t.agents[a].store == s.agents[a].store;
  }

  /** The worker has asked for the job. */
  predicate Asked(s: System, t: System, a: AgentId, j: JobId) {
    && a in s.installs && Has(t, a, Claiming(Item(j, true), s.nextRequest))
    && t == s.(agents := s.agents[a := t.agents[a]], nextRequest := s.nextRequest + 1,
               requests := s.requests[s.nextRequest := ClaimRequest(j, s.installs[a])])
  }

  lemma FeedIsRead(s: System, a: AgentId, j: JobId)
    requires Has(s, a, Preparing)
    ensures Asked(s, Next(s, Local(a, Settles(0, PageReady([Item(j, true)], false)))), a, j)
  {
    hide Delivered, Opened, Commit, Completed, Failed, Written;
  }

  /** An alarm, the stored record and the feed bring an instance to its claim request. */
  lemma AsksForJob(s: System, a: AgentId, j: JobId) returns (actions: seq<Action>)
    requires Ready(s, a)
    ensures AlwaysGuarded(s, actions) && Asked(s, Exec(s, actions), a, j)
  {
    hide Next, Exec, AlwaysGuarded, Ready;
    OneAction(s, Local(a, AlarmFires(0)));
    actions := [Local(a, AlarmFires(0))];
    actions := AndThen(s, actions, Local(a, Settles(0, ReadDone)));
    RecordIsRead(s, a);
    FeedIsRead(Exec(s, actions), a, j);
    actions := AndThen(s, actions, Local(a, Settles(0, PageReady([Item(j, true)], false))));
  }

  predicate Claims(s: System, id: RequestId, j: JobId) {
    id in s.requests && s.requests[id].ClaimRequest? && s.requests[id].job == j
  }

  /** A handler opens a claim of a pending job. */
  lemma ClaimIsOpened(s: System, id: RequestId, j: JobId)
    requires Claims(s, id, j) && j in s.jobs && s.jobs[j].status == Pending
    ensures Next(s, OpenClaimHandler(id)) ==
            s.(requests := s.requests - {id}, open := s.open[id := OpenClaim(j, s.requests[id].worker, s.now)])
  {
    hide AgentStep, Delivered, Commit, Completed, Failed, Written;
  }

  /** A handler commits a claim it can take. */
  lemma ClaimIsGranted(s: System, id: RequestId, j: JobId)
    requires id in s.open && s.open[id].job == j && j in s.jobs
    requires Claimable(s.jobs[j], s.open[id].at) && s.jobs[j].attempts < s.jobs[j].maxAttempts
    ensures var job := Claim(s.jobs[j], s.open[id].worker, s.open[id].at, true).job;
            Next(s, CommitClaim(id, true)) == Answered(s.(jobs := s.jobs[j := job]), id, GrantedAnswer(j))
  {
    hide AgentStep, Delivered, Opened, Completed, Failed, Written;
  }

  lemma TimePasses(s: System, elapsed: nat)
    ensures Next(s, Tick(elapsed)) == s.(now := s.now + elapsed)
  {
    hide AgentStep, Delivered, Commit, Opened, Completed, Failed, Written;
  }

  predicate Takeable(s: System, j: JobId) {
    j in s.jobs && s.jobs[j].status == Pending && s.jobs[j].attempts < s.jobs[j].maxAttempts
  }

  /** The worker holds the job, with one attempt used for it. */
  predicate HeldBy(s: System, t: System, j: JobId, worker: WorkerId) {
    && j in s.jobs && j in t.jobs && Owns(t.jobs[j], worker)
    && t.jobs[j].attempts == s.jobs[j].attempts + 1 && t.jobs[j].maxAttempts == s.jobs[j].maxAttempts
  }

  /** Earlier requests are still there. */
  predicate KeepsRequests(s: System, t: System) {
    s.nextRequest <= t.nextRequest && forall i | i in s.requests && i < s.nextRequest :: i in t.requests && t.requests[i] == s.requests[i]
  }

  /** A pending job past its backoff is handed to the worker that asks for it. */
  lemma PendingIsOffered(s: System, a: AgentId, j: JobId) returns (actions: seq<Action>)
    requires Ready(s, a) && Takeable(s, j) && s.jobs[j].nextRetryAt <= s.now
    ensures var t := Exec(s, actions);
            && AlwaysGuarded(s, actions) && Alive(t, j, Offer(a, 0, s.nextRequest)) && t.applied == s.applied
            && HeldBy(s, t, j, s.installs[a]) && KeepsRequests(s, t)
            && t.installs == s.installs && t.agents.Keys == s.agents.Keys
  {
    hide Next, Exec, AlwaysGuarded, Ready;
    assert a in s.agents && a in s.installs by { ReadyIsThere(s, a); }
    var id := s.nextRequest;
    actions := AsksForJob(s, a, j);
    var s1 := Exec(s, actions);
    ClaimIsOpened(s1, id, j);
    actions := AndThen(s, actions, OpenClaimHandler(id));
    var s2 := Exec(s, actions);
    ClaimIsGranted(s2, id, j);
    OneMore(s, actions, CommitClaim(id, true));
    actions := actions + [CommitClaim(id, true)];
  }

  lemma ReadyIsThere(s: System, a: AgentId)
    requires Ready(s, a)
    ensures a in s.agents && a in s.installs
  {
  }

  /** Any worker can be brought to hold a pending job, after a restart and the backoff. */
  lemma PendingIsHeld(s: System, a: AgentId, j: JobId) returns (actions: seq<Action>, g: Grant)
    requires Takeable(s, j) && a in s.agents && a in s.installs
    ensures var t := Exec(s, actions);
            && AlwaysGuarded(s, actions) && Alive(t, j, g) && g.Offer? && g.agent == a && s.nextRequest <= g.request && t.applied == s.applied
            && HeldBy(s, t, j, s.installs[a]) && KeepsRequests(s, t)
            && t.installs == s.installs && t.agents.Keys == s.agents.Keys
  {
    hide Next, Exec, AlwaysGuarded, Alive, Ready;
    actions := GetsReady(s, a);
    var s1 := Exec(s, actions);
    var wait := if s1.jobs[j].nextRetryAt <= s1.now then 0 else s1.jobs[j].nextRetryAt - s1.now;
    TimePasses(s1, wait);
    actions := AndThen(s, actions, Tick(wait));
    var s2 := Exec(s, actions);
    SameReady(s1, s2, a);
    var offering := PendingIsOffered(s2, a, j);
    ExecAppend(s, actions, offering);
    actions := actions + offering;
    g := Offer(a, 0, s2.nextRequest);
  }

  /** So a pending job with an attempt left can be brought to one more application, by any worker. */
  lemma PendingIsApplied(s: System, a: AgentId, j: JobId) returns (actions: seq<Action>)
    requires Takeable(s, j) && a in s.agents && a in s.installs
    ensures AlwaysGuarded(s, actions) && Applied(Exec(s, actions), j) == Applied(s, j) + 1
  {
    hide Next, Exec, AlwaysGuarded, Alive;
    var g;
    actions, g := PendingIsHeld(s, a, j);
    var t := Exec(s, actions);
    var using := GrantIsUsed(t, j, g, None);
    ExecAppend(s, actions, using);
    actions := actions + using;
  }

  lemma SameReady(s: System, t: System, a: AgentId)
    requires Ready(s, a) && t.agents == s.agents && t.installs == s.installs
    ensures Ready(t, a)
  {
  }
}
