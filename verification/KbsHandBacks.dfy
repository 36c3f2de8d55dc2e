/**
 Hand-backs: a run that was stopped, or refused by the authority, asks the queue to offer its job again.
 What the system can be brought to do with such a request, and with a run that is about to send one.
 */
module KbsHandBacks {
  import opened Options
  import opened EgmTransport
  import opened PoliceAgent
  import opened KbsQueue
  import opened KbsSystem
  import opened KbsSafety
  import opened KbsGrants

  /** A run that will hand the job back unwritten, once it has taken up its offer or read its answer. */
  predicate Returns(s: System, j: JobId, a: AgentId, k: RunId)
    requires a in s.agents && k in s.agents[a].runs
  {
    match s.agents[a].runs[k].pc
    case Claiming(item, id) => item.id == j && IsOffered(s, item, id) && !Current(s, a, k)
    case Rechecking(item) => item.id == j && !Current(s, a, k)
    case Writing(item, id) => item.id == j && IsRefused(s, id)
    case _ => false
  }

  predicate HandBack(s: System, f: RequestId, j: JobId, worker: WorkerId) {
    f in s.requests && f < s.nextRequest && s.requests[f] == FailRequest(j, worker, false)
  }

  /** Steps of one run that leave all else as it is, but for new requests and the answer it waited for. */
  predicate Beside(s: System, t: System, a: AgentId, k: RunId, taken: set<RequestId>) {
    && OnlyRun(s, t, a, k)
    && t.jobs == s.jobs && t.applied == s.applied && t.open == s.open && t.now == s.now
    && (forall i | i in s.requests && i < s.nextRequest :: i in t.requests && t.requests[i] == s.requests[i])
    && (forall i | i in s.answers && i !in taken :: i in t.answers && t.answers[i] == s.answers[i])
  }

  lemma SendsHandBack(s: System, a: AgentId, k: RunId, j: JobId, input: Input)
    requires Runs(s, a, k)
    requires var d := Decide(s.agents[a].runs[k], s.agents[a].revision, s.agents[a].store, input, s.nextRequest);
             d.effect == AskFail(j, false) && d.move.Proceed? && d.move.run.revision == s.agents[a].runs[k].revision
    ensures var t := AgentStep(s, a, Settles(k, input));
            Beside(s, t, a, k, {}) && HandBack(t, s.nextRequest, j, s.installs[a]) && t.nextRequest == s.nextRequest + 1
  {
    hide Decide;
    RunStep(s, a, k, input);
  }

  lemma BesideTwice(s: System, t: System, u: System, a: AgentId, k: RunId, taken: set<RequestId>)
    requires Beside(s, t, a, k, taken) && Beside(t, u, a, k, {})
    ensures Beside(s, u, a, k, taken)
  {
  }

  /** A run that was handed the job, stopped or not, takes it up. */
  lemma TakesUp(s: System, a: AgentId, k: RunId, item: Item, id: RequestId)
    requires Runs(s, a, k) && s.agents[a].runs[k].pc == Claiming(item, id) && IsOffered(s, item, id)
    ensures var t := Next(s, Deliver(a, k));
            && Beside(s, t, a, k, {id}) && t.agents[a].runs[k].pc == Rechecking(item)
            && t.agents[a].runs[k].revision == s.agents[a].runs[k].revision && t.nextRequest == s.nextRequest
  {
    hide Commit, Opened, Completed, Failed, Written;
    RunStep(s.(answers := s.answers - {id}), a, k, Granted(item.id, true));
  }

  lemma StoppedReturns(s: System, a: AgentId, k: RunId, item: Item)
    requires Runs(s, a, k) && s.agents[a].runs[k].pc == Rechecking(item) && !Current(s, a, k)
    ensures var t := Next(s, Local(a, Settles(k, ContextOk)));
            Beside(s, t, a, k, {}) && HandBack(t, s.nextRequest, item.id, s.installs[a])
  {
    hide Commit, Opened, Completed, Failed, Written, Delivered;
    SendsHandBack(s, a, k, item.id, ContextOk);
  }

  lemma RefusalDecides(r: Run, revision: nat, store: Option<Saved>, item: Item, id: RequestId, reply: Reply, next: RequestId)
    requires r.pc == Writing(item, id) && ExplicitRefusal(reply)
    ensures var d := Decide(r, revision, store, WriteSettled(EgmRequest(true, reply)), next);
            d.effect == AskFail(item.id, false) && d.move.Proceed? && d.move.run.revision == r.revision
  {
    DefiniteRejectionIsExplicitRefusal(reply);
    hide EgmRequest;
  }

  lemma RefusedReturns(s: System, a: AgentId, k: RunId, item: Item, id: RequestId)
    requires Runs(s, a, k) && s.agents[a].runs[k].pc == Writing(item, id) && IsRefused(s, id)
    ensures var t := Next(s, Deliver(a, k));
            Beside(s, t, a, k, {id}) && HandBack(t, s.nextRequest, item.id, s.installs[a])
  {
    hide Commit, Opened, Completed, Failed, Written, Decide, EgmRequest, ExplicitRefusal, AgentStep;
    var u := s.(answers := s.answers - {id});
    RefusalDecides(u.agents[a].runs[k], u.agents[a].revision, u.agents[a].store, item, id, s.answers[id].reply, u.nextRequest);
    SendsHandBack(u, a, k, item.id, WriteSettled(EgmRequest(true, s.answers[id].reply)));
  }

  /** A run that may write can be kept from it by the checks inside `send`. */
  lemma BlockedReturns(s: System, a: AgentId, k: RunId, item: Item)
    requires Runs(s, a, k) && s.agents[a].runs[k].pc == EnteringSend(item)
    ensures var t := Next(s, Local(a, Settles(k, SendBlocked(false))));
            Beside(s, t, a, k, {}) && HandBack(t, s.nextRequest, item.id, s.installs[a])
  {
    hide Commit, Opened, Completed, Failed, Written, Delivered;
    SendsHandBack(s, a, k, item.id, SendBlocked(false));
  }

  lemma PassesCheck(s: System, a: AgentId, k: RunId, item: Item)
    requires Current(s, a, k) && s.agents[a].runs[k].pc == Rechecking(item)
    ensures var t := Next(s, Local(a, Settles(k, ContextOk)));
            Beside(s, t, a, k, {}) && Runs(t, a, k) && t.agents[a].runs[k].pc == EnteringSend(item)
  {
    hide Commit, Opened, Completed, Failed, Written, Delivered;
    RunStep(s, a, k, ContextOk);
  }

  /** A run about to recheck its context can be brought to hand the job back, whether it was stopped or not. */
  lemma CheckReturns(s: System, a: AgentId, k: RunId, item: Item) returns (actions: seq<Action>, f: RequestId)
    requires Runs(s, a, k) && s.agents[a].runs[k].pc == Rechecking(item)
    ensures var t := Exec(s, actions);
            AlwaysGuarded(s, actions) && Beside(s, t, a, k, {}) && HandBack(t, f, item.id, s.installs[a]) && s.nextRequest <= f
  {
    hide Next, Exec, AlwaysGuarded, Beside, HandBack;
    var check := Local(a, Settles(k, ContextOk));
    OneAction(s, check);
    actions := [check];
    f := s.nextRequest;
    if Current(s, a, k) {
      PassesCheck(s, a, k, item);
      var t := Next(s, check);
      f := t.nextRequest;
      BlockedReturns(t, a, k, item);
      actions := AndThen(s, actions, Local(a, Settles(k, SendBlocked(false))));
      BesideTwice(s, t, Exec(s, actions), a, k, {});
      SameInstall(s, t, a, k, {});
    } else {
      StoppedReturns(s, a, k, item);
    }
  }

  lemma SameInstall(s: System, t: System, a: AgentId, k: RunId, taken: set<RequestId>)
    requires Beside(s, t, a, k, taken)
    ensures t.installs == s.installs && Runs(t, a, k) && s.nextRequest <= t.nextRequest
  {
  }

  /** So can a run whose claim was granted. */
  lemma OfferReturns(s: System, a: AgentId, k: RunId, item: Item, id: RequestId) returns (actions: seq<Action>, f: RequestId)
    requires Runs(s, a, k) && s.agents[a].runs[k].pc == Claiming(item, id) && IsOffered(s, item, id)
    ensures var t := Exec(s, actions);
            AlwaysGuarded(s, actions) && Beside(s, t, a, k, {id}) && HandBack(t, f, item.id, s.installs[a]) && s.nextRequest <= f
  {
    hide Next, Exec, AlwaysGuarded, Beside, HandBack;
    TakesUp(s, a, k, item, id);
    var t := Next(s, Deliver(a, k));
    SameInstall(s, t, a, k, {id});
    OneAction(s, Deliver(a, k));
    var rest;
    rest, f := CheckReturns(t, a, k, item);
    ExecAppend(s, [Deliver(a, k)], rest);
    actions := [Deliver(a, k)] + rest;
    BesideTwice(s, t, Exec(s, actions), a, k, {id});
  }

  function Awaiting(pc: Pc): set<RequestId> {
    if Awaited(pc).Some? then {Awaited(pc).value} else {}
  }

  /** A run that will hand the job back can be brought to do so. */
  lemma RunReturns(s: System, j: JobId, a: AgentId, k: RunId) returns (actions: seq<Action>, f: RequestId)
    requires Runs(s, a, k) && Returns(s, j, a, k)
    ensures var t := Exec(s, actions);
            && AlwaysGuarded(s, actions) && Beside(s, t, a, k, Awaiting(s.agents[a].runs[k].pc))
            && HandBack(t, f, j, s.installs[a]) && s.nextRequest <= f
  {
    match s.agents[a].runs[k].pc
    case Claiming(item, id) => actions, f := OfferReturns(s, a, k, item, id);
    case Rechecking(item) => actions, f := CheckReturns(s, a, k, item);
    case Writing(item, id) =>
      RefusedReturns(s, a, k, item, id);
      OneAction(s, Deliver(a, k));
      actions, f := [Deliver(a, k)], s.nextRequest;
  }

  /** Where a hand-back comes from: a request on its way, or a run that will send it. */
  datatype Source = Sent(request: RequestId) | Running(agent: AgentId, run: RunId)

  predicate Hands(s: System, j: JobId, worker: WorkerId, source: Source) {
    match source
    case Sent(f) => HandBack(s, f, j, worker)
    case Running(a, k) => Runs(s, a, k) && Returns(s, j, a, k) && s.installs[a] == worker
  }

  predicate BesideSource(s: System, t: System, source: Source) {
    match source
    case Sent(_) => t == s
    case Running(a, k) => Runs(s, a, k) && Beside(s, t, a, k, Awaiting(s.agents[a].runs[k].pc))
  }

  /** It can always be brought on its way. */
  lemma HandBackIsSent(s: System, j: JobId, worker: WorkerId, source: Source) returns (actions: seq<Action>, f: RequestId)
    requires Hands(s, j, worker, source)
    ensures var t := Exec(s, actions);
            && AlwaysGuarded(s, actions) && BesideSource(s, t, source) && HandBack(t, f, j, worker)
            && (source.Running? ==> s.nextRequest <= f) && (source.Sent? ==> f == source.request)
  {
    match source
    case Sent(request) => actions, f := [], request;
    case Running(a, k) => actions, f := RunReturns(s, j, a, k);
  }

  /** A claimant other than the source is left as it is. */
  lemma ClaimantStays(s: System, t: System, source: Source, a: AgentId, k: RunId, item: Item, id: RequestId)
    requires BesideSource(s, t, source) && Runs(s, a, k)
    requires s.agents[a].runs[k].pc == Claiming(item, id) && IsOffered(s, item, id)
    requires source.Running? ==>
               (source.agent, source.run) != (a, k) && id !in Awaiting(s.agents[source.agent].runs[source.run].pc)
    ensures Runs(t, a, k) && t.agents[a].runs[k] == s.agents[a].runs[k] && t.agents[a].revision == s.agents[a].revision
    ensures IsOffered(t, item, id) && t.jobs == s.jobs && t.applied == s.applied && t.installs == s.installs
    ensures t.agents.Keys == s.agents.Keys && s.nextRequest <= t.nextRequest
  {
  }

  // ---------- a hand-back that is handled ----------

  /** A hand-back by the job's owner puts the job back into the queue while it has an attempt left. */
  lemma HandBackIsHandled(s: System, f: RequestId, j: JobId, worker: WorkerId)
    requires HandBack(s, f, j, worker) && j in s.jobs
    requires Owns(s.jobs[j], worker) && s.jobs[j].attempts < s.jobs[j].maxAttempts
    ensures var t := Next(s, HandleFail(f, false));
            && Takeable(t, j) && t.jobs[j].attempts == s.jobs[j].attempts && t.jobs[j].maxAttempts == s.jobs[j].maxAttempts
            && t.agents == s.agents && t.installs == s.installs && t.applied == s.applied && t.nextRequest == s.nextRequest
            && t.requests == s.requests - {f} && t.answers == s.answers[f := Ok]
  {
    hide AgentStep, Delivered, Commit, Opened, Completed, Written, Backoff;
  }

  lemma GrantOutlivesHandBack(s: System, t: System, f: RequestId, j: JobId, g: Grant)
    requires Alive(s, j, g) && (g.Offer? ==> g.request != f) && f in s.requests && s.requests[f].FailRequest?
    requires t.agents == s.agents && t.installs == s.installs
    requires t.requests == s.requests - {f} && t.answers == s.answers[f := Ok]
    ensures Alive(t, j, g)
  {
  }

  /** What may follow: the job is applied at most once. */
  ghost predicate OnceFrom(s: System, j: JobId) {
    forall actions | AlwaysGuarded(s, actions) :: Applied(Exec(s, actions), j) <= 1
  }

  /** In a sound state the job is applied at most once, whatever follows without a takeover. */
  lemma SoundOnce(s: System, loose: bool, j: JobId)
    requires Sound(s, loose)
    ensures OnceFrom(s, j)
  {
    hide Sound, Exec, AlwaysGuarded;
    forall actions | AlwaysGuarded(s, actions)
      ensures Applied(Exec(s, actions), j) <= 1
    {
      ExecKeeps(s, loose, actions);
      AtMostOneApplied(Exec(s, actions), loose, j);
    }
  }

  lemma AtMostOneApplied(s: System, loose: bool, j: JobId)
    requires Sound(s, loose)
    ensures Applied(s, j) <= 1
  {
  }

  /** Two applications of a job that goes back to the queue while a grant can still be used. */
  lemma HandBackAndGrant(s: System, f: RequestId, j: JobId, worker: WorkerId, g: Grant, a: AgentId)
    requires HandBack(s, f, j, worker) && j in s.jobs
    requires Owns(s.jobs[j], worker) && s.jobs[j].attempts < s.jobs[j].maxAttempts
    requires Alive(s, j, g) && (g.Offer? ==> g.request != f) && a in s.agents && a in s.installs
    ensures !OnceFrom(s, j)
  {
    var t := Next(s, HandleFail(f, false));
    HandBackIsHandled(s, f, j, worker);
    GrantOutlivesHandBack(s, t, f, j, g);
    OneAction(s, HandleFail(f, false));
    hide Next, Exec, AlwaysGuarded, Alive;
    var using := GrantIsUsed(t, j, g, None);
    var u := Exec(t, using);
    var again := PendingIsApplied(u, a, j);
    ExecAppend(t, using, again);
    ExecAppend(s, [HandleFail(f, false)], using + again);
    var actions := [HandleFail(f, false)] + (using + again);
    assert AlwaysGuarded(s, actions) && Applied(Exec(s, actions), j) >= 2;
  }

  /** Two applications of a job that was applied and goes back to the queue. */
  lemma HandBackOfApplied(s: System, f: RequestId, j: JobId, worker: WorkerId, a: AgentId)
    requires HandBack(s, f, j, worker) && j in s.jobs
    requires Owns(s.jobs[j], worker) && s.jobs[j].attempts < s.jobs[j].maxAttempts
    requires Applied(s, j) == 1 && a in s.agents && a in s.installs
    ensures !OnceFrom(s, j)
  {
    var t := Next(s, HandleFail(f, false));
    HandBackIsHandled(s, f, j, worker);
    OneAction(s, HandleFail(f, false));
    assert Applied(t, j) == 1;
    hide Next, Exec, AlwaysGuarded, Applied;
    var again := PendingIsApplied(t, a, j);
    ExecAppend(s, [HandleFail(f, false)], again);
    var actions := [HandleFail(f, false)] + again;
    assert AlwaysGuarded(s, actions) && Applied(Exec(s, actions), j) == 2;
  }

  /** Two applications of a pending job that a second hand-back is waiting for, with two attempts left. */
  lemma PendingWithHandBack(s: System, f: RequestId, j: JobId, b: AgentId)
    requires b in s.agents && b in s.installs && HandBack(s, f, j, s.installs[b])
    requires Takeable(s, j) && s.jobs[j].attempts + 2 <= s.jobs[j].maxAttempts
    ensures !OnceFrom(s, j)
  {
    hide Next, Exec, AlwaysGuarded, Alive, OnceFrom;
    var actions, g := PendingIsHeld(s, b, j);
    var t := Exec(s, actions);
    HandBackAndGrant(t, f, j, s.installs[b], g, b);
    OnceAfter(s, actions, j);
  }

  lemma OnceAfter(s: System, actions: seq<Action>, j: JobId)
    requires AlwaysGuarded(s, actions)
    ensures OnceFrom(s, j) ==> OnceFrom(Exec(s, actions), j)
  {
    forall more | OnceFrom(s, j) && AlwaysGuarded(Exec(s, actions), more)
      ensures Applied(Exec(Exec(s, actions), more), j) <= 1
    {
      ExecAppend(s, actions, more);
      assert AlwaysGuarded(s, actions + more);
    }
  }
}
