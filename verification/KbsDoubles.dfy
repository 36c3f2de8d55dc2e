/**
 What a claim can lead to that takes a job over from its holder. As long as the earlier grant can still be
 used, or has been, or the earlier holder is about to hand the job back and enough attempts are left, the
 authority can be brought to apply the job twice.
 */
module KbsDoubles {
  import opened Options
  import opened PoliceAgent
  import opened KbsQueue
  import opened KbsSystem
  import opened KbsSafety
  import opened KbsSane
  import opened KbsGrants
  import opened KbsHandBacks

  /** The earlier grant can be used, or was. */
  ghost predicate Engaged(s: System, j: JobId) {
    Applied(s, j) == 1 || exists g :: Alive(s, j, g)
  }

  /** The earlier holder, of this installation, is about to hand the job back unwritten. */
  ghost predicate HandsBackAs(s: System, j: JobId, worker: WorkerId) {
    exists source :: Hands(s, j, worker, source)
  }

  ghost predicate HandsBack(s: System, j: JobId) {
    exists worker :: HandsBackAs(s, j, worker)
  }

  /** A run waits for the answer to the claim and holds its instance's revision. */
  ghost predicate Awaits(s: System, id: RequestId, j: JobId) {
    exists a, k :: Waits(s, a, k, id, j)
  }

  /** A run waits for it, stopped or not. */
  ghost predicate AskedFor(s: System, id: RequestId, j: JobId) {
    exists a, k :: a in s.agents && k in s.agents[a].runs && Asks(s.agents[a].runs[k].pc, id, j)
  }

  // ---------- takeovers that are granted ----------

  /** The commit hands the job out of the hands of its holder. */
  predicate GrantedTakeover(s: System, id: RequestId) {
    TakesOver(s, CommitClaim(id, true)) && var job := s.jobs[s.open[id].job]; job.attempts < job.maxAttempts
  }

  lemma CommitLeaves(s: System, ph: Phases, id: RequestId, j: JobId)
    requires Fits(s, ph) && GrantedTakeover(s, id) && s.open[id].job == j
    ensures var t := Next(s, CommitClaim(id, true));
            && t.agents == s.agents && t.installs == s.installs && t.applied == s.applied && t.nextRequest == s.nextRequest
            && t.requests == s.requests && t.answers == s.answers[id := GrantedAnswer(j)]
            && id !in s.answers && id !in s.requests && id < s.nextRequest
  {
    hide WritesFit, RequestsFit, RunsFit, AgentStep, Delivered, Opened, Completed, Failed, Written;
    assert forall i | i in s.answers :: i !in s.open;
  }

  /** After the takeover the earlier grant and the new one stand side by side. */
  lemma BothStand(s: System, ph: Phases, id: RequestId, j: JobId, a: AgentId, k: RunId, g: Grant)
    requires Fits(s, ph) && GrantedTakeover(s, id) && s.open[id].job == j && Waits(s, a, k, id, j) && Alive(s, j, g)
    ensures var t := Next(s, CommitClaim(id, true));
            Alive(t, j, g) && Alive(t, j, Offer(a, k, id)) && Apart(t, g, Offer(a, k, id))
  {
    hide Next, Fits;
    CommitLeaves(s, ph, id, j);
    GrantIds(s, ph, j, g);
  }

  lemma GrantIds(s: System, ph: Phases, j: JobId, g: Grant)
    requires Fits(s, ph) && Alive(s, j, g)
    ensures g.Offer? || g.Wire? ==> g.request < s.nextRequest
  {
  }

  lemma TakenJob(s: System, id: RequestId, j: JobId)
    requires GrantedTakeover(s, id) && s.open[id].job == j
    ensures var job := Claim(s.jobs[j], s.open[id].worker, s.open[id].at, true).job;
            && job.status == InProgress
            && Next(s, CommitClaim(id, true)) == Answered(s.(jobs := s.jobs[j := job]), id, GrantedAnswer(j))
  {
    hide AgentStep, Delivered, Opened, Completed, Failed, Written;
  }

  /** While the earlier grant can still be used, a takeover can always be continued to two applications. */
  lemma TakeoverSendsTwice(s: System, id: RequestId, j: JobId, a: AgentId, k: RunId, g: Grant) returns (actions: seq<Action>)
    requires Safe(s) && GrantedTakeover(s, id) && s.open[id].job == j && Waits(s, a, k, id, j) && Alive(s, j, g)
    ensures var t := Next(s, CommitClaim(id, true));
            AlwaysGuarded(t, actions) && Applied(Exec(t, actions), j) >= 2
  {
    var ph: Phases :| !ph.loose && Fits(s, ph);
    BothStand(s, ph, id, j, a, k, g);
    hide Next, Alive, Apart;
    var t := Next(s, CommitClaim(id, true));
    actions := GrantIsUsed(t, j, g, Some(Offer(a, k, id)));
    var rest := GrantIsUsed(Exec(t, actions), j, Offer(a, k, id), None);
    ExecAppend(t, actions, rest);
    actions := actions + rest;
  }

  /** And so it can when the earlier grant has been used. */
  lemma TakeoverOfAppliedSendsTwice(s: System, id: RequestId, j: JobId, a: AgentId, k: RunId) returns (actions: seq<Action>)
    requires Safe(s) && GrantedTakeover(s, id) && s.open[id].job == j && Waits(s, a, k, id, j) && Applied(s, j) == 1
    ensures var t := Next(s, CommitClaim(id, true));
            AlwaysGuarded(t, actions) && Applied(Exec(t, actions), j) >= 2
  {
    hide Next, Fits;
    var ph: Phases :| !ph.loose && Fits(s, ph);
    CommitLeaves(s, ph, id, j);
    var t := Next(s, CommitClaim(id, true));
    actions := GrantIsUsed(t, j, Offer(a, k, id), None);
  }

  lemma EngagedTakeoverSendsTwice(s: System, id: RequestId, j: JobId)
    requires Safe(s) && GrantedTakeover(s, id) && s.open[id].job == j && Engaged(s, j) && Awaits(s, id, j)
    ensures !OnceFrom(Next(s, CommitClaim(id, true)), j)
  {
    var a, k :| Waits(s, a, k, id, j);
    var actions;
    if Applied(s, j) == 1 {
      actions := TakeoverOfAppliedSendsTwice(s, id, j, a, k);
    } else {
      var g :| Alive(s, j, g);
      actions := TakeoverSendsTwice(s, id, j, a, k, g);
    }
  }

  // ---------- takeovers that are refused ----------

  /** A commit that takes the job from its holder and refuses it, for missing data, leaves it to the operator. */
  lemma RefusedJob(s: System, id: RequestId, j: JobId)
    requires TakesOver(s, CommitClaim(id, false)) && s.open[id].job == j
    ensures var t := Next(s, CommitClaim(id, false));
            && var job := s.jobs[j].(status := Dead, worker := 0, leasedUntil := 0, nextRetryAt := 0);
            && t == Answered(s.(jobs := s.jobs[j := job]), id, Error(422))
  {
    hide AgentStep, Delivered, Opened, Completed, Failed, Written;
  }

  lemma Requeued(s: System, j: JobId)
    requires j in s.jobs && s.jobs[j].status == Dead && !s.jobs[j].uncertain
    ensures Next(s, OperatorRequeue(j)) == s.(jobs := s.jobs[j := s.jobs[j].(status := Pending, worker := 0, nextRetryAt := 0)])
  {
    hide AgentStep, Delivered, Commit, Opened, Completed, Failed, Written;
  }

  /** Such a job can be requeued and handed to any worker. */
  predicate Reopenable(s: System, j: JobId) {
    j in s.jobs && s.jobs[j].status == Dead && !s.jobs[j].uncertain && s.jobs[j].attempts < s.jobs[j].maxAttempts
  }

  /** After the operator's retry any worker can be handed the job again. */
  lemma RefusedIsApplied(s: System, a: AgentId, j: JobId) returns (actions: seq<Action>)
    requires Reopenable(s, j)
    requires a in s.agents && a in s.installs
    ensures AlwaysGuarded(s, actions) && Applied(Exec(s, actions), j) == Applied(s, j) + 1
  {
    hide Next, Exec, AlwaysGuarded;
    Requeued(s, j);
    OneAction(s, OperatorRequeue(j));
    var rest := PendingIsApplied(Next(s, OperatorRequeue(j)), a, j);
    ExecAppend(s, [OperatorRequeue(j)], rest);
    actions := [OperatorRequeue(j)] + rest;
  }

  lemma GrantOutlivesRefusal(s: System, ph: Phases, id: RequestId, j: JobId, g: Grant)
    requires Fits(s, ph) && TakesOver(s, CommitClaim(id, false)) && s.open[id].job == j && Alive(s, j, g)
    ensures Alive(Next(s, CommitClaim(id, false)), j, g)
  {
    RefusedJob(s, id, j);
    hide Next;
    assert forall i | i in s.answers :: i !in s.open;
  }

  lemma RefusalOfAppliedSendsTwice(t: System, j: JobId, a: AgentId)
    requires Reopenable(t, j) && a in t.agents && a in t.installs && Applied(t, j) == 1
    ensures !OnceFrom(t, j)
  {
    hide Exec, AlwaysGuarded;
    var actions := RefusedIsApplied(t, a, j);
    assert Applied(Exec(t, actions), j) == 2;
  }

  lemma RefusalOfGrantSendsTwice(t: System, j: JobId, a: AgentId, g: Grant)
    requires Reopenable(t, j) && a in t.agents && a in t.installs && Alive(t, j, g)
    ensures !OnceFrom(t, j)
  {
    hide Exec, AlwaysGuarded, Alive;
    var first := GrantIsUsed(t, j, g, None);
    var rest := RefusedIsApplied(Exec(t, first), a, j);
    ExecAppend(t, first, rest);
    assert AlwaysGuarded(t, first + rest) && Applied(Exec(t, first + rest), j) >= 2;
  }

  lemma RefusalSendsTwice(s: System, id: RequestId, j: JobId, a: AgentId)
    requires Safe(s) && TakesOver(s, CommitClaim(id, false)) && s.open[id].job == j && Engaged(s, j)
    requires !s.jobs[j].uncertain && s.jobs[j].attempts < s.jobs[j].maxAttempts && a in s.agents && a in s.installs
    ensures !OnceFrom(Next(s, CommitClaim(id, false)), j)
  {
    hide Next, Fits, OnceFrom, Alive;
    var ph: Phases :| !ph.loose && Fits(s, ph);
    var t := Next(s, CommitClaim(id, false));
    RefusedJob(s, id, j);
    if Applied(s, j) == 1 {
      RefusalOfAppliedSendsTwice(t, j, a);
    } else {
      var g :| Alive(s, j, g);
      GrantOutlivesRefusal(s, ph, id, j, g);
      RefusalOfGrantSendsTwice(t, j, a, g);
    }
  }

  // ---------- claimants that were stopped, and holders that hand the job back ----------

  /** A claimant after the commit that granted its claim. */
  predicate ClaimGranted(s: System, t: System, a: AgentId, k: RunId, id: RequestId, j: JobId) {
    && Runs(t, a, k) && Asks(t.agents[a].runs[k].pc, id, j) && IsOffered(t, t.agents[a].runs[k].pc.item, id)
    && t.agents == s.agents && t.installs == s.installs && t.applied == s.applied && t.nextRequest == s.nextRequest
    && t.requests == s.requests && t.answers == s.answers[id := GrantedAnswer(j)]
    && id !in s.answers && id !in s.requests && id < s.nextRequest
    && j in s.jobs && j in t.jobs && Owns(t.jobs[j], t.installs[a])
    && t.jobs[j].attempts == s.jobs[j].attempts + 1 && t.jobs[j].maxAttempts == s.jobs[j].maxAttempts
  }

  lemma ClaimantIsOffered(s: System, ph: Phases, id: RequestId, j: JobId, a: AgentId, k: RunId)
    requires Fits(s, ph) && Sane(s) && GrantedTakeover(s, id) && s.open[id].job == j
    requires a in s.agents && k in s.agents[a].runs && Asks(s.agents[a].runs[k].pc, id, j)
    ensures a in s.installs && s.open[id].worker == s.installs[a]
    ensures ClaimGranted(s, Next(s, CommitClaim(id, true)), a, k, id, j)
  {
    assert RunSane(s, a, s.agents[a].runs[k]);
    CommitLeaves(s, ph, id, j);
    TakenJob(s, id, j);
    hide Next, Fits, JobsSane, RequestsSane, RunsSane;
  }

  lemma GrantStays(s: System, t: System, j: JobId, id: RequestId, g: Grant)
    requires Alive(s, j, g) && t.agents == s.agents && t.installs == s.installs && t.requests == s.requests
    requires id !in s.answers && id in t.answers && t.answers == s.answers[id := t.answers[id]]
    ensures Alive(t, j, g) && (g.Offer? ==> g.request != id)
  {
  }

  /** A run's steps leave a grant in other hands. */
  lemma GrantBeside(t: System, u: System, j: JobId, g: Grant, a: AgentId, k: RunId, id: RequestId)
    requires Alive(t, j, g) && Beside(t, u, a, k, {id}) && (g.Offer? ==> g.request != id)
    requires g.Wire? || (g.agent, g.run) != (a, k)
    requires g.Wire? ==> g.request < t.nextRequest
    ensures Alive(u, j, g)
  {
    OtherRunStays(t, u, j, a, k, g);
  }

  /** A stopped claimant that takes a job over from a grant that can be used, or was: two attempts are enough. */
  lemma StoppedSendsTwice(s: System, t: System, ph: Phases, id: RequestId, j: JobId, a: AgentId, k: RunId)
    requires Fits(s, ph) && ClaimGranted(s, t, a, k, id, j) && !Current(s, a, k) && Engaged(s, j)
    requires t.jobs[j].attempts < t.jobs[j].maxAttempts
    ensures !OnceFrom(t, j)
  {
    var item := t.agents[a].runs[k].pc.item;
    var actions, f := OfferReturns(t, a, k, item, id);
    var u := Exec(t, actions);
    hide Exec, OnceFrom, AlwaysGuarded, Alive;
    OnceAfter(t, actions, j);
    SameInstall(t, u, a, k, {id});
    if Applied(s, j) == 1 {
      HandBackOfApplied(u, f, j, t.installs[a], a);
    } else {
      var g :| Alive(s, j, g);
      GrantIds(s, ph, j, g);
      GrantElsewhere(s, j, g, a, k, id);
      GrantStays(s, t, j, id, g);
      GrantBeside(t, u, j, g, a, k, id);
      HandBackAndGrant(u, f, j, t.installs[a], g, a);
    }
  }

  lemma GrantElsewhere(s: System, j: JobId, g: Grant, a: AgentId, k: RunId, id: RequestId)
    requires Alive(s, j, g) && Runs(s, a, k) && Asks(s.agents[a].runs[k].pc, id, j) && id !in s.answers
    ensures g.Wire? || (g.agent, g.run) != (a, k)
  {
  }

  /** The source of a hand-back is not the claimant, and waits for another answer. */
  lemma SourceElsewhere(s: System, t: System, j: JobId, worker: WorkerId, source: Source, a: AgentId,
                        k: RunId, id: RequestId)
    requires ClaimGranted(s, t, a, k, id, j) && Hands(s, j, worker, source)
    ensures Hands(t, j, worker, source)
    ensures source.Running? ==> (source.agent, source.run) != (a, k)
    ensures source.Running? ==> id !in Awaiting(t.agents[source.agent].runs[source.run].pc)
  {
  }

  /** A hand-back by the installation that the job is taken over for. */
  lemma OwnHandBackSendsTwice(s: System, t: System, id: RequestId, j: JobId, a: AgentId, k: RunId, source: Source)
    requires ClaimGranted(s, t, a, k, id, j) && Current(s, a, k) && Hands(s, j, t.installs[a], source)
    requires t.jobs[j].attempts < t.jobs[j].maxAttempts
    ensures !OnceFrom(t, j)
  {
    SourceElsewhere(s, t, j, t.installs[a], source, a, k, id);
    var actions, f := HandBackIsSent(t, j, t.installs[a], source);
    var u := Exec(t, actions);
    hide Exec, OnceFrom, AlwaysGuarded, BesideSource;
    ClaimantStays(t, u, source, a, k, t.agents[a].runs[k].pc.item, id);
    OnceAfter(t, actions, j);
    assert Alive(u, j, Offer(a, k, id));
    HandBackAndGrant(u, f, j, t.installs[a], Offer(a, k, id), a);
  }

  /** Any hand-back, with three attempts: the claimant hands the job back, and the earlier holder gets it once more. */
  lemma HandBackSendsTwice(s: System, t: System, id: RequestId, j: JobId, a: AgentId, k: RunId, b: AgentId, source: Source)
    requires ClaimGranted(s, t, a, k, id, j) && b in s.agents && b in s.installs && Hands(s, j, s.installs[b], source)
    requires t.jobs[j].attempts + 2 <= t.jobs[j].maxAttempts
    ensures !OnceFrom(t, j)
  {
    SourceElsewhere(s, t, j, s.installs[b], source, a, k, id);
    var first, earlier := HandBackIsSent(t, j, s.installs[b], source);
    var u := Exec(t, first);
    hide Exec, OnceFrom, AlwaysGuarded, BesideSource;
    var item := t.agents[a].runs[k].pc.item;
    ClaimantStays(t, u, source, a, k, item, id);
    OnceAfter(t, first, j);
    var second, f := OfferReturns(u, a, k, item, id);
    var v := Exec(u, second);
    SameInstall(u, v, a, k, {id});
    OnceAfter(u, second, j);
    HandBackIsHandled(v, f, j, t.installs[a]);
    OneAction(v, HandleFail(f, false));
    OnceAfter(v, [HandleFail(f, false)], j);
    PendingWithHandBack(Next(v, HandleFail(f, false)), earlier, j, b);
  }

  /** The same after a refused takeover, by way of the operator. */
  lemma RefusalWithHandBackSendsTwice(t: System, j: JobId, b: AgentId, source: Source)
    requires b in t.agents && b in t.installs && Hands(t, j, t.installs[b], source)
    requires Reopenable(t, j) && t.jobs[j].attempts + 2 <= t.jobs[j].maxAttempts
    ensures !OnceFrom(t, j)
  {
    var first, f := HandBackIsSent(t, j, t.installs[b], source);
    var u := Exec(t, first);
    SourceKeepsJobs(t, u, source);
    hide Exec, OnceFrom, AlwaysGuarded, BesideSource;
    OnceAfter(t, first, j);
    Requeued(u, j);
    OneAction(u, OperatorRequeue(j));
    OnceAfter(u, [OperatorRequeue(j)], j);
    PendingWithHandBack(Next(u, OperatorRequeue(j)), f, j, b);
  }

  lemma SourceKeepsJobs(s: System, t: System, source: Source)
    requires BesideSource(s, t, source)
    ensures t.jobs == s.jobs && t.installs == s.installs && t.agents.Keys == s.agents.Keys
  {
  }
}
