/**
 What an authority does that answers a write it applied with an explicit refusal. The worker believes the
 refusal and hands the job back; that leads to a second application exactly when the run still waits for the
 answer, its installation still holds the job, and an attempt is left.
 */
module KbsRefusals {
  import opened EgmTransport
  import opened PoliceAgent
  import opened KbsQueue
  import opened KbsSystem
  import opened KbsSafety
  import opened KbsSane
  import opened KbsGrants
  import opened KbsHandBacks

  predicate WaitsWith(s: System, id: RequestId, j: JobId, a: AgentId, k: RunId) {
    && a in s.agents && a in s.installs && k in s.agents[a].runs
    && s.agents[a].runs[k].pc.Writing? && s.agents[a].runs[k].pc.request == id && s.agents[a].runs[k].pc.item.id == j
    && j in s.jobs && Owns(s.jobs[j], s.installs[a]) && !Exhausted(s.jobs[j])
  }

  /** The run that wrote waits for the answer, and its installation holds the job, with an attempt left. */
  ghost predicate StillHeld(s: System, id: RequestId, j: JobId) {
    exists a, k :: WaitsWith(s, id, j, a, k)
  }

  // ---------- while the job is held ----------

  lemma Denied(s: System, id: RequestId, j: JobId, reply: Reply)
    requires id in s.requests && s.requests[id] == WriteRequest(j)
    ensures var t := Next(s, AuthorityHandles(id, true, reply));
            && t == s.(requests := s.requests - {id}, open := s.open - {id}, answers := s.answers[id := AuthorityAnswer(reply)],
                       applied := s.applied[j := Applied(s, j) + 1])
  {
    hide AgentStep, Delivered, Commit, Opened, Completed, Failed;
  }

  lemma DenialSendsTwice(s: System, ph: Phases, id: RequestId, j: JobId, reply: Reply, a: AgentId, k: RunId)
    requires Fits(s, ph) && id in s.requests && s.requests[id] == WriteRequest(j) && ExplicitRefusal(reply) && WaitsWith(s, id, j, a, k)
    ensures !OnceFrom(Next(s, AuthorityHandles(id, true, reply)), j)
  {
    Denied(s, id, j, reply);
    WriteInFlight(s, ph, id, j);
    hide Next, Exec, OnceFrom, AlwaysGuarded, Fits, ExplicitRefusal;
    var t := Next(s, AuthorityHandles(id, true, reply));
    var item := s.agents[a].runs[k].pc.item;
    RefusedReturns(t, a, k, item, id);
    OneAction(t, Deliver(a, k));
    var u := Next(t, Deliver(a, k));
    SameInstall(t, u, a, k, {id});
    HandBackOfApplied(u, t.nextRequest, j, t.installs[a], a);
    OnceAfter(t, [Deliver(a, k)], j);
  }

  // ---------- otherwise ----------

  lemma DeniedRun(s: System, t: System, ph: Phases, id: RequestId, j: JobId, a: AgentId, k: RunId)
    requires Fits(s, ph) && !ph.loose && a in s.agents && a in s.installs && k in s.agents[a].runs
    requires id in s.requests && s.requests[id] == WriteRequest(j) && id in t.answers && t.answers[id].AuthorityAnswer?
    requires t == s.(requests := s.requests - {id}, open := s.open - {id}, answers := s.answers[id := t.answers[id]],
                     applied := s.applied[j := Applied(s, j) + 1])
    requires !StillHeld(s, id, j)
    ensures RunFits(t, Phases(ph.of[j := Spent], true), a, k, t.agents[a].runs[k].pc)
  {
    hide ExplicitRefusal;
    WriteInFlight(s, ph, id, j);
    var pc := s.agents[a].runs[k].pc;
    assert RunFits(s, ph, a, k, pc);
    assert !WaitsWith(s, id, j, a, k);
    assert forall i | i != j :: Applied(t, i) == Applied(s, i);
  }

  lemma DeniedRequests(s: System, t: System, ph: Phases, id: RequestId, j: JobId)
    requires RequestsFit(s, ph) && !ph.loose && id in s.requests && s.requests[id] == WriteRequest(j)
    requires t.requests == s.requests - {id} && t.nextRequest == s.nextRequest && t.jobs == s.jobs
    ensures RequestsFit(t, Phases(ph.of[j := Spent], true))
  {
    forall f | f in t.requests && t.requests[f].FailRequest? && !t.requests[f].uncertain
      ensures HandBackFits(t, Phases(ph.of[j := Spent], true), f, t.requests[f].job, t.requests[f].worker)
    {
      assert HandBackFits(s, ph, f, s.requests[f].job, s.requests[f].worker);
    }
  }

  lemma DenialIsSafe(s: System, ph: Phases, id: RequestId, j: JobId, reply: Reply)
    requires Fits(s, ph) && !ph.loose && Sane(s) && id in s.requests && s.requests[id] == WriteRequest(j) && !StillHeld(s, id, j)
    ensures Sound(Next(s, AuthorityHandles(id, true, reply)), true)
  {
    hide RunFits, RequestsFit, StillHeld, JobsSane, RequestsSane, RunsSane, Next;
    Denied(s, id, j, reply);
    WriteInFlight(s, ph, id, j);
    RequestBound(s, ph, id);
    var t := Next(s, AuthorityHandles(id, true, reply));
    var ph' := Phases(ph.of[j := Spent], true);
    DeniedRequests(s, t, ph, id, j);
    forall a, k | a in t.agents && k in t.agents[a].runs
      ensures RunFits(t, ph', a, k, t.agents[a].runs[k].pc)
    {
      DeniedRun(s, t, ph, id, j, a, k);
    }
    assert forall i | i != j :: Applied(t, i) == Applied(s, i);
    assert JobsFit(t, ph') && WritesFit(t, ph') && AnswersFit(t) && OpenFits(t);
    assert Fits(t, ph');
  }

  /**
   The authority's step is safe, whatever follows without a takeover and with an honest authority, exactly when
   it does not deny a write that it applies while the job is still held for it.
   */
  lemma DenialIsSafeIffNotHeld(s: System, id: RequestId, j: JobId, applies: bool, reply: Reply)
    requires Safe(s) && Sane(s) && id in s.requests && s.requests[id] == WriteRequest(j)
    ensures OnceFrom(Next(s, AuthorityHandles(id, applies, reply)), j) <==> Honest(applies, reply) || !StillHeld(s, id, j)
  {
    var action := AuthorityHandles(id, applies, reply);
    var ph: Phases :| !ph.loose && Fits(s, ph);
    hide Next, Fits, Sane, OnceFrom, ExplicitRefusal;
    if Honest(applies, reply) {
      NextKeeps(s, false, action);
      SoundOnce(Next(s, action), false, j);
    } else if StillHeld(s, id, j) {
      var a, k :| WaitsWith(s, id, j, a, k);
      DenialSendsTwice(s, ph, id, j, reply, a, k);
    } else {
      DenialIsSafe(s, ph, id, j, reply);
      SoundOnce(Next(s, action), true, j);
    }
  }
}
