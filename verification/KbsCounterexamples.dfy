/**
 Why the two conditions of AtMostOnce are needed: a reachable takeover, by a claim handler that reaches
 its compare-and-set only after the lease it grants has run out, and a reachable run in which the
 authority refuses a write it applied. Both end with a job applied twice.
 */
module KbsCounterexamples {
  import opened Options
  import opened EgmTransport
  import opened PoliceAgent
  import opened KbsQueue
  import opened KbsSystem
  import opened KbsGrants
  import opened KbsHandBacks
  import opened KbsSafety

  const JOB: JobId := 7

  /** An alarm, the stored record and the feed bring an instance to its claim request. */
  lemma GoesToClaim(s0: System, before: seq<Action>, a: AgentId) returns (actions: seq<Action>)
    requires Ready(Exec(s0, before), a)
    ensures Asked(Exec(s0, before), Exec(s0, actions), a, JOB)
  {
    hide Exec, Ready, Asked, AlwaysGuarded;
    var asking := AsksForJob(Exec(s0, before), a, JOB);
    ExecAppend(s0, before, asking);
    actions := before + asking;
  }

  lemma OpensClaim(s0: System, before: seq<Action>, id: RequestId) returns (actions: seq<Action>)
    requires var s := Exec(s0, before); Claims(s, id, JOB) && JOB in s.jobs && s.jobs[JOB].status == Pending
    ensures var s := Exec(s0, before);
            Exec(s0, actions) == s.(requests := s.requests - {id}, open := s.open[id := OpenClaim(JOB, s.requests[id].worker, s.now)])
  {
    ClaimIsOpened(Exec(s0, before), id, JOB);
    hide Exec, Next, AlwaysGuarded;
    OneMore(s0, before, OpenClaimHandler(id));
    actions := before + [OpenClaimHandler(id)];
  }

  lemma CommitsClaim(s0: System, before: seq<Action>, id: RequestId) returns (actions: seq<Action>)
    requires var s := Exec(s0, before);
             && id in s.open && s.open[id].job == JOB && JOB in s.jobs
             && Claimable(s.jobs[JOB], s.open[id].at) && s.jobs[JOB].attempts < s.jobs[JOB].maxAttempts
    ensures var s := Exec(s0, before);
            var job := Claim(s.jobs[JOB], s.open[id].worker, s.open[id].at, true).job;
            Exec(s0, actions) == Answered(s.(jobs := s.jobs[JOB := job]), id, GrantedAnswer(JOB))
  {
    ClaimIsGranted(Exec(s0, before), id, JOB);
    hide Exec, Next, AlwaysGuarded;
    OneMore(s0, before, CommitClaim(id, true));
    actions := before + [CommitClaim(id, true)];
  }

  /** Two claims of one job, the first committed after its own lease: both are granted. */
  lemma BothGranted(s0: System, before: seq<Action>, first: RequestId, second: RequestId) returns (actions: seq<Action>)
    requires var s := Exec(s0, before);
             && first != second && first in s.requests && second in s.requests
             && s.requests[first].ClaimRequest? && s.requests[first].job == JOB
             && s.requests[second].ClaimRequest? && s.requests[second].job == JOB
             && JOB in s.jobs && s.jobs[JOB] == NewJob(5) && s.now == 0
    ensures var s := Exec(s0, before);
            var t := Exec(s0, actions);
            && t.agents == s.agents && t.installs == s.installs && t.applied == s.applied && t.nextRequest == s.nextRequest
            && first in t.answers && t.answers[first] == GrantedAnswer(JOB)
            && second in t.answers && t.answers[second] == GrantedAnswer(JOB)
  {
    actions := OpensClaim(s0, before, first);
    OneMore(s0, actions, Tick(LEASE + 1));
    actions := actions + [Tick(LEASE + 1)];
    actions := OpensClaim(s0, actions, second);
    var s3 := Exec(s0, actions);
    assert s3.open[first].at == 0 && s3.open[second].at == LEASE + 1;
    actions := CommitsClaim(s0, actions, first);
    var s4 := Exec(s0, actions);
    assert s4.jobs[JOB].leasedUntil == LEASE && s4.open[second] == s3.open[second];
    actions := CommitsClaim(s0, actions, second);
  }

  function TwoInstances(): System {
    var agent := Fresh(Some(Saved(true, None, 0, 0)), true);
    System(0, map[], map[], map[0 := agent, 1 := agent], map[0 := 0, 1 := 1], map[], map[], map[], 0)
  }

  lemma FirstEnqueued(s0: System)
    requires s0 == TwoInstances()
    ensures Exec(s0, []) == s0 && Initial(s0)
    ensures Next(s0, Enqueue(JOB, 5)) == s0.(jobs := map[JOB := NewJob(5)])
  {
    hide AgentStep, Delivered, Opened, Commit, Completed, Failed, Written;
  }

  /** Without the guard on the commit a job can be applied twice. */
  lemma LateClaimHandlerSendsTwice() returns (actions: seq<Action>)
    ensures Initial(TwoInstances()) && Applied(Exec(TwoInstances(), actions), JOB) == 2
  {
    hide Exec, Next, AlwaysGuarded, NewJob, Initial;
    var s0 := TwoInstances();
    actions := [];
    FirstEnqueued(s0);
    OneMore(s0, actions, Enqueue(JOB, 5));
    actions := actions + [Enqueue(JOB, 5)];
    actions := GoesToClaim(s0, actions, 0);
    actions := GoesToClaim(s0, actions, 1);
    actions := BothGranted(s0, actions, 0, 1);
    var s := Exec(s0, actions);
    assert Applied(s, JOB) == 0 && Alive(s, JOB, Offer(0, 0, 0)) && Alive(s, JOB, Offer(1, 0, 1));
    var first := GrantIsUsed(s, JOB, Offer(0, 0, 0), Some(Offer(1, 0, 1)));
    var second := GrantIsUsed(Exec(s, first), JOB, Offer(1, 0, 1), None);
    ExecAppend(s0, actions, first);
    ExecAppend(s0, actions + first, second);
    actions := actions + first + second;
  }

  // ---------- a dishonest authority ----------

  const REFUSED := Response(400, false, Blank)

  /** The run's write is on the wire, and its installation holds the job with attempts to spare. */
  predicate OnTheWire(s: System, a: AgentId, item: Item, id: RequestId) {
    && Runs(s, a, 0) && s.agents[a].runs[0].pc == Writing(item, id) && item.id == JOB
    && id in s.requests && s.requests[id] == WriteRequest(JOB) && Holds(s, a)
  }

  predicate Holds(s: System, a: AgentId) {
    a in s.installs && JOB in s.jobs && Owns(s.jobs[JOB], s.installs[a]) && s.jobs[JOB].attempts < s.jobs[JOB].maxAttempts
  }

  lemma EntryIsWriting(s: System, a: AgentId)
    requires Alive(s, JOB, Entry(a, 0)) && Holds(s, a)
    ensures var t := Next(s, Use(Entry(a, 0)));
            OnTheWire(t, a, s.agents[a].runs[0].pc.item, s.nextRequest) && t.applied == s.applied
  {
    hide Commit, Opened, Completed, Failed, Written, Delivered;
    RunStep(s, a, 0, LookupDone(false, NoResponse, true));
  }

  /** A granted job goes on the wire. */
  lemma GoesOnTheWire(s0: System, before: seq<Action>, a: AgentId, id: RequestId)
    returns (actions: seq<Action>, item: Item, write: RequestId)
    requires Alive(Exec(s0, before), JOB, Offer(a, 0, id)) && Holds(Exec(s0, before), a)
    ensures var s, t := Exec(s0, before), Exec(s0, actions); OnTheWire(t, a, item, write) && t.applied == s.applied
  {
    var s := Exec(s0, before);
    OneMore(s0, before, Use(Offer(a, 0, id)));
    OfferIsTaken(s, JOB, Offer(a, 0, id));
    hide Exec, Next, AlwaysGuarded, OnTheWire;
    actions := before + [Use(Offer(a, 0, id))];
    var s1 := Exec(s0, actions);
    OneMore(s0, actions, Use(Check(a, 0)));
    CheckIsPassed(s1, JOB, Check(a, 0));
    actions := actions + [Use(Check(a, 0))];
    var s2 := Exec(s0, actions);
    OneMore(s0, actions, Use(Entry(a, 0)));
    EntryIsWriting(s2, a);
    item, write := s2.agents[a].runs[0].pc.item, s2.nextRequest;
    actions := actions + [Use(Entry(a, 0))];
  }

  lemma AppliedAndRefused(s: System, a: AgentId, item: Item, id: RequestId)
    requires OnTheWire(s, a, item, id)
    ensures var t := Next(s, AuthorityHandles(id, true, REFUSED));
            && Runs(t, a, 0) && t.agents[a].runs[0].pc == Writing(item, id) && item.id == JOB && IsRefused(t, id)
            && Holds(t, a) && Applied(t, JOB) == Applied(s, JOB) + 1
  {
    hide AgentStep, Delivered, Commit, Opened, Completed, Failed;
  }

  /** The authority applies the write, refuses it all the same, and the worker gives the job back. */
  lemma GivenBackThoughApplied(s0: System, before: seq<Action>, a: AgentId, item: Item, id: RequestId)
    returns (actions: seq<Action>)
    requires OnTheWire(Exec(s0, before), a, item, id)
    ensures var s, t := Exec(s0, before), Exec(s0, actions);
            Applied(t, JOB) == Applied(s, JOB) + 1 && Takeable(t, JOB) && a in t.agents && a in t.installs
  {
    var s := Exec(s0, before);
    OneMore(s0, before, AuthorityHandles(id, true, REFUSED));
    AppliedAndRefused(s, a, item, id);
    hide Exec, Next, AlwaysGuarded, IsRefused;
    actions := before + [AuthorityHandles(id, true, REFUSED)];
    var s1 := Exec(s0, actions);
    RefusedReturns(s1, a, 0, item, id);
    OneMore(s0, actions, Deliver(a, 0));
    actions := actions + [Deliver(a, 0)];
    HandBackIsHandled(Exec(s0, actions), s1.nextRequest, JOB, s1.installs[a]);
    OneMore(s0, actions, HandleFail(s1.nextRequest, false));
    actions := actions + [HandleFail(s1.nextRequest, false)];
  }

  /** With an authority that refuses what it applied a job can be applied twice. */
  lemma DishonestAuthorityAppliesTwice() returns (actions: seq<Action>)
    ensures Initial(TwoInstances()) && Applied(Exec(TwoInstances(), actions), JOB) == 2
  {
    hide Exec, Next, Initial, AlwaysGuarded, OnTheWire;
    var s0 := TwoInstances();
    actions := [];
    FirstEnqueued(s0);
    OneMore(s0, actions, Enqueue(JOB, 5));
    actions := actions + [Enqueue(JOB, 5)];
    actions := GoesToClaim(s0, actions, 0);
    actions := OpensClaim(s0, actions, 0);
    actions := CommitsClaim(s0, actions, 0);
    assert Alive(Exec(s0, actions), JOB, Offer(0, 0, 0)) && Holds(Exec(s0, actions), 0);
    hide Alive, Holds;
    var item, write;
    actions, item, write := GoesOnTheWire(s0, actions, 0, 0);
    actions := GivenBackThoughApplied(s0, actions, 0, item, write);
    var last := PendingIsApplied(Exec(s0, actions), 0, JOB);
    ExecAppend(s0, actions, last);
    actions := actions + last;
  }
}
