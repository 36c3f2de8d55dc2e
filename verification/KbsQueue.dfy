/**
 The queue half of the KBS router: what claim, complete, fail, requeue and the expired-lease hold do
 to one queue job. Each handler is the compare-and-set it performs on the job's document; times are
 instants of the server's clock.
 */
module KbsQueue {

  type WorkerId = nat

  datatype Status = Pending | InProgress | Done | Dead

  datatype Job = Job(
    status: Status,
    worker: WorkerId,
    leasedUntil: int,
    nextRetryAt: int,
    attempts: nat,
    maxAttempts: nat,
    uncertain: bool)

  /** The lease the police worker asks for. */
  const LEASE: int := 300

  function NewJob(maxAttempts: nat): Job {
    Job(Pending, 0, 0, 0, 0, maxAttempts, false)
  }

  /** Exponential backoff, capped at an hour. */
  function Backoff(attempts: nat): int {
    if attempts <= 1 then 60
    else if attempts >= 7 then 3600
    else 2 * Backoff(attempts - 1)
  }

  predicate Expired(job: Job, at: int) {
    job.status == InProgress && job.leasedUntil < at
  }

  /** An in-progress job whose lease has run out is parked for an operator: its delivery is unknown. */
  function Park(job: Job): Job {
    job.(status := Dead, uncertain := true)
  }

  /** What a claim may take: a pending job past its backoff, or one whose lease has run out. */
  predicate Claimable(job: Job, at: int) {
    (job.status == Pending && job.nextRetryAt <= at) || Expired(job, at)
  }

  datatype ClaimResult = ClaimResult(job: Job, granted: bool)

  /** The claim's compare-and-set at the instant `at` the handler read from the clock. */
  function Claim(job: Job, worker: WorkerId, at: int, complete: bool): ClaimResult {
    if !Claimable(job, at) then ClaimResult(job, false)
    else if !complete then ClaimResult(job.(status := Dead, worker := 0, leasedUntil := 0, nextRetryAt := 0), false)
    else
      var taken := job.(status := InProgress, worker := worker, leasedUntil := at + LEASE, attempts := job.attempts + 1);
      if taken.attempts > job.maxAttempts then ClaimResult(taken.(status := Dead), false)
      else ClaimResult(taken, true)
  }

  predicate Owns(job: Job, worker: WorkerId) {
    job.status == InProgress && job.worker == worker
  }

  function Complete(job: Job, worker: WorkerId): Job {
    if Owns(job, worker) then job.(status := Done) else job
  }

  /** `permanent` is the server's own judgement of the error text. */
  function Fail(job: Job, worker: WorkerId, retry: bool, uncertain: bool, permanent: bool, at: int): Job {
    if !Owns(job, worker) then job
    else if retry && !permanent && !uncertain && job.attempts < job.maxAttempts then
      job.(status := Pending, worker := 0, leasedUntil := 0, nextRetryAt := at + Backoff(job.attempts))
    else
      job.(status := Dead, uncertain := job.uncertain || uncertain)
  }

  /** The operator's manual retry: rejected jobs only, never one whose delivery is unknown. */
  function Requeue(job: Job): Job {
    if job.status == Dead && !job.uncertain then job.(status := Pending, worker := 0, nextRetryAt := 0) else job
  }

  // ---------- what the queue promises a worker ----------

  datatype JobOp =
    | ClaimOp(worker: WorkerId, at: int, complete: bool)
    | ParkOp(at: int)
    | CompleteOp(worker: WorkerId)
    | FailOp(worker: WorkerId, retry: bool, uncertain: bool, permanent: bool, at: int)
    | RequeueOp

  function Apply(job: Job, op: JobOp): Job {
    match op
    case ClaimOp(worker, at, complete) => Claim(job, worker, at, complete).job
    case ParkOp(at) => if Expired(job, at) then Park(job) else job
    case CompleteOp(worker) => Complete(job, worker)
    case FailOp(worker, retry, uncertain, permanent, at) => Fail(job, worker, retry, uncertain, permanent, at)
    case RequeueOp => Requeue(job)
  }

  function ApplyAll(job: Job, ops: seq<JobOp>): Job {
    if ops == [] then job else Apply(ApplyAll(job, ops[..|ops| - 1]), ops[|ops| - 1])
  }

  predicate Grants(job: Job, op: JobOp) {
    op.ClaimOp? && Claim(job, op.worker, op.at, op.complete).granted
  }

  /** How often a run of operations hands the job out. */
  function GrantCount(job: Job, ops: seq<JobOp>): nat {
    if ops == [] then 0
    else GrantCount(job, ops[..|ops| - 1]) + (if Grants(ApplyAll(job, ops[..|ops| - 1]), ops[|ops| - 1]) then 1 else 0)
  }

  function Power(n: nat): nat {
    if n == 0 then 1 else 2 * Power(n - 1)
  }

  /** A minute, doubled with every attempt after the first, and an hour at most. */
  function Delay(attempts: nat): int {
    var doubled := 60 * Power(if attempts == 0 then 0 else attempts - 1);
    if doubled < 3600 then doubled else 3600
  }

  /** The recursion is that delay. */
  lemma {:induction false} BackoffDoubles(attempts: nat)
    ensures Backoff(attempts) == Delay(attempts)
  {
    if attempts >= 2 {
      BackoffDoubles(attempts - 1);
      assert attempts == 7 ==> Power(6) == 64 by {
        assert Power(2) == 4 && Power(4) == 16 && Power(5) == 32;
      }
    }
  }

  /** While a lease runs nobody else moves the job: no claim, no other worker's report, no expiry, no operator. */
  lemma LeaseExcludes(job: Job, op: JobOp, at: int)
    requires job.status == InProgress && at <= job.leasedUntil
    requires (op.ClaimOp? || op.ParkOp? ==> op.at <= at) && (op.CompleteOp? || op.FailOp? ==> op.worker != job.worker)
    ensures Apply(job, op) == job && !Grants(job, op)
  {
  }

  /** A job parked with its delivery unknown is never handed out again, whatever anybody asks. */
  lemma {:induction false} UncertainStaysParked(job: Job, ops: seq<JobOp>)
    requires job.status == Dead && job.uncertain
    ensures ApplyAll(job, ops) == job && GrantCount(job, ops) == 0
  {
    if ops != [] {
      UncertainStaysParked(job, ops[..|ops| - 1]);
    }
  }

  /** An accepted job likewise. */
  lemma {:induction false} DoneStaysDone(job: Job, ops: seq<JobOp>)
    requires job.status == Done
    ensures ApplyAll(job, ops) == job && GrantCount(job, ops) == 0
  {
    if ops != [] {
      DoneStaysDone(job, ops[..|ops| - 1]);
    }
  }

  /** Nobody claims the job from this time on. */
  predicate ClaimsBefore(ops: seq<JobOp>, time: int) {
    forall i | 0 <= i < |ops| && ops[i].ClaimOp? :: ops[i].at < time
  }

  /**
   A definite failure with an attempt left: whatever is asked before the delay is over nothing happens, and
   then anybody is handed the job for 300 seconds.
   */
  lemma {:induction false} RetryWaits(job: Job, at: int, ops: seq<JobOp>, worker: WorkerId, later: int)
    requires job.status == InProgress && job.attempts < job.maxAttempts
    requires ClaimsBefore(ops, at + Delay(job.attempts)) && at + Delay(job.attempts) <= later
    ensures var failed := Apply(job, FailOp(job.worker, true, false, false, at));
            && ApplyAll(failed, ops) == failed && GrantCount(failed, ops) == 0
            && Grants(failed, ClaimOp(worker, later, true))
            && var taken := Apply(failed, ClaimOp(worker, later, true));
               taken.status == InProgress && taken.worker == worker && taken.leasedUntil == later + 300
  {
    BackoffDoubles(job.attempts);
    if ops != [] {
      var init := ops[..|ops| - 1];
      assert forall i | 0 <= i < |init| :: init[i] == ops[i];
      RetryWaits(job, at, init, worker, later);
    }
  }

  /** The holder's failure report parks the job unless it can be retried by itself. */
  predicate ParksFailure(job: Job, op: JobOp) {
    && op.FailOp? && job.status == InProgress && job.worker == op.worker
    && (!op.retry || op.permanent || op.uncertain || job.maxAttempts <= job.attempts)
  }

  /** A claim that could take the job, but required data is missing or no attempt is left. */
  predicate RefusesClaim(job: Job, op: JobOp) {
    && op.ClaimOp? && (!op.complete || job.maxAttempts <= job.attempts)
    && ((job.status == Pending && job.nextRetryAt <= op.at) || (job.status == InProgress && job.leasedUntil < op.at))
  }

  /**
   Such a job is handed out again only by way of the operator's retry, and then if and only if its delivery
   is not in doubt and an attempt is left.
   */
  lemma OperatorRetriesIffKnown(job: Job, op: JobOp, worker: WorkerId, later: nat)
    requires ParksFailure(job, op) || RefusesClaim(job, op)
    ensures var parked := Apply(job, op);
            && parked.status == Dead && !Grants(parked, ClaimOp(worker, later, true))
            && (Grants(Apply(parked, RequeueOp), ClaimOp(worker, later, true)) <==>
                !job.uncertain && !(op.FailOp? && op.uncertain) && job.attempts < job.maxAttempts)
  {
  }

  /** The worker that holds the job reports it accepted. */
  predicate ReportsOwn(job: Job, ops: seq<JobOp>, k: nat)
    requires k < |ops|
  {
    ops[k].CompleteOp? && var held := ApplyAll(job, ops[..k]); held.status == InProgress && held.worker == ops[k].worker
  }

  /** The report of the worker that holds the job makes it done and changes nothing else; anybody else's changes nothing. */
  lemma ReportOfHolder(job: Job, worker: WorkerId)
    ensures Apply(job, CompleteOp(worker)) ==
            if job.status == InProgress && job.worker == worker then job.(status := Done) else job
  {
  }

  /** A job ends up done if and only if at some time the worker that held it then reported it accepted. */
  lemma {:induction false} DoneIffReported(job: Job, ops: seq<JobOp>)
    requires job.status != Done
    ensures ApplyAll(job, ops).status == Done <==> exists k | 0 <= k < |ops| :: ReportsOwn(job, ops, k)
  {
    if ops != [] {
      var n := |ops| - 1;
      var init, last := ops[..n], ops[n];
      DoneIffReported(job, init);
      assert forall k | 0 <= k < n :: ops[..k] == init[..k] && ops[k] == init[k];
      assert forall k | 0 <= k < n :: ReportsOwn(job, ops, k) <==> ReportsOwn(job, init, k);
      DoneByOne(ApplyAll(job, init), last);
      assert ReportsOwn(job, ops, n) <==> last.CompleteOp? && ApplyAll(job, init).status == InProgress
                                          && ApplyAll(job, init).worker == last.worker;
    }
  }

  lemma DoneByOne(job: Job, op: JobOp)
    ensures Apply(job, op).status == Done <==>
            job.status == Done || (op.CompleteOp? && job.status == InProgress && job.worker == op.worker)
  {
  }

  /** Over its whole life, operators' retries included, a job is handed out at most its number of attempts. */
  lemma {:induction false} GrantsAreBounded(job: Job, ops: seq<JobOp>)
    ensures var after := ApplyAll(job, ops);
            after.maxAttempts == job.maxAttempts && job.attempts + GrantCount(job, ops) <= after.attempts
    ensures GrantCount(job, ops) <= if job.attempts < job.maxAttempts then job.maxAttempts - job.attempts else 0
  {
    if ops != [] {
      var init, last := ops[..|ops| - 1], ops[|ops| - 1];
      GrantsAreBounded(job, init);
      OneOp(ApplyAll(job, init), last);
    }
  }

  lemma OneOp(job: Job, op: JobOp)
    ensures var after := Apply(job, op);
            && after.maxAttempts == job.maxAttempts && job.attempts <= after.attempts
            && (Grants(job, op) ==> after.attempts == job.attempts + 1 <= job.maxAttempts)
  {
  }
}
