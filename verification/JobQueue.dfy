/** The job queue: claims, outcomes, crashes and reclaiming, in any interleaving of workers. */
module JobQueue {
  import opened Division
  import opened Options
  import Runs

  const RETRY_BASE_SECONDS: nat := 30
  const RETRY_MAX_SECONDS: nat := 3600
  const LOCK_TIMEOUT_SECONDS: nat := 900

  datatype Status = Pending | Running | Succeeded | Dead

  /** `locked_by` and `locked_at`, set and cleared together. */
  datatype Lock = Lock(worker: nat, at: int)

  datatype Job = Job(
    status: Status, availableAt: int, lock: Option<Lock>, retries: nat, maxRetries: nat,
    dedup: Option<string>)

  /** What a worker is out with: the job, when it claimed it, and the retry count it read. */
  datatype Held = Held(job: nat, at: int, seen: nat)

  /** `done` and `failed` list, in order, the jobs recorded as completed and as failed. */
  datatype World = World(
    now: int, jobs: map<nat, Job>, workers: map<nat, Option<Held>>, done: seq<nat>, failed: seq<nat>)

  /** A failure is recorded on the row the worker loaded, or on a fresh read of it. */
  datatype Event =
    | Elapse(seconds: nat)
    | Enqueue(id: nat, availableAt: int, maxRetries: nat, dedup: Option<string>)
    | Claim(worker: nat, job: nat)
    | Succeed(worker: nat)
    | Fail(worker: nat, retryable: bool, reread: bool)
    | Defer(worker: nat, until: int)
    | Crash(worker: nat)
    | Reclaim

  // --- statements ------------------------------------------------------------

  function RetryDelay(attempt: nat): nat {
    var raw := RETRY_BASE_SECONDS * Pow2(if attempt > 0 then attempt - 1 else 0);
    if raw < RETRY_MAX_SECONDS then raw else RETRY_MAX_SECONDS
  }

  predicate Due(w: World, j: nat) {
    j in w.jobs && w.jobs[j].status == Pending && w.jobs[j].availableAt <= w.now
  }

  /** The oldest due job; which of several equally old ones is the database's choice. */
  predicate Next(w: World, j: nat) {
    Due(w, j) && forall k :: k in w.jobs && Due(w, k) ==> w.jobs[j].availableAt <= w.jobs[k].availableAt
  }

  predicate Out(w: World, k: nat) {
    k in w.workers && w.workers[k].Some? && w.workers[k].value.job in w.jobs
  }

  predicate Enabled(w: World, e: Event) {
    match e
    case Elapse(_) => true
    case Enqueue(id, _, _, _) => id !in w.jobs
    case Claim(k, j) => k in w.workers && w.workers[k] == None && Next(w, j)
    case Succeed(k) => Out(w, k)
    case Fail(k, _, _) => Out(w, k)
    case Defer(k, _) => Out(w, k)
    case Crash(k) => Out(w, k)
    case Reclaim => true
  }

  function Failed(job: Job, retries: nat, retryable: bool, now: int): Job {
    if !retryable || retries > job.maxRetries then
      job.(retries := retries, lock := None, status := Dead)
    else
      job.(retries := retries, lock := None, status := Pending, availableAt := now + RetryDelay(retries))
  }

  predicate Abandoned(job: Job, now: int) {
    job.status == Running && job.lock.Some? && job.lock.value.at < now - LOCK_TIMEOUT_SECONDS
  }

  function Reclaimed(job: Job, now: int): Job {
    if Abandoned(job, now) then job.(status := Pending, lock := None, availableAt := now) else job
  }

  function Taken(w: World, dedup: Option<string>): bool {
    dedup.Some? && exists j :: j in w.jobs && w.jobs[j].dedup == dedup
  }

  function Step(w: World, e: Event): World
    requires Enabled(w, e)
  {
    match e
    case Elapse(seconds) => w.(now := w.now + seconds)
    case Enqueue(id, at, max, dedup) =>
      if Taken(w, dedup) then w
      else w.(jobs := w.jobs[id := Job(Pending, at, None, 0, max, dedup)])
    case Claim(k, j) =>
      var job := w.jobs[j].(status := Running, lock := Some(Lock(k, w.now)));
      w.(jobs := w.jobs[j := job], workers := w.workers[k := Some(Held(j, w.now, job.retries))])
    case Succeed(k) =>
      var j := w.workers[k].value.job;
      w.(jobs := w.jobs[j := w.jobs[j].(status := Succeeded, lock := None)],
         workers := w.workers[k := None], done := w.done + [j])
    case Fail(k, retryable, reread) =>
      var held := w.workers[k].value;
      var retries := (if reread then w.jobs[held.job].retries else held.seen) + 1;
      w.(jobs := w.jobs[held.job := Failed(w.jobs[held.job], retries, retryable, w.now)],
         workers := w.workers[k := None], failed := w.failed + [held.job])
    case Defer(k, until) =>
      var j := w.workers[k].value.job;
      w.(jobs := w.jobs[j := w.jobs[j].(status := Pending, availableAt := until, lock := None)],
         workers := w.workers[k := None])
    case Crash(k) => w.(workers := w.workers[k := None])
    case Reclaim => w.(jobs := map j | j in w.jobs :: Reclaimed(w.jobs[j], w.now))
  }

  // --- what each statement leaves --------------------------------------------

  /** Every other job is as it was, and none is added or lost. */
  ghost predicate OnlyJob(w: World, next: World, j: nat) {
    next.jobs.Keys == w.jobs.Keys && forall i :: i in w.jobs && i != j ==> next.jobs[i] == w.jobs[i]
  }

  /** A job can be claimed exactly when it is pending and due and no due job has waited longer. */
  lemma ClaimTakesTheLongestWaiting(w: World, k: nat, j: nat)
    ensures Enabled(w, Claim(k, j)) <==>
            && k in w.workers && w.workers[k] == None
            && j in w.jobs && w.jobs[j].status == Pending && w.jobs[j].availableAt <= w.now
            && forall i :: i in w.jobs && w.jobs[i].status == Pending && w.jobs[i].availableAt <= w.now ==>
                 w.jobs[j].availableAt <= w.jobs[i].availableAt
    ensures Enabled(w, Claim(k, j)) ==>
              var next := Step(w, Claim(k, j));
              && next.jobs[j] == w.jobs[j].(status := Running, lock := Some(Lock(k, w.now)))
              && next.workers == w.workers[k := Some(Held(j, w.now, w.jobs[j].retries))]
              && OnlyJob(w, next, j)
              && next.now == w.now && next.done == w.done && next.failed == w.failed
  {
    if k in w.workers && w.workers[k] == None && j in w.jobs && Due(w, j) && !Next(w, j) {
      var i :| i in w.jobs && Due(w, i) && w.jobs[j].availableAt > w.jobs[i].availableAt;
    }
  }

  /** Whatever the outcome, the lock goes and the worker is free; identity and budget stay. */
  lemma OutcomesFreeTheJob(w: World, e: Event)
    requires Enabled(w, e) && (e.Succeed? || e.Fail? || e.Defer?)
    ensures var held, next := w.workers[e.worker].value, Step(w, e);
            && OnlyJob(w, next, held.job)
            && next.jobs[held.job].lock == None
            && next.jobs[held.job].maxRetries == w.jobs[held.job].maxRetries
            && next.jobs[held.job].dedup == w.jobs[held.job].dedup
            && next.workers == w.workers[e.worker := None] && next.now == w.now
  {}

  lemma SuccessSettles(w: World, k: nat)
    requires Enabled(w, Succeed(k))
    ensures var j, next := w.workers[k].value.job, Step(w, Succeed(k));
            && next.jobs[j].status == Succeeded
            && next.jobs[j].retries == w.jobs[j].retries && next.jobs[j].availableAt == w.jobs[j].availableAt
            && next.done == w.done + [j] && next.failed == w.failed
  {}

  /**
   * The `a`-th failure of a job puts it back `min(30 · 2^(a-1), 3600)` seconds from now while it is
   * retryable and within its budget, and is its last otherwise.
   */
  lemma FailureBacksOff(w: World, k: nat, retryable: bool, reread: bool)
    requires Enabled(w, Fail(k, retryable, reread))
    ensures var held, next := w.workers[k].value, Step(w, Fail(k, retryable, reread));
            var was, job := w.jobs[held.job], next.jobs[held.job];
            var a := 1 + if reread then was.retries else held.seen;
            && job.retries == a
            && next.failed == w.failed + [held.job] && next.done == w.done
            && (retryable && a <= was.maxRetries ==>
                  && job.status == Pending
                  && job.availableAt == w.now + if 30 * Pow2(a - 1) < 3600 then 30 * Pow2(a - 1) else 3600)
            && (!retryable || a > was.maxRetries ==> job.status == Dead && job.availableAt == was.availableAt)
  {}

  /** Waiting is not failing: the job comes back when asked, uncharged. */
  lemma DeferralWaits(w: World, k: nat, until: int)
    requires Enabled(w, Defer(k, until))
    ensures var j, next := w.workers[k].value.job, Step(w, Defer(k, until));
            && next.jobs[j].status == Pending && next.jobs[j].availableAt == until
            && next.jobs[j].retries == w.jobs[j].retries
            && next.done == w.done && next.failed == w.failed
  {}

  /** A reclaim returns exactly the running jobs locked more than 900 seconds ago, due at once and uncharged. */
  lemma ReclaimReturnsTheAbandoned(w: World)
    ensures var next := Step(w, Reclaim);
            && next.jobs.Keys == w.jobs.Keys
            && (forall j :: j in w.jobs ==>
                  var was := w.jobs[j];
                  next.jobs[j] ==
                  if was.status == Running && was.lock.Some? && was.lock.value.at + 900 < w.now
                  then was.(status := Pending, lock := None, availableAt := w.now) else was)
            && next.now == w.now && next.workers == w.workers
            && next.done == w.done && next.failed == w.failed
  {}

  /** A job is added pending and untried, unless its deduplication key is taken. */
  lemma EnqueueAddsUnlessTaken(w: World, id: nat, at: int, maxRetries: nat, dedup: Option<string>)
    requires id !in w.jobs
    ensures var next := Step(w, Enqueue(id, at, maxRetries, dedup));
            if dedup.Some? && exists j :: j in w.jobs && w.jobs[j].dedup == dedup then next == w
            else next == w.(jobs := w.jobs[id := Job(Pending, at, None, 0, maxRetries, dedup)])
  {}

  /** A crash frees the worker and nothing else; time passing changes the clock and nothing else. */
  lemma CrashesAndWaitingTouchNoJob(w: World, k: nat, seconds: nat)
    ensures Step(w, Elapse(seconds)) == w.(now := w.now + seconds)
    ensures Enabled(w, Crash(k)) ==> Step(w, Crash(k)) == w.(workers := w.workers[k := None])
  {}

  // --- runs -----------------------------------------------------------------

  function Attempt(w: World, e: Event): Option<World> {
    if Enabled(w, e) then Some(Step(w, e)) else None
  }

  function Play(w: World, events: seq<Event>): Option<World> {
    Runs.Play(Attempt, w, events)
  }

  function Empty(workers: set<nat>): World {
    World(0, map[], map k | k in workers :: None, [], [])
  }

  function Count(log: seq<nat>, j: nat): nat {
    if |log| == 0 then 0 else Count(log[..|log| - 1], j) + (if log[|log| - 1] == j then 1 else 0)
  }

  lemma CountSnoc(log: seq<nat>, x: nat, j: nat)
    ensures Count(log + [x], j) == Count(log, j) + if x == j then 1 else 0
  {
    assert (log + [x])[..|log|] == log;
  }

  /** The worker's claim is the one the row records. */
  predicate Holds(w: World, k: nat) {
    Out(w, k) &&
    var h := w.workers[k].value;
    var job := w.jobs[h.job];
    job.status == Running && job.lock == Some(Lock(k, h.at)) && job.retries == h.seen
  }

  ghost predicate EveryoneHolds(w: World) {
    && (forall k :: k in w.workers && w.workers[k].Some? ==> Holds(w, k))
    && (forall j :: j in w.jobs ==> (w.jobs[j].status == Running <==> w.jobs[j].lock.Some?))
  }

  ghost predicate Tallied(w: World) {
    forall j :: (if j in w.jobs then
                   Count(w.done, j) == (if w.jobs[j].status == Succeeded then 1 else 0) &&
                   Count(w.failed, j) == w.jobs[j].retries
                 else Count(w.done, j) == 0 && Count(w.failed, j) == 0)
  }

  ghost predicate Budgeted(w: World) {
    forall j :: j in w.jobs ==>
      if w.jobs[j].status == Dead then 1 <= w.jobs[j].retries <= w.jobs[j].maxRetries + 1
      else w.jobs[j].retries <= w.jobs[j].maxRetries
  }

  /** A reclaim that takes a job from a worker still out with it. */
  ghost predicate Robs(w: World, e: Event) {
    e.Reclaim? && exists k :: Holds(w, k) && Abandoned(w.jobs[w.workers[k].value.job], w.now)
  }

  /** The one step after which someone is out with a job that is no longer theirs. */
  lemma HoldersStayIff(w: World, e: Event)
    requires Enabled(w, e) && EveryoneHolds(w)
    ensures EveryoneHolds(Step(w, e)) <==> !Robs(w, e)
  {
    var next := Step(w, e);
    if Robs(w, e) {
      var k :| Holds(w, k) && Abandoned(w.jobs[w.workers[k].value.job], w.now);
      assert !Holds(next, k);
    } else {
      forall k | k in next.workers && next.workers[k].Some? ensures Holds(next, k) {
        if k in w.workers && w.workers[k] == next.workers[k] {
          assert Holds(w, k);
        }
      }
    }
  }

  ghost predicate UndisturbedRun(w: World, events: seq<Event>) {
    |events| == 0 ||
    (UndisturbedRun(w, events[..|events| - 1])
     && !(Play(w, events[..|events| - 1]).Some?
          && Robs(Play(w, events[..|events| - 1]).value, events[|events| - 1])))
  }

  /** At every moment of the run, everyone out with a job holds it. */
  ghost predicate HeldThroughout(w: World, events: seq<Event>)
    requires Play(w, events).Some?
  {
    EveryoneHolds(Play(w, events).value) &&
    (|events| == 0 || HeldThroughout(w, events[..|events| - 1]))
  }

  /** Claims stay good throughout a run exactly when no reclaim in it takes a job from its worker. */
  lemma {:induction false} ClaimsStayGoodIff(workers: set<nat>, events: seq<Event>)
    requires Play(Empty(workers), events).Some?
    ensures HeldThroughout(Empty(workers), events) <==> UndisturbedRun(Empty(workers), events)
  {
    if |events| > 0 {
      var last := |events| - 1;
      ClaimsStayGoodIff(workers, events[..last]);
      var before := Play(Empty(workers), events[..last]).value;
      if EveryoneHolds(before) {
        HoldersStayIff(before, events[last]);
      }
    }
  }

  lemma SucceedKeepsTallies(w: World, k: nat)
    requires Enabled(w, Succeed(k)) && EveryoneHolds(w) && Tallied(w) && Budgeted(w)
    ensures Tallied(Step(w, Succeed(k))) && Budgeted(Step(w, Succeed(k)))
  {
    assert Holds(w, k);
    forall j { CountSnoc(w.done, w.workers[k].value.job, j); }
  }

  lemma FailKeepsTallies(w: World, k: nat, retryable: bool, reread: bool)
    requires Enabled(w, Fail(k, retryable, reread)) && EveryoneHolds(w) && Tallied(w) && Budgeted(w)
    ensures Tallied(Step(w, Fail(k, retryable, reread))) && Budgeted(Step(w, Fail(k, retryable, reread)))
  {
    assert Holds(w, k);
    forall j { CountSnoc(w.failed, w.workers[k].value.job, j); }
  }

  lemma DeferKeepsTallies(w: World, k: nat, until: int)
    requires Enabled(w, Defer(k, until)) && EveryoneHolds(w) && Tallied(w) && Budgeted(w)
    ensures Tallied(Step(w, Defer(k, until))) && Budgeted(Step(w, Defer(k, until)))
  {
    assert Holds(w, k);
  }

  lemma ClaimKeepsTallies(w: World, k: nat, j: nat)
    requires Enabled(w, Claim(k, j)) && Tallied(w) && Budgeted(w)
    ensures Tallied(Step(w, Claim(k, j))) && Budgeted(Step(w, Claim(k, j)))
  {}

  lemma EnqueueKeepsTallies(w: World, e: Event)
    requires e.Enqueue? && Enabled(w, e) && Tallied(w) && Budgeted(w)
    ensures Tallied(Step(w, e)) && Budgeted(Step(w, e))
  {}

  lemma ReclaimKeepsTallies(w: World)
    requires Tallied(w) && Budgeted(w)
    ensures Tallied(Step(w, Reclaim)) && Budgeted(Step(w, Reclaim))
  {}

  lemma StepKeepsTallies(w: World, e: Event)
    requires Enabled(w, e) && EveryoneHolds(w) && Tallied(w) && Budgeted(w)
    ensures Tallied(Step(w, e)) && Budgeted(Step(w, e))
  {
    match e {
      case Succeed(k) => SucceedKeepsTallies(w, k);
      case Fail(k, retryable, reread) => FailKeepsTallies(w, k, retryable, reread);
      case Defer(k, until) => DeferKeepsTallies(w, k, until);
      case Claim(k, j) => ClaimKeepsTallies(w, k, j);
      case Enqueue(_, _, _, _) => EnqueueKeepsTallies(w, e);
      case Reclaim => ReclaimKeepsTallies(w);
      case _ =>
    }
  }

  lemma {:induction false} UndisturbedRunIsSound(workers: set<nat>, events: seq<Event>)
    requires Play(Empty(workers), events).Some? && UndisturbedRun(Empty(workers), events)
    ensures var w := Play(Empty(workers), events).value; EveryoneHolds(w) && Tallied(w) && Budgeted(w)
  {
    if |events| > 0 {
      var last := |events| - 1;
      UndisturbedRunIsSound(workers, events[..last]);
      HoldersStayIff(Play(Empty(workers), events[..last]).value, events[last]);
      StepKeepsTallies(Play(Empty(workers), events[..last]).value, events[last]);
    }
  }

  /** What a queue owes: no job out twice or completed twice, and failures counted up to the budget. */
  ghost predicate Safe(w: World) {
    && (forall a, b :: Out(w, a) && Out(w, b) && w.workers[a].value.job == w.workers[b].value.job ==> a == b)
    && (forall j :: j in w.jobs ==>
          && Count(w.done, j) <= 1
          && (Count(w.done, j) == 1 <==> w.jobs[j].status == Succeeded)
          && Count(w.failed, j) == w.jobs[j].retries <= w.jobs[j].maxRetries + 1
          && (w.jobs[j].retries == w.jobs[j].maxRetries + 1 ==> w.jobs[j].status == Dead))
  }

  /**
   * While no reclaim takes a job from a worker still out with it, however late workers are and
   * whatever else happens: no two are out with the same job, a job completes at most once, and its
   * failures are counted one by one up to its budget, waiting, crashing and being reclaimed costing
   * nothing.
   */
  lemma UndisturbedRunIsSafe(workers: set<nat>, events: seq<Event>)
    requires Play(Empty(workers), events).Some? && UndisturbedRun(Empty(workers), events)
    ensures Safe(Play(Empty(workers), events).value)
  {
    UndisturbedRunIsSound(workers, events);
    var w := Play(Empty(workers), events).value;
    forall a, b | Out(w, a) && Out(w, b) && w.workers[a].value.job == w.workers[b].value.job ensures a == b {
      assert Holds(w, a) && Holds(w, b);
    }
  }

  /** No worker is out with a job longer than the lock timeout. */
  ghost predicate Timely(w: World) {
    forall k :: Out(w, k) ==> w.now <= w.workers[k].value.at + LOCK_TIMEOUT_SECONDS
  }

  ghost predicate TimelyRun(w: World, events: seq<Event>) {
    Play(w, events).Some? && Timely(Play(w, events).value) &&
    (|events| == 0 || TimelyRun(w, events[..|events| - 1]))
  }

  lemma {:induction false} TimelyIsUndisturbed(w: World, events: seq<Event>)
    requires TimelyRun(w, events)
    ensures UndisturbedRun(w, events)
  {
    if |events| > 0 {
      TimelyIsUndisturbed(w, events[..|events| - 1]);
    }
  }

  /** In particular while every worker finishes within the lock timeout. */
  lemma TimelyRunIsSafe(workers: set<nat>, events: seq<Event>)
    requires TimelyRun(Empty(workers), events)
    ensures Safe(Play(Empty(workers), events).value)
  {
    TimelyIsUndisturbed(Empty(workers), events);
    UndisturbedRunIsSafe(workers, events);
  }

  // --- settled jobs ----------------------------------------------------------

  predicate Settled(job: Job) {
    job.status == Succeeded || job.status == Dead
  }

  /** The worker an event records an outcome for, if it does. */
  function Recorder(e: Event): Option<nat> {
    match e
    case Succeed(k) => Some(k)
    case Fail(k, _, _) => Some(k)
    case Defer(k, _) => Some(k)
    case _ => None
  }

  /** The retry count a failure of this worker's would record. */
  function Charged(w: World, k: nat, reread: bool): nat
    requires Out(w, k)
  {
    var held := w.workers[k].value;
    (if reread then w.jobs[held.job].retries else held.seen) + 1
  }

  /**
   * No outcome is checked against the lock. A settled job is put back exactly by a deferral, or by a
   * failure still within the retry budget, recorded by a worker that is out with it.
   */
  lemma SettledIsReopenedIff(w: World, e: Event, j: nat)
    requires Enabled(w, e) && j in w.jobs && Settled(w.jobs[j])
    ensures j in Step(w, e).jobs
    ensures !Settled(Step(w, e).jobs[j]) <==>
            || (e.Defer? && w.workers[e.worker].value.job == j)
            || (e.Fail? && w.workers[e.worker].value.job == j && e.retryable
                && Charged(w, e.worker, e.reread) <= w.jobs[j].maxRetries)
  {}

  /** Whatever touches a settled job is an outcome of a worker out with it whose claim is no longer good. */
  lemma OnlyStaleOutcomesTouchSettledJobs(w: World, e: Event, j: nat)
    requires Enabled(w, e) && j in w.jobs && Settled(w.jobs[j])
    ensures Step(w, e).jobs[j] != w.jobs[j] ==>
              Recorder(e).Some? && w.workers[Recorder(e).value].value.job == j && !Holds(w, Recorder(e).value)
  {}

  /** While no reclaim takes a job from its worker, a settled job is final to the end of the run. */
  lemma {:induction false} SettledIsFinal(workers: set<nat>, events: seq<Event>, n: nat, j: nat)
    requires n <= |events| && Play(Empty(workers), events).Some? && UndisturbedRun(Empty(workers), events)
    requires Play(Empty(workers), events[..n]).Some?
    requires var w := Play(Empty(workers), events[..n]).value; j in w.jobs && Settled(w.jobs[j])
    ensures j in Play(Empty(workers), events).value.jobs
    ensures Play(Empty(workers), events).value.jobs[j] == Play(Empty(workers), events[..n]).value.jobs[j]
  {
    if n == |events| {
      assert events[..n] == events;
    } else {
      var last := |events| - 1;
      assert events[..last][..n] == events[..n];
      SettledIsFinal(workers, events[..last], n, j);
      UndisturbedRunIsSound(workers, events[..last]);
      var before := Play(Empty(workers), events[..last]).value;
      OnlyStaleOutcomesTouchSettledJobs(before, events[last], j);
    }
  }

  /**
   * Once a reclaim takes a job from a worker still out with it, nothing protects the job: wherever
   * another worker can claim it next, either of the two can finish it and the other put it back.
   */
  lemma RobbedJobsCanBeRevived(w: World, k: nat, m: nat, until: int)
    requires Holds(w, k) && Abandoned(w.jobs[w.workers[k].value.job], w.now)
    requires m in w.workers && w.workers[m] == None && Next(Step(w, Reclaim), w.workers[k].value.job)
    ensures var j := w.workers[k].value.job;
            && Revives(w, [Reclaim] + [Claim(m, j)] + [Succeed(m)], Defer(k, until), j)
            && Revives(w, [Reclaim] + [Claim(m, j)] + [Succeed(k)], Defer(m, until), j)
  {
    var j := w.workers[k].value.job;
    TakenThenRevived(w, k, m, j, Succeed(m), Defer(k, until));
    TakenThenRevived(w, k, m, j, Succeed(k), Defer(m, until));
  }

  /** The job completes in the run, and the event puts it back. */
  ghost predicate Revives(w: World, events: seq<Event>, e: Event, j: nat) {
    && Play(w, events).Some? && j in Play(w, events).value.jobs
    && Play(w, events).value.jobs[j].status == Succeeded
    && Play(w, events + [e]).Some? && j in Play(w, events + [e]).value.jobs
    && Play(w, events + [e]).value.jobs[j].status == Pending
  }

  lemma TakenThenRevived(w: World, k: nat, m: nat, j: nat, finish: Event, back: Event)
    requires Holds(w, k) && j == w.workers[k].value.job && Abandoned(w.jobs[j], w.now)
    requires m in w.workers && w.workers[m] == None && Next(Step(w, Reclaim), j)
    requires finish.Succeed? && back.Defer?
    requires (finish.worker == m && back.worker == k) || (finish.worker == k && back.worker == m)
    ensures Revives(w, [Reclaim] + [Claim(m, j)] + [finish], back, j)
  {
    var a := Step(w, Reclaim);
    var b := Step(a, Claim(m, j));
    var c := Step(b, finish);
    Runs.PlayOne(Attempt, w, Reclaim);
    Runs.PlayOne(Attempt, a, Claim(m, j));
    Runs.PlayOne(Attempt, b, finish);
    Runs.PlayOne(Attempt, c, back);
    Runs.PlayConcat(Attempt, w, [Reclaim], [Claim(m, j)]);
    Runs.PlayConcat(Attempt, w, [Reclaim] + [Claim(m, j)], [finish]);
    Runs.PlayConcat(Attempt, w, [Reclaim] + [Claim(m, j)] + [finish], [back]);
  }

  /** A first claim outlives its lock, a second worker finishes the job, and the first comes back. */
  function LateClaim(): seq<Event> {
    [Enqueue(0, 0, 3, None)] + [Claim(0, 0)] + [Elapse(901)]
  }

  function LateFinish(): seq<Event> {
    [Reclaim] + [Claim(1, 0)] + [Succeed(1)]
  }

  function LateSecond(): seq<Event> {
    [Defer(0, 902)] + [Elapse(1)] + [Claim(1, 0)] + [Succeed(1)]
  }

  function ClaimedLong(): World {
    World(901, map[0 := Job(Running, 0, Some(Lock(0, 0)), 0, 3, None)],
          map[0 := Some(Held(0, 0, 0)), 1 := None], [], [])
  }

  function FinishedOnce(): World {
    World(901, map[0 := Job(Succeeded, 901, None, 0, 3, None)],
          map[0 := Some(Held(0, 0, 0)), 1 := None], [0], [])
  }

  lemma LateClaimPlays()
    ensures Play(Empty({0, 1}), LateClaim()) == Some(ClaimedLong())
  {
    var s := Empty({0, 1});
    var a := Step(s, Enqueue(0, 0, 3, None));
    var b := Step(a, Claim(0, 0));
    Runs.PlayOne(Attempt, s, Enqueue(0, 0, 3, None));
    Runs.PlayOne(Attempt, a, Claim(0, 0));
    Runs.PlayOne(Attempt, b, Elapse(901));
    Runs.PlayConcat(Attempt, s, [Enqueue(0, 0, 3, None)], [Claim(0, 0)]);
    Runs.PlayConcat(Attempt, s, [Enqueue(0, 0, 3, None)] + [Claim(0, 0)], [Elapse(901)]);
    assert Step(b, Elapse(901)) == ClaimedLong();
  }

  lemma LateFinishPlays()
    ensures Play(ClaimedLong(), LateFinish()) == Some(FinishedOnce())
  {
    var s := ClaimedLong();
    var a := Step(s, Reclaim);
    var b := Step(a, Claim(1, 0));
    Runs.PlayOne(Attempt, s, Reclaim);
    Runs.PlayOne(Attempt, a, Claim(1, 0));
    Runs.PlayOne(Attempt, b, Succeed(1));
    Runs.PlayConcat(Attempt, s, [Reclaim], [Claim(1, 0)]);
    Runs.PlayConcat(Attempt, s, [Reclaim] + [Claim(1, 0)], [Succeed(1)]);
    var c := Step(b, Succeed(1));
    assert c.done == [0];
    assert c.jobs == FinishedOnce().jobs;
    assert c.workers == FinishedOnce().workers;
  }

  lemma LateSecondPlays()
    ensures Play(FinishedOnce(), LateSecond()).Some?
    ensures Play(FinishedOnce(), LateSecond()).value.done == [0] + [0]
  {
    var s := FinishedOnce();
    var a := Step(s, Defer(0, 902));
    var b := Step(a, Elapse(1));
    var c := Step(b, Claim(1, 0));
    Runs.PlayOne(Attempt, s, Defer(0, 902));
    Runs.PlayOne(Attempt, a, Elapse(1));
    Runs.PlayOne(Attempt, b, Claim(1, 0));
    Runs.PlayOne(Attempt, c, Succeed(1));
    Runs.PlayConcat(Attempt, s, [Defer(0, 902)], [Elapse(1)]);
    Runs.PlayConcat(Attempt, s, [Defer(0, 902)] + [Elapse(1)], [Claim(1, 0)]);
    Runs.PlayConcat(Attempt, s, [Defer(0, 902)] + [Elapse(1)] + [Claim(1, 0)], [Succeed(1)]);
  }

  /** A worker that outlives its lock can put a completed job back, and have it completed again. */
  lemma LateWorkerRevivesJob()
    ensures Play(Empty({0, 1}), LateClaim() + LateFinish() + LateSecond()).Some?
    ensures Count(Play(Empty({0, 1}), LateClaim() + LateFinish() + LateSecond()).value.done, 0) == 2
  {
    LateClaimPlays();
    LateFinishPlays();
    LateSecondPlays();
    Runs.PlayConcat(Attempt, Empty({0, 1}), LateClaim(), LateFinish());
    Runs.PlayConcat(Attempt, Empty({0, 1}), LateClaim() + LateFinish(), LateSecond());
    CountSnoc([0], 0, 0);
    CountSnoc([], 0, 0);
    assert [] + [0] == [0];
  }

  /** The reviver need not be late: the second worker can put back what the late one finished. */
  lemma PunctualWorkerRevivesJob(until: int)
    ensures Play(Empty({0, 1}), LateClaim()) == Some(ClaimedLong())
    ensures Revives(ClaimedLong(), [Reclaim] + [Claim(1, 0)] + [Succeed(0)], Defer(1, until), 0)
  {
    LateClaimPlays();
    assert Holds(ClaimedLong(), 0);
    RobbedJobsCanBeRevived(ClaimedLong(), 0, 1, until);
  }

  // --- nothing is lost -------------------------------------------------------

  /** Nobody records an outcome for the job in the run. */
  ghost predicate Unreported(w: World, events: seq<Event>, j: nat)
    requires Play(w, events).Some?
  {
    |events| == 0 ||
    (Unreported(w, events[..|events| - 1], j) &&
     var before, e := Play(w, events[..|events| - 1]).value, events[|events| - 1];
     Recorder(e).Some? ==> before.workers[Recorder(e).value].value.job != j)
  }

  /** Due, or out under a lock. */
  predicate InHand(w: World, j: nat) {
    j in w.jobs && (Due(w, j) || (w.jobs[j].status == Running && w.jobs[j].lock.Some?))
  }

  lemma {:induction false} UnreportedStaysInHand(w: World, events: seq<Event>, j: nat)
    requires Play(w, events).Some? && InHand(w, j) && Unreported(w, events, j)
    ensures var r := Play(w, events).value; InHand(r, j) && r.jobs[j].retries == w.jobs[j].retries
  {
    if |events| > 0 {
      UnreportedStaysInHand(w, events[..|events| - 1], j);
    }
  }

  /**
   * A job is never lost with its worker: through any run in which nobody reports on it, each reclaim
   * leaves it due again or under a lock no older than the timeout, its retries uncharged.
   */
  lemma AbandonedJobsReturn(w: World, events: seq<Event>, j: nat)
    requires Play(w, events).Some? && InHand(w, j) && Unreported(w, events, j)
    ensures Play(w, events + [Reclaim]).Some?
    ensures var r := Play(w, events + [Reclaim]).value;
            && j in r.jobs && r.jobs[j].retries == w.jobs[j].retries
            && (Due(r, j) || (r.jobs[j].status == Running && r.jobs[j].lock.Some?
                              && r.now <= r.jobs[j].lock.value.at + LOCK_TIMEOUT_SECONDS))
  {
    UnreportedStaysInHand(w, events, j);
    Runs.PlayOne(Attempt, Play(w, events).value, Reclaim);
    Runs.PlayConcat(Attempt, w, events, [Reclaim]);
  }

  /** Jobs are never deleted, and two jobs never share a deduplication key. */
  ghost predicate Unique(w: World) {
    forall i, j :: i in w.jobs && j in w.jobs && w.jobs[i].dedup.Some? && w.jobs[i].dedup == w.jobs[j].dedup ==> i == j
  }

  lemma {:induction false} JobsAreKeptAndUnique(w: World, events: seq<Event>)
    requires Unique(w) && Play(w, events).Some?
    ensures Unique(Play(w, events).value)
    ensures forall j :: j in w.jobs ==> j in Play(w, events).value.jobs &&
                                        Play(w, events).value.jobs[j].dedup == w.jobs[j].dedup
  {
    if |events| > 0 {
      JobsAreKeptAndUnique(w, events[..|events| - 1]);
      StepKeepsJobs(Play(w, events[..|events| - 1]).value, events[|events| - 1]);
    }
  }

  lemma StepKeepsJobs(w: World, e: Event)
    requires Enabled(w, e) && Unique(w)
    ensures Unique(Step(w, e))
    ensures forall j :: j in w.jobs ==> j in Step(w, e).jobs && Step(w, e).jobs[j].dedup == w.jobs[j].dedup
  {}

  /** The waits in seconds: 30, 60, 120, 240, 480, 960, 1920, and an hour from the eighth failure on. */
  lemma RetryDelayIs(a: nat)
    ensures RetryDelay(1) == 30 && RetryDelay(2) == 60 && RetryDelay(3) == 120 && RetryDelay(4) == 240
    ensures RetryDelay(5) == 480 && RetryDelay(6) == 960 && RetryDelay(7) == 1920
    ensures a >= 8 ==> RetryDelay(a) == 3600
  {
    assert Pow2(0) == 1 && Pow2(1) == 2 && Pow2(2) == 4 && Pow2(3) == 8 && Pow2(4) == 16;
    assert Pow2(5) == 32 && Pow2(6) == 64 && Pow2(7) == 128;
    if a >= 8 { PowGrows(7, a - 1); }
  }

  /** A pending job stays out of every worker's reach until it is due, unless an outcome is recorded for it. */
  lemma {:induction false} WaitsUntilDue(w: World, events: seq<Event>, j: nat)
    requires Play(w, events).Some? && Unreported(w, events, j)
    requires j in w.jobs && w.jobs[j].status == Pending && Play(w, events).value.now < w.jobs[j].availableAt
    ensures var r := Play(w, events).value;
            && j in r.jobs && r.jobs[j] == w.jobs[j]
            && forall k :: !Enabled(r, Claim(k, j))
  {
    if |events| > 0 {
      var before := Play(w, events[..|events| - 1]).value;
      assert before.now <= Play(w, events).value.now;
      WaitsUntilDue(w, events[..|events| - 1], j);
    }
  }

  /**
   * After its `a`-th failure nobody can claim a job for `min(30 · 2^(a-1), 3600)` seconds, whatever
   * happens meanwhile, unless another outcome is recorded for it.
   */
  lemma BackoffHolds(w: World, k: nat, reread: bool, events: seq<Event>, m: nat)
    requires Enabled(w, Fail(k, true, reread))
    requires var held := w.workers[k].value;
             1 + (if reread then w.jobs[held.job].retries else held.seen) <= w.jobs[held.job].maxRetries
    requires var next := Step(w, Fail(k, true, reread));
             Play(next, events).Some? && Unreported(next, events, w.workers[k].value.job)
    requires Enabled(Play(Step(w, Fail(k, true, reread)), events).value, Claim(m, w.workers[k].value.job))
    ensures var held := w.workers[k].value;
            var a := 1 + if reread then w.jobs[held.job].retries else held.seen;
            Play(Step(w, Fail(k, true, reread)), events).value.now >=
            w.now + if 30 * Pow2(a - 1) < 3600 then 30 * Pow2(a - 1) else 3600
  {
    var next, j := Step(w, Fail(k, true, reread)), w.workers[k].value.job;
    FailureBacksOff(w, k, true, reread);
    if Play(next, events).value.now < next.jobs[j].availableAt {
      WaitsUntilDue(next, events, j);
    }
  }

  /** A deferred job likewise, until the time it was deferred to. */
  lemma DeferralHolds(w: World, k: nat, until: int, events: seq<Event>, m: nat)
    requires Enabled(w, Defer(k, until))
    requires var next := Step(w, Defer(k, until));
             Play(next, events).Some? && Unreported(next, events, w.workers[k].value.job)
    requires Enabled(Play(Step(w, Defer(k, until)), events).value, Claim(m, w.workers[k].value.job))
    ensures Play(Step(w, Defer(k, until)), events).value.now >= until
  {
    var next, j := Step(w, Defer(k, until)), w.workers[k].value.job;
    DeferralWaits(w, k, until);
    if Play(next, events).value.now < next.jobs[j].availableAt {
      WaitsUntilDue(next, events, j);
    }
  }

  /** Backoff never shrinks and never exceeds its ceiling. */
  lemma {:induction false} RetryDelayGrows(a: nat, b: nat)
    requires a <= b
    ensures RetryDelay(a) <= RetryDelay(b) <= RETRY_MAX_SECONDS
    ensures RetryDelay(a) >= RETRY_BASE_SECONDS
    decreases b
  {
    PowGrows(if a > 0 then a - 1 else 0, if b > 0 then b - 1 else 0);
    PowGrows(0, if a > 0 then a - 1 else 0);
  }
}
