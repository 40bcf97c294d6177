// The job queue (app/rag/worker.py): jobs claimed with SKIP LOCKED, retried with quadratic
// back-off, finished as done or failed. Any number of workers; a crash may come at any point.
module JobQueue {
  import opened Prelude

  type JobId = nat
  type Worker = nat

  const MINUTE := 60_000_000
  const MAX_ATTEMPTS := 5

  datatype Status = Pending | Running | Done | Failed {
    predicate Terminal() { Done? || Failed? }
  }

  datatype Job = Job(status: Status, attempts: nat, runAfter: int)

  // Where a worker stands with the job it claimed: inside _handle, about to write FINISH, or
  // about to write RETRY with the time it computed.
  datatype Phase = Handling | Finishing(status: Status) | Retrying(runAfter: int)

  datatype Work = Work(job: JobId, attempt: nat, phase: Phase)

  // `history` records the times at which each job was claimed.
  datatype State = State(jobs: map<JobId, Job>, nextJob: JobId, workers: map<Worker, Work>, now: int,
                         history: map<JobId, seq<int>>) {
    function Claims(j: JobId): seq<int> {
      if j in history then history[j] else []
    }
  }

  // 1, 4, 9, 16 minutes.
  function Backoff(attempts: nat): int {
    var a := Min(attempts, 4);
    a * a * MINUTE
  }

  datatype Label =
    | Tick(dt: nat)
    | Enqueue
    | Delete(j: JobId)
    | Claim(w: Worker, j: JobId)
    | Return(w: Worker, status: Status)   // _handle returns done or failed
    | Raise(w: Worker)                    // _handle raises
    | Write(w: Worker)                    // FINISH or RETRY
    | Crash(w: Worker)

  predicate Enabled(s: State, l: Label) {
    match l
    case Claim(w, j) => w !in s.workers && j in s.jobs && s.jobs[j].status.Pending? && s.jobs[j].runAfter <= s.now
    case Return(w, status) => w in s.workers && s.workers[w].phase.Handling? && status.Terminal()
    case Raise(w) => w in s.workers && s.workers[w].phase.Handling?
    case Write(w) => w in s.workers && !s.workers[w].phase.Handling?
    case Crash(w) => w in s.workers
    case _ => true
  }

  function AfterRaise(attempt: nat, now: int): Phase {
    if attempt >= MAX_ATTEMPTS then Finishing(Failed) else Retrying(now + Backoff(attempt))
  }

  function Written(job: Job, phase: Phase): Job {
    match phase
    case Handling => job
    case Finishing(status) => job.(status := status)
    case Retrying(runAfter) => job.(status := Pending, runAfter := runAfter)
  }

  function Next(s: State, l: Label): State
    requires Enabled(s, l)
  {
    match l
    case Tick(dt) => s.(now := s.now + dt)
    case Enqueue => s.(jobs := s.jobs[s.nextJob := Job(Pending, 0, s.now)], nextJob := s.nextJob + 1)
    case Delete(j) => s.(jobs := s.jobs - {j})
    case Claim(w, j) =>
      var job := s.jobs[j];
      s.(jobs := s.jobs[j := job.(status := Running, attempts := job.attempts + 1)],
         workers := s.workers[w := Work(j, job.attempts + 1, Handling)],
         history := s.history[j := s.Claims(j) + [s.now]])
    case Return(w, status) => s.(workers := s.workers[w := s.workers[w].(phase := Finishing(status))])
    case Raise(w) =>
      s.(workers := s.workers[w := s.workers[w].(phase := AfterRaise(s.workers[w].attempt, s.now))])
    case Write(w) =>
      var work := s.workers[w];
      s.(jobs := if work.job in s.jobs then s.jobs[work.job := Written(s.jobs[work.job], work.phase)] else s.jobs,
         workers := s.workers - {w})
    case Crash(w) => s.(workers := s.workers - {w})
  }

  ghost predicate Initial(s: State) {
    s.jobs == map[] && s.workers == map[] && s.history == map[]
  }

  // ---------------------------------------------------------------- what every step keeps

  // The claims lie in the past, the k-th and the next at least k * k minutes apart.
  ghost predicate Spaced(claims: seq<int>, now: int) {
    && |claims| <= MAX_ATTEMPTS
    && (forall k :: 0 <= k < |claims| ==> claims[k] <= now)
    && (forall k :: 0 < k < |claims| ==> claims[k] - claims[k - 1] >= Backoff(k))
  }

  // A next claim at time t would keep the spacing.
  ghost predicate Ready(claims: seq<int>, t: int) {
    |claims| < MAX_ATTEMPTS && (claims != [] ==> t >= claims[|claims| - 1] + Backoff(|claims|))
  }

  ghost predicate JobInv(s: State, j: JobId) {
    && j in s.jobs && j < s.nextJob
    && s.jobs[j].attempts == |s.Claims(j)|
    && (s.jobs[j].status.Pending? ==> Ready(s.Claims(j), s.jobs[j].runAfter))
  }

  ghost predicate WorkInv(s: State, w: Worker) {
    && w in s.workers
    && var k := s.workers[w];
    && k.job < s.nextJob
    && k.attempt == |s.Claims(k.job)| && k.attempt >= 1
    && (k.job in s.jobs ==> s.jobs[k.job].status.Running?)
    && (k.phase.Finishing? ==> k.phase.status.Terminal())
    && (k.phase.Retrying? ==> Ready(s.Claims(k.job), k.phase.runAfter))
  }

  ghost predicate OneOwner(workers: map<Worker, Work>) {
    forall v, w :: v in workers && w in workers && workers[v].job == workers[w].job ==> v == w
  }

  ghost predicate Inv(s: State) {
    && OneOwner(s.workers)
    && (forall j :: j in s.jobs ==> JobInv(s, j))
    && (forall w :: w in s.workers ==> WorkInv(s, w))
    && (forall j :: Spaced(s.Claims(j), s.now))
    && (forall j :: j in s.history ==> j < s.nextJob)
  }

  lemma OneMoreClaim(claims: seq<int>, runAfter: int, now: int)
    requires Spaced(claims, now) && Ready(claims, runAfter) && runAfter <= now
    ensures Spaced(claims + [now], now)
  {}

  lemma SpacedLater(claims: seq<int>, now: int, later: int)
    requires Spaced(claims, now) && now <= later
    ensures Spaced(claims, later)
  {}

  lemma ClaimHistory(s: State, w: Worker, j: JobId)
    requires Inv(s) && Enabled(s, Claim(w, j))
    ensures var t := Next(s, Claim(w, j));
            && t.Claims(j) == s.Claims(j) + [s.now]
            && (forall i :: i != j ==> t.Claims(i) == s.Claims(i))
            && (forall i :: Spaced(t.Claims(i), t.now))
  {
    var t := Next(s, Claim(w, j));
    assert JobInv(s, j);
    OneMoreClaim(s.Claims(j), s.jobs[j].runAfter, s.now);
    hide Ready, Spaced;
    forall i ensures Spaced(t.Claims(i), t.now) {
      assert Spaced(s.Claims(i), s.now);
    }
  }

  lemma ClaimKeepsJobs(s: State, w: Worker, j: JobId, i: JobId)
    requires Inv(s) && Enabled(s, Claim(w, j)) && i in s.jobs
    ensures JobInv(Next(s, Claim(w, j)), i)
  {
    ClaimHistory(s, w, j);
    assert JobInv(s, i) && JobInv(s, j);
  }

  lemma ClaimKeepsWork(s: State, w: Worker, j: JobId, v: Worker)
    requires Inv(s) && Enabled(s, Claim(w, j)) && v in Next(s, Claim(w, j)).workers
    ensures WorkInv(Next(s, Claim(w, j)), v)
  {
    ClaimHistory(s, w, j);
    assert JobInv(s, j);
    if v != w {
      assert WorkInv(s, v);
    }
  }

  lemma ClaimKeepsInv(s: State, w: Worker, j: JobId)
    requires Inv(s) && Enabled(s, Claim(w, j))
    ensures Inv(Next(s, Claim(w, j)))
  {
    ClaimHistory(s, w, j);
    assert JobInv(s, j);
    OwnersAfterClaim(s, w, j);
    hide JobInv, WorkInv, Spaced, State.Claims, OneOwner;
    var t := Next(s, Claim(w, j));
    forall i | i in t.jobs ensures JobInv(t, i) {
      ClaimKeepsJobs(s, w, j, i);
    }
    forall v | v in t.workers ensures WorkInv(t, v) {
      ClaimKeepsWork(s, w, j, v);
    }
  }

  lemma OwnersAfterClaim(s: State, w: Worker, j: JobId)
    requires Inv(s) && Enabled(s, Claim(w, j))
    ensures OneOwner(Next(s, Claim(w, j)).workers)
  {
    forall v | v in s.workers ensures s.workers[v].job != j {
      assert WorkInv(s, v);
    }
  }

  lemma RaiseKeepsInv(s: State, w: Worker)
    requires Inv(s) && Enabled(s, Raise(w))
    ensures Inv(Next(s, Raise(w)))
  {
    hide Spaced, Ready, Backoff, AfterRaise;
    var t := Next(s, Raise(w));
    assert WorkInv(s, w) && Spaced(s.Claims(s.workers[w].job), s.now);
    RaiseIsReady(s.Claims(s.workers[w].job), s.now);
    assert forall i :: t.Claims(i) == s.Claims(i);
    forall i | i in t.jobs ensures JobInv(t, i) {
      assert JobInv(s, i);
    }
    forall v | v in t.workers ensures WorkInv(t, v) {
      assert WorkInv(s, v);
    }
  }

  // What the exception handler decides after the last claim keeps the spacing.
  lemma RaiseIsReady(claims: seq<int>, now: int)
    requires Spaced(claims, now) && claims != []
    ensures var phase := AfterRaise(|claims|, now);
            && !phase.Handling?
            && (phase.Finishing? ==> phase.status.Terminal())
            && (phase.Retrying? ==> Ready(claims, phase.runAfter))
  {
    hide Backoff;
  }

  lemma WriteKeepsInv(s: State, w: Worker)
    requires Inv(s) && Enabled(s, Write(w))
    ensures Inv(Next(s, Write(w)))
  {
    hide Backoff, Ready, Spaced;
    var t := Next(s, Write(w));
    assert WorkInv(s, w);
    assert forall i :: t.Claims(i) == s.Claims(i);
    forall i | i in t.jobs ensures JobInv(t, i) {
      assert JobInv(s, i);
    }
    forall v | v in t.workers ensures WorkInv(t, v) {
      assert WorkInv(s, v);
    }
  }

  lemma OtherStepKeepsHistory(s: State, l: Label)
    requires Inv(s) && Enabled(s, l) && !l.Claim? && !l.Raise? && !l.Write?
    ensures Next(s, l).history == s.history
    ensures forall i :: Next(s, l).Claims(i) == s.Claims(i) && Spaced(s.Claims(i), Next(s, l).now)
    ensures s.Claims(s.nextJob) == [] && Ready([], s.now)
  {
    hide OneOwner, JobInv, WorkInv;
    var t := Next(s, l);
    forall i ensures t.Claims(i) == s.Claims(i) && Spaced(s.Claims(i), t.now) {
      SpacedLater(s.Claims(i), s.now, t.now);
    }
  }

  lemma OtherStepKeepsInv(s: State, l: Label)
    requires Inv(s) && Enabled(s, l) && !l.Claim? && !l.Raise? && !l.Write?
    ensures Inv(Next(s, l))
  {
    hide Backoff, Ready, Spaced, State.Claims, Status.Terminal;
    var t := Next(s, l);
    OtherStepKeepsHistory(s, l);
    forall i | i in t.jobs ensures JobInv(t, i) {
      if i in s.jobs {
        assert JobInv(s, i);
      }
    }
    forall v | v in t.workers ensures WorkInv(t, v) {
      assert WorkInv(s, v);
    }
  }

  lemma StepKeepsInv(s: State, l: Label)
    requires Inv(s) && Enabled(s, l)
    ensures Inv(Next(s, l))
  {
    hide Inv, Next;
    match l
    case Claim(w, j) => ClaimKeepsInv(s, w, j);
    case Raise(w) => RaiseKeepsInv(s, w);
    case Write(w) => WriteKeepsInv(s, w);
    case _ => OtherStepKeepsInv(s, l);
  }

  // ---------------------------------------------------------------- whole runs

  ghost predicate IsRunFrom(s: State, states: seq<State>, labels: seq<Label>) {
    && |states| == |labels| + 1
    && states[0] == s
    && forall i :: 0 <= i < |labels| ==> Enabled(states[i], labels[i]) && states[i + 1] == Next(states[i], labels[i])
  }

  lemma {:induction false} RunKeepsInv(s: State, states: seq<State>, labels: seq<Label>, i: nat)
    requires IsRunFrom(s, states, labels) && Inv(s) && i < |states|
    ensures Inv(states[i])
  {
    hide Inv, Next;
    if i > 0 {
      RunKeepsInv(s, states, labels, i - 1);
      StepKeepsInv(states[i - 1], labels[i - 1]);
    }
  }

  // Safety in every reachable state: a running job has at most one owner, a pending one has had at
  // most four claims, and no job more than five, the k-th and the next at least k * k minutes apart.
  lemma Safety(s: State, states: seq<State>, labels: seq<Label>, i: nat)
    requires Initial(s) && IsRunFrom(s, states, labels) && i < |states|
    ensures var t := states[i];
            && OneOwner(t.workers)
            && (forall j :: j in t.jobs && t.jobs[j].status.Pending? ==> t.jobs[j].attempts <= MAX_ATTEMPTS - 1)
            && (forall j :: j in t.jobs ==> t.jobs[j].attempts == |t.Claims(j)|)
            && (forall j :: |t.Claims(j)| <= MAX_ATTEMPTS)
            && (forall j, k :: 0 < k < |t.Claims(j)| ==> t.Claims(j)[k] - t.Claims(j)[k - 1] >= k * k * MINUTE)
  {
    RunKeepsInv(s, states, labels, i);
    var t := states[i];
    forall j | j in t.jobs
      ensures t.jobs[j].attempts == |t.Claims(j)|
      ensures t.jobs[j].status.Pending? ==> t.jobs[j].attempts <= MAX_ATTEMPTS - 1
    {
      assert JobInv(t, j);
    }
    forall j, k | 0 < k < |t.Claims(j)| ensures t.Claims(j)[k] - t.Claims(j)[k - 1] >= k * k * MINUTE {
      assert Spaced(t.Claims(j), t.now);
      assert Backoff(k) == k * k * MINUTE;
    }
    forall j ensures |t.Claims(j)| <= MAX_ATTEMPTS {
      assert Spaced(t.Claims(j), t.now);
    }
  }

  // So a fifth claim comes at least half an hour after the first.
  lemma FifthClaimIsLate(s: State, states: seq<State>, labels: seq<Label>, i: nat, j: JobId)
    requires Initial(s) && IsRunFrom(s, states, labels) && i < |states| && |states[i].Claims(j)| == 5
    ensures states[i].Claims(j)[4] - states[i].Claims(j)[0] >= 30 * MINUTE
  {
    RunKeepsInv(s, states, labels, i);
    var c := states[i].Claims(j);
    assert Spaced(c, states[i].now);
    assert c[1] - c[0] >= Backoff(1) && c[2] - c[1] >= Backoff(2) && c[3] - c[2] >= Backoff(3)
        && c[4] - c[3] >= Backoff(4);
  }

  lemma StepKeepsTerminal(s: State, l: Label, j: JobId)
    requires Inv(s) && Enabled(s, l) && j in s.jobs && s.jobs[j].status.Terminal()
    ensures j in Next(s, l).jobs ==> Next(s, l).jobs[j] == s.jobs[j]
    ensures l != Delete(j) ==> j in Next(s, l).jobs
  {
    assert JobInv(s, j);
    if l.Write? {
      assert WorkInv(s, l.w);
    }
  }

  // Done and failed are for good: only the erasure of the row ends them.
  lemma {:induction false} TerminalIsFinal(s: State, states: seq<State>, labels: seq<Label>, i: nat, k: nat, j: JobId)
    requires IsRunFrom(s, states, labels) && Inv(s) && i <= k < |states|
    requires j in states[i].jobs && states[i].jobs[j].status.Terminal() && Delete(j) !in labels[i..k]
    ensures j in states[k].jobs && states[k].jobs[j] == states[i].jobs[j]
    decreases k
  {
    hide Inv, Next;
    if i < k {
      assert labels[i..k] == labels[i..k - 1] + [labels[k - 1]];
      TerminalIsFinal(s, states, labels, i, k - 1, j);
      RunKeepsInv(s, states, labels, k - 1);
      StepKeepsTerminal(states[k - 1], labels[k - 1], j);
    }
  }

  // ---------------------------------------------------------------- draining

  // The sum of 5 - attempts over the jobs with an id below n.
  ghost function Budget(s: State, n: nat): nat {
    if n == 0 then 0
    else Budget(s, n - 1) + (if n - 1 in s.jobs then Max(MAX_ATTEMPTS - s.jobs[n - 1].attempts, 0) else 0)
  }

  // Twice that, plus one for a job being run, over the jobs not yet done or failed.
  ghost function Pressure(s: State, n: nat): nat {
    if n == 0 then 0 else Pressure(s, n - 1) + JobPressure(s, n - 1)
  }

  ghost function JobPressure(s: State, j: JobId): nat {
    if j !in s.jobs || s.jobs[j].status.Terminal() then 0
    else 2 * Max(MAX_ATTEMPTS - s.jobs[j].attempts, 0) + (if s.jobs[j].status.Running? then 1 else 0)
  }

  ghost function HandlingJobs(s: State): set<Worker> {
    set w | w in s.workers && s.workers[w].phase.Handling?
  }

  // What is left to do; every step of a worker takes some of it away.
  ghost function Remaining(s: State): nat {
    2 * Pressure(s, s.nextJob) + |HandlingJobs(s)|
  }

  lemma {:induction false} BudgetElsewhere(s: State, t: State, n: nat, j: JobId)
    requires forall i :: i != j ==> (i in s.jobs <==> i in t.jobs) && (i in s.jobs ==> s.jobs[i] == t.jobs[i])
    requires j in s.jobs && j in t.jobs
    ensures Budget(t, n) - Budget(s, n)
            == if j < n then Max(MAX_ATTEMPTS - t.jobs[j].attempts, 0) - Max(MAX_ATTEMPTS - s.jobs[j].attempts, 0)
                else 0
  {
    if n > 0 {
      BudgetElsewhere(s, t, n - 1, j);
    }
  }

  lemma {:induction false} PressureElsewhere(s: State, t: State, n: nat, j: JobId)
    requires forall i :: i != j ==> (i in s.jobs <==> i in t.jobs) && (i in s.jobs ==> s.jobs[i] == t.jobs[i])
    ensures Pressure(t, n) - Pressure(s, n) == if j < n then JobPressure(t, j) - JobPressure(s, j) else 0
  {
    if n > 0 {
      PressureElsewhere(s, t, n - 1, j);
    }
  }

  // The steps of workers that neither crash nor see new or deleted jobs.
  predicate IsWork(l: Label) {
    l.Claim? || l.Return? || l.Raise? || l.Write?
  }

  lemma StepSpendsBudget(s: State, l: Label)
    requires Inv(s) && Enabled(s, l) && (IsWork(l) || l.Tick?)
    ensures Next(s, l).nextJob == s.nextJob
    ensures Budget(Next(s, l), s.nextJob) == Budget(s, s.nextJob) - (if l.Claim? then 1 else 0)
  {
    hide Spaced;
    var t := Next(s, l);
    if l.Claim? {
      assert JobInv(s, l.j);
      BudgetElsewhere(s, t, s.nextJob, l.j);
    } else if l.Write? && s.workers[l.w].job in s.jobs {
      assert WorkInv(s, l.w);
      BudgetElsewhere(s, t, s.nextJob, s.workers[l.w].job);
    } else {
      BudgetSame(s, t, s.nextJob);
    }
  }

  lemma {:induction false} BudgetSame(s: State, t: State, n: nat)
    requires s.jobs == t.jobs
    ensures Budget(s, n) == Budget(t, n) && Pressure(s, n) == Pressure(t, n)
  {
    if n > 0 {
      BudgetSame(s, t, n - 1);
    }
  }

  function CountClaims(labels: seq<Label>, n: nat): nat
    requires n <= |labels|
  {
    if n == 0 then 0 else CountClaims(labels, n - 1) + (if labels[n - 1].Claim? then 1 else 0)
  }

  function CountWork(labels: seq<Label>, n: nat): nat
    requires n <= |labels|
  {
    if n == 0 then 0 else CountWork(labels, n - 1) + (if IsWork(labels[n - 1]) then 1 else 0)
  }

  lemma {:induction false} ClaimsFitBudget(s: State, states: seq<State>, labels: seq<Label>, n: nat)
    requires IsRunFrom(s, states, labels) && Inv(s) && n <= |labels|
    requires forall l :: l in labels ==> IsWork(l) || l.Tick?
    ensures states[n].nextJob == s.nextJob
    ensures CountClaims(labels, n) + Budget(states[n], s.nextJob) == Budget(s, s.nextJob)
  {
    hide Inv, Next, Enabled;
    if n > 0 {
      ClaimsFitBudget(s, states, labels, n - 1);
      RunKeepsInv(s, states, labels, n - 1);
      assert Enabled(states[n - 1], labels[n - 1]);
      StepSpendsBudget(states[n - 1], labels[n - 1]);
    }
  }

  ghost function JobsBelow(s: State, n: nat): set<JobId> {
    set j | j in s.jobs && j < n
  }

  lemma {:induction false} FreshBudget(s: State, n: nat)
    ensures Budget(s, n) <= MAX_ATTEMPTS * |JobsBelow(s, n)| && Pressure(s, n) <= 11 * |JobsBelow(s, n)|
  {
    if n > 0 {
      FreshBudget(s, n - 1);
      assert JobsBelow(s, n) == JobsBelow(s, n - 1) + (if n - 1 in s.jobs then {n - 1} else {});
    }
  }

  lemma JobsAreBelow(s: State)
    requires Inv(s)
    ensures JobsBelow(s, s.nextJob) == s.jobs.Keys
  {
    forall j | j in s.jobs ensures j in JobsBelow(s, s.nextJob) {
      assert JobInv(s, j);
    }
  }

  // Without new jobs, n jobs are claimed at most 5 * n times in all, however long the run.
  lemma AtMostFiveClaimsEach(s: State, states: seq<State>, labels: seq<Label>)
    requires IsRunFrom(s, states, labels) && Inv(s)
    requires forall l :: l in labels ==> IsWork(l) || l.Tick?
    ensures CountClaims(labels, |labels|) <= MAX_ATTEMPTS * |s.jobs.Keys|
  {
    hide Inv, Budget, CountClaims, JobsBelow;
    ClaimsFitBudget(s, states, labels, |labels|);
    FreshBudget(s, s.nextJob);
    JobsAreBelow(s);
  }

  // Nobody has crashed and nothing was deleted: the running jobs are those the workers hold.
  ghost predicate Attended(s: State) {
    && (forall w :: w in s.workers ==> s.workers[w].job in s.jobs)
    && (forall j :: j in s.jobs && s.jobs[j].status.Running? ==> Held(s, j))
  }

  ghost predicate Held(s: State, j: JobId) {
    exists w :: w in s.workers && s.workers[w].job == j
  }

  lemma WorkKeepsAttended(s: State, l: Label)
    requires Inv(s) && Attended(s) && Enabled(s, l) && (IsWork(l) || l.Tick?)
    ensures Attended(Next(s, l))
  {
    hide Spaced, Ready;
    var t := Next(s, l);
    if l.Write? {
      assert WorkInv(s, l.w);
    }
    forall j | j in t.jobs && t.jobs[j].status.Running? ensures Held(t, j) {
      if l.Claim? && l.j == j {
        assert t.workers[l.w].job == j;
      } else {
        var w :| w in s.workers && s.workers[w].job == j;
        assert w in t.workers && t.workers[w].job == j;
      }
    }
  }

  lemma WritePressure(s: State, w: Worker)
    requires Inv(s) && Enabled(s, Write(w)) && s.workers[w].job in s.jobs
    ensures JobPressure(Next(s, Write(w)), s.workers[w].job) < JobPressure(s, s.workers[w].job)
  {
    hide Spaced, Ready;
    assert WorkInv(s, w);
  }

  lemma ClaimPressure(s: State, w: Worker, j: JobId)
    requires Inv(s) && Enabled(s, Claim(w, j))
    ensures JobPressure(Next(s, Claim(w, j)), j) < JobPressure(s, j)
  {
    assert JobInv(s, j);
  }

  lemma ClaimShrinks(s: State, w: Worker, j: JobId)
    requires Inv(s) && Enabled(s, Claim(w, j))
    ensures Remaining(Next(s, Claim(w, j))) < Remaining(s)
  {
    var t := Next(s, Claim(w, j));
    assert JobInv(s, j);
    ClaimPressure(s, w, j);
    hide JobPressure, Inv, JobInv;
    PressureElsewhere(s, t, s.nextJob, j);
    assert HandlingJobs(t) == HandlingJobs(s) + {w};
  }

  lemma WriteShrinks(s: State, w: Worker)
    requires Inv(s) && Enabled(s, Write(w)) && s.workers[w].job in s.jobs
    ensures Remaining(Next(s, Write(w))) < Remaining(s)
  {
    var t := Next(s, Write(w));
    assert WorkInv(s, w);
    WritePressure(s, w);
    hide JobPressure, Inv, WorkInv;
    PressureElsewhere(s, t, s.nextJob, s.workers[w].job);
    assert HandlingJobs(t) == HandlingJobs(s);
  }

  lemma HandledShrinks(s: State, l: Label)
    requires Enabled(s, l) && (l.Return? || l.Raise?)
    ensures Remaining(Next(s, l)) < Remaining(s)
  {
    var t := Next(s, l);
    BudgetSame(s, t, s.nextJob);
    assert l.w in HandlingJobs(s);
    assert HandlingJobs(t) == HandlingJobs(s) - {l.w};
  }

  lemma WorkShrinks(s: State, l: Label)
    requires Inv(s) && Attended(s) && Enabled(s, l) && IsWork(l)
    ensures Remaining(Next(s, l)) < Remaining(s)
  {
    hide Inv, Next, Remaining;
    match l
    case Claim(w, j) => ClaimShrinks(s, w, j);
    case Write(w) => WriteShrinks(s, w);
    case _ => HandledShrinks(s, l);
  }

  lemma TickKeepsRemaining(s: State, dt: nat)
    ensures Remaining(Next(s, Tick(dt))) == Remaining(s)
  {
    BudgetSame(s, Next(s, Tick(dt)), s.nextJob);
    assert HandlingJobs(Next(s, Tick(dt))) == HandlingJobs(s);
  }

  lemma {:induction false} WorkFits(s: State, states: seq<State>, labels: seq<Label>, n: nat)
    requires IsRunFrom(s, states, labels) && Inv(s) && Attended(s) && n <= |labels|
    requires forall l :: l in labels ==> IsWork(l) || l.Tick?
    ensures Attended(states[n]) && CountWork(labels, n) + Remaining(states[n]) <= Remaining(s)
  {
    hide Inv, Next, Enabled, Attended, Remaining, IsWork;
    if n > 0 {
      WorkFits(s, states, labels, n - 1);
      RunKeepsInv(s, states, labels, n - 1);
      var t, l := states[n - 1], labels[n - 1];
      assert Enabled(t, l) && l in labels;
      WorkKeepsAttended(t, l);
      if IsWork(l) {
        WorkShrinks(t, l);
      } else {
        TickKeepsRemaining(t, l.dt);
      }
    }
  }

  // While a job is neither done nor failed, some worker can take a step, at the latest after a wait.
  lemma NeverStuck(s: State, j: JobId) returns (dt: nat, l: Label)
    requires Inv(s) && Attended(s) && j in s.jobs && !s.jobs[j].status.Terminal()
    ensures IsWork(l) && Enabled(Next(s, Tick(dt)), l)
  {
    if s.jobs[j].status.Running? {
      var w :| w in s.workers && s.workers[w].job == j;
      dt, l := 0, if s.workers[w].phase.Handling? then Raise(w) else Write(w);
    } else {
      dt := Max(s.jobs[j].runAfter - s.now, 0);
      var w := IdleWorker(s.workers.Keys);
      l := Claim(w, j);
    }
  }

  lemma {:induction false} IdleWorker(busy: set<Worker>) returns (w: Worker)
    ensures w !in busy && forall v :: v in busy ==> v < w
    decreases |busy|
  {
    if busy == {} {
      w := 0;
    } else {
      var v :| v in busy;
      var u := IdleWorker(busy - {v});
      w := Max(u, v + 1);
      assert forall x :: x in busy ==> x == v || x in busy - {v};
    }
  }

  // No worker can take a step, now or after any wait.
  ghost predicate Stuck(s: State) {
    forall dt: nat, l :: IsWork(l) ==> !Enabled(Next(s, Tick(dt)), l)
  }

  // Draining: from a crash-free state without new jobs, a run takes at most Remaining(s) worker
  // steps, and when it can go no further, waiting included, every job is done or failed.
  lemma QueueDrains(s: State, states: seq<State>, labels: seq<Label>)
    requires IsRunFrom(s, states, labels) && Inv(s) && Attended(s)
    requires forall l :: l in labels ==> IsWork(l) || l.Tick?
    ensures CountWork(labels, |labels|) <= Remaining(s)
    ensures Remaining(s) <= 22 * |s.jobs.Keys| + |s.workers.Keys|
    ensures Stuck(states[|labels|]) ==>
              forall j :: j in states[|labels|].jobs ==> states[|labels|].jobs[j].status.Terminal()
  {
    WorkFits(s, states, labels, |labels|);
    RunKeepsInv(s, states, labels, |labels|);
    FreshBudget(s, s.nextJob);
    JobsAreBelow(s);
    SubsetSize(HandlingJobs(s), s.workers.Keys);
    var t := states[|labels|];
    assert CountWork(labels, |labels|) <= Remaining(s);
    hide Inv, Attended, Next, Enabled, Remaining, CountWork;
    forall j | j in t.jobs && !t.jobs[j].status.Terminal() ensures !Stuck(t) {
      var dt, l := NeverStuck(t, j);
      assert IsWork(l) && Enabled(Next(t, Tick(dt)), l);
    }
  }

  // ---------------------------------------------------------------- the program

  // What a delivery reports back to _handle: its result, or an exception.
  datatype Delivery = Ok | Rejected | Unavailable | Exception

  // _handle: done, failed, or None when it raises.
  function Outcome(kind: string, d: Delivery): (r: Option<Status>)
    ensures r.Some? ==> r.value.Terminal()
  {
    if kind == "crawl" || kind == "retention" then (if d.Exception? then None else Some(Done))
    else if kind == "email" || kind == "webhook" then
      match d
      case Ok => Some(Done)
      case Rejected => Some(Failed)
      case _ => None
    else Some(Failed)
  }

  function Handled(w: Worker, outcome: Option<Status>): Label {
    match outcome
    case Some(status) => Return(w, status)
    case None => Raise(w)
  }

  // The steps lead from s to t, each enabled where it is taken.
  ghost predicate Executes(s: State, steps: seq<Label>, t: State)
    decreases |steps|
  {
    if steps == [] then s == t
    else
      var n := |steps| - 1;
      exists mid :: Executes(s, steps[..n], mid) && Enabled(mid, steps[n]) && t == Next(mid, steps[n])
  }

  lemma ExecutesOneMore(s: State, steps: seq<Label>, t: State, l: Label)
    requires Executes(s, steps, t) && Enabled(t, l)
    ensures Executes(s, steps + [l], Next(t, l))
  {
    assert (steps + [l])[..|steps|] == steps;
  }

  // A step that is not worker w's own.
  predicate Foreign(l: Label, w: Worker) {
    match l
    case Claim(v, _) => v != w
    case Return(v, _) => v != w
    case Raise(v) => v != w
    case Write(v) => v != w
    case Crash(v) => v != w
    case _ => true
  }

  // What the rest of the system does until our next step; steps not enabled are skipped.
  method Others(w: Worker, s: State, steps: seq<Label>, ghost origin: State, ghost log: seq<Label>)
    returns (t: State, ghost log': seq<Label>)
    requires Executes(origin, log, s)
    ensures Executes(origin, log', t) && log <= log'
    ensures w in t.workers <==> w in s.workers
    ensures w in s.workers ==> t.workers[w] == s.workers[w]
  {
    t, log' := s, log;
    for i := 0 to |steps|
      invariant Executes(origin, log', t) && log <= log'
      invariant w in t.workers <==> w in s.workers
      invariant w in s.workers ==> t.workers[w] == s.workers[w]
    {
      if Enabled(t, steps[i]) && Foreign(steps[i], w) {
        ExecutesOneMore(origin, log', t, steps[i]);
        t, log' := Next(t, steps[i]), log' + [steps[i]];
      }
    }
  }

  // The earliest of the jobs that are due.
  ghost predicate IsEarliest(s: State, job: JobId) {
    && job in s.jobs
    && forall j :: j in s.jobs && s.jobs[j].status.Pending? && s.jobs[j].runAfter <= s.now ==>
         s.jobs[job].runAfter <= s.jobs[j].runAfter
  }

  // One turn of the worker loop: claim the earliest due job, handle it, write the outcome - amid
  // whatever others do in between. The worker ends the turn with nothing in hand. The claim is
  // step n of the log, taken from the state `at`.
  method Turn(w: Worker, s: State, kind: JobId -> string, delivery: Delivery, others: nat -> seq<Label>)
    returns (t: State, job: Option<JobId>, ghost log: seq<Label>, ghost n: nat, ghost at: State)
    requires w !in s.workers
    ensures Executes(s, log, t) && w !in t.workers
    ensures job.Some? ==> n < |log| && log[n] == Claim(w, job.value)
                          && Executes(s, log[..n], at) && Enabled(at, log[n]) && IsEarliest(at, job.value)
    // a claimed job is handled as its kind and delivery say, and the outcome is the last thing written
    ensures job.Some? ==> && Handled(w, Outcome(kind(job.value), delivery)) in log[n..]
                          && log[|log| - 1] == Write(w)
    ensures job.None? ==> forall j :: j in t.jobs && t.jobs[j].status.Pending? ==> t.jobs[j].runAfter > t.now
  {
    hide Executes, Outcome, IsEarliest;
    log := [];
    assert Executes(s, [], s) by { NothingExecutes(s); }
    t, log := Others(w, s, others(0), s, log);
    ghost var before := log;
    job := ClaimDue(t);
    n, at := |log|, t;
    if job.None? {
      return;
    }
    var j := job.value;
    t, log := Act(w, t, Claim(w, j), s, log);
    t, log := Others(w, t, others(1), s, log);
    ghost var m := |log|;
    t, log := Act(w, t, Handled(w, Outcome(kind(j), delivery)), s, log);
    t, log := Others(w, t, others(2), s, log);
    t, log := Act(w, t, Write(w), s, log);
    assert log[..n] == before;
    assert log[n..][m - n] == log[m];
  }

  // The claim query: the earliest due job, if any is due.
  method ClaimDue(s: State) returns (job: Option<JobId>)
    ensures job.Some? ==> && job.value in s.jobs && s.jobs[job.value].status.Pending?
                          && s.jobs[job.value].runAfter <= s.now && IsEarliest(s, job.value)
    ensures job.None? ==> forall j :: j in s.jobs && s.jobs[j].status.Pending? ==> s.jobs[j].runAfter > s.now
  {
    var due := set j | j in s.jobs && s.jobs[j].status.Pending? && s.jobs[j].runAfter <= s.now;
    assert forall j :: j in s.jobs && s.jobs[j].status.Pending? && s.jobs[j].runAfter <= s.now ==> j in due;
    if due == {} {
      return None;
    }
    var j := Earliest(s, due);
    job := Some(j);
  }

  // A step of our own.
  method Act(w: Worker, s: State, l: Label, ghost origin: State, ghost log: seq<Label>)
    returns (t: State, ghost log': seq<Label>)
    requires Executes(origin, log, s) && Enabled(s, l)
    ensures t == Next(s, l) && log' == log + [l] && Executes(origin, log', t)
  {
    ExecutesOneMore(origin, log, s, l);
    t, log' := Next(s, l), log + [l];
  }

  lemma NothingExecutes(s: State)
    ensures Executes(s, [], s)
  {}

  // ORDER BY run_after LIMIT 1.
  method Earliest(s: State, due: set<JobId>) returns (best: JobId)
    requires due != {} && due <= s.jobs.Keys
    ensures best in due && forall j :: j in due ==> s.jobs[best].runAfter <= s.jobs[j].runAfter
  {
    best :| best in due;
    var rest := due - {best};
    while rest != {}
      invariant best in due && rest <= due
      invariant forall j :: j in due && j !in rest ==> s.jobs[best].runAfter <= s.jobs[j].runAfter
      decreases rest
    {
      var j :| j in rest;
      if s.jobs[j].runAfter < s.jobs[best].runAfter {
        best := j;
      }
      rest := rest - {j};
    }
  }
}
