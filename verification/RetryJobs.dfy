/**
 * Retry runs of several servers, interleaved (wallet-retry-scheduler.service.ts, wallet-retry-job.service.ts).
 * A run takes the lock of its transaction and action, marks the job, calls the wallet, and writes the job's end;
 * other servers, job creation and crashes may come between any two of these.
 */
module RetryJobs {
  import opened Common
  import opened RedisStore

  const JOB_LOCK_TTL := 300 // seconds

  datatype Action = SettleBet | RefundBet

  datatype Key = Key(tx: TxId, action: Action)

  datatype Job = Job(key: Key, status: JobStatus)

  /** A run that holds its lock until `deadline`; `marked` once it has set its job to PROCESSING. */
  datatype RunState = RunState(job: nat, marked: bool, deadline: int)

  type RunId = nat

  datatype System = System(now: int, jobs: seq<Job>, locks: Store<Key, ()>, runs: map<RunId, RunState>)

  datatype Event =
    | Tick(ms: nat)
    | Create(key: Key)
    | Acquire(run: RunId, job: nat)
    | Mark(run: RunId)
    | Finish(run: RunId, end: JobStatus)
    | Crash(run: RunId)
    | Flush

  predicate Active(status: JobStatus) {
    status.Pending? || status.Processing?
  }

  predicate Done(status: JobStatus) {
    status.Success? || status.Expired?
  }

  /** createRetryJob: nothing happens when an active job has the same transaction and action. */
  function CreateJob(s: System, key: Key): System {
    if exists i :: 0 <= i < |s.jobs| && s.jobs[i].key == key && Active(s.jobs[i].status) then s
    else s.(jobs := s.jobs + [Job(key, Pending)])
  }

  /** acquireLock at the start of a run; without the lock there is no run. */
  function AcquireLock(s: System, run: RunId, job: nat): System {
    if run in s.runs || job >= |s.jobs| || Live(s.locks, s.jobs[job].key, s.now) then s
    else
      s.(locks := Put(s.locks, s.jobs[job].key, (), JOB_LOCK_TTL, s.now),
         runs := s.runs[run := RunState(job, false, s.now + JOB_LOCK_TTL * 1000)])
  }

  function EndRun(s: System, run: RunId, job: nat): System
    requires job < |s.jobs|
  {
    s.(locks := s.locks - {s.jobs[job].key}, runs := s.runs - {run})
  }

  /** The status check after the lock: PENDING and PROCESSING (a crashed run's) are taken, anything else ends the run. */
  function MarkJob(s: System, run: RunId): System {
    if run !in s.runs || s.runs[run].marked || s.runs[run].job >= |s.jobs| then s
    else
      var job := s.runs[run].job;
      if !Active(s.jobs[job].status) then EndRun(s, run, job)
      else
        s.(jobs := s.jobs[job := s.jobs[job].(status := Processing)],
           runs := s.runs[run := s.runs[run].(marked := true)])
  }

  /** markSuccess, scheduleNextRetry or markExpired, none of which looks at the old status, and the release of the lock. */
  function FinishRun(s: System, run: RunId, end: JobStatus): System {
    if run !in s.runs || !s.runs[run].marked || s.runs[run].job >= |s.jobs| || end.Processing? || end.Failed? then s
    else
      var job := s.runs[run].job;
      EndRun(s.(jobs := s.jobs[job := s.jobs[job].(status := end)]), run, job)
  }

  function Next(s: System, e: Event): System {
    match e
    case Tick(ms) => s.(now := s.now + ms)
    case Create(key) => CreateJob(s, key)
    case Acquire(run, job) => AcquireLock(s, run, job)
    case Mark(run) => MarkJob(s, run)
    case Finish(run, end) => FinishRun(s, run, end)
    case Crash(run) => s.(runs := s.runs - {run})
    case Flush => s.(locks := map[])
  }

  function Run(s: System, es: seq<Event>): System
    decreases |es|
  {
    if es == [] then s else Run(Next(s, es[0]), es[1..])
  }

  /** Every run ends, or crashes, inside its lock's time, and Redis is not flushed during a run. */
  predicate Timely(s: System, e: Event) {
    && (e.Tick? ==> forall r :: r in s.runs ==> s.now + e.ms < s.runs[r].deadline)
    && (e.Flush? ==> s.runs == map[])
  }

  ghost predicate TimelyRun(s: System, es: seq<Event>)
    decreases |es|
  {
    es == [] || (Timely(s, es[0]) && TimelyRun(Next(s, es[0]), es[1..]))
  }

  // ---------------------------------------------------------------- the invariant

  /** Each run holds the live lock of its job. */
  ghost predicate RunsHoldLocks(s: System) {
    forall r :: r in s.runs ==>
      var run := s.runs[r];
      && run.job < |s.jobs|
      && s.now < run.deadline
      && s.jobs[run.job].key in s.locks && s.locks[s.jobs[run.job].key].expiresAt == run.deadline
      && (run.marked ==> s.jobs[run.job].status.Processing?)
  }

  /** Two runs never hold the same lock. */
  ghost predicate RunsApart(s: System) {
    forall r, r' :: r in s.runs && r' in s.runs && r != r' && s.runs[r].job < |s.jobs| && s.runs[r'].job < |s.jobs| ==>
      s.jobs[s.runs[r].job].key != s.jobs[s.runs[r'].job].key
  }

  /** At most one job of a transaction and action is pending or processing. */
  ghost predicate OneActive(jobs: seq<Job>) {
    forall i, j :: 0 <= i < j < |jobs| && jobs[i].key == jobs[j].key ==> !(Active(jobs[i].status) && Active(jobs[j].status))
  }

  ghost predicate Inv(s: System) {
    RunsHoldLocks(s) && RunsApart(s) && OneActive(s.jobs)
  }

  /** Jobs are never removed, keep their key, and a done job keeps its status. */
  ghost predicate DoneStaysDone(a: seq<Job>, b: seq<Job>) {
    && |a| <= |b|
    && forall i :: 0 <= i < |a| ==> b[i].key == a[i].key && (Done(a[i].status) ==> b[i] == a[i])
  }

  lemma StartSatisfiesInv(now: int)
    ensures Inv(System(now, [], map[], map[]))
  {}

  lemma EndRunKeepsInv(s: System, run: RunId)
    requires Inv(s) && run in s.runs
    ensures Inv(EndRun(s, run, s.runs[run].job))
  {}

  lemma StartKeepsInv(s: System, run: RunId, job: nat)
    requires Inv(s) && run in s.runs && s.runs[run].job == job && Active(s.jobs[job].status)
    ensures Inv(s.(jobs := s.jobs[job := s.jobs[job].(status := Processing)], runs := s.runs[run := s.runs[run].(marked := true)]))
  {}

  lemma MarkKeepsInv(s: System, run: RunId)
    requires Inv(s)
    ensures Inv(MarkJob(s, run)) && DoneStaysDone(s.jobs, MarkJob(s, run).jobs)
  {
    if run in s.runs && !s.runs[run].marked {
      var job := s.runs[run].job;
      if Active(s.jobs[job].status) {
        StartKeepsInv(s, run, job);
      } else {
        EndRunKeepsInv(s, run);
      }
    }
  }

  lemma FinishKeepsInv(s: System, run: RunId, end: JobStatus)
    requires Inv(s)
    ensures Inv(FinishRun(s, run, end)) && DoneStaysDone(s.jobs, FinishRun(s, run, end).jobs)
  {}

  lemma AcquireKeepsInv(s: System, run: RunId, job: nat)
    requires Inv(s)
    ensures Inv(AcquireLock(s, run, job))
  {}

  lemma CreateKeepsInv(s: System, key: Key)
    requires Inv(s)
    ensures Inv(CreateJob(s, key)) && DoneStaysDone(s.jobs, CreateJob(s, key).jobs)
  {}

  lemma NextKeepsInv(s: System, e: Event)
    requires Inv(s) && Timely(s, e)
    ensures Inv(Next(s, e)) && DoneStaysDone(s.jobs, Next(s, e).jobs)
  {
    match e
    case Create(key) => CreateKeepsInv(s, key);
    case Acquire(run, job) => AcquireKeepsInv(s, run, job);
    case Mark(run) => MarkKeepsInv(s, run);
    case Finish(run, end) => FinishKeepsInv(s, run, end);
    case _ =>
  }

  /** Whatever the interleaving, one active job per transaction and action, and SUCCESS and EXPIRED are for good. */
  lemma {:induction false} JobsStaySound(s: System, es: seq<Event>)
    requires Inv(s) && TimelyRun(s, es)
    ensures Inv(Run(s, es)) && OneActive(Run(s, es).jobs) && DoneStaysDone(s.jobs, Run(s, es).jobs)
    decreases |es|
  {
    if es != [] {
      NextKeepsInv(s, es[0]);
      JobsStaySound(Next(s, es[0]), es[1..]);
    }
  }

  /** A run that nothing comes between: refused while another holds the lock, else the job, if it was active, ends as told and the lock is free. */
  lemma LoneRunEndsJob(s: System, run: RunId, job: nat, end: JobStatus)
    requires run !in s.runs && job < |s.jobs| && (end.Success? || end.Expired? || end.Pending?)
    ensures var s', key := Next(Next(Next(s, Acquire(run, job)), Mark(run)), Finish(run, end)), s.jobs[job].key;
            if Live(s.locks, key, s.now) then s' == s
            else s' == s.(jobs := if Active(s.jobs[job].status) then s.jobs[job := Job(key, end)] else s.jobs, locks := s.locks - {key})
  {
    var s1 := Next(s, Acquire(run, job));
    if !Live(s.locks, s.jobs[job].key, s.now) {
      assert s1.runs - {run} == s.runs && s1.locks - {s.jobs[job].key} == s.locks - {s.jobs[job].key};
      assert Next(s1, Mark(run)).runs - {run} == s.runs;
    }
  }

  // ---------------------------------------------------------------- what it rests on, exactly

  /** Runs of any servers, job creation and crashes in any order, while the clock stands and Redis is left alone. */
  predicate Quiet(es: seq<Event>) {
    forall i :: 0 <= i < |es| ==> !es[i].Tick? && !es[i].Flush?
  }

  /** No step takes a job out of SUCCESS or EXPIRED. */
  ghost predicate DoneForGood(s: System, es: seq<Event>)
    decreases |es|
  {
    es == [] || (DoneStaysDone(s.jobs, Next(s, es[0]).jobs) && DoneForGood(Next(s, es[0]), es[1..]))
  }

  lemma {:induction false} QuietRunIsSound(s: System, es: seq<Event>)
    requires Inv(s) && Quiet(es)
    ensures DoneForGood(s, es)
    decreases |es|
  {
    if es != [] {
      assert Timely(s, es[0]);
      NextKeepsInv(s, es[0]);
      QuietRunIsSound(Next(s, es[0]), es[1..]);
    }
  }

  lemma DoneForGoodOfCons(s: System, e: Event, es: seq<Event>)
    ensures DoneForGood(s, [e] + es) <==> DoneStaysDone(s.jobs, Next(s, e).jobs) && DoneForGood(Next(s, e), es)
  {
    assert ([e] + es)[1..] == es;
  }

  lemma {:induction false} FreshRunId(runs: set<RunId>) returns (run: RunId)
    ensures forall r :: r in runs ==> r < run
    decreases runs
  {
    run := 0;
    if runs != {} {
      var r :| r in runs;
      var above := FreshRunId(runs - {r});
      run := if r < above then above else r + 1;
      assert forall x :: x in runs ==> x == r || x in runs - {r};
    }
  }

  /** Another run of a job takes the lock and finishes; then the first run of the job fails. */
  function Reopening(run: RunId, other: RunId, job: nat): seq<Event> {
    [Acquire(other, job)] + ([Mark(other)] + ([Mark(run)] + ([Finish(other, Success)] + ([Finish(run, Pending)] + []))))
  }

  /** A run of a second job takes the lock, and the first run, at the end of its own, frees it; so a third run can come. */
  function FreeingAnother(run: RunId, other: RunId, job: nat): seq<Event> {
    [Acquire(other, job)] + ([Mark(other)] + ([Mark(run)] + Reopening(other, other + 1, job)))
  }

  /** A run that has lost its lock: another run of an active job of the same key finishes it, and the job is reopened. */
  lemma LostLockReopens(s: System, run: RunId, other: RunId)
    requires run in s.runs && s.runs[run].job < |s.jobs| && Active(s.jobs[s.runs[run].job].status)
    requires !Live(s.locks, s.jobs[s.runs[run].job].key, s.now) && other !in s.runs
    ensures !DoneForGood(s, Reopening(run, other, s.runs[run].job))
  {
    var job := s.runs[run].job;
    var es1 := [Finish(run, Pending)] + [];
    var es2 := [Finish(other, Success)] + es1;
    var es3 := [Mark(run)] + es2;
    var es4 := [Mark(other)] + es3;
    var s1 := Next(s, Acquire(other, job));
    var s2 := Next(s1, Mark(other));
    var s3 := Next(s2, Mark(run));
    var s4 := Next(s3, Finish(other, Success));
    DoneForGoodOfCons(s, Acquire(other, job), es4);
    DoneForGoodOfCons(s1, Mark(other), es3);
    DoneForGoodOfCons(s2, Mark(run), es2);
    DoneForGoodOfCons(s3, Finish(other, Success), es1);
    DoneForGoodOfCons(s4, Finish(run, Pending), []);
    assert s4.jobs[job].status.Success?;
    assert Next(s4, Finish(run, Pending)).jobs[job].status.Pending?;
  }

  /** A run that has lost its lock before it looked at a job already done frees, by ending, the lock of a run of another job. */
  lemma LostLockFreesAnother(s: System, run: RunId, job: nat, other: RunId)
    requires run in s.runs && !s.runs[run].marked && s.runs[run].job < |s.jobs| && !Active(s.jobs[s.runs[run].job].status)
    requires job < |s.jobs| && Active(s.jobs[job].status) && s.jobs[job].key == s.jobs[s.runs[run].job].key
    requires !Live(s.locks, s.jobs[job].key, s.now) && other !in s.runs
    ensures var freed := Next(Next(Next(s, Acquire(other, job)), Mark(other)), Mark(run));
            && other in freed.runs && freed.runs[other].job == job && freed.runs.Keys <= s.runs.Keys + {other}
            && job < |freed.jobs| && Active(freed.jobs[job].status) && !Live(freed.locks, freed.jobs[job].key, freed.now)
  {
    var s1 := Next(s, Acquire(other, job));
    var s2 := Next(s1, Mark(other));
    assert s2.jobs[s.runs[run].job] == s.jobs[s.runs[run].job];
    assert s2.runs[run] == s.runs[run];
  }

  lemma FreedLockReopens(s: System, run: RunId, job: nat, other: RunId)
    requires run in s.runs && !s.runs[run].marked && s.runs[run].job < |s.jobs| && !Active(s.jobs[s.runs[run].job].status)
    requires job < |s.jobs| && Active(s.jobs[job].status) && s.jobs[job].key == s.jobs[s.runs[run].job].key
    requires !Live(s.locks, s.jobs[job].key, s.now) && forall r :: r in s.runs ==> r < other
    ensures !DoneForGood(s, FreeingAnother(run, other, job))
  {
    var s1 := Next(s, Acquire(other, job));
    var s2 := Next(s1, Mark(other));
    LostLockFreesAnother(s, run, job, other);
    LostLockReopens(Next(s2, Mark(run)), other, other + 1);
    DoneForGoodOfCons(s2, Mark(run), Reopening(other, other + 1, job));
    DoneForGoodOfCons(s1, Mark(other), [Mark(run)] + Reopening(other, other + 1, job));
    DoneForGoodOfCons(s, Acquire(other, job), [Mark(other)] + ([Mark(run)] + Reopening(other, other + 1, job)));
  }

  /** After createRetryJob there is an active job of the key. */
  lemma ActiveJobOf(s: System, key: Key) returns (i: nat)
    ensures var jobs := CreateJob(s, key).jobs; i < |jobs| && jobs[i].key == key && Active(jobs[i].status)
  {
    if j :| 0 <= j < |s.jobs| && s.jobs[j].key == key && Active(s.jobs[j].status) {
      i := j;
    } else {
      i := |s.jobs|;
    }
  }

  lemma SequencesAreQuiet(run: RunId, other: RunId, job: nat, key: Key)
    ensures Quiet(Reopening(run, other, job)) && Quiet([Create(key)] + FreeingAnother(run, other, job))
  {}

  /** When a run has lost its lock, some interleaving reopens a finished job. */
  lemma LostLockIsUnsound(s: System, run: RunId) returns (es: seq<Event>)
    requires run in s.runs && s.runs[run].job < |s.jobs| && (s.runs[run].marked ==> Active(s.jobs[s.runs[run].job].status))
    requires !Live(s.locks, s.jobs[s.runs[run].job].key, s.now)
    ensures Quiet(es) && !DoneForGood(s, es)
  {
    var job := s.runs[run].job;
    var other := FreshRunId(s.runs.Keys);
    if Active(s.jobs[job].status) {
      es := Reopening(run, other, job);
      SequencesAreQuiet(run, other, job, s.jobs[job].key);
      LostLockReopens(s, run, other);
    } else {
      var key := s.jobs[job].key;
      var created := Next(s, Create(key));
      var i := ActiveJobOf(s, key);
      assert created.jobs[job] == s.jobs[job] && created.locks == s.locks && created.runs == s.runs && created.now == s.now;
      SequencesAreQuiet(run, other, i, key);
      FreedLockReopens(created, run, i, other);
      DoneForGoodOfCons(s, Create(key), FreeingAnother(run, other, i));
      es := [Create(key)] + FreeingAnother(run, other, i);
    }
  }

  /**
   * From any sound state: after a step, no interleaving whatever of the runs under way and of new ones reopens a finished
   * job, exactly when that step leaves every run under way its lock: the clock stays short of every deadline, and Redis is
   * not flushed during a run.
   */
  lemma SoundIffTimely(s: System, e: Event)
    requires Inv(s)
    ensures (forall es :: Quiet(es) ==> DoneForGood(Next(s, e), es)) <==> Timely(s, e)
  {
    if Timely(s, e) {
      NextKeepsInv(s, e);
      forall es | Quiet(es) ensures DoneForGood(Next(s, e), es) {
        QuietRunIsSound(Next(s, e), es);
      }
    } else {
      var run :| run in s.runs && (e.Tick? ==> s.now + e.ms >= s.runs[run].deadline);
      var es := LostLockIsUnsound(Next(s, e), run);
    }
  }
}
