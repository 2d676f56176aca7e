/** When a failed wallet call is retried, and when a job gives up (wallet-retry-job.service.ts). Times are milliseconds. */
module RetrySchedule {
  import opened Common

  const MINUTE: int := 60 * 1000
  const HOUR: int := 60 * MINUTE
  const HORIZON: int := 72 * HOUR
  const MAX_RETRIES := 38

  /** The k-th retry slot after the first half hour, as an offset from the first failure. */
  function Slot(k: int): int {
    30 * MINUTE + k * (2 * HOUR)
  }

  /** The last slot before the horizon: 70.5 hours. */
  const LAST_SLOT: int := Slot(35)

  function CeilDiv(a: int, b: int): int
    requires b > 0
  {
    -((-a) / b)
  }

  function CalculateNextRetryTime(attempt: int, initialFailureAt: int, now: int): Option<int> {
    var elapsed := now - initialFailureAt;
    if attempt == 1 then Some(initialFailureAt + 5 * MINUTE)
    else if attempt == 2 then Some(initialFailureAt + 15 * MINUTE)
    else if attempt == 3 then Some(initialFailureAt + 30 * MINUTE)
    else if elapsed >= HORIZON then None
    else
      var next := Slot(CeilDiv(elapsed - 30 * MINUTE, 2 * HOUR));
      if next >= HORIZON then None else Some(initialFailureAt + next)
  }

  /** The first slot from k on that is not before `elapsed`, by trying one after the other. */
  function FirstSlotFrom(k: nat, elapsed: int): nat
    decreases elapsed - Slot(k)
  {
    if Slot(k) >= elapsed then k else FirstSlotFrom(k + 1, elapsed)
  }

  lemma {:induction false} SearchFindsCeiling(k: nat, elapsed: int)
    requires Slot(k) - 2 * HOUR < elapsed
    ensures FirstSlotFrom(k, elapsed) == CeilDiv(elapsed - 30 * MINUTE, 2 * HOUR)
    decreases elapsed - Slot(k)
  {
    if Slot(k) < elapsed {
      SearchFindsCeiling(k + 1, elapsed);
    }
  }

  /**
   * After the three fixed attempts the schedule gives up exactly after 70.5 hours, and is otherwise the plain search for
   * the next slot, exactly unless the clock has fallen 90 minutes or more behind the first failure.
   */
  lemma GridIsSearch(attempt: int, initialFailureAt: int, now: int)
    requires attempt !in {1, 2, 3}
    ensures var next, elapsed := CalculateNextRetryTime(attempt, initialFailureAt, now), now - initialFailureAt;
            && (next.None? <==> elapsed > LAST_SLOT)
            && (next.Some? ==> (next.value == initialFailureAt + Slot(FirstSlotFrom(0, elapsed)) <==> elapsed > Slot(-1)))
  {
    if now - initialFailureAt > Slot(-1) {
      SearchFindsCeiling(0, now - initialFailureAt);
    }
  }

  /** From past slot k the schedule moves on to a later slot, the next one if that is still ahead, or gives up. */
  lemma NextSlot(attempt: int, initialFailureAt: int, now: int, k: nat) returns (k': nat)
    requires attempt !in {1, 2, 3} && now - initialFailureAt > Slot(k)
    ensures var next := CalculateNextRetryTime(attempt, initialFailureAt, now);
            && (next.None? <==> now - initialFailureAt > LAST_SLOT)
            && (next.Some? ==> k < k' <= 35 && next.value == initialFailureAt + Slot(k'))
            && (next.Some? && now - initialFailureAt <= Slot(k + 1) ==> k' == k + 1)
  {
    k' := FirstSlotFrom(k + 1, now - initialFailureAt);
    SearchFindsCeiling(k + 1, now - initialFailureAt);
    GridIsSearch(attempt, initialFailureAt, now);
  }

  // ---------------------------------------------------------------- a job that keeps failing

  datatype JobRow = JobRow(status: JobStatus, retryAttempt: nat, nextRetryAt: int, initialFailureAt: int)

  function CreateRow(now: int): JobRow {
    JobRow(Pending, 0, now + 5 * MINUTE, now)
  }

  /** What a failed run makes of the row when it is rescheduled at `now`. */
  function AfterFailedRun(row: JobRow, now: int): JobRow {
    var next := CalculateNextRetryTime(row.retryAttempt + 1, row.initialFailureAt, now);
    if next.None? then row.(status := Expired)
    else row.(status := Pending, retryAttempt := row.retryAttempt + 1, nextRetryAt := next.value)
  }

  /** The row after failed runs rescheduled at the given times; an expired job is not run again. */
  function AfterFailedRuns(row: JobRow, times: seq<int>): JobRow {
    if times == [] then row
    else
      var before := AfterFailedRuns(row, times[..|times| - 1]);
      if before.status.Expired? then before else AfterFailedRun(before, times[|times| - 1])
  }

  /** Every failed run is rescheduled strictly after the time it was due. */
  ghost predicate AfterDue(row: JobRow, times: seq<int>) {
    times == [] ||
    (var front, last := times[..|times| - 1], times[|times| - 1];
     && AfterDue(row, front)
     && (AfterFailedRuns(row, front).status.Pending? ==> last > AfterFailedRuns(row, front).nextRetryAt))
  }

  ghost predicate RowValid(row: JobRow) {
    && (row.retryAttempt <= 1 ==> row.nextRetryAt == row.initialFailureAt + 5 * MINUTE)
    && (row.retryAttempt == 2 ==> row.nextRetryAt == row.initialFailureAt + 15 * MINUTE)
    && (row.retryAttempt >= 3 ==> row.retryAttempt - 3 <= DueSlot(row) <= 35 && row.nextRetryAt == row.initialFailureAt + Slot(DueSlot(row)))
  }

  /** The number of the slot a row is due at. */
  function DueSlot(row: JobRow): int {
    (row.nextRetryAt - row.initialFailureAt - 30 * MINUTE) / (2 * HOUR)
  }

  lemma DueSlotOf(row: JobRow, k: int)
    requires row.nextRetryAt == row.initialFailureAt + Slot(k)
    ensures DueSlot(row) == k
  {}

  /** One failed run after its due time: the due time never moves back, and a job that stays alive has one attempt more. */
  lemma FailedRunAdvances(row: JobRow, now: int)
    requires RowValid(row) && row.status.Pending? && now > row.nextRetryAt
    ensures var row' := AfterFailedRun(row, now);
            && RowValid(row')
            && row.nextRetryAt <= row'.nextRetryAt && row'.initialFailureAt == row.initialFailureAt
            && (row'.status.Pending? ==> row'.retryAttempt == row.retryAttempt + 1)
            && (row.retryAttempt >= MAX_RETRIES ==> row'.status.Expired?)
  {
    var row' := AfterFailedRun(row, now);
    if row.retryAttempt >= 3 {
      var k := NextSlot(row.retryAttempt + 1, row.initialFailureAt, now, DueSlot(row));
      if row'.status.Pending? {
        DueSlotOf(row', k);
      }
    } else if row.retryAttempt == 2 {
      DueSlotOf(row', 0);
    }
  }

  lemma RowBounds(row: JobRow)
    requires RowValid(row)
    ensures row.retryAttempt <= MAX_RETRIES && row.nextRetryAt <= row.initialFailureAt + LAST_SLOT
  {}

  lemma FailuresSnoc(row: JobRow, times: seq<int>, now: int)
    ensures var before := AfterFailedRuns(row, times);
            AfterFailedRuns(row, times + [now]) == if before.status.Expired? then before else AfterFailedRun(before, now)
  {
    assert (times + [now])[..|times|] == times;
  }

  lemma AfterDueSnoc(row: JobRow, times: seq<int>, now: int)
    ensures var before := AfterFailedRuns(row, times);
            AfterDue(row, times + [now]) <==> AfterDue(row, times) && (before.status.Pending? ==> now > before.nextRetryAt)
  {
    assert (times + [now])[..|times|] == times;
  }

  /** A job that always fails is alive only as long as its failures are fewer than 39, and its attempt count is their number. */
  lemma {:induction false} FailuresAreCounted(start: int, times: seq<int>)
    requires AfterDue(CreateRow(start), times)
    ensures var row := AfterFailedRuns(CreateRow(start), times);
            && RowValid(row) && row.initialFailureAt == start
            && (row.status.Pending? || row.status.Expired?)
            && (row.status.Pending? ==> row.retryAttempt == |times|)
            && row.retryAttempt <= MAX_RETRIES
            && row.nextRetryAt <= start + LAST_SLOT
    decreases |times|
  {
    if times == [] {
      RowBounds(CreateRow(start));
    } else {
      var n := |times| - 1;
      assert times == times[..n] + [times[n]];
      FailuresSnoc(CreateRow(start), times[..n], times[n]);
      AfterDueSnoc(CreateRow(start), times[..n], times[n]);
      FailuresAreCounted(start, times[..n]);
      var before := AfterFailedRuns(CreateRow(start), times[..n]);
      if before.status.Pending? {
        FailedRunAdvances(before, times[n]);
        RowBounds(AfterFailedRun(before, times[n]));
      }
    }
  }

  /** No job survives 39 failed runs, although nothing ever compares the attempts with the stored maximum. */
  lemma ExpiresAfter39Failures(start: int, times: seq<int>)
    requires AfterDue(CreateRow(start), times) && |times| >= MAX_RETRIES + 1
    ensures AfterFailedRuns(CreateRow(start), times).status.Expired?
  {
    FailuresAreCounted(start, times);
  }

  /** Across the life of a job its due time never decreases. */
  lemma DueTimeNeverDecreases(start: int, times: seq<int>, now: int)
    requires AfterDue(CreateRow(start), times + [now])
    ensures AfterFailedRuns(CreateRow(start), times).nextRetryAt <= AfterFailedRuns(CreateRow(start), times + [now]).nextRetryAt
  {
    var row := AfterFailedRuns(CreateRow(start), times);
    FailuresSnoc(CreateRow(start), times, now);
    AfterDueSnoc(CreateRow(start), times, now);
    FailuresAreCounted(start, times);
    if row.status.Pending? {
      FailedRunAdvances(row, now);
    }
  }

  // ---------------------------------------------------------------- the bound is met, and what it rests on

  /** A job with n failures behind it, due at the slot that belongs to them. */
  ghost predicate AtSlot(row: JobRow, start: int, n: nat) {
    && row.status.Pending? && row.retryAttempt == n && row.initialFailureAt == start
    && row.nextRetryAt == start + (if n <= 1 then 5 * MINUTE else if n == 2 then 15 * MINUTE else Slot(n - 3))
  }

  lemma PromptRunTakesNextSlot(row: JobRow, start: int, n: nat)
    requires AtSlot(row, start, n) && n < MAX_RETRIES
    ensures AtSlot(AfterFailedRun(row, row.nextRetryAt + 1), start, n + 1)
  {
    if n >= 3 {
      var k := NextSlot(n + 1, start, row.nextRetryAt + 1, n - 3);
    }
  }

  /** n failed runs of a job after which it is alive, each rescheduled after its due time. */
  ghost predicate Promptly(start: int, times: seq<int>, n: nat) {
    |times| == n && AfterDue(CreateRow(start), times) && AtSlot(AfterFailedRuns(CreateRow(start), times), start, n)
  }

  /** The next failed run, rescheduled one millisecond after it was due. */
  lemma OnePromptFailure(start: int, times: seq<int>, n: nat)
    requires Promptly(start, times, n) && n < MAX_RETRIES
    ensures Promptly(start, times + [AfterFailedRuns(CreateRow(start), times).nextRetryAt + 1], n + 1)
  {
    var row := AfterFailedRuns(CreateRow(start), times);
    FailuresSnoc(CreateRow(start), times, row.nextRetryAt + 1);
    AfterDueSnoc(CreateRow(start), times, row.nextRetryAt + 1);
    PromptRunTakesNextSlot(row, start, n);
  }

  /** Failed runs that are each rescheduled one millisecond after they were due use up one slot after the other. */
  lemma {:induction false} PromptRunsUseEverySlot(start: int, n: nat) returns (times: seq<int>)
    requires n <= MAX_RETRIES
    ensures Promptly(start, times, n)
  {
    if n == 0 {
      times := [];
    } else {
      var before := PromptRunsUseEverySlot(start, n - 1);
      OnePromptFailure(start, before, n - 1);
      times := before + [AfterFailedRuns(CreateRow(start), before).nextRetryAt + 1];
    }
  }

  /** The bound of 39 is tight: some job is still alive after 38 failed runs. */
  lemma SomeJobSurvives38(start: int)
    ensures exists times :: |times| == MAX_RETRIES && AfterDue(CreateRow(start), times) && AfterFailedRuns(CreateRow(start), times).status.Pending?
  {
    var times := PromptRunsUseEverySlot(start, MAX_RETRIES);
    assert |times| == MAX_RETRIES && AfterDue(CreateRow(start), times);
  }

  /** On the grid, a run that fails no earlier than it was due moves the due time on exactly when it fails later than that. */
  lemma ProgressIffAfterDue(row: JobRow, k: nat, now: int)
    requires row.retryAttempt >= 3 && row.nextRetryAt == row.initialFailureAt + Slot(k) && now >= row.nextRetryAt
    requires now - row.initialFailureAt <= LAST_SLOT
    ensures AfterFailedRun(row, now).nextRetryAt > row.nextRetryAt <==> now > row.nextRetryAt
  {
    GridIsSearch(row.retryAttempt + 1, row.initialFailureAt, now);
    SearchFindsCeiling(0, now - row.initialFailureAt);
    SearchFindsCeiling(k, now - row.initialFailureAt);
  }

  // ---------------------------------------------------------------- the row as the service updates it

  class WalletRetryJob {
    var status: JobStatus
    var retryAttempt: nat
    var nextRetryAt: int
    const initialFailureAt: int

    ghost function Row(): JobRow
      reads this
    {
      JobRow(status, retryAttempt, nextRetryAt, initialFailureAt)
    }

    constructor (now: int)
      ensures Row() == CreateRow(now)
    {
      var first := CalculateNextRetryTime(1, now, now);
      status, retryAttempt, initialFailureAt := Pending, 0, now;
      nextRetryAt := first.value;
    }

    method ScheduleNextRetry(nextAttempt: nat, next: Option<int>)
      modifies this
      ensures Row() == if next.None? then old(Row()).(status := Expired)
                       else old(Row()).(status := Pending, retryAttempt := nextAttempt, nextRetryAt := next.value)
    {
      if next.None? {
        status := Expired;
      } else {
        status := Pending;
        retryAttempt := nextAttempt;
        nextRetryAt := next.value;
      }
    }

    method MarkExpired()
      modifies this
      ensures Row() == old(Row()).(status := Expired)
    {
      status := Expired;
    }

    /** The failure branch of a run. */
    method RescheduleAfterFailure(now: int)
      modifies this
      ensures Row() == AfterFailedRun(old(Row()), now)
    {
      var nextAttempt := retryAttempt + 1;
      var next := CalculateNextRetryTime(nextAttempt, initialFailureAt, now);
      if next.Some? {
        ScheduleNextRetry(nextAttempt, next);
      } else {
        MarkExpired();
      }
    }
  }
}
