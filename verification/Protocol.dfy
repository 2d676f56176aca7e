/**
 * The money protocol: bets, sessions, settlements, refunds and retries, as one state machine.
 *
 * Each flow of the source is one step of the machine: a bet, a step request, a cash-out, one refund batch,
 * one retry run. The order of steps, the answers of the wallet agent, the expiry of sessions, the flush of
 * Redis and the crash of a retry run are arbitrary. A clock gives the jobs their times.
 */
module Protocol {
  import opened Common
  import opened GameSession
  import opened Bets
  import opened RefundBatches
  import opened RetrySchedule

  // ---------------------------------------------------------------- wallet

  /**
   * What comes back from one wallet call. NotSent: the agent could not be resolved, nothing left the server.
   * Accepted: status "0000". Declined: another status. Lost: no usable reply. A failed call may still have been
   * applied by the agent, to any of its transactions. `logged` tells whether the audit record was written,
   * without which no retry job is created.
   */
  datatype Answer =
    | NotSent
    | Accepted
    | Declined(applied: set<TxId>, logged: bool)
    | Lost(applied: set<TxId>, logged: bool)

  function AppliedTo(answer: Answer, txs: set<TxId>): set<TxId> {
    match answer
    case NotSent => {}
    case Accepted => txs
    case Declined(applied, _) => applied * txs
    case Lost(applied, _) => applied * txs
  }

  /** Requests sent so far, and the amounts the agent has applied; it applies each action of a transaction once. */
  datatype Wallet = Wallet(
    settleSent: set<TxId>,
    cancelSent: set<TxId>,
    debits: map<TxId, real>,
    credits: map<TxId, real>,
    refunds: map<TxId, real>)

  /** Adds the applied amounts that the agent has not applied before. */
  function Apply(book: map<TxId, real>, amounts: map<TxId, real>, applied: set<TxId>): map<TxId, real> {
    map t | t in book.Keys + (applied * amounts.Keys) :: if t in book then book[t] else amounts[t]
  }

  // ---------------------------------------------------------------- retry jobs

  datatype RefundTxn = RefundTxn(tx: TxId, betAmount: real)

  datatype JobKind = SettleJob(winAmount: Option<real>) | RefundJob(txns: seq<RefundTxn>)

  /** `row` holds the columns the schedule works on: status, attempts, due time and time of the first failure. */
  datatype Job = Job(tx: TxId, kind: JobKind, row: JobRow)

  predicate Active(job: Job) {
    job.row.status.Pending? || job.row.status.Processing?
  }

  predicate SameAction(a: JobKind, b: JobKind) {
    a.SettleJob? == b.SettleJob?
  }

  predicate HasActiveJob(jobs: seq<Job>, tx: TxId, kind: JobKind) {
    exists i :: 0 <= i < |jobs| && jobs[i].tx == tx && SameAction(jobs[i].kind, kind) && Active(jobs[i])
  }

  function NewJob(tx: TxId, kind: JobKind, now: int): Job {
    Job(tx, kind, CreateRow(now))
  }

  /** createRetryJob: an active job for the same transaction and action suppresses the new one. */
  function Enqueue(jobs: seq<Job>, tx: TxId, kind: JobKind, now: int): seq<Job> {
    if HasActiveJob(jobs, tx, kind) then jobs else jobs + [NewJob(tx, kind, now)]
  }

  /** The jobs after a call answered; a declined call books its failure twice, through the throw inside the try. */
  function JobsAfter(jobs: seq<Job>, answer: Answer, tx: TxId, kind: JobKind, now: int): seq<Job> {
    match answer
    case Declined(_, true) => Enqueue(Enqueue(jobs, tx, kind, now), tx, kind, now)
    case Lost(_, true) => Enqueue(jobs, tx, kind, now)
    case _ => jobs
  }

  /** The win amount a job row keeps: absent when it is zero, rounded to the column's four decimals otherwise. */
  function StoredWin(winAmount: real): Option<real> {
    if winAmount == 0.0 then None else Some(Fixed4(winAmount))
  }

  function WinToSend(stored: Option<real>): real {
    if stored.Some? then stored.value else 0.0
  }

  // ---------------------------------------------------------------- the state

  /** What has happened in the game of a bet. No operation reads it. */
  datatype GameRecord = GameRecord(stake: real, coefficients: seq<real>, cleared: nat, hit: bool)

  datatype World = World(
    sessions: map<string, Session>,
    bets: BetTable,
    jobs: seq<Job>,
    wallet: Wallet,
    pass: seq<seq<Bet>>,
    games: map<TxId, GameRecord>,
    now: int)

  function Init(): World {
    World(map[], map[], [], Wallet({}, {}, map[], map[], map[]), [], map[], 0)
  }

  function SessionKey(userId: string, agentId: string, gameCode: string): string {
    "gameSession:" + userId + "-" + agentId + "-" + gameCode
  }

  /** The key under which the session of a bet was stored. */
  function HomeKey(bet: Bet): string {
    SessionKey(bet.userId, bet.operatorId, bet.gameCode)
  }

  /** The key the refund pass looks up for a bet, with ids recovered from the group key. */
  function LookupKey(bet: Bet): string {
    var (userId, operatorId) := ParseKey(GroupKey(bet));
    SessionKey(userId, operatorId, bet.gameCode)
  }

  // ---------------------------------------------------------------- bet, step, cash-out

  /** createPlacement: the new open row, with the stake in the row's three decimals. */
  function AddRow(w: World, row: Bet, amount: real, coefficients: seq<real>): World {
    w.(bets := w.bets[row.txId := row.(betAmount := Fixed3(amount), status := Placed, winAmount := None)],
       games := w.games[row.txId := GameRecord(amount, coefficients, 0, false)])
  }

  /** A bet flow. `gameActive` is the outcome of validateGame, `row` carries what the bet row is made of. */
  function PlaceBet(w: World, gameCode: string, row: Bet, amount: real, coefficients: seq<real>,
                    gameActive: bool, answer: Answer): World
  {
    var key := SessionKey(row.userId, row.operatorId, gameCode);
    if key in w.sessions && w.sessions[key].isActive then w
    else if amount <= 0.0 then w
    else
      var debited := w.(wallet := w.wallet.(debits := Apply(w.wallet.debits, map[row.txId := amount], AppliedTo(answer, {row.txId}))));
      if !answer.Accepted? || !gameActive || row.txId in w.bets then debited
      else
        var placed := AddRow(debited, row, amount, coefficients);
        if coefficients == [] then placed
        else placed.(sessions := placed.sessions[key := NewSession(row.operatorId, row.txId, amount, coefficients)])
  }

  /** settleBet: the request, and on failure the retry job and the failed mark. */
  function CallSettle(w: World, tx: TxId, winAmount: real, stored: Option<real>, answer: Answer): World {
    if answer.NotSent? then w
    else
      w.(wallet := w.wallet.(settleSent := w.wallet.settleSent + {tx},
                             credits := Apply(w.wallet.credits, map[tx := winAmount], AppliedTo(answer, {tx}))),
         jobs := JobsAfter(w.jobs, answer, tx, SettleJob(stored), w.now),
         bets := if answer.Accepted? then w.bets else WithStatus(w.bets, {tx}, SettlementFailed))
  }

  /** A finished session settles: on success the row is settled and the session deleted. */
  function SettleSession(w: World, key: string, tx: TxId, winAmount: real, answer: Answer): World {
    var called := CallSettle(w, tx, winAmount, StoredWin(winAmount), answer);
    if !answer.Accepted? || tx !in called.bets then called
    else
      called.(bets := WithSettlement(called.bets, tx, Some(Fixed3(winAmount))),
              sessions := called.sessions - {key})
  }

  function Recorded(games: map<TxId, GameRecord>, tx: TxId, session: Session): map<TxId, GameRecord> {
    if tx !in games then games
    else if session.collisionColumns.Some? then games[tx := games[tx].(hit := true)]
    else games[tx := games[tx].(cleared := if session.currentStep < 0 then 0 else session.currentStep + 1)]
  }

  function StepFlow(w: World, key: string, lineNumber: int, hazards: seq<int>, answer: Answer): World {
    if key !in w.sessions then w
    else
      var s := w.sessions[key];
      match TakeStep(s, lineNumber, hazards)
      case Advanced(s') => w.(sessions := w.sessions[key := s'], games := Recorded(w.games, s.txId, s'))
      case Ended(s', amount) =>
        SettleSession(w.(sessions := w.sessions[key := s'], games := Recorded(w.games, s.txId, s')),
                      key, s.txId, amount, answer)
      case _ => w
  }

  function CashOutFlow(w: World, key: string, answer: Answer): World {
    if key !in w.sessions || !w.sessions[key].isActive then w
    else
      var s := w.sessions[key];
      SettleSession(w.(sessions := w.sessions[key := CloseForCashOut(s)]), key, s.txId, s.winAmount, answer)
  }

  // ---------------------------------------------------------------- refunds

  function TxIds(batch: seq<Bet>): set<TxId> {
    set b | b in batch :: b.txId
  }

  /** sessionExistsForBet: an active session under the looked-up key that belongs to this very bet. */
  predicate SessionExistsForBet(sessions: map<string, Session>, bet: Bet) {
    var key := LookupKey(bet);
    key in sessions && sessions[key].isActive && sessions[key].txId == bet.txId
  }

  predicate BatchIsSkipped(sessions: map<string, Session>, batch: seq<Bet>) {
    exists b :: b in batch && SessionExistsForBet(sessions, b)
  }

  function RefundTxns(batch: seq<Bet>): seq<RefundTxn> {
    seq(|batch|, i requires 0 <= i < |batch| => RefundTxn(batch[i].txId, batch[i].betAmount))
  }

  function TxnIds(txns: seq<RefundTxn>): set<TxId> {
    set x | x in txns :: x.tx
  }

  /** The refund requested for each transaction of a call; the last entry of a transaction counts. */
  function Amounts(txns: seq<RefundTxn>): map<TxId, real> {
    if txns == [] then map[]
    else Amounts(txns[..|txns| - 1])[txns[|txns| - 1].tx := txns[|txns| - 1].betAmount]
  }

  /** refundBet: one cancelBet request for all transactions; a failure makes one job, under the first of them. */
  function CallRefund(w: World, txns: seq<RefundTxn>, answer: Answer): World {
    if answer.NotSent? || txns == [] then w
    else
      w.(wallet := w.wallet.(cancelSent := w.wallet.cancelSent + TxnIds(txns),
                             refunds := Apply(w.wallet.refunds, Amounts(txns), AppliedTo(answer, TxnIds(txns)))),
         jobs := JobsAfter(w.jobs, answer, txns[0].tx, RefundJob(txns), w.now),
         bets := if answer.Accepted? then w.bets else WithStatus(w.bets, TxnIds(txns), SettlementFailed))
  }

  /** One batch of a pass: skipped when any of its bets still has its active session, refunded otherwise. */
  function RefundBatch(w: World, batch: seq<Bet>, answer: Answer): World {
    if BatchIsSkipped(w.sessions, batch) then w
    else
      var called := CallRefund(w, RefundTxns(batch), answer);
      if answer.Accepted? then called.(bets := WithStatus(called.bets, TxIds(batch), Refunded)) else called
  }

  /** How the pass counts a batch. */
  function OutcomeOf(w: World, batch: seq<Bet>, answer: Answer): BatchOutcome {
    if BatchIsSkipped(w.sessions, batch) then Skipped else if answer.Accepted? then BatchDone else BatchFailed
  }

  /** The answer to the n-th batch of a pass; without one, nothing is sent. */
  function AnswerAt(answers: seq<Answer>, n: nat): Answer {
    if n < |answers| then answers[n] else NotSent
  }

  /** The state after a pass has processed the given batches, one after the other. */
  function AfterBatches(w: World, batches: seq<seq<Bet>>, answers: seq<Answer>): World {
    if batches == [] then w
    else
      var n := |batches| - 1;
      RefundBatch(AfterBatches(w, batches[..n], answers), batches[n], AnswerAt(answers, n))
  }

  /** What each of those batches came to. */
  function OutcomesOf(w: World, batches: seq<seq<Bet>>, answers: seq<Answer>): (outcomes: seq<BatchOutcome>)
    ensures |outcomes| == |batches|
  {
    if batches == [] then []
    else
      var n := |batches| - 1;
      OutcomesOf(w, batches[..n], answers)
      + [OutcomeOf(AfterBatches(w, batches[..n], answers), batches[n], AnswerAt(answers, n))]
  }

  // ---------------------------------------------------------------- retries

  /** Where a retry run dies: before the wallet call, after it, or after the bet row was updated. */
  datatype RunEnd = Completed | DiesBeforeCall | DiesAfterCall | DiesAfterRow

  function WithJobRow(jobs: seq<Job>, j: nat, row: JobRow): seq<Job>
    requires j < |jobs|
  {
    jobs[j := jobs[j].(row := row)]
  }

  function WithJobStatus(jobs: seq<Job>, j: nat, status: JobStatus): seq<Job>
    requires j < |jobs|
  {
    WithJobRow(jobs, j, jobs[j].row.(status := status))
  }

  /** The end of a completed run: success, or the next slot of the schedule, or the end of the schedule. */
  function RowAfterRun(row: JobRow, answer: Answer, now: int): JobRow {
    if answer.Accepted? then row.(status := Success) else AfterFailedRun(row, now)
  }

  /** executeRetry without the row update: the wallet call of the job. */
  function CallAgain(w: World, job: Job, answer: Answer): World {
    match job.kind
    case SettleJob(stored) => CallSettle(w, job.tx, WinToSend(stored), StoredWin(WinToSend(stored)), answer)
    case RefundJob(txns) => CallRefund(w, txns, answer)
  }

  /** The row update of a successful retry; a write that fails is caught. A refund updates its first bet only. */
  function RowAfterRetry(bets: BetTable, job: Job, rowWritten: bool): BetTable {
    if !rowWritten then bets
    else
      match job.kind
      case SettleJob(stored) => WithSettlement(bets, job.tx, stored)
      case RefundJob(_) => WithStatus(bets, {job.tx}, Refunded)
  }

  /** One run of job j: PROCESSING, the call, the row, and the job's new status. */
  function RetryRun(w: World, j: nat, answer: Answer, rowWritten: bool, end: RunEnd): World {
    if j >= |w.jobs| || !Active(w.jobs[j]) then w
    else
      var started := w.(jobs := WithJobStatus(w.jobs, j, Processing));
      if end.DiesBeforeCall? then started
      else
        var called := CallAgain(started, w.jobs[j], answer);
        if end.DiesAfterCall? then called
        else
          var updated := if answer.Accepted?
                         then called.(bets := RowAfterRetry(called.bets, w.jobs[j], rowWritten))
                         else called;
          if end.DiesAfterRow? || j >= |updated.jobs| then updated
          else updated.(jobs := WithJobRow(updated.jobs, j, RowAfterRun(updated.jobs[j].row, answer, w.now)))
  }

  // ---------------------------------------------------------------- runs

  datatype Event =
    | BetRequest(gameCode: string, row: Bet, amount: real, coefficients: seq<real>, gameActive: bool, answer: Answer)
    | StepRequest(key: string, lineNumber: int, hazards: seq<int>, answer: Answer)
    | CashOutRequest(key: string, answer: Answer)
    | ReadOldBets(listed: seq<Bet>)
    | NextBatch(answer: Answer)
    | DropBatch
    | Retry(job: nat, answer: Answer, rowWritten: bool, end: RunEnd)
    | Expire(key: string)
    | Flush
    | Tick(ms: nat)

  function Next(w: World, e: Event): World {
    match e
    case BetRequest(gameCode, row, amount, coefficients, gameActive, answer) =>
      PlaceBet(w, gameCode, row, amount, coefficients, gameActive, answer)
    case StepRequest(key, lineNumber, hazards, answer) => StepFlow(w, key, lineNumber, hazards, answer)
    case CashOutRequest(key, answer) => CashOutFlow(w, key, answer)
    case ReadOldBets(listed) => w.(pass := w.pass + Batches(listed))
    case NextBatch(answer) =>
      if w.pass == [] then w else RefundBatch(w.(pass := w.pass[1..]), w.pass[0], answer)
    case DropBatch => if w.pass == [] then w else w.(pass := w.pass[1..])
    case Retry(j, answer, rowWritten, end) => RetryRun(w, j, answer, rowWritten, end)
    case Expire(key) => w.(sessions := w.sessions - {key})
    case Flush => w.(sessions := map[])
    case Tick(ms) => w.(now := w.now + ms)
  }

  function Run(w: World, es: seq<Event>): World
    decreases |es|
  {
    if es == [] then w else Run(Next(w, es[0]), es[1..])
  }

  lemma RunOfCons(w: World, e: Event, es: seq<Event>)
    ensures Run(w, [e] + es) == Run(Next(w, e), es)
  {
    assert ([e] + es)[1..] == es;
  }

  lemma {:induction false} RunOfSnoc(w: World, es: seq<Event>, e: Event)
    ensures Run(w, es + [e]) == Next(Run(w, es), e)
    decreases |es|
  {
    if es == [] {
      assert [e][1..] == [] && es + [e] == [e];
      assert Run(Next(w, e), []) == Next(w, e);
    } else {
      RunOfSnoc(Next(w, es[0]), es[1..], e);
      assert (es + [e])[1..] == es[1..] + [e];
    }
  }
}
