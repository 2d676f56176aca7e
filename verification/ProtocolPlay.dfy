/** What a bet, a game and a settlement do to the whole state: who is debited, who is paid, and what stays as it was. */
module ProtocolPlay {
  import opened Common
  import opened GameSession
  import opened Bets
  import opened RefundBatches
  import opened Protocol
  import opened ProtocolJobs
  import opened ProtocolMoney
  import opened ProtocolSafety

  // ---------------------------------------------------------------- a bet

  /** The key a bet request stores its session under. */
  function BetKey(e: Event): string
    requires e.BetRequest?
  {
    SessionKey(e.row.userId, e.row.operatorId, e.gameCode)
  }

  predicate IsActive(sessions: map<string, Session>, key: string) {
    key in sessions && sessions[key].isActive
  }

  /** A bet request that meets an active session under its key, or no stake, leaves everything as it was. */
  lemma BetDuringPlayIsRefused(w: World, e: Event)
    requires e.BetRequest? && (IsActive(w.sessions, BetKey(e)) || e.amount <= 0.0)
    ensures Next(w, e) == w
  {}

  /** The new session of a bet: at the start, worth its stake, for this very transaction. */
  predicate FreshSession(s: Session, e: Event)
    requires e.BetRequest?
  {
    && s.isActive && !s.isWin && s.collisionColumns.None? && s.currentStep == -1
    && s.txId == e.row.txId && s.agentId == e.row.operatorId
    && s.betAmount == e.amount && s.winAmount == e.amount && s.coefficients == e.coefficients
  }

  /** A bet that is taken: the debit, the open row with the stake in three decimals, the session, and nothing else. */
  lemma BetIsTaken(w: World, e: Event)
    requires e.BetRequest? && Plausible(w, e) && !IsActive(w.sessions, BetKey(e)) && e.amount > 0.0
    requires e.answer.Accepted? && e.gameActive && e.coefficients != []
    ensures var w', tx, key := Next(w, e), e.row.txId, BetKey(e);
            && w'.wallet == w.wallet.(debits := w.wallet.debits[tx := e.amount])
            && w'.bets == w.bets[tx := e.row.(betAmount := Fixed3(e.amount), status := Placed, winAmount := None)]
            && key in w'.sessions && FreshSession(w'.sessions[key], e)
            && w'.sessions == w.sessions[key := w'.sessions[key]]
            && w'.games == w.games[tx := GameRecord(e.amount, e.coefficients, 0, false)]
            && w'.jobs == w.jobs && w'.pass == w.pass && w'.now == w.now
  {
    assert Apply(w.wallet.debits, map[e.row.txId := e.amount], {e.row.txId}) == w.wallet.debits[e.row.txId := e.amount];
  }

  /** A bet that fails on the way leaves at most the debit and, without coefficients, the open row; never a session. */
  lemma BetIsNotTaken(w: World, e: Event)
    requires e.BetRequest? && Plausible(w, e) && !IsActive(w.sessions, BetKey(e)) && e.amount > 0.0
    requires !(e.answer.Accepted? && e.gameActive && e.coefficients != [])
    ensures var w', tx := Next(w, e), e.row.txId;
            && w'.sessions == w.sessions && w'.jobs == w.jobs && w'.pass == w.pass && w'.now == w.now
            && w'.wallet == (if tx in AppliedTo(e.answer, {tx}) then w.wallet.(debits := w.wallet.debits[tx := e.amount]) else w.wallet)
            && (tx in w'.bets <==> e.answer.Accepted? && e.gameActive)
            && (forall t :: t != tx ==> (t in w'.bets <==> t in w.bets) && (t in w.bets ==> w'.bets[t] == w.bets[t]))
  {
    var tx, applied := e.row.txId, AppliedTo(e.answer, {e.row.txId});
    assert Apply(w.wallet.debits, map[tx := e.amount], applied) == if tx in applied then w.wallet.debits[tx := e.amount] else w.wallet.debits;
  }

  /** An active session is changed or removed only by a step or a cash-out under its key, by its expiry, or by a flush. */
  lemma ActiveSessionStays(w: World, e: Event, key: string)
    requires Inv(w) && IsActive(w.sessions, key)
    requires !((e.StepRequest? || e.CashOutRequest? || e.Expire?) && e.key == key) && !e.Flush?
    ensures key in Next(w, e).sessions && Next(w, e).sessions[key] == w.sessions[key]
  {
    match e
    case StepRequest(k, lineNumber, hazards, answer) => StepTouchesOneKey(w, e);
    case CashOutRequest(k, answer) => StepTouchesOneKey(w, e);
    case Retry(j, answer, rowWritten, end) => RetryTouchesNoSession(w, e);
    case _ =>
  }

  lemma StepTouchesOneKey(w: World, e: Event)
    requires e.StepRequest? || e.CashOutRequest?
    ensures forall k :: k != e.key ==> (k in Next(w, e).sessions <==> k in w.sessions)
    ensures forall k :: k != e.key && k in w.sessions ==> Next(w, e).sessions[k] == w.sessions[k]
  {}

  lemma RetryTouchesNoSession(w: World, e: Event)
    requires e.Retry?
    ensures Next(w, e).sessions == w.sessions
  {
    if e.job < |w.jobs| && Active(w.jobs[e.job]) {
      assert CallAgain(w.(jobs := WithJobStatus(w.jobs, e.job, Processing)), w.jobs[e.job], e.answer).sessions == w.sessions;
    }
  }

  /** Expiry takes one session, a flush takes all; rows, jobs and books stay. */
  lemma SessionsVanish(w: World, key: string)
    ensures Next(w, Flush) == w.(sessions := Next(w, Flush).sessions) && Next(w, Flush).sessions.Keys == {}
    ensures Next(w, Expire(key)) == w.(sessions := Next(w, Expire(key)).sessions) && Next(w, Expire(key)).sessions.Keys == w.sessions.Keys - {key}
    ensures forall k :: k in w.sessions && k != key ==> Next(w, Expire(key)).sessions[k] == w.sessions[k]
  {}

  // ---------------------------------------------------------------- a game

  /** The requests of one player's game: steps and cash-outs under one key, with the agent's answers. */
  predicate OnKey(es: seq<Event>, key: string) {
    forall i :: 0 <= i < |es| ==> (es[i].StepRequest? || es[i].CashOutRequest?) && es[i].key == key
  }

  function RequestOf(e: Event): Request
    requires e.StepRequest? || e.CashOutRequest?
  {
    if e.StepRequest? then StepTo(e.lineNumber, e.hazards) else CashOut
  }

  function Requests(es: seq<Event>, key: string): (rs: seq<Request>)
    requires OnKey(es, key)
    ensures |rs| == |es| && forall i :: 0 <= i < |es| ==> rs[i] == RequestOf(es[i])
  {
    seq(|es|, i requires 0 <= i < |es| => RequestOf(es[i]))
  }

  /** An open bet in play: its session stands consistently under the key, and nothing has been asked for it yet. */
  ghost predicate InGame(w: World, key: string) {
    && IsActive(w.sessions, key) && SessionValid(w.sessions[key])
    && (var tx := w.sessions[key].txId;
        && tx in w.bets && w.bets[tx].status.Placed? && tx !in w.wallet.credits
        && !HasActiveJob(w.jobs, tx, SettleJob(None)))
  }

  lemma SettleJobIsSent(w: World, i: nat)
    requires Inv(w) && i < |w.jobs| && w.jobs[i].kind.SettleJob?
    ensures w.jobs[i].tx in w.bets && !w.bets[w.jobs[i].tx].status.Placed?
  {
    assert JobSent(w.wallet, w.jobs[i]);
  }

  /** Every active session of every reachable state is such a game. */
  lemma ActiveIsInGame(w: World, key: string)
    requires MoneyInv(w) && IsActive(w.sessions, key)
    ensures InGame(w, key)
  {
    var tx := w.sessions[key].txId;
    assert SessionMatches(w.games, w.sessions[key]);
    assert tx in w.bets && w.bets[tx].status.Placed? && BetBooked(w, tx);
    if HasActiveJob(w.jobs, tx, SettleJob(None)) {
      var i :| 0 <= i < |w.jobs| && w.jobs[i].tx == tx && SameAction(w.jobs[i].kind, SettleJob(None)) && Active(w.jobs[i]);
      SettleJobIsSent(w, i);
      assert false;
    }
  }

  /** The game goes on with `cleared` columns behind the player; apart from its session and its record nothing has changed. */
  ghost predicate GoesOn(w: World, w': World, key: string, cleared: nat)
    requires key in w.sessions
  {
    && key in w'.sessions && w'.sessions == w.sessions[key := w'.sessions[key]]
    && (var s, s' := w.sessions[key], w'.sessions[key];
        && s'.isActive && s'.txId == s.txId && s'.betAmount == s.betAmount && s'.coefficients == s.coefficients
        && s'.currentStep + 1 == cleared <= |s.coefficients| && s'.winAmount == s.betAmount * Multiplier(s.coefficients, cleared)
        && w' == w.(sessions := w'.sessions, games := w'.games)
        && (forall t :: t != s.txId ==> (t in w'.games <==> t in w.games) && (t in w.games ==> w'.games[t] == w.games[t])))
  }

  /**
   * The game is over and its settlement has been requested, with the given answer. An accepted one is booked with the
   * amount, the row is won or lost, and the session gone; a failed one is kept as a retry job if it was logged. Other
   * sessions, rows, credits, jobs and game records are untouched.
   */
  ghost predicate Settled(w: World, w': World, key: string, amount: real, answer: Answer)
    requires key in w.sessions
  {
    var tx := w.sessions[key].txId;
    && tx in w.bets && tx in w'.bets
    && w'.pass == w.pass && w'.now == w.now
    && (forall t :: t != tx ==> (t in w'.games <==> t in w.games) && (t in w.games ==> w'.games[t] == w.games[t]))
    && w'.wallet == w.wallet.(
         settleSent := if answer.NotSent? then w.wallet.settleSent else w.wallet.settleSent + {tx},
         credits := if tx in AppliedTo(answer, {tx}) then w.wallet.credits[tx := amount] else w.wallet.credits)
    && w'.jobs == (if LoggedFailure(answer) then w.jobs + [NewJob(tx, SettleJob(StoredWin(amount)), w.now)] else w.jobs)
    && w'.bets == w.bets[tx := RowSettled(w.bets[tx], amount, answer)]
    && w'.sessions - {key} == w.sessions - {key}
    && (if answer.Accepted? then key !in w'.sessions
        else key in w'.sessions && !w'.sessions[key].isActive && w'.sessions[key].txId == tx)
  }

  /** What the answer makes of the bet's row. */
  function RowSettled(row: Bet, amount: real, answer: Answer): Bet {
    if answer.Accepted? then row.(winAmount := Column(Some(Fixed3(amount))), status := if Fixed3(amount) > 0.0 then Won else BetStatus.Lost)
    else if answer.NotSent? then row
    else row.(status := SettlementFailed)
  }

  /** The settlement of a finished session, for every answer. */
  lemma SettleSessionSettles(w: World, saved: World, key: string, amount: real, answer: Answer)
    requires InGame(w, key)
    requires var s := w.sessions[key];
             && key in saved.sessions && !saved.sessions[key].isActive && saved.sessions[key].txId == s.txId
             && saved.sessions == w.sessions[key := saved.sessions[key]]
             && saved == w.(sessions := saved.sessions, games := saved.games)
             && (forall t :: t != s.txId ==> (t in saved.games <==> t in w.games) && (t in w.games ==> saved.games[t] == w.games[t]))
    ensures Settled(w, SettleSession(saved, key, w.sessions[key].txId, amount, answer), key, amount, answer)
  {
    var tx, stored := w.sessions[key].txId, StoredWin(amount);
    var w' := SettleSession(saved, key, tx, amount, answer);
    SettleFailureLeavesJob(saved, tx, amount, stored, answer);
    assert HasActiveJob(w.jobs, tx, SettleJob(stored)) <==> HasActiveJob(w.jobs, tx, SettleJob(None));
    SettledBooks(w, tx, amount, answer);
    SettledRows(saved, key, tx, amount, answer);
    SettledSessions(w, saved, key, tx, amount, answer);
    assert w'.jobs == CallSettle(saved, tx, amount, stored, answer).jobs;
  }

  lemma SettledBooks(w: World, tx: TxId, amount: real, answer: Answer)
    requires tx !in w.wallet.credits
    ensures Apply(w.wallet.credits, map[tx := amount], AppliedTo(answer, {tx})) ==
            if tx in AppliedTo(answer, {tx}) then w.wallet.credits[tx := amount] else w.wallet.credits
  {}

  lemma SettledRows(w: World, key: string, tx: TxId, amount: real, answer: Answer)
    requires tx in w.bets && w.bets[tx].status.Placed?
    ensures SettleSession(w, key, tx, amount, answer).bets == w.bets[tx := RowSettled(w.bets[tx], amount, answer)]
  {
    if Failing(answer) {
      assert WithStatus(w.bets, {tx}, SettlementFailed) == w.bets[tx := w.bets[tx].(status := SettlementFailed)];
    }
  }

  lemma SettledSessions(w: World, saved: World, key: string, tx: TxId, amount: real, answer: Answer)
    requires key in saved.sessions && saved.sessions == w.sessions[key := saved.sessions[key]] && tx in saved.bets
    ensures var sessions := SettleSession(saved, key, tx, amount, answer).sessions;
            sessions - {key} == w.sessions - {key} && (if answer.Accepted? then key !in sessions else key in sessions && sessions[key] == saved.sessions[key])
  {
    assert saved.sessions - {key} == w.sessions - {key};
  }

  /** One request of a game in play: the session machine's answer, carried out on the whole state. */
  lemma OneRequest(w: World, key: string, e: Event)
    requires InGame(w, key) && (e.StepRequest? || e.CashOutRequest?) && e.key == key
    ensures var s, r := w.sessions[key], RequestOf(e);
            var (s', settlement) := Serve(s, r);
            if settlement.Some? then Settled(w, Next(w, e), key, settlement.value, e.answer)
            else s'.isActive && GoesOn(w, Next(w, e), key, s'.currentStep + 1) && InGame(Next(w, e), key) && Next(w, e).sessions[key] == s'
  {
    var s := w.sessions[key];
    ServeKeepsSessionValid(s, RequestOf(e));
    if e.CashOutRequest? {
      SettleSessionSettles(w, w.(sessions := w.sessions[key := CloseForCashOut(s)]), key, s.winAmount, e.answer);
    } else {
      match TakeStep(s, e.lineNumber, e.hazards)
      case Ended(s', amount) =>
        SettleSessionSettles(w, w.(sessions := w.sessions[key := s'], games := Recorded(w.games, s.txId, s')), key, amount, e.answer);
      case Advanced(s') => StepGoesOn(w, key, e);
      case InvalidStepSequence => assert w.sessions[key := s] == w.sessions;
      case NoActiveSession =>
    }
  }

  lemma StepGoesOn(w: World, key: string, e: Event)
    requires InGame(w, key) && e.StepRequest? && e.key == key && TakeStep(w.sessions[key], e.lineNumber, e.hazards).Advanced?
    ensures var s' := TakeStep(w.sessions[key], e.lineNumber, e.hazards).session;
            s'.isActive && GoesOn(w, Next(w, e), key, s'.currentStep + 1) && InGame(Next(w, e), key) && Next(w, e).sessions[key] == s'
  {
    ServeKeepsSessionValid(w.sessions[key], StepTo(e.lineNumber, e.hazards));
  }

  /** Without an active session under the key, steps and cash-outs change nothing at all. */
  lemma {:induction false} FinishedGameIgnoresRequests(w: World, key: string, es: seq<Event>)
    requires OnKey(es, key) && !IsActive(w.sessions, key)
    ensures Run(w, es) == w
    decreases |es|
  {
    if es != [] {
      assert es[0].key == key;
      FinishedGameIgnoresRequests(w, key, es[1..]);
    }
  }

  lemma GoesOnThenGoesOn(w: World, w1: World, w2: World, key: string, a: nat, b: nat)
    requires key in w.sessions && GoesOn(w, w1, key, a) && GoesOn(w1, w2, key, b)
    ensures GoesOn(w, w2, key, b)
  {}

  lemma GoesOnThenSettled(w: World, w1: World, w2: World, key: string, a: nat, amount: real, answer: Answer)
    requires key in w.sessions && GoesOn(w, w1, key, a) && Settled(w1, w2, key, amount, answer)
    ensures Settled(w, w2, key, amount, answer)
  {
    assert w1.sessions - {key} == w.sessions - {key};
  }

  /** The rules, one request further. */
  lemma RulesUnrolled(s: Session, rs: seq<Request>)
    requires SessionValid(s) && s.isActive && rs != []
    ensures var (s', settlement) := Serve(s, rs[0]);
            var paid := Payout(s.betAmount, s.coefficients, s.currentStep + 1, rs);
            if settlement.Some? then !s'.isActive && paid.Some? && paid.value == settlement.value
            else s'.isActive && s'.betAmount == s.betAmount && s'.coefficients == s.coefficients
                 && paid == Payout(s.betAmount, s.coefficients, s'.currentStep + 1, rs[1..])
                 && Position(s.currentStep + 1, rs) == Position(s'.currentStep + 1, rs[1..])
  {}

  /** Where a game stands: settled with the amount paid if there is one, else going on. */
  ghost predicate PlayedTo(w: World, w': World, key: string, paid: Option<real>, answer: Answer, cleared: nat)
    requires key in w.sessions
  {
    if paid.Some? then Settled(w, w', key, paid.value, answer) else GoesOn(w, w', key, cleared) && InGame(w', key)
  }

  lemma GoesOnThenPlayed(w: World, w1: World, w2: World, key: string, a: nat, paid: Option<real>, answer: Answer, cleared: nat)
    requires key in w.sessions && GoesOn(w, w1, key, a) && PlayedTo(w1, w2, key, paid, answer, cleared)
    ensures PlayedTo(w, w2, key, paid, answer, cleared)
  {
    if paid.Some? {
      GoesOnThenSettled(w, w1, w2, key, a, paid.value, answer);
    } else {
      GoesOnThenGoesOn(w, w1, w2, key, a, cleared);
    }
  }

  /**
   * A game played by the rules: as long as they do not pay, it goes on with the columns cleared by the accepted steps; with
   * the request that ends it, exactly the amount they pay is settled, with the answer to that request.
   */
  ghost predicate PlayedByTheRules(w: World, w': World, key: string, es: seq<Event>)
    requires key in w.sessions && OnKey(es, key)
  {
    var s, rs := w.sessions[key], Requests(es, key);
    && s.currentStep + 1 >= 0 && s.currentStep + 1 < |s.coefficients|
    && (var paid, at := Payout(s.betAmount, s.coefficients, s.currentStep + 1, rs), EndsAt(s.coefficients, s.currentStep + 1, rs);
        && (paid.Some? <==> at.Some?)
        && PlayedTo(w, w', key, paid, if at.Some? then es[at.value].answer else NotSent, Position(s.currentStep + 1, rs)))
  }

  lemma GameEndsNow(w: World, key: string, es: seq<Event>)
    requires InGame(w, key) && OnKey(es, key) && es != [] && Serve(w.sessions[key], RequestOf(es[0])).1.Some?
    ensures PlayedByTheRules(w, Run(w, es), key, es)
  {
    var s, rs := w.sessions[key], Requests(es, key);
    PaidAtTheEnd(s.betAmount, s.coefficients, s.currentStep + 1, rs);
    OneRequest(w, key, es[0]);
    RequestByTheRules(s, rs);
    RulesUnrolled(s, rs);
    FinishedGameIgnoresRequests(Next(w, es[0]), key, es[1..]);
  }

  /** A request that does not end the game leaves it to the rules for the requests that follow. */
  lemma RulesGoOn(s: Session, rs: seq<Request>, s': Session)
    requires SessionValid(s) && s.isActive && rs != [] && Serve(s, rs[0]) == (s', None) && SessionValid(s')
    ensures s'.isActive && s'.coefficients == s.coefficients && s'.betAmount == s.betAmount
    ensures s.currentStep + 1 < |s.coefficients| && s'.currentStep + 1 < |s.coefficients|
    ensures var paid, at := Payout(s.betAmount, s.coefficients, s.currentStep + 1, rs), EndsAt(s.coefficients, s.currentStep + 1, rs);
            && paid == Payout(s.betAmount, s.coefficients, s'.currentStep + 1, rs[1..])
            && (var later := EndsAt(s.coefficients, s'.currentStep + 1, rs[1..]);
                && (paid.Some? <==> later.Some?)
                && at == if later.Some? then Some(later.value + 1) else None)
            && Position(s.currentStep + 1, rs) == Position(s'.currentStep + 1, rs[1..])
  {
    PaidAtTheEnd(s.betAmount, s.coefficients, s'.currentStep + 1, rs[1..]);
    RequestByTheRules(s, rs);
    RulesUnrolled(s, rs);
    EndsLater(s.coefficients, s.currentStep + 1, rs, s'.currentStep + 1);
  }

  lemma GameGoesOn(w: World, w1: World, w': World, key: string, es: seq<Event>)
    requires InGame(w, key) && InGame(w1, key) && OnKey(es, key) && es != [] && OnKey(es[1..], key)
    requires Serve(w.sessions[key], RequestOf(es[0])) == (w1.sessions[key], None)
    requires GoesOn(w, w1, key, w1.sessions[key].currentStep + 1) && PlayedByTheRules(w1, w', key, es[1..])
    ensures PlayedByTheRules(w, w', key, es)
  {
    var s, s1, rs := w.sessions[key], w1.sessions[key], Requests(es, key);
    assert rs[1..] == Requests(es[1..], key);
    RulesGoOn(s, rs, s1);
    var at := EndsAt(s.coefficients, s1.currentStep + 1, rs[1..]);
    assert at.Some? ==> es[1..][at.value].answer == es[at.value + 1].answer;
    GoesOnThenPlayed(w, w1, w', key, s1.currentStep + 1, Payout(s.betAmount, s.coefficients, s1.currentStep + 1, rs[1..]),
                     if at.Some? then es[at.value + 1].answer else NotSent, Position(s1.currentStep + 1, rs[1..]));
  }

  /**
   * A game played in the whole system is played by the rules, from any state in which it is in play, whatever the hazards
   * and the answers, and whatever requests come after its end.
   */
  lemma {:induction false} GameIsPlayedByTheRules(w: World, key: string, es: seq<Event>)
    requires InGame(w, key) && OnKey(es, key)
    ensures PlayedByTheRules(w, Run(w, es), key, es)
    decreases |es|
  {
    if es == [] {
      assert w.sessions[key := w.sessions[key]] == w.sessions;
    } else if Serve(w.sessions[key], RequestOf(es[0])).1.Some? {
      GameEndsNow(w, key, es);
    } else {
      OneRequest(w, key, es[0]);
      GameIsPlayedByTheRules(Next(w, es[0]), key, es[1..]);
      GameGoesOn(w, Next(w, es[0]), Run(Next(w, es[0]), es[1..]), key, es);
    }
  }

  /** From the bet on: once the bet is taken, its stake plays by the rules and is paid by them. */
  lemma BetIsPlayedByTheRules(w: World, bet: Event, es: seq<Event>)
    requires MoneyInv(w) && bet.BetRequest? && Plausible(w, bet) && !IsActive(w.sessions, BetKey(bet)) && bet.amount > 0.0
    requires bet.answer.Accepted? && bet.gameActive && bet.coefficients != [] && OnKey(es, BetKey(bet))
    ensures var w1 := Next(w, bet);
            && BetKey(bet) in w1.sessions && FreshSession(w1.sessions[BetKey(bet)], bet)
            && PlayedByTheRules(w1, Run(w1, es), BetKey(bet), es)
  {
    BetIsTaken(w, bet);
    NextKeepsMoney(w, bet);
    ActiveIsInGame(Next(w, bet), BetKey(bet));
    GameIsPlayedByTheRules(Next(w, bet), BetKey(bet), es);
  }

  // ---------------------------------------------------------------- a refund and a retry

  /** The books after an action of some transactions: those applied are added, with amounts of the call, and nothing is altered. */
  ghost predicate BooksOf(before: map<TxId, real>, after: map<TxId, real>, applied: set<TxId>) {
    && after.Keys == before.Keys + applied
    && (forall t :: t in before ==> after[t] == before[t])
  }

  lemma {:induction false} AmountsAreListed(txns: seq<RefundTxn>)
    ensures forall t :: t in Amounts(txns) ==> RefundTxn(t, Amounts(txns)[t]) in txns
  {
    if txns != [] {
      AmountsAreListed(txns[..|txns| - 1]);
    }
  }

  /** A refund request: the agent books what it applies, each transaction with an amount listed for it; a failure marks all rows of the call. */
  lemma RefundIsBooked(w: World, txns: seq<RefundTxn>, answer: Answer)
    requires txns != []
    ensures var w' := CallRefund(w, txns, answer);
            && w'.sessions == w.sessions && w'.wallet.credits == w.wallet.credits && w'.wallet.debits == w.wallet.debits
            && w'.wallet.settleSent == w.wallet.settleSent
            && w'.wallet.cancelSent == (if answer.NotSent? then w.wallet.cancelSent else w.wallet.cancelSent + TxnIds(txns))
            && BooksOf(w.wallet.refunds, w'.wallet.refunds, AppliedTo(answer, TxnIds(txns)))
            && (forall t :: t in w'.wallet.refunds && t !in w.wallet.refunds ==> RefundTxn(t, w'.wallet.refunds[t]) in txns)
            && w'.bets == (if Failing(answer) then WithStatus(w.bets, TxnIds(txns), SettlementFailed) else w.bets)
  {
    AmountsKeys(txns);
    AmountsAreListed(txns);
  }

  /** A settle request of a job, in the same way. */
  lemma SettlementIsBooked(w: World, tx: TxId, winAmount: real, stored: Option<real>, answer: Answer)
    ensures var w' := CallSettle(w, tx, winAmount, stored, answer);
            && w'.sessions == w.sessions && w'.wallet.refunds == w.wallet.refunds && w'.wallet.debits == w.wallet.debits
            && w'.wallet.cancelSent == w.wallet.cancelSent
            && w'.wallet.settleSent == (if answer.NotSent? then w.wallet.settleSent else w.wallet.settleSent + {tx})
            && BooksOf(w.wallet.credits, w'.wallet.credits, AppliedTo(answer, {tx}))
            && (forall t :: t in w'.wallet.credits && t !in w.wallet.credits ==> w'.wallet.credits[t] == winAmount)
            && w'.bets == (if Failing(answer) then WithStatus(w.bets, {tx}, SettlementFailed) else w.bets)
  {}

  /** The agent books what it applies of the whole job, with the amounts the job keeps; no request is new. */
  ghost predicate JobBooked(before: Wallet, after: Wallet, job: Job, answer: Answer) {
    && after == before.(credits := after.credits, refunds := after.refunds)
    && BooksOf(before.credits, after.credits, if job.kind.SettleJob? then AppliedTo(answer, JobTxs(job)) else {})
    && BooksOf(before.refunds, after.refunds, if job.kind.SettleJob? then {} else AppliedTo(answer, JobTxs(job)))
    && (forall t :: t in after.credits && t !in before.credits ==> job.kind.SettleJob? && after.credits[t] == WinToSend(job.kind.winAmount))
    && (forall t :: t in after.refunds && t !in before.refunds ==> job.kind.RefundJob? && RefundTxn(t, after.refunds[t]) in job.kind.txns)
  }

  lemma CallAgainIsBooked(w: World, job: Job, answer: Answer)
    requires JobSent(w.wallet, job)
    ensures var w' := CallAgain(w, job, answer);
            && JobBooked(w.wallet, w'.wallet, job, answer)
            && w'.sessions == w.sessions && w'.pass == w.pass && w'.games == w.games
            && w'.bets == (if Failing(answer) then WithStatus(w.bets, JobTxs(job), SettlementFailed) else w.bets)
  {
    match job.kind
    case SettleJob(stored) =>
      SettlementIsBooked(w, job.tx, WinToSend(stored), StoredWin(WinToSend(stored)), answer);
      assert w.wallet.settleSent + {job.tx} == w.wallet.settleSent;
    case RefundJob(txns) =>
      RefundIsBooked(w, txns, answer);
      assert w.wallet.cancelSent + TxnIds(txns) == w.wallet.cancelSent;
  }

  /** A retry run that does not die before its call books its job; a failure marks every row of the job again, and no other. */
  lemma RunBooksItsJob(w: World, j: nat, answer: Answer, rowWritten: bool, end: RunEnd)
    requires Inv(w) && j < |w.jobs| && Active(w.jobs[j]) && !end.DiesBeforeCall?
    ensures var w', job := RetryRun(w, j, answer, rowWritten, end), w.jobs[j];
            && JobBooked(w.wallet, w'.wallet, job, answer)
            && w'.sessions == w.sessions && w'.pass == w.pass && w'.games == w.games
            && (!answer.Accepted? ==> w'.bets == if Failing(answer) then WithStatus(w.bets, JobTxs(job), SettlementFailed) else w.bets)
  {
    assert JobSent(w.wallet, w.jobs[j]);
    CallAgainIsBooked(w.(jobs := WithJobStatus(w.jobs, j, Processing)), w.jobs[j], answer);
  }

  /**
   * One refund batch that is not skipped: the request names exactly its bets; the agent books what it applies, each bet's
   * stored stake. With RowsAfterBatches and RefundFailureLeavesJob this is all that a batch does.
   */
  lemma BatchIsBooked(w: World, batch: seq<Bet>, answer: Answer)
    requires batch != []
    ensures var w' := RefundBatch(w, batch, answer);
            if BatchIsSkipped(w.sessions, batch) then w' == w
            else
              && w'.wallet == w.wallet.(cancelSent := w'.wallet.cancelSent, refunds := w'.wallet.refunds)
              && w'.sessions == w.sessions && w'.pass == w.pass && w'.games == w.games && w'.now == w.now
              && w'.wallet.cancelSent == (if answer.NotSent? then w.wallet.cancelSent else w.wallet.cancelSent + TxIds(batch))
              && BooksOf(w.wallet.refunds, w'.wallet.refunds, AppliedTo(answer, TxIds(batch)))
              && (forall t :: t in w'.wallet.refunds && t !in w.wallet.refunds ==>
                    exists b :: b in batch && b.txId == t && b.betAmount == w'.wallet.refunds[t])
  {
    RefundIsBooked(w, RefundTxns(batch), answer);
    RefundTxnIds(batch);
    var w' := RefundBatch(w, batch, answer);
    if !BatchIsSkipped(w.sessions, batch) {
      forall t | t in w'.wallet.refunds && t !in w.wallet.refunds
        ensures exists b :: b in batch && b.txId == t && b.betAmount == w'.wallet.refunds[t]
      {
        var i :| 0 <= i < |batch| && RefundTxns(batch)[i] == RefundTxn(t, w'.wallet.refunds[t]);
        assert batch[i] in batch;
      }
    }
  }
}
