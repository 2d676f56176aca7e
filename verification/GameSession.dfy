/** The game session of game-play.service.ts: what a step and a cash-out do to it, and what they settle. */
module GameSession {
  import opened Common

  const INITIAL_STEP := -1

  datatype Session = Session(
    agentId: string,
    txId: TxId,
    betAmount: real,
    coefficients: seq<real>,
    currentStep: int,
    winAmount: real,
    isActive: bool,
    isWin: bool,
    collisionColumns: Option<seq<int>>)

  /** The session a bet flow stores. */
  function NewSession(agentId: string, txId: TxId, betAmount: real, coefficients: seq<real>): Session {
    Session(agentId, txId, betAmount, coefficients, INITIAL_STEP, betAmount, true, false, None)
  }

  datatype StepResult =
    | NoActiveSession
    | InvalidStepSequence
    | Advanced(session: Session)
    | Ended(session: Session, settlement: real)

  /** One step request against the stored session, with the hazard columns the scheduler reports. */
  function TakeStep(s: Session, lineNumber: int, hazards: seq<int>): StepResult {
    if !s.isActive || s.coefficients == [] || s.currentStep < INITIAL_STEP then
      NoActiveSession
    else if lineNumber != s.currentStep + 1 then
      InvalidStepSequence
    else if lineNumber == |s.coefficients| - 1 then
      var win := s.betAmount * s.coefficients[lineNumber];
      Ended(s.(currentStep := lineNumber, winAmount := win, isActive := false, isWin := true), win)
    else if lineNumber in hazards then
      Ended(s.(currentStep := lineNumber, winAmount := 0.0, isActive := false, isWin := false,
               collisionColumns := Some(hazards)), 0.0)
    else if lineNumber < |s.coefficients| then
      Advanced(s.(currentStep := lineNumber, winAmount := s.betAmount * s.coefficients[lineNumber]))
    else
      NoActiveSession // beyond the last column; no reachable session gets here (SessionValid)
  }

  /** A cash-out request: the session is closed as a win and its current win amount is settled. */
  function CloseForCashOut(s: Session): Session {
    s.(isActive := false, isWin := true)
  }

  // ---------------------------------------------------------------- the session invariant

  /** The multiplier earned when `cleared` columns have been passed. */
  function Multiplier(coefficients: seq<real>, cleared: nat): real
    requires cleared <= |coefficients|
  {
    if cleared == 0 then 1.0 else coefficients[cleared - 1]
  }

  /**
   * While active and after a win or a cash-out, the win amount is the stake times what the cleared columns earn; after a
   * loss it is nothing, and the collision columns are there.
   */
  ghost predicate SessionValid(s: Session) {
    && |s.coefficients| >= 1
    && INITIAL_STEP <= s.currentStep < |s.coefficients|
    && (s.isActive ==>
          && s.currentStep <= |s.coefficients| - 2
          && s.winAmount == s.betAmount * Multiplier(s.coefficients, s.currentStep + 1)
          && !s.isWin
          && s.collisionColumns.None?)
    && (!s.isActive && s.isWin ==> s.winAmount == s.betAmount * Multiplier(s.coefficients, s.currentStep + 1))
    && (!s.isActive && !s.isWin ==> s.collisionColumns.Some? && s.winAmount == 0.0)
  }

  datatype EndReason = Running | Win | Hazard | CashedOut

  /** The end reason performGetSessionFlow reports for a stored session. */
  function ReportedEnd(s: Session): EndReason {
    if s.isActive then Running
    else if s.isWin then Win
    else if s.collisionColumns.Some? then Hazard
    else CashedOut
  }

  // ---------------------------------------------------------------- the machine and its reference

  datatype Request = StepTo(lineNumber: int, hazards: seq<int>) | CashOut

  /** One request: the stored session afterwards, and the settlement it triggers, if any. */
  function Serve(s: Session, r: Request): (Session, Option<real>) {
    match r
    case StepTo(lineNumber, hazards) => (
      match TakeStep(s, lineNumber, hazards)
      case Advanced(s') => (s', None)
      case Ended(s', amount) => (s', Some(amount))
      case _ => (s, None)
    )
    case CashOut =>
      if s.isActive then (CloseForCashOut(s), Some(s.winAmount)) else (s, None)
  }

  /** The session left by a list of requests. */
  function ServeAll(s: Session, rs: seq<Request>): Session
    decreases |rs|
  {
    if rs == [] then s else ServeAll(Serve(s, rs[0]).0, rs[1..])
  }

  /** The settlements a list of requests triggers, in order. */
  function Settlements(s: Session, rs: seq<Request>): seq<real>
    decreases |rs|
  {
    if rs == [] then []
    else
      var (s', settled) := Serve(s, rs[0]);
      (if settled.Some? then [settled.value] else []) + Settlements(s', rs[1..])
  }

  /** The rules of the game, with no session: what a player who has cleared `cleared` columns is paid, once. */
  function Payout(stake: real, coefficients: seq<real>, cleared: nat, rs: seq<Request>): Option<real>
    requires cleared < |coefficients|
    decreases |rs|
  {
    if rs == [] then None
    else
      match rs[0]
      case CashOut => Some(stake * Multiplier(coefficients, cleared))
      case StepTo(lineNumber, hazards) =>
        if lineNumber != cleared then Payout(stake, coefficients, cleared, rs[1..])
        else if cleared == |coefficients| - 1 then Some(stake * coefficients[cleared])
        else if lineNumber in hazards then Some(0.0)
        else Payout(stake, coefficients, cleared + 1, rs[1..])
  }

  /** The request with which the game ends by the rules. */
  function EndsAt(coefficients: seq<real>, cleared: nat, rs: seq<Request>): (at: Option<nat>)
    requires cleared < |coefficients|
    ensures at.Some? ==> at.value < |rs|
    decreases |rs|
  {
    if rs == [] then None
    else if rs[0].CashOut? || (rs[0].lineNumber == cleared && (cleared == |coefficients| - 1 || cleared in rs[0].hazards)) then Some(0)
    else
      var later := EndsAt(coefficients, if rs[0].lineNumber == cleared then cleared + 1 else cleared, rs[1..]);
      if later.Some? then Some(later.value + 1) else None
  }

  /** How many columns are behind the player after requests that do not end the game: each counts that is next in line. */
  function Position(cleared: nat, rs: seq<Request>): nat
    decreases |rs|
  {
    if rs == [] then cleared
    else Position(if rs[0].StepTo? && rs[0].lineNumber == cleared then cleared + 1 else cleared, rs[1..])
  }

  /** The hazards of the column the player runs into, if the game ends that way. */
  function HitBy(coefficients: seq<real>, cleared: nat, rs: seq<Request>): Option<seq<int>>
    requires cleared < |coefficients|
  {
    var at := EndsAt(coefficients, cleared, rs);
    if at.Some? && rs[at.value].StepTo? && rs[at.value].lineNumber < |coefficients| - 1 then Some(rs[at.value].hazards) else None
  }

  /** How many step requests the session accepts. */
  function AcceptedSteps(s: Session, rs: seq<Request>): nat
    decreases |rs|
  {
    if rs == [] then 0
    else
      (if rs[0].StepTo? && (var r := TakeStep(s, rs[0].lineNumber, rs[0].hazards); r.Advanced? || r.Ended?) then 1 else 0)
      + AcceptedSteps(Serve(s, rs[0]).0, rs[1..])
  }

  lemma ServeKeepsSessionValid(s: Session, r: Request)
    requires SessionValid(s)
    ensures SessionValid(Serve(s, r).0)
    ensures Serve(s, r).1.Some? ==> s.isActive && !Serve(s, r).0.isActive
    ensures !s.isActive ==> Serve(s, r) == (s, None)
  {
    if r.StepTo? && s.isActive && r.lineNumber == s.currentStep + 1 {
      assert Multiplier(s.coefficients, r.lineNumber + 1) == s.coefficients[r.lineNumber];
    }
  }

  /** Every session reached from a fresh one is valid, so its reported end is never a cash-out. */
  lemma {:induction false} ReachableSessionValid(s: Session, rs: seq<Request>)
    requires SessionValid(s)
    ensures SessionValid(ServeAll(s, rs))
    ensures ReportedEnd(ServeAll(s, rs)) != CashedOut
    decreases |rs|
  {
    if rs != [] {
      ServeKeepsSessionValid(s, rs[0]);
      ReachableSessionValid(Serve(s, rs[0]).0, rs[1..]);
    }
  }

  lemma {:induction false} FinishedSessionIgnoresRequests(s: Session, rs: seq<Request>)
    requires !s.isActive
    ensures Settlements(s, rs) == [] && ServeAll(s, rs) == s && AcceptedSteps(s, rs) == 0
    decreases |rs|
  {
    if rs != [] {
      FinishedSessionIgnoresRequests(s, rs[1..]);
    }
  }

  /** The session machine pays exactly what the rules pay, and asks for at most one settlement. */
  lemma {:induction false} SessionRefinesRules(s: Session, rs: seq<Request>)
    requires SessionValid(s) && s.isActive
    ensures Settlements(s, rs) ==
            match Payout(s.betAmount, s.coefficients, s.currentStep + 1, rs)
            case None => []
            case Some(amount) => [amount]
    decreases |rs|
  {
    if rs != [] {
      var (s', settled) := Serve(s, rs[0]);
      ServeKeepsSessionValid(s, rs[0]);
      if s'.isActive {
        SessionRefinesRules(s', rs[1..]);
      } else {
        FinishedSessionIgnoresRequests(s', rs[1..]);
        assert Settlements(s, rs) == [settled.value];
        var paid := Payout(s.betAmount, s.coefficients, s.currentStep + 1, rs);
        assert paid.Some? && paid.value == settled.value;
      }
    }
  }

  /** The rules pay with the request that ends the game, and only then. */
  lemma {:induction false} PaidAtTheEnd(stake: real, coefficients: seq<real>, cleared: nat, rs: seq<Request>)
    requires cleared < |coefficients|
    ensures Payout(stake, coefficients, cleared, rs).Some? <==> EndsAt(coefficients, cleared, rs).Some?
    ensures EndsAt(coefficients, cleared, rs).None? ==> cleared <= Position(cleared, rs) < |coefficients|
    decreases |rs|
  {
    if rs != [] && !rs[0].CashOut? {
      if rs[0].lineNumber != cleared {
        PaidAtTheEnd(stake, coefficients, cleared, rs[1..]);
      } else if cleared < |coefficients| - 1 {
        PaidAtTheEnd(stake, coefficients, cleared + 1, rs[1..]);
      }
    }
  }

  /** A request that does not end the game by the rules only moves the player on. */
  lemma EndsLater(coefficients: seq<real>, cleared: nat, rs: seq<Request>, next: nat)
    requires cleared < |coefficients| && rs != [] && rs[0].StepTo?
    requires next == (if rs[0].lineNumber == cleared then cleared + 1 else cleared) && next < |coefficients|
    requires rs[0].lineNumber == cleared ==> cleared !in rs[0].hazards
    ensures var later := EndsAt(coefficients, next, rs[1..]);
            EndsAt(coefficients, cleared, rs) == if later.Some? then Some(later.value + 1) else None
    ensures HitBy(coefficients, cleared, rs) == HitBy(coefficients, next, rs[1..])
  {}

  /** One request of an active session against the rules. */
  lemma RequestByTheRules(s: Session, rs: seq<Request>)
    requires SessionValid(s) && s.isActive && rs != []
    ensures var s', cleared := Serve(s, rs[0]).0, s.currentStep + 1;
            if s'.isActive
            then
              && rs[0].StepTo? && s'.coefficients == s.coefficients && s'.collisionColumns.None?
              && s'.currentStep + 1 == (if rs[0].lineNumber == cleared then cleared + 1 else cleared)
              && (rs[0].lineNumber == cleared ==> cleared !in rs[0].hazards)
            else EndsAt(s.coefficients, cleared, rs) == Some(0) && s'.collisionColumns == HitBy(s.coefficients, cleared, rs)
  {}

  /**
   * What a player is told about the game at any time is true: running exactly until the rules pay, then a hazard exactly if
   * a column was hit, with the hazards of that very step, and a win otherwise. While it runs, the stored step is the last
   * one accepted.
   */
  lemma {:induction false} ReportedEndIsTrue(s: Session, rs: seq<Request>)
    requires SessionValid(s) && s.isActive
    ensures var end, paid, hit := ServeAll(s, rs), Payout(s.betAmount, s.coefficients, s.currentStep + 1, rs), HitBy(s.coefficients, s.currentStep + 1, rs);
            && ReportedEnd(end) == (if paid.None? then Running else if hit.Some? then Hazard else Win)
            && end.collisionColumns == hit
            && (paid.None? ==> end.currentStep + 1 == Position(s.currentStep + 1, rs))
    decreases |rs|
  {
    if rs != [] {
      var s' := Serve(s, rs[0]).0;
      ServeKeepsSessionValid(s, rs[0]);
      RequestByTheRules(s, rs);
      if s'.isActive {
        EndsLater(s.coefficients, s.currentStep + 1, rs, s'.currentStep + 1);
        ReportedEndIsTrue(s', rs[1..]);
      } else {
        FinishedSessionIgnoresRequests(s', rs[1..]);
      }
    }
  }

  /** Each accepted step uses up one column, so a session accepts at most as many steps as columns remain. */
  lemma {:induction false} AcceptedStepsBounded(s: Session, rs: seq<Request>)
    requires SessionValid(s) && s.isActive
    ensures AcceptedSteps(s, rs) <= |s.coefficients| - 1 - s.currentStep
    decreases |rs|
  {
    if rs != [] {
      var s' := Serve(s, rs[0]).0;
      ServeKeepsSessionValid(s, rs[0]);
      if s'.isActive {
        AcceptedStepsBounded(s', rs[1..]);
      } else {
        FinishedSessionIgnoresRequests(s', rs[1..]);
      }
    }
  }

  /** The step requests from column `cleared` to the last one, each with the hazards reported for it. */
  function StepsToTheEnd(cleared: nat, hazards: seq<seq<int>>): seq<Request>
    requires cleared <= |hazards|
    decreases |hazards| - cleared
  {
    if cleared == |hazards| then [] else [StepTo(cleared, hazards[cleared])] + StepsToTheEnd(cleared + 1, hazards)
  }

  /** The hazards reported for the last column do not matter: clearing all the others and stepping on wins in full. */
  lemma {:induction false} LastColumnIsSafe(stake: real, coefficients: seq<real>, cleared: nat, hazards: seq<seq<int>>)
    requires cleared < |coefficients| == |hazards|
    requires forall i :: cleared <= i < |coefficients| - 1 ==> i !in hazards[i]
    ensures var paid := Payout(stake, coefficients, cleared, StepsToTheEnd(cleared, hazards));
            paid.Some? && paid.value == stake * coefficients[|coefficients| - 1]
    decreases |coefficients| - cleared
  {
    var rs := StepsToTheEnd(cleared, hazards);
    assert rs[0] == StepTo(cleared, hazards[cleared]) && rs[1..] == StepsToTheEnd(cleared + 1, hazards);
    if cleared < |coefficients| - 1 {
      LastColumnIsSafe(stake, coefficients, cleared + 1, hazards);
    }
  }
}
