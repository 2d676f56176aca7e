/** Bet rows and the bet service (bet.service.ts). */
module Bets {
  import opened Common

  datatype BetStatus = Placed | PendingSettlement | Won | Lost | Cancelled | Refunded | SettlementFailed

  datatype Bet = Bet(
    txId: TxId,
    userId: string,
    operatorId: string,
    gameCode: string,
    betAmount: real,
    placedAt: int,
    status: BetStatus,
    winAmount: Option<real>)

  type BetTable = map<TxId, Bet>

  /** WON, LOST and REFUNDED: the outcomes that must never change again. */
  predicate Final(status: BetStatus) {
    status.Won? || status.Lost? || status.Refunded?
  }

  /** The rows after every bet in `txs` has been given `status`; unknown ids are ignored. */
  function WithStatus(rows: BetTable, txs: set<TxId>, status: BetStatus): BetTable {
    map t | t in rows :: if t in txs then rows[t].(status := status) else rows[t]
  }

  /** What the amount column, with its three decimals, keeps. */
  function Column(amount: Option<real>): Option<real> {
    if amount.Some? then Some(Fixed3(amount.value)) else None
  }

  /** The rows after a settlement; the status follows the amount as given. An absent amount is the text of a null column. */
  function WithSettlement(rows: BetTable, tx: TxId, winAmount: Option<real>): BetTable {
    if tx !in rows || rows[tx].status.Won? || rows[tx].status.Lost? then rows
    else
      rows[tx := rows[tx].(winAmount := Column(winAmount),
                           status := if winAmount.Some? && winAmount.value > 0.0 then Won else Lost)]
  }

  function SettleAll(rows: BetTable, tx: TxId, wins: seq<Option<real>>): BetTable
    decreases |wins|
  {
    if wins == [] then rows else SettleAll(WithSettlement(rows, tx, wins[0]), tx, wins[1..])
  }

  /** Once a bet is settled, no list of further settlements changes any row of that bet. */
  lemma {:induction false} SettlementIsIdempotent(rows: BetTable, tx: TxId, first: Option<real>, later: seq<Option<real>>)
    requires tx in rows
    ensures var settled := WithSettlement(rows, tx, first);
            SettleAll(settled, tx, later) == settled && (settled[tx].status.Won? || settled[tx].status.Lost?)
    decreases |later|
  {
    if later != [] {
      SettlementIsIdempotent(rows, tx, first, later[1..]);
      assert WithSettlement(WithSettlement(rows, tx, first), tx, later[0]) == WithSettlement(rows, tx, first);
    }
  }

  /** The open bets placed before the cut-off. */
  function OldPlaced(rows: BetTable, threshold: int): set<TxId> {
    set t | t in rows && rows[t].status.Placed? && rows[t].placedAt < threshold
  }

  /** `listed` holds exactly the open bets placed before the cut-off, each once, as they stand in the table. */
  ghost predicate ListsOldPlaced(listed: seq<Bet>, rows: BetTable, threshold: int) {
    && (forall i :: 0 <= i < |listed| ==> listed[i].txId in OldPlaced(rows, threshold) && rows[listed[i].txId] == listed[i])
    && (forall i, j :: 0 <= i < j < |listed| ==> listed[i].txId != listed[j].txId)
    && (forall t :: t in OldPlaced(rows, threshold) ==> rows[t] in listed)
  }

  /** Every row is stored under its own transaction id. */
  ghost predicate Keyed(rows: BetTable) {
    forall t :: t in rows ==> rows[t].txId == t
  }

  class BetService {
    var rows: BetTable

    constructor ()
      ensures rows == map[]
    {
      rows := map[];
    }

    /** Refuses a duplicate id and an unknown or inactive game, as the source's exceptions do. */
    method CreatePlacement(bet: Bet, gameActive: bool) returns (created: bool)
      modifies this
      ensures created == (gameActive && bet.txId !in old(rows))
      ensures rows == if created then old(rows)[bet.txId := bet] else old(rows)
    {
      if !gameActive {
        return false;
      }
      if bet.txId in rows {
        return false;
      }
      rows := rows[bet.txId := bet];
      return true;
    }

    method RecordSettlement(tx: TxId, winAmount: Option<real>) returns (found: bool)
      modifies this
      ensures found == (tx in old(rows))
      ensures rows == WithSettlement(old(rows), tx, winAmount)
    {
      if tx !in rows {
        return false;
      }
      var bet := rows[tx];
      if bet.status == Won || bet.status == Lost {
        return true;
      }
      bet := bet.(winAmount := winAmount);
      if bet.winAmount.Some? && bet.winAmount.value > 0.0 {
        bet := bet.(status := Won);
      } else {
        bet := bet.(status := Lost);
      }
      rows := rows[tx := bet.(winAmount := Column(bet.winAmount))];
      return true;
    }

    /** Assigns the status without looking at the old one. */
    method UpdateStatus(tx: TxId, status: BetStatus) returns (found: bool)
      modifies this
      ensures found == (tx in old(rows))
      ensures rows == WithStatus(old(rows), {tx}, status)
    {
      if tx !in rows {
        return false;
      }
      rows := rows[tx := rows[tx].(status := status)];
      return true;
    }

    method MarkSettlementFailed(tx: TxId) returns (found: bool)
      modifies this
      ensures found == (tx in old(rows))
      ensures rows == WithStatus(old(rows), {tx}, SettlementFailed)
    {
      found := UpdateStatus(tx, SettlementFailed);
    }

    /** The query for open bets older than the cut-off; the database chooses the order. */
    method FindOldPlacedBets(threshold: int) returns (listed: seq<Bet>)
      requires Keyed(rows)
      ensures ListsOldPlaced(listed, rows, threshold)
    {
      listed := [];
      var rest := rows.Keys;
      while rest != {}
        invariant rest <= rows.Keys
        invariant forall i :: 0 <= i < |listed| ==> listed[i].txId in OldPlaced(rows, threshold) - rest && rows[listed[i].txId] == listed[i]
        invariant forall i, j :: 0 <= i < j < |listed| ==> listed[i].txId != listed[j].txId
        invariant forall t :: t in OldPlaced(rows, threshold) && t !in rest ==> rows[t] in listed
      {
        var t :| t in rest;
        rest := rest - {t};
        if rows[t].status == Placed && rows[t].placedAt < threshold {
          listed := listed + [rows[t]];
        }
      }
    }
  }
}
