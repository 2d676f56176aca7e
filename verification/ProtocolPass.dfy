/** What a refund pass does to the bets it lists: which are refunded, and that its counter tells how many. */
module ProtocolPass {
  import opened Common
  import opened GameSession
  import opened Bets
  import opened RefundBatches
  import opened Protocol
  import opened ProtocolLimits
  import opened ProtocolSafety

  /** A batch is skipped exactly when some active session, under whatever key, belongs to one of its bets. */
  lemma BatchIsSkippedIff(w: World, batch: seq<Bet>)
    requires Inv(w) && BatchKnown(w.bets, batch)
    ensures BatchIsSkipped(w.sessions, batch) <==>
            exists k :: k in w.sessions && w.sessions[k].isActive && w.sessions[k].txId in TxIds(batch)
  {
    if BatchIsSkipped(w.sessions, batch) {
      var b :| b in batch && SessionExistsForBet(w.sessions, b);
      assert LookupKey(b) in w.sessions && b.txId in TxIds(batch);
    } else {
      UnskippedHasNoSession(w, batch);
    }
  }

  /** The bets of the batches that a pass refunds. */
  function RefundedBy(w: World, batches: seq<seq<Bet>>, answers: seq<Answer>): set<TxId> {
    if batches == [] then {}
    else
      var n := |batches| - 1;
      RefundedBy(w, batches[..n], answers) + if OutcomesOf(w, batches, answers)[n].BatchDone? then TxIds(batches[n]) else {}
  }

  ghost predicate Apart(batches: seq<seq<Bet>>) {
    && (forall i, j :: 0 <= i < j < |batches| ==> TxIds(batches[i]) !! TxIds(batches[j]))
    && (forall i :: 0 <= i < |batches| ==> DistinctTx(batches[i]))
  }

  lemma {:induction false} CountTxIds(batch: seq<Bet>)
    requires DistinctTx(batch)
    ensures |TxIds(batch)| == |batch|
  {
    if batch != [] {
      var n := |batch| - 1;
      CountTxIds(batch[..n]);
      assert batch == batch[..n] + [batch[n]];
      assert TxIds(batch) == TxIds(batch[..n]) + {batch[n].txId};
    }
  }

  lemma {:induction false} RefundedAreInBatches(w: World, batches: seq<seq<Bet>>, answers: seq<Answer>)
    ensures forall t :: t in RefundedBy(w, batches, answers) ==> exists i :: 0 <= i < |batches| && t in TxIds(batches[i])
  {
    if batches != [] {
      var n := |batches| - 1;
      RefundedAreInBatches(w, batches[..n], answers);
      forall t | t in RefundedBy(w, batches, answers) ensures exists i :: 0 <= i < |batches| && t in TxIds(batches[i]) {
        if t in RefundedBy(w, batches[..n], answers) {
          var i :| 0 <= i < n && t in TxIds(batches[..n][i]);
          assert t in TxIds(batches[i]);
        }
      }
    }
  }

  lemma LastBatchIsNew(w: World, batches: seq<seq<Bet>>, answers: seq<Answer>)
    requires Apart(batches) && batches != []
    ensures RefundedBy(w, batches[..|batches| - 1], answers) !! TxIds(batches[|batches| - 1])
  {
    var n := |batches| - 1;
    var front := batches[..n];
    RefundedAreInBatches(w, front, answers);
    forall t | t in RefundedBy(w, front, answers) ensures t !in TxIds(batches[n]) {
      var i :| 0 <= i < n && t in TxIds(front[i]);
      assert front[i] == batches[i];
    }
  }

  /** The success counter of a pass is the number of bets it refunds. */
  lemma {:induction false} TallyCountsRefunded(w: World, batches: seq<seq<Bet>>, answers: seq<Answer>)
    requires Apart(batches)
    ensures |RefundedBy(w, batches, answers)| == Tally(batches, OutcomesOf(w, batches, answers), BatchDone)
  {
    if batches != [] {
      var n := |batches| - 1;
      assert OutcomesOf(w, batches, answers)[..n] == OutcomesOf(w, batches[..n], answers);
      assert Apart(batches[..n]);
      TallyCountsRefunded(w, batches[..n], answers);
      LastBatchIsNew(w, batches, answers);
      CountTxIds(batches[n]);
    }
  }

  /** The rows after one batch: those of its bets become refunded, failed or stay, by its outcome; no other row changes. */
  lemma BatchRows(w: World, batch: seq<Bet>, answer: Answer)
    requires batch != []
    ensures RefundBatch(w, batch, answer).sessions == w.sessions
    ensures RefundBatch(w, batch, answer).bets ==
            match OutcomeOf(w, batch, answer)
            case BatchDone => WithStatus(w.bets, TxIds(batch), Refunded)
            case Skipped => w.bets
            case BatchFailed => if answer.NotSent? then w.bets else WithStatus(w.bets, TxIds(batch), SettlementFailed)
  {
    RefundTxnIds(batch);
  }

  /** After a pass over open bets, a row is refunded exactly when the pass refunded it, and no other bet's row has changed. */
  lemma {:induction false} RowsAfterBatches(w: World, batches: seq<seq<Bet>>, answers: seq<Answer>, t: TxId)
    requires Apart(batches) && forall batch :: batch in batches ==> batch != []
    requires t in w.bets && w.bets[t].status.Placed?
    ensures var w' := AfterBatches(w, batches, answers);
            && w'.sessions == w.sessions && w'.bets.Keys == w.bets.Keys
            && (w'.bets[t].status.Refunded? <==> t in RefundedBy(w, batches, answers))
            && ((forall i :: 0 <= i < |batches| ==> t !in TxIds(batches[i])) ==> w'.bets[t] == w.bets[t])
  {
    if batches != [] {
      var n := |batches| - 1;
      var front, before := batches[..n], AfterBatches(w, batches[..n], answers);
      assert forall i :: 0 <= i < n ==> front[i] == batches[i];
      assert batches[n] in batches && forall batch :: batch in front ==> batch in batches;
      RowsAfterBatches(w, front, answers, t);
      RefundedAreInBatches(w, front, answers);
      BatchRows(before, batches[n], AnswerAt(answers, n));
      assert OutcomesOf(w, batches, answers)[n] == OutcomeOf(before, batches[n], AnswerAt(answers, n));
      if t in TxIds(batches[n]) {
        assert forall i :: 0 <= i < n ==> t !in TxIds(front[i]);
      }
    }
  }

  lemma ListingIsApart(listed: seq<Bet>)
    requires DistinctTx(listed)
    ensures Apart(Batches(listed)) && forall batch :: batch in Batches(listed) ==> batch != []
  {
    BatchesPartition(listed);
    ListingSeparates(listed);
    PermutationStaysDistinct(listed, Flatten(Batches(listed)));
    forall i | 0 <= i < |Batches(listed)| ensures DistinctTx(Batches(listed)[i]) {
      DistinctFlatHasDistinctParts(Batches(listed), i);
    }
  }

  lemma {:induction false} DistinctFlatHasDistinctParts(batches: seq<seq<Bet>>, i: nat)
    requires DistinctTx(Flatten(batches)) && i < |batches|
    ensures DistinctTx(batches[i])
    decreases |batches|
  {
    var rest := Flatten(batches[1..]);
    assert Flatten(batches) == batches[0] + rest;
    if i == 0 {
      forall a, b | 0 <= a < b < |batches[0]| ensures batches[0][a].txId != batches[0][b].txId {
        assert Flatten(batches)[a] == batches[0][a] && Flatten(batches)[b] == batches[0][b];
      }
    } else {
      forall a, b | 0 <= a < b < |rest| ensures rest[a].txId != rest[b].txId {
        assert rest[a] == Flatten(batches)[|batches[0]| + a] && rest[b] == Flatten(batches)[|batches[0]| + b];
      }
      DistinctFlatHasDistinctParts(batches[1..], i - 1);
    }
  }

  /** The rows a pass has turned from open to refunded. */
  ghost function TurnedRefunded(before: BetTable, after: BetTable): set<TxId> {
    set t | t in before && before[t].status.Placed? && t in after && after[t].status.Refunded?
  }

  /** The success counter of a pass over a listing is the number of rows it has turned from open to refunded. */
  lemma SuccessCountsRefundedRows(w: World, listed: seq<Bet>, threshold: int, answers: seq<Answer>)
    requires ListsOldPlaced(listed, w.bets, threshold)
    ensures Tally(Batches(listed), OutcomesOf(w, Batches(listed), answers), BatchDone) ==
            |TurnedRefunded(w.bets, AfterBatches(w, Batches(listed), answers).bets)|
  {
    var batches := Batches(listed);
    var turned := TurnedRefunded(w.bets, AfterBatches(w, batches, answers).bets);
    ListingIsApart(listed);
    BatchesHoldListed(listed);
    TallyCountsRefunded(w, batches, answers);
    RefundedAreInBatches(w, batches, answers);
    forall t | t in RefundedBy(w, batches, answers) ensures t in w.bets && w.bets[t].status.Placed? {
      var i :| 0 <= i < |batches| && t in TxIds(batches[i]);
      assert batches[i] in batches;
    }
    forall t ensures t in turned <==> t in RefundedBy(w, batches, answers) {
      if t in w.bets && w.bets[t].status.Placed? {
        RowsAfterBatches(w, batches, answers, t);
      }
    }
    assert turned == RefundedBy(w, batches, answers);
  }

  lemma {:induction false} RefundedByIff(w: World, batches: seq<seq<Bet>>, answers: seq<Answer>, i: nat, t: TxId)
    requires Apart(batches) && i < |batches| && t in TxIds(batches[i])
    ensures t in RefundedBy(w, batches, answers) <==> OutcomesOf(w, batches, answers)[i].BatchDone?
    decreases |batches|
  {
    var n := |batches| - 1;
    LastBatchIsNew(w, batches, answers);
    if i < n {
      assert Apart(batches[..n]) && batches[..n][i] == batches[i];
      RefundedByIff(w, batches[..n], answers, i, t);
      assert OutcomesOf(w, batches, answers)[i] == OutcomesOf(w, batches[..n], answers)[i];
    }
  }

  lemma {:induction false} OutcomeIs(w: World, batches: seq<seq<Bet>>, answers: seq<Answer>, i: nat)
    requires i < |batches| && forall batch :: batch in batches ==> batch != []
    ensures AfterBatches(w, batches[..i], answers).sessions == w.sessions
    ensures OutcomesOf(w, batches, answers)[i] == OutcomeOf(AfterBatches(w, batches[..i], answers), batches[i], AnswerAt(answers, i))
    decreases |batches|
  {
    var n := |batches| - 1;
    assert forall batch :: batch in batches[..i] ==> batch in batches;
    assert forall batch :: batch in batches[..n] ==> batch in batches;
    SessionsSurvivePass(w, batches[..i], answers);
    if i < n {
      assert batches[..n][..i] == batches[..i];
      OutcomeIs(w, batches[..n], answers, i);
      assert OutcomesOf(w, batches, answers)[i] == OutcomesOf(w, batches[..n], answers)[i];
    }
  }

  lemma {:induction false} SessionsSurvivePass(w: World, batches: seq<seq<Bet>>, answers: seq<Answer>)
    requires forall batch :: batch in batches ==> batch != []
    ensures AfterBatches(w, batches, answers).sessions == w.sessions
  {
    if batches != [] {
      var n := |batches| - 1;
      assert batches[n] in batches && forall batch :: batch in batches[..n] ==> batch in batches;
      SessionsSurvivePass(w, batches[..n], answers);
      BatchRows(AfterBatches(w, batches[..n], answers), batches[n], AnswerAt(answers, n));
    }
  }

  /**
   * Which bets a pass refunds: a listed bet is refunded exactly when the agent accepts its batch and no active session,
   * under whatever key, belongs to a bet of that batch.
   */
  lemma PassRefundsIff(w: World, listed: seq<Bet>, threshold: int, answers: seq<Answer>, i: nat, bet: Bet)
    requires Inv(w) && ListsOldPlaced(listed, w.bets, threshold)
    requires i < |Batches(listed)| && bet in Batches(listed)[i]
    ensures var w', batch := AfterBatches(w, Batches(listed), answers), Batches(listed)[i];
            && bet.txId in w'.bets
            && (w'.bets[bet.txId].status.Refunded? <==>
                AnswerAt(answers, i).Accepted? && !exists k :: k in w.sessions && w.sessions[k].isActive && w.sessions[k].txId in TxIds(batch))
  {
    var batches := Batches(listed);
    var batch := batches[i];
    ListingIsApart(listed);
    BatchesHoldListed(listed);
    assert batch in batches && bet.txId in TxIds(batch) && bet in listed;
    RowsAfterBatches(w, batches, answers, bet.txId);
    RefundedByIff(w, batches, answers, i, bet.txId);
    OutcomeIs(w, batches, answers, i);
    assert BatchKnown(w.bets, batch) by {
      forall b | b in batch ensures b.txId in w.bets && SameBet(b, w.bets[b.txId]) {
        assert b in listed;
      }
    }
    BatchIsSkippedIff(w, batch);
  }
}
