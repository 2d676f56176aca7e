/** One refund pass at a time: when its batches are fresh, and that the ids registration admits do not defeat its guard. */
module ProtocolLimits {
  import opened Common
  import opened GameSession
  import opened Bets
  import opened RefundBatches
  import opened Protocol
  import opened ProtocolRows
  import opened ProtocolSafety

  // ---------------------------------------------------------------- one pass at a time

  /** The batches still to come share no bet, and none of their bets has been cancelled. */
  ghost predicate PassAhead(w: World) {
    && (forall batch, b :: batch in w.pass && b in batch ==> b.txId !in w.wallet.cancelSent)
    && (forall i, j :: 0 <= i < j < |w.pass| ==> TxIds(w.pass[i]) !! TxIds(w.pass[j]))
  }

  ghost predicate PassInv(w: World) {
    Inv(w) && RowsBacked(w) && PassAhead(w)
  }

  /** The lock of the refund scheduler, while Redis keeps it: bets are listed only when no pass is under way. */
  predicate OnePass(w: World, e: Event) {
    e.ReadOldBets? ==> w.pass == []
  }

  ghost predicate OnePassRun(w: World, es: seq<Event>)
    decreases |es|
  {
    es == [] || (OnePass(w, es[0]) && OnePassRun(Next(w, es[0]), es[1..]))
  }

  ghost predicate DistinctTx(bets: seq<Bet>) {
    forall i, j :: 0 <= i < j < |bets| ==> bets[i].txId != bets[j].txId
  }

  /** Reordering keeps transaction ids distinct. */
  lemma PermutationStaysDistinct(bets: seq<Bet>, other: seq<Bet>)
    requires DistinctTx(bets) && multiset(bets) == multiset(other)
    ensures DistinctTx(other)
  {
    PermutationHasNoRepeats(bets, other);
    forall i, j | 0 <= i < j < |other| ensures other[i].txId != other[j].txId {
      assert other[i] in multiset(bets) && other[j] in multiset(bets);
    }
  }

  lemma {:induction false} DistinctFlatSeparates(batches: seq<seq<Bet>>)
    requires DistinctTx(Flatten(batches))
    ensures forall i, j :: 0 <= i < j < |batches| ==> TxIds(batches[i]) !! TxIds(batches[j])
    decreases |batches|
  {
    if batches != [] {
      var rest := Flatten(batches[1..]);
      assert Flatten(batches) == batches[0] + rest;
      assert DistinctTx(rest) by {
        forall i, j | 0 <= i < j < |rest| ensures rest[i].txId != rest[j].txId {
          assert rest[i] == Flatten(batches)[|batches[0]| + i] && rest[j] == Flatten(batches)[|batches[0]| + j];
        }
      }
      DistinctFlatSeparates(batches[1..]);
      forall j | 1 <= j < |batches| ensures TxIds(batches[0]) !! TxIds(batches[j]) {
        forall a, b | a in batches[0] && b in batches[j] ensures a.txId != b.txId {
          assert batches[j] == batches[1..][j - 1];
          FlattenMembers(batches[1..], batches[j], b);
          var i :| 0 <= i < |batches[0]| && batches[0][i] == a;
          var k :| 0 <= k < |rest| && rest[k] == b;
          assert Flatten(batches)[i] == a && Flatten(batches)[|batches[0]| + k] == b;
        }
      }
    }
  }

  /** A fresh listing yields batches that share no bet. */
  lemma ListingSeparates(listed: seq<Bet>)
    requires DistinctTx(listed)
    ensures forall i, j :: 0 <= i < j < |Batches(listed)| ==> TxIds(Batches(listed)[i]) !! TxIds(Batches(listed)[j])
  {
    BatchesPartition(listed);
    PermutationStaysDistinct(listed, Flatten(Batches(listed)));
    DistinctFlatSeparates(Batches(listed));
  }

  lemma InitSatisfiesPassInv()
    ensures PassInv(Init()) && Exclusive(Init())
  {}

  lemma ReadKeepsPass(w: World, listed: seq<Bet>)
    requires PassInv(w) && w.pass == [] && Plausible(w, ReadOldBets(listed))
    ensures PassAhead(Next(w, ReadOldBets(listed)))
  {
    BatchesHoldListed(listed);
    ListingSeparates(listed);
    assert Next(w, ReadOldBets(listed)).pass == Batches(listed);
  }

  /** Taking a batch from the pass and cancelling its bets touches no batch still to come. */
  lemma NextBatchKeepsPass(w: World, e: Event)
    requires PassInv(w) && e.NextBatch? && w.pass != []
    ensures PassAhead(Next(w, e))
  {
    var w' := Next(w, e);
    BatchSends(w, e);
    forall batch, b | batch in w'.pass && b in batch ensures b.txId !in w'.wallet.cancelSent {
      var i :| 0 <= i < |w'.pass| && w'.pass[i] == batch;
      assert w.pass[i + 1] == batch && b.txId in TxIds(batch);
    }
  }

  lemma NextKeepsPassInv(w: World, e: Event)
    requires PassInv(w) && Plausible(w, e) && OnePass(w, e)
    ensures PassInv(Next(w, e))
  {
    NextKeepsInv(w, e);
    NextKeepsBacked(w, e);
    match e
    case BetRequest(_, _, _, _, _, _) => PlaceBetOnlyAdds(w, e);
    case StepRequest(_, _, _, _) => SettlePathsSendOpen(w, e);
    case CashOutRequest(_, _) => SettlePathsSendOpen(w, e);
    case ReadOldBets(listed) => ReadKeepsPass(w, listed);
    case NextBatch(answer) => if w.pass != [] { NextBatchKeepsPass(w, e); }
    case DropBatch =>
    case Retry(j, answer, rowWritten, end) => RetrySendsNothingNew(w, j, answer, rowWritten, end);
    case Expire(_) =>
    case Flush =>
    case Tick(_) =>
  }

  // ---------------------------------------------------------------- the refund pass works from a list read once

  /** With one pass at a time, a batch holds no settled bet exactly when all its rows are still open, which the code does not check again. */
  lemma FreshIffUnsettled(w: World, e: Event)
    requires PassInv(w) && SendsBatch(w, e)
    ensures BatchIsFresh(w) <==> !RefundsSettled(w, e)
  {
    var batch := w.pass[0];
    assert batch in w.pass && BatchKnown(w.bets, batch);
    forall b | b in batch ensures w.bets[b.txId].status.Placed? <==> b.txId !in w.wallet.settleSent {
      assert RowBacked(w.wallet, w.bets[b.txId].status, b.txId);
    }
  }

  lemma RefundBatchSafeIffFresh(w: World, answer: Answer)
    requires PassInv(w) && Exclusive(w) && SendsBatch(w, NextBatch(answer))
    ensures Exclusive(Next(w, NextBatch(answer))) <==> BatchIsFresh(w)
  {
    FreshIffUnsettled(w, NextBatch(answer));
    StepIsSafeIff(w, NextBatch(answer));
  }

  lemma {:induction false} UnsettledRunIsFresh(w: World, es: seq<Event>)
    requires PassInv(w) && PlausibleRun(w, es) && OnePassRun(w, es)
    ensures NeverRefundsSettled(w, es) <==> SendsOnlyFresh(w, es)
    decreases |es|
  {
    if es != [] {
      if SendsBatch(w, es[0]) {
        FreshIffUnsettled(w, es[0]);
      }
      NextKeepsPassInv(w, es[0]);
      UnsettledRunIsFresh(Next(w, es[0]), es[1..]);
    }
  }

  /** In every run with one pass at a time, no transaction is both settled and cancelled exactly when each batch sent finds its bets open. */
  lemma RunIsSafeIffBatchesFresh(w: World, es: seq<Event>)
    requires PassInv(w) && Exclusive(w) && PlausibleRun(w, es) && OnePassRun(w, es)
    ensures Exclusive(Run(w, es)) <==> SendsOnlyFresh(w, es)
  {
    RunIsSafeIff(w, es);
    UnsettledRunIsFresh(w, es);
  }

  // ---------------------------------------------------------------- an uninterrupted pass is always fresh

  ghost predicate AllOpen(w: World, batches: seq<seq<Bet>>) {
    forall batch, b :: batch in batches && b in batch ==> b.txId in w.bets && w.bets[b.txId].status.Placed?
  }

  /** When nothing runs between the batches of a pass, every batch finds its bets open. */
  lemma {:induction false} UninterruptedBatchesFresh(w: World, answers: seq<Answer>)
    requires AllOpen(w, w.pass)
    requires forall i, j :: 0 <= i < j < |w.pass| ==> TxIds(w.pass[i]) !! TxIds(w.pass[j])
    ensures var es := seq(|answers|, i requires 0 <= i < |answers| => NextBatch(answers[i]));
            PlausibleRun(w, es) && SendsOnlyFresh(w, es)
    decreases |answers|
  {
    var es := seq(|answers|, i requires 0 <= i < |answers| => NextBatch(answers[i]));
    if answers != [] {
      var w' := Next(w, es[0]);
      if w.pass != [] {
        RefundTxnIds(w.pass[0]);
        assert BatchIsFresh(w) by { assert w.pass[0] in w.pass; }
        forall batch, b | batch in w'.pass && b in batch ensures b.txId in w'.bets && w'.bets[b.txId].status.Placed? {
          var i :| 0 <= i < |w'.pass| && w'.pass[i] == batch;
          assert w'.pass == w.pass[1..] && w.pass[i + 1] == batch;
          assert b.txId in TxIds(batch) && b.txId !in TxIds(w.pass[0]);
        }
      }
      UninterruptedBatchesFresh(w', answers[1..]);
      assert es[1..] == seq(|answers[1..]|, i requires 0 <= i < |answers[1..]| => NextBatch(answers[1..][i]));
    }
  }

  /** The same from the query on: a pass that is one step of the system needs no assumption on its batches. */
  lemma UninterruptedPassIsFresh(w: World, listed: seq<Bet>, threshold: int, answers: seq<Answer>)
    requires w.pass == [] && ListsOldPlaced(listed, w.bets, threshold)
    ensures var es := [ReadOldBets(listed)] + seq(|answers|, i requires 0 <= i < |answers| => NextBatch(answers[i]));
            PlausibleRun(w, es) && SendsOnlyFresh(w, es)
  {
    var batches := seq(|answers|, i requires 0 <= i < |answers| => NextBatch(answers[i]));
    var es := [ReadOldBets(listed)] + batches;
    var w' := Next(w, ReadOldBets(listed));
    assert w'.pass == Batches(listed);
    BatchesHoldListed(listed);
    ListingSeparates(listed);
    UninterruptedBatchesFresh(w', answers);
    assert es[1..] == batches;
  }

  /** The requests of a pass over the given listing. */
  function PassEvents(listed: seq<Bet>, answers: seq<Answer>): seq<Event> {
    [ReadOldBets(listed)] + BatchEvents(|Batches(listed)|, answers)
  }

  function BatchEvents(n: nat, answers: seq<Answer>): seq<Event> {
    seq(n, i requires 0 <= i < n => NextBatch(AnswerAt(answers, i)))
  }

  /** A batch is refunded the same way whatever batches are still to come. */
  lemma BatchIgnoresPass(w: World, batch: seq<Bet>, answer: Answer, pass: seq<seq<Bet>>)
    ensures RefundBatch(w.(pass := pass), batch, answer) == RefundBatch(w, batch, answer).(pass := pass)
  {}

  lemma NextBatchOf(w: World, batches: seq<seq<Bet>>, n: nat, answer: Answer)
    requires n < |batches|
    ensures Next(w.(pass := batches[n..]), NextBatch(answer)) == RefundBatch(w, batches[n], answer).(pass := batches[n + 1..])
  {
    assert batches[n..][0] == batches[n] && batches[n..][1..] == batches[n + 1..];
    BatchIgnoresPass(w, batches[n], answer, batches[n + 1..]);
  }

  lemma AfterOneMore(w: World, batches: seq<seq<Bet>>, answers: seq<Answer>, n: nat)
    requires n < |batches|
    ensures AfterBatches(w, batches[..n + 1], answers) == RefundBatch(AfterBatches(w, batches[..n], answers), batches[n], AnswerAt(answers, n))
  {
    assert batches[..n + 1][..n] == batches[..n];
  }

  lemma {:induction false} PassPrefixIsRun(w: World, batches: seq<seq<Bet>>, answers: seq<Answer>, n: nat)
    requires n <= |batches|
    ensures Run(w.(pass := batches), BatchEvents(n, answers)) == AfterBatches(w, batches[..n], answers).(pass := batches[n..])
  {
    if n > 0 {
      PassPrefixIsRun(w, batches, answers, n - 1);
      PassPrefixStep(w, batches, answers, n - 1);
    } else {
      assert batches[..0] == [] && batches[0..] == batches;
    }
  }

  lemma PassPrefixStep(w: World, batches: seq<seq<Bet>>, answers: seq<Answer>, n: nat)
    requires n < |batches|
    requires Run(w.(pass := batches), BatchEvents(n, answers)) == AfterBatches(w, batches[..n], answers).(pass := batches[n..])
    ensures Run(w.(pass := batches), BatchEvents(n + 1, answers)) == AfterBatches(w, batches[..n + 1], answers).(pass := batches[n + 1..])
  {
    var answer := AnswerAt(answers, n);
    assert BatchEvents(n + 1, answers) == BatchEvents(n, answers) + [NextBatch(answer)];
    RunOfSnoc(w.(pass := batches), BatchEvents(n, answers), NextBatch(answer));
    NextBatchOf(AfterBatches(w, batches[..n], answers), batches, n, answer);
    AfterOneMore(w, batches, answers, n);
  }

  /** A pass run in one go is the run of its events, which needs no assumption and keeps every promise. */
  lemma PassIsFreshRun(w: World, listed: seq<Bet>, threshold: int, answers: seq<Answer>)
    requires w.pass == [] && ListsOldPlaced(listed, w.bets, threshold)
    ensures PlausibleRun(w, PassEvents(listed, answers)) && SendsOnlyFresh(w, PassEvents(listed, answers))
    ensures Run(w, PassEvents(listed, answers)) == AfterBatches(w, Batches(listed), answers).(pass := [])
  {
    var n := |Batches(listed)|;
    var padded := seq(n, i requires 0 <= i < n => AnswerAt(answers, i));
    UninterruptedPassIsFresh(w, listed, threshold, padded);
    assert BatchEvents(n, answers) == seq(|padded|, i requires 0 <= i < |padded| => NextBatch(padded[i]));
    PassPrefixIsRun(w, Batches(listed), answers, n);
    assert Batches(listed)[..n] == Batches(listed) && Batches(listed)[n..] == [];
    RunOfCons(w, ReadOldBets(listed), BatchEvents(n, answers));
    assert Next(w, ReadOldBets(listed)) == w.(pass := Batches(listed));
  }

  // ---------------------------------------------------------------- registered ids

  /** `/^[a-z0-9]+$/`, which the registration of a user demands. */
  predicate RegisteredUser(userId: string) {
    userId != "" && forall c :: c in userId ==> 'a' <= c <= 'z' || '0' <= c <= '9'
  }

  /** `/^[a-zA-Z0-9]+$/`, which the creation of an agent demands. */
  predicate RegisteredAgent(agentId: string) {
    agentId != "" && forall c :: c in agentId ==> 'a' <= c <= 'z' || 'A' <= c <= 'Z' || '0' <= c <= '9'
  }

  /** Registered ids defeat neither the refund guard nor the session keys: no two players share a session. */
  lemma RegisteredIdsAreSafe(a: Bet, b: Bet)
    requires RegisteredUser(a.userId) && RegisteredAgent(a.operatorId)
    requires RegisteredUser(b.userId) && RegisteredAgent(b.operatorId)
    ensures PlainIds(a) && PlainIds(b)
    ensures HomeKey(a) == HomeKey(b) <==> (a.userId, a.operatorId, a.gameCode) == (b.userId, b.operatorId, b.gameCode)
  {
    if HomeKey(a) == HomeKey(b) {
      KeyParts(a.userId, a.operatorId, a.gameCode);
      KeyParts(b.userId, b.operatorId, b.gameCode);
    }
  }

  /** The three parts can be read back from a session key. */
  lemma KeyParts(userId: string, agentId: string, gameCode: string)
    requires '-' !in userId && '-' !in agentId
    ensures |SessionKey(userId, agentId, gameCode)| >= 12
    ensures var rest := SessionKey(userId, agentId, gameCode)[12..];
            Before('-', rest) == userId && Before('-', After('-', rest)) == agentId && After('-', After('-', rest)) == gameCode
  {
    var tail := agentId + "-" + gameCode;
    assert SessionKey(userId, agentId, gameCode) == "gameSession:" + (userId + "-" + tail);
    assert SessionKey(userId, agentId, gameCode)[12..] == userId + "-" + tail;
    SplitAt('-', userId, tail);
    SplitAt('-', agentId, gameCode);
  }
}
