/** How a refund pass groups the old bets and cuts them into batches (refund-scheduler.service.ts). */
module RefundBatches {
  import opened Common
  import opened Bets

  const BATCH_SIZE := 5

  // ---------------------------------------------------------------- group keys

  function GroupKey(bet: Bet): string {
    bet.userId + ":" + bet.operatorId
  }

  /** The text before the first separator. */
  function Before(sep: char, s: string): string {
    if s == "" || s[0] == sep then "" else [s[0]] + Before(sep, s[1..])
  }

  /** The text after the first separator, empty when there is none. */
  function After(sep: char, s: string): string {
    if s == "" then "" else if s[0] == sep then s[1..] else After(sep, s[1..])
  }

  /** The first two parts of `key.split(':')`. */
  function ParseKey(key: string): (string, string) {
    (Before(':', key), Before(':', After(':', key)))
  }

  lemma {:induction false} BeforeProperties(sep: char, s: string)
    ensures sep !in Before(sep, s)
    ensures Before(sep, s) == s <==> sep !in s
  {
    if s != "" && s[0] != sep {
      BeforeProperties(sep, s[1..]);
      assert s == [s[0]] + s[1..];
    }
  }

  lemma {:induction false} SplitAt(sep: char, u: string, o: string)
    ensures sep !in u ==> Before(sep, u + [sep] + o) == u && After(sep, u + [sep] + o) == o
  {
    if u != "" {
      SplitAt(sep, u[1..], o);
      assert (u + [sep] + o)[1..] == u[1..] + [sep] + o;
    } else {
      assert (u + [sep] + o)[1..] == o;
    }
  }

  /** A user and operator survive the trip through the group key exactly when neither contains a colon. */
  lemma GroupKeyRoundTrip(bet: Bet)
    ensures ParseKey(GroupKey(bet)) == (bet.userId, bet.operatorId) <==> ':' !in bet.userId && ':' !in bet.operatorId
  {
    SplitAt(':', bet.userId, bet.operatorId);
    BeforeProperties(':', bet.operatorId);
    BeforeProperties(':', GroupKey(bet));
  }

  // ---------------------------------------------------------------- grouping

  /** The bets of one group, in the order they were listed. */
  function InGroup(bets: seq<Bet>, key: string): seq<Bet> {
    if bets == [] then []
    else
      var last := bets[|bets| - 1];
      var front := InGroup(bets[..|bets| - 1], key);
      if GroupKey(last) == key then front + [last] else front
  }

  /** The group keys in the order of their first bets: the iteration order of the source's Map. */
  function FirstKeys(bets: seq<Bet>): seq<string> {
    if bets == [] then []
    else
      var keys := FirstKeys(bets[..|bets| - 1]);
      var key := GroupKey(bets[|bets| - 1]);
      if key in keys then keys else keys + [key]
  }

  function Chunks(bets: seq<Bet>): seq<seq<Bet>> {
    if |bets| <= BATCH_SIZE then (if bets == [] then [] else [bets])
    else [bets[..BATCH_SIZE]] + Chunks(bets[BATCH_SIZE..])
  }

  function BatchesOf(bets: seq<Bet>, keys: seq<string>): seq<seq<Bet>> {
    if keys == [] then []
    else BatchesOf(bets, keys[..|keys| - 1]) + Chunks(InGroup(bets, keys[|keys| - 1]))
  }

  /** The batches of a whole pass, in the order it processes them. */
  function Batches(bets: seq<Bet>): seq<seq<Bet>> {
    BatchesOf(bets, FirstKeys(bets))
  }

  function Flatten(batches: seq<seq<Bet>>): seq<Bet> {
    if batches == [] then [] else batches[0] + Flatten(batches[1..])
  }

  // ---------------------------------------------------------------- the partition theorem

  lemma {:induction false} FlattenAppend(a: seq<seq<Bet>>, b: seq<seq<Bet>>)
    ensures Flatten(a + b) == Flatten(a) + Flatten(b)
  {
    if a == [] {
      assert a + b == b;
    } else {
      FlattenAppend(a[1..], b);
      assert (a + b)[1..] == a[1..] + b;
    }
  }

  lemma {:induction false} InGroupAppend(a: seq<Bet>, b: seq<Bet>, key: string)
    ensures InGroup(a + b, key) == InGroup(a, key) + InGroup(b, key)
  {
    if b == [] {
      assert a + b == a;
    } else {
      InGroupAppend(a, b[..|b| - 1], key);
      assert (a + b)[..|a + b| - 1] == a + b[..|b| - 1];
    }
  }

  lemma InGroupOne(bet: Bet, key: string)
    ensures InGroup([bet], key) == if GroupKey(bet) == key then [bet] else []
  {
    assert [bet][..0] == [];
  }

  lemma {:induction false} InGroupOfGroup(bets: seq<Bet>, key: string, other: string)
    ensures InGroup(InGroup(bets, key), other) == if key == other then InGroup(bets, key) else []
  {
    if bets != [] {
      var last := bets[|bets| - 1];
      InGroupOfGroup(bets[..|bets| - 1], key, other);
      InGroupAppend(InGroup(bets[..|bets| - 1], key), [last], other);
      InGroupOne(last, other);
    }
  }

  lemma {:induction false} InGroupHasKey(bets: seq<Bet>, key: string)
    ensures forall b :: b in InGroup(bets, key) ==> GroupKey(b) == key && b in bets
  {
    if bets != [] {
      InGroupHasKey(bets[..|bets| - 1], key);
    }
  }

  lemma {:induction false} FirstKeysComplete(bets: seq<Bet>, key: string)
    ensures key !in FirstKeys(bets) ==> InGroup(bets, key) == []
    ensures forall i, j :: 0 <= i < j < |FirstKeys(bets)| ==> FirstKeys(bets)[i] != FirstKeys(bets)[j]
  {
    if bets != [] {
      FirstKeysComplete(bets[..|bets| - 1], key);
    }
  }

  /** The keys are those of the listed bets, in the order of their first bets: bets listed later only add keys behind. */
  lemma {:induction false} FirstKeysInOrder(bets: seq<Bet>, n: nat)
    requires n <= |bets|
    ensures FirstKeys(bets[..n]) <= FirstKeys(bets)
    ensures forall key :: key in FirstKeys(bets) <==> exists b :: b in bets && GroupKey(b) == key
    decreases |bets|
  {
    if bets != [] {
      var front, last := bets[..|bets| - 1], bets[|bets| - 1];
      assert forall b :: b in bets <==> b in front || b == last;
      FirstKeysInOrder(front, if n < |bets| then n else n - 1);
      if n < |bets| {
        assert front[..n] == bets[..n];
      } else {
        assert bets[..n] == bets;
      }
    } else {
      assert bets[..n] == bets;
    }
  }

  /** A group is cut in its order into batches of five, the last one taking what is left. */
  lemma {:induction false} ChunksPartition(bets: seq<Bet>)
    ensures Flatten(Chunks(bets)) == bets
    ensures forall i :: 0 <= i < |Chunks(bets)| ==> 1 <= |Chunks(bets)[i]| <= BATCH_SIZE
    ensures forall i :: 0 <= i < |Chunks(bets)| - 1 ==> |Chunks(bets)[i]| == BATCH_SIZE
    ensures forall i, b :: 0 <= i < |Chunks(bets)| && b in Chunks(bets)[i] ==> b in bets
    decreases |bets|
  {
    if |bets| > BATCH_SIZE {
      ChunksPartition(bets[BATCH_SIZE..]);
      assert Chunks(bets)[1..] == Chunks(bets[BATCH_SIZE..]);
    } else if bets != [] {
      assert Flatten([bets]) == bets + Flatten([]);
    }
  }

  ghost predicate WellFormedBatch(batch: seq<Bet>) {
    && 1 <= |batch| <= BATCH_SIZE
    && (forall i :: 0 <= i < |batch| ==> GroupKey(batch[i]) == GroupKey(batch[0]))
  }

  lemma ChunksWellFormed(bets: seq<Bet>, key: string)
    ensures forall batch :: batch in Chunks(InGroup(bets, key)) ==> WellFormedBatch(batch)
  {
    var chunks := Chunks(InGroup(bets, key));
    ChunksPartition(InGroup(bets, key));
    InGroupHasKey(bets, key);
    forall i | 0 <= i < |chunks| ensures WellFormedBatch(chunks[i]) {
      forall j | 0 <= j < |chunks[i]| ensures GroupKey(chunks[i][j]) == key {
        assert chunks[i][j] in InGroup(bets, key);
      }
    }
  }

  lemma {:induction false} BatchesWellFormed(bets: seq<Bet>, keys: seq<string>)
    ensures forall batch :: batch in BatchesOf(bets, keys) ==> WellFormedBatch(batch)
    decreases |keys|
  {
    if keys != [] {
      BatchesWellFormed(bets, keys[..|keys| - 1]);
      ChunksWellFormed(bets, keys[|keys| - 1]);
    }
  }

  lemma {:induction false} BatchesOfGroups(bets: seq<Bet>, keys: seq<string>, key: string)
    requires forall i, j :: 0 <= i < j < |keys| ==> keys[i] != keys[j]
    ensures InGroup(Flatten(BatchesOf(bets, keys)), key) == if key in keys then InGroup(bets, key) else []
    decreases |keys|
  {
    if keys != [] {
      var front, last := keys[..|keys| - 1], keys[|keys| - 1];
      BatchesOfGroups(bets, front, key);
      InGroupOfGroup(bets, last, key);
      ChunksPartition(InGroup(bets, last));
      FlattenAppend(BatchesOf(bets, front), Chunks(InGroup(bets, last)));
      InGroupAppend(Flatten(BatchesOf(bets, front)), InGroup(bets, last), key);
    }
  }

  lemma {:induction false} CountInGroup(bets: seq<Bet>, bet: Bet)
    ensures multiset(bets)[bet] == multiset(InGroup(bets, GroupKey(bet)))[bet]
  {
    if bets != [] {
      CountInGroup(bets[..|bets| - 1], bet);
      assert bets == bets[..|bets| - 1] + [bets[|bets| - 1]];
    }
  }

  /** The batches hold exactly the listed bets, each group in its listed order, 1 to 5 of one group at a time. */
  lemma BatchesPartition(bets: seq<Bet>)
    ensures multiset(Flatten(Batches(bets))) == multiset(bets)
    ensures forall key :: InGroup(Flatten(Batches(bets)), key) == InGroup(bets, key)
    ensures forall batch :: batch in Batches(bets) ==> WellFormedBatch(batch)
  {
    var flat := Flatten(Batches(bets));
    forall key ensures InGroup(flat, key) == InGroup(bets, key) {
      FirstKeysComplete(bets, key);
      BatchesOfGroups(bets, FirstKeys(bets), key);
    }
    BatchesWellFormed(bets, FirstKeys(bets));
    forall bet: Bet ensures multiset(flat)[bet] == multiset(bets)[bet] {
      CountInGroup(flat, bet);
      CountInGroup(bets, bet);
    }
  }

  /** With colon-free ids, all bets of a batch belong to the one user and operator its key names. */
  lemma BatchHasOneOwner(batch: seq<Bet>)
    requires WellFormedBatch(batch)
    requires forall b :: b in batch ==> ':' !in b.userId && ':' !in b.operatorId
    ensures forall b :: b in batch ==> (b.userId, b.operatorId) == ParseKey(GroupKey(batch[0]))
  {
    forall b | b in batch ensures (b.userId, b.operatorId) == ParseKey(GroupKey(batch[0])) {
      GroupKeyRoundTrip(b);
    }
  }

  // ---------------------------------------------------------------- the counters

  datatype BatchOutcome = BatchDone | BatchFailed | Skipped

  /** How many bets fall to batches with the given outcome. */
  function Tally(batches: seq<seq<Bet>>, outcomes: seq<BatchOutcome>, wanted: BatchOutcome): nat
    requires |outcomes| == |batches|
  {
    if batches == [] then 0
    else
      var n := |batches| - 1;
      Tally(batches[..n], outcomes[..n], wanted) + if outcomes[n] == wanted then |batches[n]| else 0
  }

  lemma {:induction false} TallySplit(batches: seq<seq<Bet>>, outcomes: seq<BatchOutcome>)
    requires |outcomes| == |batches|
    ensures Tally(batches, outcomes, BatchDone) + Tally(batches, outcomes, BatchFailed) + Tally(batches, outcomes, Skipped)
            == |Flatten(batches)|
  {
    if batches != [] {
      var n := |batches| - 1;
      TallySplit(batches[..n], outcomes[..n]);
      FlattenAppend(batches[..n], [batches[n]]);
      assert batches == batches[..n] + [batches[n]];
      assert Flatten([batches[n]]) == batches[n];
    }
  }

  /** Whatever each batch comes to, the three counters of a pass add up to the number of old bets. */
  lemma CountersAddUp(bets: seq<Bet>, outcomes: seq<BatchOutcome>)
    requires |outcomes| == |Batches(bets)|
    ensures var handled := Batches(bets);
            Tally(handled, outcomes, BatchDone) + Tally(handled, outcomes, BatchFailed) + Tally(handled, outcomes, Skipped) == |bets|
  {
    BatchesPartition(bets);
    TallySplit(Batches(bets), outcomes);
    assert |multiset(Flatten(Batches(bets)))| == |multiset(bets)|;
  }

  lemma TallyStep(batches: seq<seq<Bet>>, outcomes: seq<BatchOutcome>, batch: seq<Bet>, outcome: BatchOutcome, wanted: BatchOutcome)
    requires |outcomes| == |batches|
    ensures Tally(batches + [batch], outcomes + [outcome], wanted) ==
            Tally(batches, outcomes, wanted) + (if outcome == wanted then |batch| else 0)
  {
    assert (batches + [batch])[..|batches|] == batches;
    assert (outcomes + [outcome])[..|batches|] == outcomes;
  }

  // ---------------------------------------------------------------- the loops

  /** The grouping loop: a Map from group key to bets, with its insertion order. */
  method GroupBets(bets: seq<Bet>) returns (keys: seq<string>, groups: map<string, seq<Bet>>)
    ensures keys == FirstKeys(bets)
    ensures forall key :: key in groups <==> key in keys
    ensures forall key :: key in groups ==> groups[key] == InGroup(bets, key)
  {
    keys, groups := [], map[];
    var n := 0;
    while n < |bets|
      invariant 0 <= n <= |bets|
      invariant keys == FirstKeys(bets[..n])
      invariant forall key :: key in groups <==> key in keys
      invariant forall key :: key in groups ==> groups[key] == InGroup(bets[..n], key)
    {
      var key := GroupKey(bets[n]);
      assert bets[..n + 1][..n] == bets[..n];
      if key !in groups {
        FirstKeysComplete(bets[..n], key);
        keys, groups := keys + [key], groups[key := []];
      }
      groups := groups[key := groups[key] + [bets[n]]];
      n := n + 1;
    }
    assert bets[..n] == bets;
  }

  lemma BatchesOfOneMore(bets: seq<Bet>, keys: seq<string>, k: nat)
    requires k < |keys|
    ensures BatchesOf(bets, keys[..k + 1]) == BatchesOf(bets, keys[..k]) + Chunks(InGroup(bets, keys[k]))
  {
    assert keys[..k + 1][..k] == keys[..k];
  }

  /** What is left of a group when the inner loop stands at i. */
  function Rest(group: seq<Bet>, i: nat): seq<Bet> {
    if i < |group| then group[i..] else []
  }

  /** The slice the inner loop takes at i. */
  function Slice(group: seq<Bet>, i: nat): seq<Bet>
    requires i < |group|
  {
    group[i..if i + BATCH_SIZE <= |group| then i + BATCH_SIZE else |group|]
  }

  lemma ChunksStep(group: seq<Bet>, i: nat)
    requires i < |group|
    ensures Chunks(Rest(group, i)) == [Slice(group, i)] + Chunks(Rest(group, i + BATCH_SIZE))
  {
    var rest := Rest(group, i);
    if |rest| > BATCH_SIZE {
      assert rest[..BATCH_SIZE] == Slice(group, i);
      assert rest[BATCH_SIZE..] == Rest(group, i + BATCH_SIZE);
    } else {
      assert rest == Slice(group, i);
    }
  }

  /** The inner loop at i: the batches handled so far and those still to come make up those of the whole group. */
  ghost predicate LoopAt(before: seq<seq<Bet>>, handled: seq<seq<Bet>>, group: seq<Bet>, i: nat) {
    handled + Chunks(Rest(group, i)) == before + Chunks(group)
  }

  lemma LoopStarts(before: seq<seq<Bet>>, group: seq<Bet>)
    ensures LoopAt(before, before, group, 0)
  {
    assert Rest(group, 0) == group;
  }

  lemma LoopSteps(before: seq<seq<Bet>>, handled: seq<seq<Bet>>, group: seq<Bet>, i: nat)
    requires i < |group| && LoopAt(before, handled, group, i)
    ensures LoopAt(before, handled + [Slice(group, i)], group, i + BATCH_SIZE)
  {
    ChunksStep(group, i);
    var rest := Chunks(Rest(group, i + BATCH_SIZE));
    assert handled + [Slice(group, i)] + rest == handled + ([Slice(group, i)] + rest);
  }

  lemma LoopEnds(before: seq<seq<Bet>>, handled: seq<seq<Bet>>, group: seq<Bet>, i: nat)
    requires i >= |group| && LoopAt(before, handled, group, i)
    ensures handled == before + Chunks(group)
  {}
}
