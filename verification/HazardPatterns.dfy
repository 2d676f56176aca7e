/** Hazard patterns: how they are drawn, which one is active, and when two are equal (hazard-generator.service.ts). */
module HazardPatterns {
  import opened Common

  datatype HazardState = HazardState(current: seq<int>, next: seq<int>, changeAt: int, hazardCount: int)

  function Min(a: int, b: int): int {
    if a <= b then a else b
  }

  ghost predicate StrictlyIncreasing(s: seq<int>) {
    forall i, j :: 0 <= i < j < |s| ==> s[i] < s[j]
  }

  /** Strictly increasing columns of the road, as many as asked for and possible. */
  ghost predicate ValidPattern(pattern: seq<int>, hazardCount: int, totalColumns: int) {
    && StrictlyIncreasing(pattern)
    && (forall c :: c in pattern ==> 0 <= c < totalColumns)
    && |pattern| == if Min(hazardCount, totalColumns) < 0 then 0 else Min(hazardCount, totalColumns)
  }

  // ---------------------------------------------------------------- sorting

  function Insert(x: int, s: seq<int>): seq<int> {
    if s == [] then [x]
    else if x <= s[0] then [x] + s
    else [s[0]] + Insert(x, s[1..])
  }

  /** `sort((a, b) => a - b)`. */
  function Sort(s: seq<int>): seq<int> {
    if s == [] then [] else Insert(s[0], Sort(s[1..]))
  }

  ghost predicate Sorted(s: seq<int>) {
    forall i, j :: 0 <= i < j < |s| ==> s[i] <= s[j]
  }

  lemma PrependSorted(x: int, s: seq<int>)
    requires Sorted(s) && forall i :: 0 <= i < |s| ==> x <= s[i]
    ensures Sorted([x] + s)
  {}

  lemma {:induction false} InsertPermutes(x: int, s: seq<int>)
    ensures multiset(Insert(x, s)) == multiset(s) + multiset{x}
  {
    if s != [] && x > s[0] {
      InsertPermutes(x, s[1..]);
      assert s == [s[0]] + s[1..];
    }
  }

  lemma {:induction false} InsertSorted(x: int, s: seq<int>)
    requires Sorted(s)
    ensures Sorted(Insert(x, s))
  {
    if s != [] && x > s[0] {
      var rest := Insert(x, s[1..]);
      InsertSorted(x, s[1..]);
      InsertPermutes(x, s[1..]);
      forall i | 0 <= i < |rest| ensures s[0] <= rest[i] {
        assert rest[i] in multiset(rest);
        if rest[i] != x {
          assert rest[i] in s[1..];
        }
      }
      PrependSorted(s[0], rest);
    } else if s != [] {
      PrependSorted(x, s);
    }
  }

  lemma {:induction false} SortSorted(s: seq<int>)
    ensures Sorted(Sort(s)) && multiset(Sort(s)) == multiset(s)
  {
    if s != [] {
      SortSorted(s[1..]);
      InsertSorted(s[0], Sort(s[1..]));
      InsertPermutes(s[0], Sort(s[1..]));
      assert s == [s[0]] + s[1..];
    }
  }

  lemma LeastFirst(a: seq<int>, b: seq<int>)
    requires a != [] && Sorted(a) && multiset(a) == multiset(b)
    ensures b != [] && a[0] <= b[0]
  {
    assert a[0] in multiset(b);
    assert b[0] in multiset(a);
    var i :| 0 <= i < |a| && a[i] == b[0];
  }

  lemma {:induction false} SortedIsUnique(a: seq<int>, b: seq<int>)
    requires Sorted(a) && Sorted(b) && multiset(a) == multiset(b)
    ensures a == b
    decreases |a|
  {
    assert |multiset(a)| == |multiset(b)|;
    if a != [] {
      LeastFirst(a, b);
      LeastFirst(b, a);
      assert a == [a[0]] + a[1..] && b == [b[0]] + b[1..];
      assert multiset(a[1..]) == multiset(a) - multiset{a[0]} == multiset(b[1..]);
      SortedIsUnique(a[1..], b[1..]);
    }
  }

  predicate PatternsEqual(a: seq<int>, b: seq<int>) {
    |a| == |b| && Sort(a) == Sort(b)
  }

  /** Two patterns are equal exactly when they hold the same columns the same number of times. */
  lemma PatternsEqualIffSameColumns(a: seq<int>, b: seq<int>)
    ensures PatternsEqual(a, b) <==> multiset(a) == multiset(b)
  {
    SortSorted(a);
    SortSorted(b);
    if multiset(a) == multiset(b) {
      SortedIsUnique(Sort(a), Sort(b));
      assert |multiset(a)| == |multiset(b)|;
    }
  }

  // ---------------------------------------------------------------- drawing a pattern

  function ColumnsIn(s: seq<int>): set<int> {
    set c | c in s
  }

  /**
   * Draws columns into a set until enough different ones are found, then sorts them. `draws` are the successive
   * values of the random source, already scaled to a column; the source's loop ends only when they hold enough
   * different columns, which is required.
   */
  method GenerateRandomPattern(hazardCount: int, totalColumns: int, draws: seq<int>) returns (pattern: seq<int>, used: nat)
    requires forall c :: c in draws ==> 0 <= c < totalColumns
    requires |ColumnsIn(draws)| >= Min(hazardCount, totalColumns)
    ensures ValidPattern(pattern, hazardCount, totalColumns)
    ensures used <= |draws| && ColumnsIn(pattern) == ColumnsIn(draws[..used])
    ensures used > 0 ==> draws[used - 1] !in draws[..used - 1]
  {
    var count := Min(hazardCount, totalColumns);
    var hazards: seq<int> := []; // a set, in insertion order
    used := 0;
    while |hazards| < count
      invariant used <= |draws| && NoRepeats(hazards)
      invariant ColumnsIn(hazards) == ColumnsIn(draws[..used])
      invariant |hazards| <= if count < 0 then 0 else count
      invariant used > 0 && |hazards| >= count ==> draws[used - 1] !in draws[..used - 1]
      decreases |draws| - used
    {
      DrawsAreLeft(hazards, draws, used);
      var columnIndex := draws[used];
      assert draws[..used + 1] == draws[..used] + [columnIndex];
      ColumnsSnoc(draws[..used], columnIndex);
      ColumnsSnoc(hazards, columnIndex);
      assert columnIndex in hazards <==> columnIndex in ColumnsIn(draws[..used]);
      if columnIndex !in hazards {
        hazards := hazards + [columnIndex];
      }
      used := used + 1;
    }
    pattern := Sort(hazards);
    SortDistinct(hazards);
    SortSorted(hazards);
    assert forall c :: c in draws[..used] ==> c in draws;
    ColumnsInRange(pattern, draws[..used], totalColumns);
  }

  lemma ColumnsInRange(pattern: seq<int>, draws: seq<int>, totalColumns: int)
    requires ColumnsIn(pattern) == ColumnsIn(draws) && forall c :: c in draws ==> 0 <= c < totalColumns
    ensures forall c :: c in pattern ==> 0 <= c < totalColumns
  {
    forall c | c in pattern ensures c in draws {
      assert c in ColumnsIn(pattern);
    }
  }

  lemma DrawsAreLeft(hazards: seq<int>, draws: seq<int>, used: nat)
    requires used <= |draws| && NoRepeats(hazards) && ColumnsIn(hazards) == ColumnsIn(draws[..used])
    requires |hazards| < |ColumnsIn(draws)|
    ensures used < |draws|
  {
    CountDistinct(hazards);
    assert draws[..|draws|] == draws;
  }

  lemma ColumnsSnoc(s: seq<int>, c: int)
    ensures ColumnsIn(s + [c]) == ColumnsIn(s) + {c}
  {}

  lemma {:induction false} CountDistinct(s: seq<int>)
    requires NoRepeats(s)
    ensures |ColumnsIn(s)| == |s|
  {
    if s != [] {
      var n := |s| - 1;
      CountDistinct(s[..n]);
      assert s == s[..n] + [s[n]];
      assert ColumnsIn(s) == ColumnsIn(s[..n]) + {s[n]};
    }
  }

  /** Sorting different columns puts them in strictly increasing order. */
  lemma SortDistinct(s: seq<int>)
    requires NoRepeats(s)
    ensures StrictlyIncreasing(Sort(s)) && |Sort(s)| == |s| && ColumnsIn(Sort(s)) == ColumnsIn(s)
  {
    var t := Sort(s);
    SortSorted(s);
    assert |multiset(t)| == |multiset(s)|;
    forall c ensures c in t <==> c in s {
      assert c in multiset(t) <==> c in multiset(s);
    }
    PermutationHasNoRepeats(s, t);
  }

  // ---------------------------------------------------------------- reading a state

  /** `current` until changeAt, `next` from then on. */
  function ActivePattern(state: HazardState, now: int): seq<int> {
    if now < state.changeAt then state.current else state.next
  }
}
