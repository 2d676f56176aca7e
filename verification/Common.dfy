/** Small shared vocabulary: optional values, identifiers and decimal rounding. */
module Common {

  datatype Option<+T> = None | Some(value: T)

  /** A platform transaction id (a fresh UUID per bet in the source). */
  type TxId = nat

  /** The status column of a retry job. */
  datatype JobStatus = Pending | Processing | Success | Failed | Expired

  /** The nearest multiple of 1/scale, ties to the larger one: `toFixed` (section 21.1.3.3 of ECMA-262) on amounts >= 0. */
  function RoundTo(x: real, scale: int): real
    requires scale > 0
  {
    ((x * scale as real + 0.5).Floor as real) / scale as real
  }

  /** Three decimals: bet rows and `DECIMAL_PLACES`. */
  function Fixed3(x: real): real {
    RoundTo(x, 1000)
  }

  /** Four decimals: the amount columns of a retry job. */
  function Fixed4(x: real): real {
    RoundTo(x, 10000)
  }

  /** x is a whole number of 1/scale units. */
  predicate IsExact(x: real, scale: int) {
    (x * scale as real).Floor as real == x * scale as real
  }

  lemma Cancel(a: real, b: real, y: real)
    requires y > 0.0 && a * y == b * y
    ensures a == b
  {}

  lemma QuotientIs(n: real, x: real, y: real)
    requires y > 0.0
    ensures n / y == x <==> n == x * y
  {
    if n == x * y {
      assert (n / y) * y == x * y;
      Cancel(n / y, x, y);
    }
  }

  lemma FloorOf(x: real, n: int)
    ensures x.Floor == n <==> n as real <= x < n as real + 1.0
  {}

  lemma RoundNearest(x: real)
    ensures (x + 0.5).Floor as real == x <==> x.Floor as real == x
  {
    FloorOf(x, x.Floor);
    FloorOf(x, (x + 0.5).Floor);
    FloorOf(x + 0.5, x.Floor);
  }

  /** Rounding changes nothing for the amounts that are whole multiples of the unit, and for no others. */
  lemma RoundToExact(x: real, scale: int)
    requires scale > 0
    ensures RoundTo(x, scale) == x <==> IsExact(x, scale)
  {
    var scaled := x * scale as real;
    RoundNearest(scaled);
    QuotientIs((scaled + 0.5).Floor as real, x, scale as real);
  }

  /** The rounded amount is a whole number of units, at most half a unit away, and the larger one on a tie. */
  lemma RoundToIsNearest(x: real, scale: int)
    requires scale > 0
    ensures IsExact(RoundTo(x, scale), scale)
    ensures -0.5 < RoundTo(x, scale) * scale as real - x * scale as real <= 0.5
  {
    var scaled := x * scale as real;
    var n := (scaled + 0.5).Floor;
    FloorOf(scaled + 0.5, n);
    FloorOf(n as real, n);
    QuotientIs(n as real, RoundTo(x, scale), scale as real);
    assert RoundTo(x, scale) * scale as real == n as real;
  }

  // ---------------------------------------------------------------- sequences without repetition

  ghost predicate NoRepeats<T>(s: seq<T>) {
    forall i, j :: 0 <= i < j < |s| ==> s[i] != s[j]
  }

  lemma {:induction false} CountOnce<T>(s: seq<T>, x: T)
    requires NoRepeats(s)
    ensures multiset(s)[x] <= 1
  {
    if s != [] {
      CountOnce(s[1..], x);
      assert s == [s[0]] + s[1..];
    }
  }

  lemma RepeatedCount<T>(s: seq<T>, i: nat, j: nat)
    requires i < j < |s| && s[i] == s[j]
    ensures multiset(s)[s[i]] >= 2
  {
    assert s == s[..j] + [s[j]] + s[j + 1..];
    assert s[i] in s[..j];
  }

  lemma PermutationHasNoRepeats<T>(s: seq<T>, t: seq<T>)
    requires NoRepeats(s) && multiset(s) == multiset(t)
    ensures NoRepeats(t)
  {
    forall i, j | 0 <= i < j < |t| ensures t[i] != t[j] {
      if t[i] == t[j] {
        CountOnce(s, t[i]);
        RepeatedCount(t, i, j);
      }
    }
  }
}
