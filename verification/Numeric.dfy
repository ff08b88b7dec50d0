/** Decimal amounts as PostgreSQL stores them.

    A caller's amount is an exact decimal number of francs, a `real`; a column of type NUMERIC(15, 2)
    holds a whole number of centimes, an `int`. ROUND(x, 2) and assignment to such a column both round to
    the nearest centime, and a number half way between two centimes away from zero.
 */
module Numeric {

  datatype Option<+T> = None | Some(value: T)

  /** NUMERIC(15, 2) holds magnitudes below 10^13 francs. */
  const LIMIT: int := 1_000_000_000_000_000

  predicate Fits(c: int) {
    -LIMIT < c < LIMIT
  }

  /** Round to the nearest integer, halves away from zero: PostgreSQL's ROUND and Python's ROUND_HALF_UP. */
  function RoundHalfAway(x: real): (n: int) {
    if x >= 0.0 then (x + 0.5).Floor else -((0.5 - x).Floor)
  }

  /** The centimes that storing `x` francs leaves in a NUMERIC(15, 2) column. */
  function Store(x: real): (c: int) {
    RoundHalfAway(x * 100.0)
  }

  function Francs(c: int): (x: real) {
    c as real / 100.0
  }

  /** `x` lies exactly half way between two centimes. */
  predicate Tie(x: real) {
    x * 100.0 - (x * 100.0).Floor as real == 0.5
  }

  /** `n` lies within one half of `x`, and further from zero if two integers do. */
  predicate NearestTo(n: int, x: real) {
    if x >= 0.0 then -0.5 < n as real - x <= 0.5 else -0.5 <= n as real - x < 0.5
  }

  /** Independent reading of the rounding: its result is the nearest integer, and no other integer is. */
  lemma RoundIsNearest(x: real, n: int)
    ensures n == RoundHalfAway(x) <==> NearestTo(n, x)
  {
    var y := if x >= 0.0 then x + 0.5 else 0.5 - x;
    var d := if x >= 0.0 then n else -n;
    assert y.Floor == d <==> d as real <= y < d as real + 1.0;
  }

  /** A column holds the nearest centime of what is stored in it, and at most 9999999999999.99 either way. */
  lemma StoredIsNearestCentime(x: real, c: int)
    ensures c == Store(x) <==> NearestTo(c, x * 100.0)
    ensures Francs(c) * 100.0 == c as real
    ensures Fits(c) <==> -9999999999999.99 <= Francs(c) <= 9999999999999.99
  {
    RoundIsNearest(x * 100.0, c);
  }

  lemma RoundMonotone(x: real, y: real)
    requires x <= y
    ensures RoundHalfAway(x) <= RoundHalfAway(y)
  {
    RoundIsNearest(x, RoundHalfAway(x));
    RoundIsNearest(y, RoundHalfAway(y));
  }

  lemma StoreSign(x: real)
    ensures x >= 0.0 ==> Store(x) >= 0
    ensures Store(x) > 0 ==> x > 0.0
  {
  }

  /** Adding a decimal amount to a stored balance adds exactly the amount as it would be stored. */
  lemma StoreSum(c: int, x: real)
    requires c >= 0 && x >= 0.0
    ensures Store(Francs(c) + x) == c + Store(x)
  {
    RoundIsNearest(x * 100.0, Store(x));
    RoundIsNearest((Francs(c) + x) * 100.0, c + Store(x));
  }

  /** Subtracting one subtracts the stored amount, less a centime when the amount is a tie: the remaining
      balance and the amount are then both rounded up. */
  lemma StoreDifference(c: int, x: real)
    requires 0.0 <= x <= Francs(c)
    ensures Store(Francs(c) - x) == c - Store(x) + (if Tie(x) then 1 else 0)
  {
    var k := if Tie(x) then 1 else 0;
    RoundIsNearest(x * 100.0, Store(x));
    TieStore(x);
    RoundIsNearest((Francs(c) - x) * 100.0, c - Store(x) + k);
  }

  lemma TieStore(x: real)
    requires x >= 0.0
    ensures Tie(x) <==> Store(x) as real - x * 100.0 == 0.5
  {
    var f := (x * 100.0).Floor;
    RoundIsNearest(x * 100.0, Store(x));
    if Tie(x) {
      RoundIsNearest(x * 100.0, f + 1);
    }
    if Store(x) as real - x * 100.0 == 0.5 {
      assert f == Store(x) - 1;
    }
  }
}
