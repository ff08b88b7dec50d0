/** Fees of an inter-operator transfer. Amounts are decimals in XOF; every fee is rounded to whole XOF. */
module FeeRules {
  import opened Numeric

  datatype Operator = Wave | Orange | Mtn | Moov

  const PLATFORM_FEE_RATE: real := 0.08

  /** What JEKO keeps when it collects from `source`. */
  function DepositFeeRate(source: Operator): real {
    if source == Wave then 0.015 else 0.01
  }

  function PlatformFee(net: real): int {
    RoundHalfAway(net * PLATFORM_FEE_RATE)
  }

  function TotalToCollect(net: real): real {
    net + PlatformFee(net) as real
  }

  function JekoDepositFee(total: real, source: Operator): int {
    RoundHalfAway(total * DepositFeeRate(source))
  }

  /** What the wallet gets back when the pay-in succeeded and the pay-out failed: what JEKO really holds. */
  function CreditOnPayOutFailure(total: real, source: Operator): real {
    total - JekoDepositFee(total, source) as real
  }

  function Ceiling(x: real): int {
    -((-x).Floor)
  }

  /** The total is the amount and 8 percent of it, to the nearest whole XOF. */
  lemma TotalAddsEightPercent(net: real, fee: int)
    requires NearestTo(fee, net * 8.0 / 100.0)
    ensures TotalToCollect(net) == net + fee as real
  {
    assert net * 8.0 / 100.0 == net * PLATFORM_FEE_RATE;
    RoundIsNearest(net * PLATFORM_FEE_RATE, fee);
  }

  /** The failure credit is the total less 1.5 percent for Wave and 1 percent for the others, to the nearest XOF. */
  lemma CreditTakesOffDepositFee(total: real, source: Operator, fee: int)
    requires NearestTo(fee, total * (if source == Wave then 1.5 else 1.0) / 100.0)
    ensures CreditOnPayOutFailure(total, source) == total - fee as real
  {
    assert total * (if source == Wave then 1.5 else 1.0) / 100.0 == total * DepositFeeRate(source);
    RoundIsNearest(total * DepositFeeRate(source), fee);
  }

  /** A failed pay-out never costs its owner: the wallet gets back at least the amount that was to be sent. */
  lemma FailureCreditCoversAmount(net: real, source: Operator)
    requires net >= 0.0
    ensures CreditOnPayOutFailure(TotalToCollect(net), source) >= net
  {
    var fee, jeko := net * PLATFORM_FEE_RATE, TotalToCollect(net) * DepositFeeRate(source);
    RoundIsNearest(fee, PlatformFee(net));
    RoundIsNearest(jeko, JekoDepositFee(TotalToCollect(net), source));
    if fee < 0.5 {
      RoundIsNearest(fee, 0);
      RoundIsNearest(jeko, 0);
    } else {
      assert jeko <= fee;
      RoundMonotone(jeko, fee);
    }
  }

  /** From the smallest transfer on, what JEKO holds also covers its pay-out fee, at either rate and however it
      rounds. */
  lemma MarginCoversPayOutFee(net: real, source: Operator)
    requires net >= 250.0
    ensures CreditOnPayOutFailure(TotalToCollect(net), source) > net + Ceiling(0.015 * net) as real
  {
    RoundIsNearest(net * PLATFORM_FEE_RATE, PlatformFee(net));
    RoundIsNearest(TotalToCollect(net) * DepositFeeRate(source), JekoDepositFee(TotalToCollect(net), source));
    assert Ceiling(0.015 * net) as real < 0.015 * net + 1.0;
  }

  lemma TotalIncreases(a: real, b: real)
    requires a < b
    ensures TotalToCollect(a) < TotalToCollect(b)
  {
    RoundMonotone(a * PLATFORM_FEE_RATE, b * PLATFORM_FEE_RATE);
  }

  lemma RoundGrowsNoFaster(x: real, y: real, k: nat)
    requires 0.0 <= x <= y <= x + k as real
    ensures RoundHalfAway(y) <= RoundHalfAway(x) + k
  {
    RoundIsNearest(x, RoundHalfAway(x));
    RoundIsNearest(x + k as real, RoundHalfAway(x) + k);
    RoundMonotone(y, x + k as real);
  }

  /** On whole amounts collecting more never credits less. */
  lemma CreditNeverDrops(a: int, b: int, source: Operator)
    requires 0 <= a <= b
    ensures CreditOnPayOutFailure(a as real, source) <= CreditOnPayOutFailure(b as real, source)
  {
    if source == Wave {
      RoundGrowsNoFaster(a as real * 0.015, b as real * 0.015, b - a);
    } else {
      RoundGrowsNoFaster(a as real * 0.01, b as real * 0.01, b - a);
    }
  }

  lemma FeeGrowsNoFaster(x: real, y: real, d: real)
    requires 0.0 <= x <= y <= x + 0.015 * d
    ensures RoundHalfAway(x) <= RoundHalfAway(y)
    ensures d >= 1.0 ==> (RoundHalfAway(y) - RoundHalfAway(x)) as real <= d
  {
    RoundMonotone(x, y);
    if d >= 1.0 { RoundGrowsNoFaster(x, y, d.Floor); }
  }

  /** On decimals it can: exactly when the totals differ by less than 1 XOF and the fee steps up between them. */
  lemma CreditDropsExactlyWhen(x: real, y: real, source: Operator)
    requires 0.0 <= x < y
    ensures CreditOnPayOutFailure(y, source) < CreditOnPayOutFailure(x, source)
       <==> y - x < 1.0 && JekoDepositFee(x, source) < JekoDepositFee(y, source)
  {
    if source == Wave {
      FeeGrowsNoFaster(x * 0.015, y * 0.015, y - x);
    } else {
      FeeGrowsNoFaster(x * 0.01, y * 0.01, y - x);
    }
  }

  /** So a transfer of one centime more can credit 0.99 XOF less when its pay-out fails. */
  lemma CreditDropsOnTransfers()
    ensures TotalToCollect(277.99) == 299.99 && TotalToCollect(278.0) == 300.0
    ensures CreditOnPayOutFailure(299.99, Wave) == 295.99 && CreditOnPayOutFailure(300.0, Wave) == 295.0
  {
    RoundIsNearest(277.99 * PLATFORM_FEE_RATE, 22);
    RoundIsNearest(278.0 * PLATFORM_FEE_RATE, 22);
    RoundIsNearest(299.99 * 0.015, 4);
    RoundIsNearest(300.0 * 0.015, 5);
  }
}
