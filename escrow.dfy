/**
 * Currency escrow: a balance split into an available part and a reserved part
 * (`stars` / `reservedStars`, `shards` / `reservedShards`), with the three
 * guarded moves reserve, release and consume, and the two-decimal rounding
 * that the legacy profile applies to stars (`parseFloat(x.toFixed(2))`).
 * Balances are JavaScript numbers; they are modelled as exact `real`s, so the
 * binary floating-point error the rounding is there to hide is not modelled.
 */
module Escrow {

  datatype Pool = Pool(available: real, reserved: real)

  function Sum(p: Pool): real {
    p.available + p.reserved
  }

  predicate NonNegative(p: Pool) {
    p.available >= 0.0 && p.reserved >= 0.0
  }

  /** `amount > 0` and enough is available to set it aside. */
  predicate CanReserve(p: Pool, amount: real) {
    amount > 0.0 && p.available >= amount
  }

  /** `amount > 0` and at least that much is set aside. */
  predicate CanRelease(p: Pool, amount: real) {
    amount > 0.0 && p.reserved >= amount
  }

  function Reserve(p: Pool, amount: real): Pool
    requires CanReserve(p, amount)
  {
    Pool(p.available - amount, p.reserved + amount)
  }

  function Release(p: Pool, amount: real): Pool
    requires CanRelease(p, amount)
  {
    Pool(p.available + amount, p.reserved - amount)
  }

  function Consume(p: Pool, amount: real): Pool
    requires CanRelease(p, amount)
  {
    Pool(p.available, p.reserved - amount)
  }

  /**
   * Reserving and releasing move money between the two parts without creating
   * or destroying any; consuming destroys exactly the amount consumed, and only
   * from the reserved part.
   */
  lemma Conservation(p: Pool, amount: real)
    ensures CanReserve(p, amount) ==>
      Sum(Reserve(p, amount)) == Sum(p) && Reserve(p, amount).reserved == p.reserved + amount
    ensures CanRelease(p, amount) ==>
      Sum(Release(p, amount)) == Sum(p) && Release(p, amount).available == p.available + amount
    ensures CanRelease(p, amount) ==>
      Sum(Consume(p, amount)) == Sum(p) - amount && Consume(p, amount).available == p.available
  {
  }

  /** A guarded move never drives either part negative. */
  lemma MovesPreserveNonNegative(p: Pool, amount: real)
    requires NonNegative(p)
    ensures CanReserve(p, amount) ==> NonNegative(Reserve(p, amount))
    ensures CanRelease(p, amount) ==> NonNegative(Release(p, amount)) && NonNegative(Consume(p, amount))
  {
  }

  /** A reservation can always be released or consumed, and releasing it restores the pool. */
  lemma ReleaseUndoesReserve(p: Pool, amount: real)
    requires CanReserve(p, amount) && p.reserved >= 0.0
    ensures CanRelease(Reserve(p, amount), amount)
    ensures Release(Reserve(p, amount), amount) == p
  {
  }

  // ----- two-decimal rounding ----------------------------------------------

  /** The number is a whole number of hundredths. */
  predicate IsCents(x: real) {
    (x * 100.0).Floor as real == x * 100.0
  }

  /**
   * `parseFloat(x.toFixed(2))`: round to the nearest hundredth, halves away
   * from zero (toFixed rounds the magnitude and then puts the sign back).
   */
  function Round2(x: real): (r: real)
    ensures IsCents(r)
    ensures -0.005 <= r - x <= 0.005
    ensures x >= 0.0 ==> r >= 0.0
  {
    if x >= 0.0 then RoundMagnitude(x)
    else
      var m := RoundMagnitude(-x);
      NegatedCents(m);
      -m
  }

  /** The negation of whole hundredths is whole hundredths. */
  lemma NegatedCents(m: real)
    requires IsCents(m)
    ensures IsCents(-m)
  {
    var k := (m * 100.0).Floor;
    var c := (-m) * 100.0;
    assert c == (-k) as real;
    assert c.Floor == -k;
  }

  /** Nearest hundredth of a non-negative number, halves rounded up. */
  function RoundMagnitude(y: real): (r: real)
    requires y >= 0.0
    ensures IsCents(r) && r >= 0.0
    ensures -0.005 < r - y <= 0.005
  {
    var n := (y * 100.0 + 0.5).Floor;
    assert n as real <= y * 100.0 + 0.5 < n as real + 1.0;
    assert (n as real / 100.0) * 100.0 == n as real;
    n as real / 100.0
  }

  /** Rounding leaves an amount that is already whole hundredths unchanged. */
  lemma Round2OfCents(x: real)
    requires IsCents(x)
    ensures Round2(x) == x
  {
    var n := (x * 100.0).Floor;
    if x >= 0.0 {
      assert (x * 100.0 + 0.5).Floor == n;
    } else {
      assert ((-x) * 100.0).Floor == -n;
      assert ((-x) * 100.0 + 0.5).Floor == -n;
    }
  }

  /** A whole number is a whole number of hundredths. */
  lemma WholeIsCents(n: int)
    ensures IsCents(n as real)
  {
    var c := (n as real) * 100.0;
    assert c == (n * 100) as real;
    assert c.Floor == n * 100;
  }

  /** Hundredths are closed under sums and differences. */
  lemma CentsArithmetic(x: real, y: real)
    requires IsCents(x) && IsCents(y)
    ensures IsCents(x + y) && IsCents(x - y)
  {
    var a, b := (x * 100.0).Floor, (y * 100.0).Floor;
    var c, d := (x + y) * 100.0, (x - y) * 100.0;
    assert c == (a + b) as real && d == (a - b) as real;
    assert c.Floor == a + b && d.Floor == a - b;
  }

  // ----- the legacy profile's star moves ------------------------------------

  /** Legacy `reserveCurrency(amount, 'stars')`: both parts re-rounded afterwards. */
  function LegacyReserve(p: Pool, amount: real): Pool
    requires CanReserve(p, amount)
  {
    Pool(Round2(p.available - amount), Round2(p.reserved + amount))
  }

  /** Legacy `releaseReservedCurrency(amount, 'stars')`: both parts re-rounded. */
  function LegacyRelease(p: Pool, amount: real): Pool
    requires CanRelease(p, amount)
  {
    Pool(Round2(p.available + amount), Round2(p.reserved - amount))
  }

  /** Legacy `consumeReservedCurrency(amount, 'stars')`: only the reserved part is re-rounded. */
  function LegacyConsume(p: Pool, amount: real): Pool
    requires CanRelease(p, amount)
  {
    Pool(p.available, Round2(p.reserved - amount))
  }

  /** On balances and amounts in whole hundredths the legacy star moves are the exact moves. */
  lemma LegacyAgreesOnCents(p: Pool, amount: real)
    requires IsCents(p.available) && IsCents(p.reserved) && IsCents(amount)
    ensures CanReserve(p, amount) ==> LegacyReserve(p, amount) == Reserve(p, amount)
    ensures CanRelease(p, amount) ==> LegacyRelease(p, amount) == Release(p, amount)
    ensures CanRelease(p, amount) ==> LegacyConsume(p, amount) == Consume(p, amount)
  {
    CentsArithmetic(p.available, amount);
    CentsArithmetic(p.reserved, amount);
    Round2OfCents(p.available - amount);
    Round2OfCents(p.available + amount);
    Round2OfCents(p.reserved + amount);
    Round2OfCents(p.reserved - amount);
  }

  /** The legacy moves keep both parts in whole hundredths, whatever the amount. */
  lemma LegacyKeepsCents(p: Pool, amount: real)
    requires IsCents(p.available)
    ensures CanReserve(p, amount) ==> IsCents(LegacyReserve(p, amount).available) && IsCents(LegacyReserve(p, amount).reserved)
    ensures CanRelease(p, amount) ==> IsCents(LegacyRelease(p, amount).available) && IsCents(LegacyRelease(p, amount).reserved)
    ensures CanRelease(p, amount) ==> IsCents(LegacyConsume(p, amount).available) && IsCents(LegacyConsume(p, amount).reserved)
  {
  }

  /**
   * A sub-cent star reservation is accepted and then rounded away: the
   * reserved part does not grow, so it cannot be consumed afterwards.
   */
  lemma LegacySubCentReservationVanishes()
    ensures CanReserve(Pool(1.0, 0.0), 0.004)
    ensures LegacyReserve(Pool(1.0, 0.0), 0.004) == Pool(1.0, 0.0)
    ensures !CanRelease(LegacyReserve(Pool(1.0, 0.0), 0.004), 0.004)
  {
    assert (0.996 * 100.0 + 0.5).Floor == 100;
    assert (0.004 * 100.0 + 0.5).Floor == 0;
  }
}
