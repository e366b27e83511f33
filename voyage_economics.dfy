/** Partial voyage recalculation: re-derives days, fuel burn, costs, profit
    and TCE of a baseline voyage under overridden bunker prices, speed and
    extra waiting days. Revenue is backed out of the baseline and held fixed,
    so only the costs move. */
module VoyageEconomics {
  import opened Records

  const DefaultDailyHire: real := 12000.0
  const DefaultOpexPerDay: real := 3000.0

  /** The recalculated figures (the source also repeats profit and tce under
      the names adj_profit and adj_tce). */
  datatype RecalcResult = RecalcResult(
    profit: real,
    tce: real,
    days: real,
    vlsfoMt: real,
    mgoMt: real)

  // Baseline columns with the kernel's defaults.
  function BaseDays(r: VoyageRecord): real { r.days.GetOr(1.0) }
  function BaseProfit(r: VoyageRecord): real { r.profit.GetOr(0.0) }
  function BaseVlsfoMt(r: VoyageRecord): real { r.totalVlsfoMt.GetOr(0.0) }
  function BaseMgoMt(r: VoyageRecord): real { r.totalMgoMt.GetOr(0.0) }
  function BaseSpeed(r: VoyageRecord): real { r.speedKnots.GetOr(12.0) }

  /** The price the baseline profit was computed at; an absent column falls
      back to the overriding price, so that fuel grade contributes no delta. */
  function BasePrice(column: Option<real>, overridePrice: real): real {
    column.GetOr(overridePrice)
  }

  function Cube(x: real): real { x * x * x }

  /** Revenue implied by the baseline: its profit plus the costs it was
      computed with. */
  function ImpliedRevenue(base: VoyageRecord, vlsfoPrice: real, mgoPrice: real,
                          dailyHire: real, opexPerDay: real): real
  {
    BaseProfit(base)
    + BaseVlsfoMt(base) * BasePrice(base.vlsfoPrice, vlsfoPrice)
    + BaseMgoMt(base) * BasePrice(base.mgoPrice, mgoPrice)
    + BaseDays(base) * (dailyHire + opexPerDay)
  }

  lemma CubeOfQuotient(a: real, b: real)
    requires b != 0.0
    ensures Cube(a / b) * Cube(b) == Cube(a)
  {
    var q := a / b;
    assert q * b == a;
    calc {
      Cube(q) * Cube(b);
      (q * b) * (q * b) * (q * b);
      Cube(a);
    }
  }

  lemma QuotientTimesDivisor(a: real, b: real)
    ensures b != 0.0 ==> (a / b) * b == a
  {
  }

  lemma ScaledCube(m: real, f: real, c: real, d: real)
    requires f * c == d
    ensures (m * f) * c == m * d
  {
    calc {
      (m * f) * c;
      m * (f * c);
      m * d;
    }
  }

  /** The kernel. The speed divisor of the sailing time is clamped at 1 knot;
      the divisor of the cubic fuel law (the baseline speed) is not, so a zero
      baseline speed is a division error the caller must avoid. */
  function RunPartialVoyage(base: VoyageRecord, vlsfoPrice: real, mgoPrice: real,
                            speedKnots: real, extraDays: real,
                            dailyHire: real := DefaultDailyHire,
                            opexPerDay: real := DefaultOpexPerDay): (r: RecalcResult)
    requires BaseSpeed(base) != 0.0
    ensures r.days <= 0.0 ==> r.tce == 0.0
    ensures BaseVlsfoMt(base) == 0.0 && BaseMgoMt(base) == 0.0 ==> r.vlsfoMt == 0.0 && r.mgoMt == 0.0
  {
    var baseDays := BaseDays(base);
    var baseProfit := BaseProfit(base);
    var baseVlsfoMt := BaseVlsfoMt(base);
    var baseMgoMt := BaseMgoMt(base);
    var baseSpeed := BaseSpeed(base);

    var speedFactor := baseSpeed / Max(speedKnots, 1.0);
    var sailingDays := baseDays * speedFactor;
    var totalDays := sailingDays + extraDays;

    var fuelFactor := Cube(speedKnots / baseSpeed);
    var vlsfoMt := baseVlsfoMt * fuelFactor;
    var mgoMt := baseMgoMt * fuelFactor;

    var bunkerCost := vlsfoMt * vlsfoPrice + mgoMt * mgoPrice;
    var timeCost := totalDays * (dailyHire + opexPerDay);

    var baseBunkerCost := baseVlsfoMt * BasePrice(base.vlsfoPrice, vlsfoPrice)
                        + baseMgoMt * BasePrice(base.mgoPrice, mgoPrice);
    var baseTimeCost := baseDays * (dailyHire + opexPerDay);
    var revenue := baseProfit + baseBunkerCost + baseTimeCost;

    var profit := revenue - bunkerCost - timeCost;
    var tce := if totalDays > 0.0 then profit / totalDays else 0.0;

    RecalcResult(profit, tce, totalDays, vlsfoMt, mgoMt)
  }

  /** Distance is held constant: sailing time times the (clamped) speed is
      the baseline's sailing time times the baseline speed. */
  lemma RecalcConservesDistance(base: VoyageRecord, vlsfoPrice: real, mgoPrice: real,
                                speedKnots: real, extraDays: real,
                                dailyHire: real, opexPerDay: real)
    requires BaseSpeed(base) != 0.0
    ensures var r := RunPartialVoyage(base, vlsfoPrice, mgoPrice, speedKnots, extraDays, dailyHire, opexPerDay);
            (r.days - extraDays) * Max(speedKnots, 1.0) == BaseDays(base) * BaseSpeed(base)
  {
    var m := Max(speedKnots, 1.0);
    QuotientTimesDivisor(BaseSpeed(base), m);
    assert BaseDays(base) * (BaseSpeed(base) / m) * m == BaseDays(base) * ((BaseSpeed(base) / m) * m);
  }

  /** The cubic fuel law, for both fuel grades: burn scales with the cube of
      speed over baseline speed. */
  lemma RecalcFollowsCubicLaw(base: VoyageRecord, vlsfoPrice: real, mgoPrice: real,
                              speedKnots: real, extraDays: real,
                              dailyHire: real, opexPerDay: real)
    requires BaseSpeed(base) != 0.0
    ensures var r := RunPartialVoyage(base, vlsfoPrice, mgoPrice, speedKnots, extraDays, dailyHire, opexPerDay);
            r.vlsfoMt * Cube(BaseSpeed(base)) == BaseVlsfoMt(base) * Cube(speedKnots)
            && r.mgoMt * Cube(BaseSpeed(base)) == BaseMgoMt(base) * Cube(speedKnots)
  {
    var f := Cube(speedKnots / BaseSpeed(base));
    CubeOfQuotient(speedKnots, BaseSpeed(base));
    ScaledCube(BaseVlsfoMt(base), f, Cube(BaseSpeed(base)), Cube(speedKnots));
    ScaledCube(BaseMgoMt(base), f, Cube(BaseSpeed(base)), Cube(speedKnots));
  }

  /** Revenue is held fixed: the new profit plus the new bunker and time costs
      is the revenue implied by the baseline. */
  lemma RecalcHoldsRevenue(base: VoyageRecord, vlsfoPrice: real, mgoPrice: real,
                           speedKnots: real, extraDays: real,
                           dailyHire: real, opexPerDay: real)
    requires BaseSpeed(base) != 0.0
    ensures var r := RunPartialVoyage(base, vlsfoPrice, mgoPrice, speedKnots, extraDays, dailyHire, opexPerDay);
            r.profit + r.vlsfoMt * vlsfoPrice + r.mgoMt * mgoPrice + r.days * (dailyHire + opexPerDay)
            == ImpliedRevenue(base, vlsfoPrice, mgoPrice, dailyHire, opexPerDay)
  {
  }

  /** TCE is profit per day of the recalculated duration, and 0 (not a
      division error) when that duration is not positive. */
  lemma RecalcTceIsProfitPerDay(base: VoyageRecord, vlsfoPrice: real, mgoPrice: real,
                                speedKnots: real, extraDays: real,
                                dailyHire: real, opexPerDay: real)
    requires BaseSpeed(base) != 0.0
    ensures var r := RunPartialVoyage(base, vlsfoPrice, mgoPrice, speedKnots, extraDays, dailyHire, opexPerDay);
            (r.days > 0.0 ==> r.tce * r.days == r.profit) && (r.days <= 0.0 ==> r.tce == 0.0)
  {
    var r := RunPartialVoyage(base, vlsfoPrice, mgoPrice, speedKnots, extraDays, dailyHire, opexPerDay);
    QuotientTimesDivisor(r.profit, r.days);
  }

  /** At the baseline speed (at least 1 knot, where the clamp is inactive),
      with no extra days and the baseline's own prices, the baseline profit is
      reproduced exactly, and so are its days and fuel. */
  lemma SpeedInvariance(base: VoyageRecord, vlsfoPrice: real, mgoPrice: real,
                        dailyHire: real, opexPerDay: real)
    requires BaseSpeed(base) >= 1.0
    requires BasePrice(base.vlsfoPrice, vlsfoPrice) == vlsfoPrice
    requires BasePrice(base.mgoPrice, mgoPrice) == mgoPrice
    ensures var r := RunPartialVoyage(base, vlsfoPrice, mgoPrice, BaseSpeed(base), 0.0, dailyHire, opexPerDay);
            r.profit == BaseProfit(base) && r.days == BaseDays(base)
            && r.vlsfoMt == BaseVlsfoMt(base) && r.mgoMt == BaseMgoMt(base)
  {
    var r := RunPartialVoyage(base, vlsfoPrice, mgoPrice, BaseSpeed(base), 0.0, dailyHire, opexPerDay);
    var s := BaseSpeed(base);
    assert Max(s, 1.0) == s;
    assert r.days == BaseDays(base);
    assert Cube(s) > 0.0;
    assert r.vlsfoMt == BaseVlsfoMt(base);
    assert r.mgoMt == BaseMgoMt(base);
  }

  /** The clamp makes speed invariance fail below 1 knot: a baseline at half a
      knot, recalculated at its own speed, halves its days and changes profit. */
  lemma SubKnotBaselineBreaksInvariance()
    ensures var base := VoyageRecord("A", "X", Some(10.0), Some(100.0), None, Some(0.0), Some(0.0),
                                     None, None, Some(0.5));
            var r := RunPartialVoyage(base, 500.0, 650.0, 0.5, 0.0);
            r.days == 5.0 && r.profit == 100.0 + 5.0 * (DefaultDailyHire + DefaultOpexPerDay)
  {
    var base := VoyageRecord("A", "X", Some(10.0), Some(100.0), None, Some(0.0), Some(0.0),
                             None, None, Some(0.5));
    var r := RunPartialVoyage(base, 500.0, 650.0, 0.5, 0.0);
    assert r.days == 5.0;
  }

  /** Doubling the speed over the baseline multiplies both fuel burns by 8,
      whatever the prices. */
  lemma DoubledSpeedBurnsEightfoldFuel(base: VoyageRecord, vlsfoPrice: real, mgoPrice: real,
                                       extraDays: real, dailyHire: real, opexPerDay: real)
    requires BaseSpeed(base) != 0.0
    ensures var r := RunPartialVoyage(base, vlsfoPrice, mgoPrice, 2.0 * BaseSpeed(base), extraDays, dailyHire, opexPerDay);
            r.vlsfoMt == 8.0 * BaseVlsfoMt(base) && r.mgoMt == 8.0 * BaseMgoMt(base)
  {
    var s := BaseSpeed(base);
    var r := RunPartialVoyage(base, vlsfoPrice, mgoPrice, 2.0 * s, extraDays, dailyHire, opexPerDay);
    assert Cube(2.0 * s) == 8.0 * Cube(s);
    assert Cube(s) != 0.0;
  }

  /** Each additional waiting day costs exactly one day of hire and opex;
      fuel is untouched. */
  lemma ExtraDaysCostHireAndOpex(base: VoyageRecord, vlsfoPrice: real, mgoPrice: real,
                                 speedKnots: real, extraDays: real, more: real,
                                 dailyHire: real, opexPerDay: real)
    requires BaseSpeed(base) != 0.0
    ensures var r0 := RunPartialVoyage(base, vlsfoPrice, mgoPrice, speedKnots, extraDays, dailyHire, opexPerDay);
            var r1 := RunPartialVoyage(base, vlsfoPrice, mgoPrice, speedKnots, extraDays + more, dailyHire, opexPerDay);
            r1.profit == r0.profit - more * (dailyHire + opexPerDay)
            && r1.days == r0.days + more
            && r1.vlsfoMt == r0.vlsfoMt && r1.mgoMt == r0.mgoMt
  {
    var r0 := RunPartialVoyage(base, vlsfoPrice, mgoPrice, speedKnots, extraDays, dailyHire, opexPerDay);
    var r1 := RunPartialVoyage(base, vlsfoPrice, mgoPrice, speedKnots, extraDays + more, dailyHire, opexPerDay);
    assert r1.days == r0.days + more;
  }

  /** When the baseline records its own VLSFO price, sailing forward (speed and
      baseline speed positive) with some VLSFO on board, a higher VLSFO price
      gives a strictly lower profit. */
  lemma HigherVlsfoPriceLowersProfit(base: VoyageRecord, p1: real, p2: real, mgoPrice: real,
                                     speedKnots: real, extraDays: real,
                                     dailyHire: real, opexPerDay: real)
    requires base.vlsfoPrice.Some?
    requires speedKnots > 0.0 && BaseSpeed(base) > 0.0 && BaseVlsfoMt(base) > 0.0
    requires p1 < p2
    ensures RunPartialVoyage(base, p2, mgoPrice, speedKnots, extraDays, dailyHire, opexPerDay).profit
          < RunPartialVoyage(base, p1, mgoPrice, speedKnots, extraDays, dailyHire, opexPerDay).profit
  {
    var r1 := RunPartialVoyage(base, p1, mgoPrice, speedKnots, extraDays, dailyHire, opexPerDay);
    var r2 := RunPartialVoyage(base, p2, mgoPrice, speedKnots, extraDays, dailyHire, opexPerDay);
    var f := Cube(speedKnots / BaseSpeed(base));
    assert speedKnots / BaseSpeed(base) > 0.0;
    assert f > 0.0;
    assert r1.vlsfoMt == r2.vlsfoMt == BaseVlsfoMt(base) * f;
    assert r1.vlsfoMt > 0.0;
    assert r2.profit - r1.profit == r1.vlsfoMt * (p1 - p2);
  }

  /** Without a recorded VLSFO price the baseline is re-priced at the override
      too, so at the baseline speed the VLSFO price has no effect on profit:
      the premise of HigherVlsfoPriceLowersProfit cannot be dropped. */
  lemma UnrecordedVlsfoPriceIsNeutral(base: VoyageRecord, p1: real, p2: real, mgoPrice: real,
                                      extraDays: real, dailyHire: real, opexPerDay: real)
    requires base.vlsfoPrice.None?
    requires BaseSpeed(base) != 0.0
    ensures RunPartialVoyage(base, p2, mgoPrice, BaseSpeed(base), extraDays, dailyHire, opexPerDay).profit
         == RunPartialVoyage(base, p1, mgoPrice, BaseSpeed(base), extraDays, dailyHire, opexPerDay).profit
  {
    var s := BaseSpeed(base);
    QuotientTimesDivisor(s, s);
    assert (s / s) * s == 1.0 * s;
    assert s / s == 1.0;
    assert Cube(s / s) == 1.0;
  }
}
