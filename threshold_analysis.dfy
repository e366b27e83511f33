/** Threshold analysis: sweep the waiting delay, or a percentage increase of
    the VLSFO price, upward in fixed steps, and report the first sweep value
    at which the most profitable candidate of the pool is a different
    (vessel, cargo) pair than the baseline's, with a profit that differs from
    the baseline profit by more than a tolerance. */
module ThresholdAnalysis {
  import opened Records
  import opened VoyageEconomics

  /** Tolerance on the profit difference of a flip. */
  const Epsilon: real := 0.001

  /** One entry of the profits list: a candidate's key and recalculated profit. */
  datatype Choice = Choice(vessel: string, cargo: string, profit: real)

  /** Outcome of a sweep: the first flipping sweep value with the winner and
      the profits list of that step; no flip in the range; or the error the
      argmax over an empty pool raises. */
  datatype Threshold =
    | NotFound
    | Found(value: real, top: Choice, profits: seq<Choice>)
    | EmptyPool

  // ---------------- Sweep range ----------------

  /** Smallest integer not below x. */
  function Ceil(x: real): (c: int)
    ensures x <= c as real < x + 1.0
  {
    -((-x).Floor)
  }

  /** The k-th sweep value. */
  function SweepValue(start: real, step: real, k: nat): real {
    start + k as real * step
  }

  /** Whether the k-th sweep value lies before the exclusive stop `end + step`,
      in the direction of the step. */
  predicate BeforeStop(start: real, end: real, step: real, k: nat) {
    if step > 0.0 then SweepValue(start, step, k) < end + step
    else SweepValue(start, step, k) > end + step
  }

  /** The number of sweep values from `start` to `end` inclusive in steps of
      `step` (the length of an arange over [start, end + step)). A zero step
      is a division error in the source. */
  function SweepCount(start: real, end: real, step: real): (n: nat)
    requires step != 0.0
    ensures forall k: nat :: k < n <==> BeforeStop(start, end, step, k)
  {
    var q := (end + step - start) / step;
    var c := Ceil(q);
    assert forall k: nat {:trigger SweepValue(start, step, k)} :: k < c <==> BeforeStop(start, end, step, k) by {
      forall k: nat ensures k < c <==> BeforeStop(start, end, step, k) {
        QuotientOrder(k as real, end + step - start, step);
      }
    }
    if c > 0 then c else 0
  }

  lemma QuotientOrder(x: real, d: real, step: real)
    requires step != 0.0
    ensures step > 0.0 ==> (x < d / step <==> x * step < d)
    ensures step < 0.0 ==> (x < d / step <==> x * step > d)
  {
    var q := d / step;
    assert q * step == d;
    if step > 0.0 {
      assert x < q ==> x * step < q * step;
      assert x >= q ==> x * step >= q * step;
    } else {
      assert x < q ==> x * step > q * step;
      assert x >= q ==> x * step <= q * step;
    }
  }

  // ---------------- Profits of one step and their argmax ----------------

  /** Every row of the pool carries a non-zero baseline speed (the cubic fuel
      law divides by it). */
  predicate SpeedsKnown(pool: seq<VoyageRecord>) {
    forall i :: 0 <= i < |pool| ==> BaseSpeed(pool[i]) != 0.0
  }

  /** The profits list of one step: one entry per candidate, in pool order. */
  function ProfitsAt(pool: seq<VoyageRecord>, vlsfoPrice: real, mgoPrice: real,
                     speedKnots: real, extraDays: real): (ps: seq<Choice>)
    requires SpeedsKnown(pool)
    ensures |ps| == |pool|
    ensures forall i :: 0 <= i < |pool| ==> ps[i].vessel == pool[i].vessel && ps[i].cargo == pool[i].cargo
    decreases |pool|
  {
    if pool == [] then []
    else
      var last := pool[|pool| - 1];
      ProfitsAt(pool[..|pool| - 1], vlsfoPrice, mgoPrice, speedKnots, extraDays)
      + [Choice(last.vessel, last.cargo,
                RunPartialVoyage(last, vlsfoPrice, mgoPrice, speedKnots, extraDays).profit)]
  }

  /** Entry i of the profits list is candidate i's recalculated profit. */
  lemma {:induction false} ProfitsAtEntry(pool: seq<VoyageRecord>, vlsfoPrice: real, mgoPrice: real,
                                          speedKnots: real, extraDays: real, i: nat)
    requires SpeedsKnown(pool) && i < |pool|
    ensures ProfitsAt(pool, vlsfoPrice, mgoPrice, speedKnots, extraDays)[i].profit
         == RunPartialVoyage(pool[i], vlsfoPrice, mgoPrice, speedKnots, extraDays).profit
    decreases |pool|
  {
    if i < |pool| - 1 {
      ProfitsAtEntry(pool[..|pool| - 1], vlsfoPrice, mgoPrice, speedKnots, extraDays, i);
    }
  }

  /** The inner loop of both sweeps: recalculate every candidate of the pool
      and collect its key and profit, in pool order. */
  method CollectProfits(pool: seq<VoyageRecord>, vlsfoPrice: real, mgoPrice: real,
                        speedKnots: real, extraDays: real)
    returns (profits: seq<Choice>)
    requires SpeedsKnown(pool)
    ensures profits == ProfitsAt(pool, vlsfoPrice, mgoPrice, speedKnots, extraDays)
  {
    profits := [];
    var i := 0;
    while i < |pool|
      invariant 0 <= i <= |pool|
      invariant profits == ProfitsAt(pool[..i], vlsfoPrice, mgoPrice, speedKnots, extraDays)
    {
      var result := RunPartialVoyage(pool[i], vlsfoPrice, mgoPrice, speedKnots, extraDays);
      profits := profits + [Choice(pool[i].vessel, pool[i].cargo, result.profit)];
      assert pool[..i + 1][..i] == pool[..i];
      i := i + 1;
    }
    assert pool[..|pool|] == pool;
  }

  /** i is a maximal-profit index of s, and the first such index. */
  predicate IsFirstMax(s: seq<Choice>, i: int) {
    && 0 <= i < |s|
    && (forall j :: 0 <= j < |s| ==> s[j].profit <= s[i].profit)
    && (forall j :: 0 <= j < i ==> s[j].profit < s[i].profit)
  }

  /** The index a forward scan keeping the first-seen maximum ends with. */
  function FirstMaxIndex(s: seq<Choice>): (i: nat)
    requires |s| > 0
    ensures IsFirstMax(s, i)
    decreases |s|
  {
    if |s| == 1 then 0
    else
      var j := FirstMaxIndex(s[..|s| - 1]);
      if s[|s| - 1].profit > s[j].profit then |s| - 1 else j
  }

  /** The entry with the highest profit, the first one on ties. */
  method MaxByProfit(profits: seq<Choice>) returns (top: Choice)
    requires |profits| > 0
    ensures top == profits[FirstMaxIndex(profits)]
  {
    var best := 0;
    for i := 1 to |profits|
      invariant best == FirstMaxIndex(profits[..i])
    {
      assert profits[..i + 1][..i] == profits[..i];
      if profits[i].profit > profits[best].profit {
        best := i;
      }
    }
    assert profits[..|profits|] == profits;
    top := profits[best];
  }

  /** The flip condition of one step: the winner has another key than the
      baseline's and its profit is off the baseline profit by more than
      Epsilon. */
  predicate Flips(profits: seq<Choice>, vessel: string, cargo: string, baseProfit: real) {
    && |profits| > 0
    && var top := profits[FirstMaxIndex(profits)];
       (top.vessel != vessel || top.cargo != cargo) && Abs(top.profit - baseProfit) > Epsilon
  }

  /** A pool whose rows all carry one key never flips away from that key. */
  lemma SameKeyPoolNeverFlips(pool: seq<VoyageRecord>, base: VoyageRecord,
                              vlsfoPrice: real, mgoPrice: real, speedKnots: real,
                              extraDays: real, baseProfit: real)
    requires SpeedsKnown(pool)
    requires forall i :: 0 <= i < |pool| ==> SameKey(pool[i], base.vessel, base.cargo)
    ensures !Flips(ProfitsAt(pool, vlsfoPrice, mgoPrice, speedKnots, extraDays),
                   base.vessel, base.cargo, baseProfit)
  {
    var ps := ProfitsAt(pool, vlsfoPrice, mgoPrice, speedKnots, extraDays);
    if |ps| > 0 {
      var i := FirstMaxIndex(ps);
      assert SameKey(pool[i], base.vessel, base.cargo);
    }
  }

  // ---------------- Delay sweep ----------------

  /** Baseline profit a sweep compares against, computed once before the
      loop: the delay sweep passes its starting delay, the price sweep its
      fixed extra days at the unraised price. */
  function BaseProfitAt(base: VoyageRecord, vlsfoPrice: real, mgoPrice: real,
                        speedKnots: real, extraDays: real): real
    requires BaseSpeed(base) != 0.0
  {
    RunPartialVoyage(base, vlsfoPrice, mgoPrice, speedKnots, extraDays).profit
  }

  /** Profits list at the k-th delay. */
  function DelayProfits(pool: seq<VoyageRecord>, vlsfoPrice: real, mgoPrice: real,
                        speedKnots: real, start: real, step: real, k: nat): seq<Choice>
    requires SpeedsKnown(pool)
  {
    ProfitsAt(pool, vlsfoPrice, mgoPrice, speedKnots, SweepValue(start, step, k))
  }

  predicate DelayFlipsAt(base: VoyageRecord, pool: seq<VoyageRecord>, vlsfoPrice: real,
                         mgoPrice: real, speedKnots: real, start: real, step: real, k: nat)
    requires BaseSpeed(base) != 0.0 && SpeedsKnown(pool)
  {
    Flips(DelayProfits(pool, vlsfoPrice, mgoPrice, speedKnots, start, step, k),
          base.vessel, base.cargo, BaseProfitAt(base, vlsfoPrice, mgoPrice, speedKnots, start))
  }

  method FindDelayThreshold(base: VoyageRecord, pool: seq<VoyageRecord>,
                            vlsfoPrice: real, mgoPrice: real, speedKnots: real,
                            start: real := 0.0, end: real := 30.0, step: real := 0.5)
    returns (t: Threshold)
    requires step != 0.0
    requires BaseSpeed(base) != 0.0 && SpeedsKnown(pool)
    // the argmax over an empty pool fails as soon as there is a step to take
    ensures t.EmptyPool? <==> pool == [] && SweepCount(start, end, step) > 0
    // no flip anywhere in the range
    ensures pool != [] ==>
      (t.NotFound? <==> forall k: nat :: k < SweepCount(start, end, step) ==>
         !DelayFlipsAt(base, pool, vlsfoPrice, mgoPrice, speedKnots, start, step, k))
    // the first flip in the range, reported with its winner and its profits list
    ensures t.Found? ==> exists k: nat ::
      && k < SweepCount(start, end, step)
      && t.value == SweepValue(start, step, k)
      && t.profits == DelayProfits(pool, vlsfoPrice, mgoPrice, speedKnots, start, step, k)
      && DelayFlipsAt(base, pool, vlsfoPrice, mgoPrice, speedKnots, start, step, k)
      && (forall j: nat :: j < k ==>
            !DelayFlipsAt(base, pool, vlsfoPrice, mgoPrice, speedKnots, start, step, j))
    ensures t.Found? ==>
      && |t.profits| == |pool|
      && IsFirstMax(t.profits, FirstMaxIndex(t.profits))
      && t.top == t.profits[FirstMaxIndex(t.profits)]
      && (t.top.vessel != base.vessel || t.top.cargo != base.cargo)
      && Abs(t.top.profit - BaseProfitAt(base, vlsfoPrice, mgoPrice, speedKnots, start)) > Epsilon
  {
    var baseProfit := RunPartialVoyage(base, vlsfoPrice, mgoPrice, speedKnots, start).profit;
    var n := SweepCount(start, end, step);
    var k := 0;
    while k < n
      invariant 0 <= k <= n
      invariant pool == [] ==> k == 0
      invariant forall j: nat :: j < k ==>
        !DelayFlipsAt(base, pool, vlsfoPrice, mgoPrice, speedKnots, start, step, j)
    {
      var delayDays := SweepValue(start, step, k);
      var profits := CollectProfits(pool, vlsfoPrice, mgoPrice, speedKnots, delayDays);
      if |profits| == 0 {
        return EmptyPool;
      }
      var top := MaxByProfit(profits);
      assert profits == DelayProfits(pool, vlsfoPrice, mgoPrice, speedKnots, start, step, k);
      ghost var flips := DelayFlipsAt(base, pool, vlsfoPrice, mgoPrice, speedKnots, start, step, k);
      assert flips <==> (top.vessel != base.vessel || top.cargo != base.cargo) && Abs(top.profit - baseProfit) > Epsilon;
      if (top.vessel != base.vessel || top.cargo != base.cargo) && Abs(top.profit - baseProfit) > Epsilon {
        t := Found(delayDays, top, profits);
        assert flips && k < n && t.value == SweepValue(start, step, k);
        return;
      }
      assert !flips;
      forall j: nat | j < k + 1
        ensures !DelayFlipsAt(base, pool, vlsfoPrice, mgoPrice, speedKnots, start, step, j)
      {
      }
      k := k + 1;
    }
    return NotFound;
  }

  // ---------------- Bunker price sweep ----------------

  /** The VLSFO price raised by a percentage. */
  function RaisedPrice(vlsfoPrice: real, pctIncrease: real): real {
    vlsfoPrice * (1.0 + pctIncrease / 100.0)
  }

  /** Profits list at the k-th percentage: VLSFO raised, MGO unchanged. */
  function PriceProfits(pool: seq<VoyageRecord>, vlsfoPrice: real, mgoPrice: real,
                        speedKnots: real, extraDays: real, start: real, step: real, k: nat): seq<Choice>
    requires SpeedsKnown(pool)
  {
    ProfitsAt(pool, RaisedPrice(vlsfoPrice, SweepValue(start, step, k)), mgoPrice, speedKnots, extraDays)
  }

  predicate PriceFlipsAt(base: VoyageRecord, pool: seq<VoyageRecord>, vlsfoPrice: real,
                         mgoPrice: real, speedKnots: real, extraDays: real,
                         start: real, step: real, k: nat)
    requires BaseSpeed(base) != 0.0 && SpeedsKnown(pool)
  {
    Flips(PriceProfits(pool, vlsfoPrice, mgoPrice, speedKnots, extraDays, start, step, k),
          base.vessel, base.cargo, BaseProfitAt(base, vlsfoPrice, mgoPrice, speedKnots, extraDays))
  }

  method FindBunkerPriceThreshold(base: VoyageRecord, pool: seq<VoyageRecord>,
                                  vlsfoPrice: real, mgoPrice: real, speedKnots: real,
                                  extraDays: real, start: real := 0.0, end: real := 200.0,
                                  step: real := 1.0)
    returns (t: Threshold)
    requires step != 0.0
    requires BaseSpeed(base) != 0.0 && SpeedsKnown(pool)
    ensures t.EmptyPool? <==> pool == [] && SweepCount(start, end, step) > 0
    ensures pool != [] ==>
      (t.NotFound? <==> forall k: nat :: k < SweepCount(start, end, step) ==>
         !PriceFlipsAt(base, pool, vlsfoPrice, mgoPrice, speedKnots, extraDays, start, step, k))
    ensures t.Found? ==> exists k: nat ::
      && k < SweepCount(start, end, step)
      && t.value == SweepValue(start, step, k)
      && t.profits == PriceProfits(pool, vlsfoPrice, mgoPrice, speedKnots, extraDays, start, step, k)
      && PriceFlipsAt(base, pool, vlsfoPrice, mgoPrice, speedKnots, extraDays, start, step, k)
      && (forall j: nat :: j < k ==>
            !PriceFlipsAt(base, pool, vlsfoPrice, mgoPrice, speedKnots, extraDays, start, step, j))
    ensures t.Found? ==>
      && |t.profits| == |pool|
      && IsFirstMax(t.profits, FirstMaxIndex(t.profits))
      && t.top == t.profits[FirstMaxIndex(t.profits)]
      && (t.top.vessel != base.vessel || t.top.cargo != base.cargo)
      && Abs(t.top.profit - BaseProfitAt(base, vlsfoPrice, mgoPrice, speedKnots, extraDays)) > Epsilon
  {
    var baseProfit := RunPartialVoyage(base, vlsfoPrice, mgoPrice, speedKnots, extraDays).profit;
    var n := SweepCount(start, end, step);
    var k := 0;
    while k < n
      invariant 0 <= k <= n
      invariant pool == [] ==> k == 0
      invariant forall j: nat :: j < k ==>
        !PriceFlipsAt(base, pool, vlsfoPrice, mgoPrice, speedKnots, extraDays, start, step, j)
    {
      var pctIncrease := SweepValue(start, step, k);
      var newVlsfoPrice := RaisedPrice(vlsfoPrice, pctIncrease);
      var profits := CollectProfits(pool, newVlsfoPrice, mgoPrice, speedKnots, extraDays);
      if |profits| == 0 {
        return EmptyPool;
      }
      var top := MaxByProfit(profits);
      assert profits == PriceProfits(pool, vlsfoPrice, mgoPrice, speedKnots, extraDays, start, step, k);
      ghost var flips := PriceFlipsAt(base, pool, vlsfoPrice, mgoPrice, speedKnots, extraDays, start, step, k);
      assert flips <==> (top.vessel != base.vessel || top.cargo != base.cargo) && Abs(top.profit - baseProfit) > Epsilon;
      if (top.vessel != base.vessel || top.cargo != base.cargo) && Abs(top.profit - baseProfit) > Epsilon {
        t := Found(pctIncrease, top, profits);
        assert flips && k < n && t.value == SweepValue(start, step, k);
        return;
      }
      assert !flips;
      forall j: nat | j < k + 1
        ensures !PriceFlipsAt(base, pool, vlsfoPrice, mgoPrice, speedKnots, extraDays, start, step, j)
      {
      }
      k := k + 1;
    }
    return NotFound;
  }

  // ---------------- Properties of the sweeps ----------------

  /** A pool in which every row carries the baseline's key (the baseline
      alone, say) has no delay threshold. */
  method DelaySweepOfSameKeyPool(base: VoyageRecord, pool: seq<VoyageRecord>,
                                 vlsfoPrice: real, mgoPrice: real, speedKnots: real,
                                 start: real, end: real, step: real)
    returns (t: Threshold)
    requires step != 0.0
    requires BaseSpeed(base) != 0.0 && SpeedsKnown(pool) && pool != []
    requires forall i :: 0 <= i < |pool| ==> SameKey(pool[i], base.vessel, base.cargo)
    ensures t == NotFound
  {
    t := FindDelayThreshold(base, pool, vlsfoPrice, mgoPrice, speedKnots, start, end, step);
    forall k: nat | k < SweepCount(start, end, step)
      ensures !DelayFlipsAt(base, pool, vlsfoPrice, mgoPrice, speedKnots, start, step, k)
    {
      SameKeyPoolNeverFlips(pool, base, vlsfoPrice, mgoPrice, speedKnots, SweepValue(start, step, k),
                            BaseProfitAt(base, vlsfoPrice, mgoPrice, speedKnots, start));
    }
  }

  /** The same for the bunker price sweep. */
  method PriceSweepOfSameKeyPool(base: VoyageRecord, pool: seq<VoyageRecord>,
                                 vlsfoPrice: real, mgoPrice: real, speedKnots: real,
                                 extraDays: real, start: real, end: real, step: real)
    returns (t: Threshold)
    requires step != 0.0
    requires BaseSpeed(base) != 0.0 && SpeedsKnown(pool) && pool != []
    requires forall i :: 0 <= i < |pool| ==> SameKey(pool[i], base.vessel, base.cargo)
    ensures t == NotFound
  {
    t := FindBunkerPriceThreshold(base, pool, vlsfoPrice, mgoPrice, speedKnots, extraDays, start, end, step);
    forall k: nat | k < SweepCount(start, end, step)
      ensures !PriceFlipsAt(base, pool, vlsfoPrice, mgoPrice, speedKnots, extraDays, start, step, k)
    {
      SameKeyPoolNeverFlips(pool, base, RaisedPrice(vlsfoPrice, SweepValue(start, step, k)), mgoPrice,
                            speedKnots, extraDays,
                            BaseProfitAt(base, vlsfoPrice, mgoPrice, speedKnots, extraDays));
    }
  }

  // A two-vessel pool: vessel A carries five times B's fuel, so A's profit
  // falls faster as VLSFO gets dearer.
  const VesselA := VoyageRecord("A", "X", Some(10.0), Some(100000.0), None, Some(500.0), Some(50.0),
                                Some(500.0), Some(650.0), Some(12.0))
  const VesselB := VoyageRecord("B", "Y", Some(10.0), Some(90000.0), None, Some(100.0), Some(10.0),
                                Some(500.0), Some(650.0), Some(12.0))

  /** A's revenue is 532500, so at VLSFO price p it earns 350000 - 500p. */
  lemma ProfitOfA(p: real)
    ensures RunPartialVoyage(VesselA, p, 650.0, 12.0, 0.0).profit == 350000.0 - 500.0 * p
  {
    assert Cube(12.0 / 12.0) == 1.0;
  }

  /** B's revenue is 296500, so at VLSFO price p it earns 140000 - 100p. */
  lemma ProfitOfB(p: real)
    ensures RunPartialVoyage(VesselB, p, 650.0, 12.0, 0.0).profit == 140000.0 - 100.0 * p
  {
    assert Cube(12.0 / 12.0) == 1.0;
  }

  /** At k percent, A earns 100000 - 2500k and B earns 90000 - 500k. */
  lemma ScenarioProfits(k: nat)
    ensures PriceProfits([VesselA, VesselB], 500.0, 650.0, 12.0, 0.0, 0.0, 1.0, k)
         == [Choice("A", "X", 100000.0 - 2500.0 * k as real), Choice("B", "Y", 90000.0 - 500.0 * k as real)]
  {
    var pool := [VesselA, VesselB];
    var price := RaisedPrice(500.0, SweepValue(0.0, 1.0, k));
    assert price == 500.0 + 5.0 * k as real;
    ProfitOfA(price);
    ProfitOfB(price);
    ProfitsAtEntry(pool, price, 650.0, 12.0, 0.0, 0);
    ProfitsAtEntry(pool, price, 650.0, 12.0, 0.0, 1);
    var ps := ProfitsAt(pool, price, 650.0, 12.0, 0.0);
    assert ps[0].profit == 100000.0 - 2500.0 * k as real;
    assert ps[1].profit == 90000.0 - 500.0 * k as real;
  }

  /** The sweep flips exactly from 6 percent on: at 5 percent the two tie
      and the first-seen A keeps the lead. */
  lemma ScenarioFlipsFromSix(k: nat)
    ensures PriceFlipsAt(VesselA, [VesselA, VesselB], 500.0, 650.0, 12.0, 0.0, 0.0, 1.0, k) <==> k >= 6
  {
    ScenarioProfits(k);
    ScenarioProfits(0);
    var ps := PriceProfits([VesselA, VesselB], 500.0, 650.0, 12.0, 0.0, 0.0, 1.0, k);
    assert ps[..1] == [ps[0]];
    assert BaseProfitAt(VesselA, 500.0, 650.0, 12.0, 0.0) == 100000.0 by {
      assert RaisedPrice(500.0, SweepValue(0.0, 1.0, 0)) == 500.0;
      ProfitsAtEntry([VesselA, VesselB], 500.0, 650.0, 12.0, 0.0, 0);
    }
  }

  /** Sweeping the VLSFO price from 0 to 200 percent in 1 percent steps, B
      overtakes A at 6 percent. */
  method BunkerPriceScenario() returns (t: Threshold)
    ensures t == Found(6.0, Choice("B", "Y", 87000.0),
                       [Choice("A", "X", 85000.0), Choice("B", "Y", 87000.0)])
  {
    var pool := [VesselA, VesselB];
    t := FindBunkerPriceThreshold(VesselA, pool, 500.0, 650.0, 12.0, 0.0);
    var n := SweepCount(0.0, 200.0, 1.0);
    assert BeforeStop(0.0, 200.0, 1.0, 6);
    ScenarioFlipsFromSix(6);
    assert t.Found?;
    ghost var k: nat :| && k < n
                        && t.value == SweepValue(0.0, 1.0, k)
                        && t.profits == PriceProfits(pool, 500.0, 650.0, 12.0, 0.0, 0.0, 1.0, k)
                        && PriceFlipsAt(VesselA, pool, 500.0, 650.0, 12.0, 0.0, 0.0, 1.0, k)
                        && (forall j: nat :: j < k ==>
                              !PriceFlipsAt(VesselA, pool, 500.0, 650.0, 12.0, 0.0, 0.0, 1.0, j));
    ScenarioFlipsFromSix(k);
    assert k == 6;
    ScenarioProfits(6);
    assert t.profits == [Choice("A", "X", 85000.0), Choice("B", "Y", 87000.0)];
    assert t.profits[..1] == [t.profits[0]];
  }
}
