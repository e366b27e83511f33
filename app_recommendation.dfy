/** The decision layer of the interactive calculator: re-prices a precomputed
    combination at new bunker prices (shifting the baseline profit by the
    change in the fuel bill), turns the result into an ASSIGN / HEDGE /
    DECLINE recommendation, and ranks the whole table for the top five. */
module AppRecommendation {
  import opened Records
  import VoyageEconomics

  /** The adjusted figures of one combination. */
  datatype Adjusted = Adjusted(
    origProfit: real,
    adjProfit: real,
    origTce: real,
    adjTce: real,
    days: real,
    totalVlsfoMt: real,
    totalMgoMt: real)

  /** Days of a row: a missing or zero column counts as one day. */
  function RowDays(row: VoyageRecord): real {
    if row.days.None? || row.days.value == 0.0 then 1.0 else row.days.value
  }

  function ComputeAdjustedProfit(row: VoyageRecord, vlsfoNew: real, mgoNew: real): (a: Adjusted)
    // the recorded quantities, with defaults for missing columns
    ensures a.origProfit == row.profit.GetOr(0.0) && a.origTce == row.tce.GetOr(0.0)
    ensures a.totalVlsfoMt == row.totalVlsfoMt.GetOr(0.0) && a.totalMgoMt == row.totalMgoMt.GetOr(0.0)
    // margin before bunkers is preserved: only the fuel bill is re-priced
    ensures a.adjProfit + vlsfoNew * a.totalVlsfoMt + mgoNew * a.totalMgoMt
         == a.origProfit + row.vlsfoPrice.GetOr(vlsfoNew) * a.totalVlsfoMt
          + row.mgoPrice.GetOr(mgoNew) * a.totalMgoMt
    // never zero days, and a missing or zero days column means one day
    ensures a.days != 0.0
    ensures (row.days.None? || row.days.value == 0.0) ==> a.days == 1.0
    ensures row.days.Some? && row.days.value != 0.0 ==> a.days == row.days.value
    // TCE is adjusted profit per day, 0 on a negative duration
    ensures a.days > 0.0 ==> a.adjTce * a.days == a.adjProfit
    ensures a.days < 0.0 ==> a.adjTce == 0.0
  {
    var origProfit := row.profit.GetOr(0.0);
    var vlsfoOrig := row.vlsfoPrice.GetOr(vlsfoNew);
    var mgoOrig := row.mgoPrice.GetOr(mgoNew);
    var totalVlsfo := row.totalVlsfoMt.GetOr(0.0);
    var totalMgo := row.totalMgoMt.GetOr(0.0);
    var days := RowDays(row);

    var delta := (vlsfoNew - vlsfoOrig) * totalVlsfo + (mgoNew - mgoOrig) * totalMgo;
    var adjProfit := origProfit - delta;
    var adjTce := if days > 0.0 then adjProfit / days else 0.0;
    VoyageEconomics.QuotientTimesDivisor(adjProfit, days);
    Adjusted(origProfit, adjProfit, row.tce.GetOr(0.0), adjTce, days, totalVlsfo, totalMgo)
  }

  /** Re-pricing at the row's own prices (or with its price columns missing)
      leaves the profit as it was. */
  lemma UnchangedPricesKeepProfit(row: VoyageRecord, vlsfoNew: real, mgoNew: real)
    requires row.vlsfoPrice.GetOr(vlsfoNew) == vlsfoNew
    requires row.mgoPrice.GetOr(mgoNew) == mgoNew
    ensures ComputeAdjustedProfit(row, vlsfoNew, mgoNew).adjProfit == row.profit.GetOr(0.0)
  {
  }

  /** A row without profit and fuel columns has zero adjusted profit at any
      price. */
  lemma MissingColumnsGiveZeroProfit(row: VoyageRecord, vlsfoNew: real, mgoNew: real)
    requires row.profit.None? && row.totalVlsfoMt.None? && row.totalMgoMt.None?
    ensures ComputeAdjustedProfit(row, vlsfoNew, mgoNew).adjProfit == 0.0
  {
  }

  /** Raising the VLSFO price by d lowers a row's adjusted profit by d times
      its VLSFO tonnage when the row records its VLSFO price, and not at all
      when it does not. */
  lemma VlsfoPriceShiftsProfit(row: VoyageRecord, vlsfoNew: real, d: real, mgoNew: real)
    ensures var a0 := ComputeAdjustedProfit(row, vlsfoNew, mgoNew);
            var a1 := ComputeAdjustedProfit(row, vlsfoNew + d, mgoNew);
            a1.adjProfit == (if row.vlsfoPrice.Some? then a0.adjProfit - d * a0.totalVlsfoMt
                             else a0.adjProfit)
  {
    var a0 := ComputeAdjustedProfit(row, vlsfoNew, mgoNew);
    var a1 := ComputeAdjustedProfit(row, vlsfoNew + d, mgoNew);
    assert (vlsfoNew + d) * a0.totalVlsfoMt == vlsfoNew * a0.totalVlsfoMt + d * a0.totalVlsfoMt;
  }

  /** The shortcut agrees with the full recalculation: sailing at the
      baseline speed (at least 1 knot) with no extra days, the kernel's profit
      is the adjusted profit, at any prices. */
  lemma AdjustedProfitMatchesRecalculation(row: VoyageRecord, vlsfoNew: real, mgoNew: real,
                                           dailyHire: real, opexPerDay: real)
    requires VoyageEconomics.BaseSpeed(row) >= 1.0
    ensures VoyageEconomics.RunPartialVoyage(row, vlsfoNew, mgoNew, VoyageEconomics.BaseSpeed(row),
                                             0.0, dailyHire, opexPerDay).profit
         == ComputeAdjustedProfit(row, vlsfoNew, mgoNew).adjProfit
  {
    var s := VoyageEconomics.BaseSpeed(row);
    var r := VoyageEconomics.RunPartialVoyage(row, vlsfoNew, mgoNew, s, 0.0, dailyHire, opexPerDay);
    assert Max(s, 1.0) == s;
    assert s / s == 1.0;
    assert VoyageEconomics.Cube(s / s) == 1.0;
    assert r.days == VoyageEconomics.BaseDays(row);
    assert r.vlsfoMt == VoyageEconomics.BaseVlsfoMt(row) && r.mgoMt == VoyageEconomics.BaseMgoMt(row);
  }

  // ---------------- Recommendation ----------------

  datatype Action = Assign | Hedge | Decline

  /** The hedging band reaches down to 5% of the original profit (of at
      least 1) below zero. */
  function HedgeFloor(origProfit: real): (f: real)
    ensures f <= -0.05
  {
    -0.05 * Max(1.0, origProfit)
  }

  function Recommend(adjProfit: real, origProfit: real): (a: Action)
    ensures a == Assign <==> adjProfit >= 0.0
    ensures a == Hedge <==> HedgeFloor(origProfit) < adjProfit < 0.0
    ensures a == Decline <==> adjProfit <= HedgeFloor(origProfit)
  {
    if adjProfit >= 0.0 then Assign
    else if adjProfit > HedgeFloor(origProfit) then Hedge
    else Decline
  }

  /** Decline < Hedge < Assign. */
  function Rank(a: Action): nat {
    match a
    case Decline => 0
    case Hedge => 1
    case Assign => 2
  }

  /** For a fixed original profit, a higher adjusted profit never gets a
      weaker recommendation. */
  lemma RecommendIsMonotone(adj1: real, adj2: real, origProfit: real)
    requires adj1 <= adj2
    ensures Rank(Recommend(adj1, origProfit)) <= Rank(Recommend(adj2, origProfit))
  {
  }

  /** A loss smaller than 0.05 is always hedged, whatever the original profit. */
  lemma SmallLossIsHedged(adjProfit: real, origProfit: real)
    requires -0.05 < adjProfit < 0.0
    ensures Recommend(adjProfit, origProfit) == Hedge
  {
  }

  /** The recommendation shown for a row at the new prices. */
  function RecommendRow(row: VoyageRecord, vlsfoNew: real, mgoNew: real): (act: Action)
    ensures row.vlsfoPrice.GetOr(vlsfoNew) == vlsfoNew && row.mgoPrice.GetOr(mgoNew) == mgoNew
            ==> (act == Assign <==> row.profit.GetOr(0.0) >= 0.0)
  {
    var adjusted := ComputeAdjustedProfit(row, vlsfoNew, mgoNew);
    var act := Recommend(adjusted.adjProfit, adjusted.origProfit);
    assert row.vlsfoPrice.GetOr(vlsfoNew) == vlsfoNew && row.mgoPrice.GetOr(mgoNew) == mgoNew
           ==> adjusted.adjProfit == row.profit.GetOr(0.0);
    act
  }

  // ---------------- Top five ----------------

  const TopCount: nat := 5

  /** A row with its adjusted profit at the new prices. */
  datatype Ranked = Ranked(row: VoyageRecord, adjProfit: real)

  function Scored(rows: seq<VoyageRecord>, vlsfoNew: real, mgoNew: real): seq<Ranked> {
    seq(|rows|, i requires 0 <= i < |rows| =>
      Ranked(rows[i], ComputeAdjustedProfit(rows[i], vlsfoNew, mgoNew).adjProfit))
  }

  predicate NonIncreasing(s: seq<Ranked>) {
    forall i, j :: 0 <= i < j < |s| ==> s[j].adjProfit <= s[i].adjProfit
  }

  /** Insert x into a non-increasing sequence, after the entries not below it. */
  function Insert(x: Ranked, s: seq<Ranked>): (r: seq<Ranked>)
    requires NonIncreasing(s)
    ensures NonIncreasing(r)
    ensures |r| == |s| + 1
    ensures r[0] == x || (s != [] && r[0] == s[0])
    decreases |s|
  {
    if s == [] then [x]
    else if x.adjProfit > s[0].adjProfit then [x] + s
    else
      var rest := Insert(x, s[1..]);
      assert rest[0].adjProfit <= s[0].adjProfit;
      assert forall j :: 0 <= j < |rest| ==> rest[j].adjProfit <= rest[0].adjProfit;
      [s[0]] + rest
  }

  lemma {:induction false} InsertPermutes(x: Ranked, s: seq<Ranked>)
    requires NonIncreasing(s)
    ensures multiset(Insert(x, s)) == multiset(s) + multiset{x}
    decreases |s|
  {
    if s != [] && x.adjProfit <= s[0].adjProfit {
      InsertPermutes(x, s[1..]);
      assert s == [s[0]] + s[1..];
    }
  }

  /** Descending by adjusted profit. */
  function SortDescending(s: seq<Ranked>): (r: seq<Ranked>)
    ensures NonIncreasing(r)
    ensures |r| == |s|
    decreases |s|
  {
    if s == [] then [] else Insert(s[0], SortDescending(s[1..]))
  }

  lemma {:induction false} SortPermutes(s: seq<Ranked>)
    ensures multiset(SortDescending(s)) == multiset(s)
    decreases |s|
  {
    if s != [] {
      SortPermutes(s[1..]);
      InsertPermutes(s[0], SortDescending(s[1..]));
      assert s == [s[0]] + s[1..];
    }
  }

  /** The first five of the rows sorted by descending adjusted profit:
      min(5, n) rows, in non-increasing order, drawn from the scored rows,
      none of the rows left out above any row kept. */
  function TakeTop(scored: seq<Ranked>): (top: seq<Ranked>)
    ensures |top| == if |scored| < TopCount then |scored| else TopCount
    ensures NonIncreasing(top)
    ensures multiset(top) <= multiset(scored)
    ensures forall x, y :: x in multiset(scored) - multiset(top) && y in top ==> x.adjProfit <= y.adjProfit
  {
    var sorted := SortDescending(scored);
    var m := if |sorted| < TopCount then |sorted| else TopCount;
    SortPermutes(scored);
    TakeSplits(sorted, m);
    PrefixNonIncreasing(sorted, m);
    sorted[..m]
  }

  /** The table's top five at the new prices. */
  function TopAssignments(rows: seq<VoyageRecord>, vlsfoNew: real, mgoNew: real): (top: seq<Ranked>)
    ensures |top| == if |rows| < TopCount then |rows| else TopCount
    ensures NonIncreasing(top)
    ensures multiset(top) <= multiset(Scored(rows, vlsfoNew, mgoNew))
    ensures forall x, y :: x in multiset(Scored(rows, vlsfoNew, mgoNew)) - multiset(top) && y in top
              ==> x.adjProfit <= y.adjProfit
    ensures forall i :: 0 <= i < |top| ==>
      top[i].adjProfit == ComputeAdjustedProfit(top[i].row, vlsfoNew, mgoNew).adjProfit
  {
    var scored := Scored(rows, vlsfoNew, mgoNew);
    var top := TakeTop(scored);
    assert forall i :: 0 <= i < |top| ==> top[i] in multiset(scored);
    top
  }

  /** The first m entries of a non-increasing sequence and the rest:
      everything in the rest is at most everything in the head. */
  lemma TakeSplits(s: seq<Ranked>, m: nat)
    requires NonIncreasing(s) && m <= |s|
    ensures multiset(s[..m]) <= multiset(s)
    ensures multiset(s) - multiset(s[..m]) == multiset(s[m..])
    ensures forall x, y :: x in multiset(s) - multiset(s[..m]) && y in s[..m] ==> x.adjProfit <= y.adjProfit
  {
    assert s == s[..m] + s[m..];
    assert multiset(s) == multiset(s[..m]) + multiset(s[m..]);
    forall x, y | x in multiset(s) - multiset(s[..m]) && y in s[..m]
      ensures x.adjProfit <= y.adjProfit
    {
      assert x in s[m..];
      var j :| m <= j < |s| && s[j] == x;
      var i :| 0 <= i < m && s[i] == y;
    }
  }

  lemma PrefixNonIncreasing(s: seq<Ranked>, m: nat)
    requires NonIncreasing(s) && m <= |s|
    ensures NonIncreasing(s[..m])
  {
    forall i, j | 0 <= i < j < m ensures s[..m][j].adjProfit <= s[..m][i].adjProfit {
      assert s[..m][i] == s[i] && s[..m][j] == s[j];
    }
  }
}
