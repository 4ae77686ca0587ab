/** The sensitivity heatmap: the two axes drawn from the points, the lookup
    from an (exit rate, growth) pair to its point, the metric shown, and the
    colour scale normalised over the shown values. Keys are the pairs
    themselves; the page joins the two numbers into a string. */
module SensitivityHeatmap {

  import opened Outcomes
  import opened Assumptions
  import opened Underwriting

  // ----- axes -----

  predicate Increasing(xs: seq<real>) {
    forall i, j :: 0 <= i < j < |xs| ==> xs[i] < xs[j]
  }

  /** Puts `x` into an increasing list unless it is there already. */
  function Insert(sorted: seq<real>, x: real): (r: seq<real>)
    requires Increasing(sorted)
    ensures Increasing(r)
    ensures forall y :: y in r <==> y in sorted || y == x
    decreases |sorted|
  {
    if sorted == [] then [x]
    else if x < sorted[0] then [x] + sorted
    else if x == sorted[0] then sorted
    else
      var rest := Insert(sorted[1..], x);
      assert forall y :: y in rest ==> sorted[0] < y;
      var r := [sorted[0]] + rest;
      assert forall i, j :: 0 <= i < j < |r| ==> r[i] < r[j] by {
        forall i, j | 0 <= i < j < |r|
          ensures r[i] < r[j]
        {
          assert r[j] == rest[j - 1] && r[j] in rest;
          if i > 0 {
            assert r[i] == rest[i - 1];
          }
        }
      }
      r
  }

  /** `Array.from(new Set(xs)).sort((a, b) => a - b)`: the distinct values in
      ascending order. */
  function Axis(xs: seq<real>): (r: seq<real>)
    ensures Increasing(r)
    ensures forall y :: y in r <==> y in xs
    decreases |xs|
  {
    if xs == [] then []
    else
      var n := |xs| - 1;
      assert xs == xs[..n] + [xs[n]];
      Insert(Axis(xs[..n]), xs[n])
  }

  /** An increasing list is fixed by its elements, so `Axis` is the only
      increasing arrangement of the distinct values. */
  lemma {:induction false} IncreasingUnique(a: seq<real>, b: seq<real>)
    requires Increasing(a) && Increasing(b)
    requires forall y :: y in a <==> y in b
    ensures a == b
    decreases |a|
  {
    if a != [] {
      assert a[0] in a;
      assert b != [];
    }
    if b != [] {
      assert b[0] in b;
      assert a != [];
    }
    if a != [] && b != [] {
      assert a[0] == b[0] by {
        assert a[0] in a && b[0] in b;
        var i :| 0 <= i < |a| && a[i] == b[0];
        var j :| 0 <= j < |b| && b[j] == a[0];
        assert a[0] <= a[i] && b[0] <= b[j];
      }
      forall y
        ensures y in a[1..] <==> y in b[1..]
      {
        if y in a[1..] {
          assert y in b && y != b[0];
        }
        if y in b[1..] {
          assert y in a && y != a[0];
        }
      }
      IncreasingUnique(a[1..], b[1..]);
      assert a == [a[0]] + a[1..] && b == [b[0]] + b[1..];
    }
  }

  function ExitRatesOf(ps: seq<SensitivityPoint>): (r: seq<real>)
    ensures |r| == |ps| && forall k :: 0 <= k < |ps| ==> r[k] == ps[k].exitCapRate
  {
    seq(|ps|, k requires 0 <= k < |ps| => ps[k].exitCapRate)
  }

  function RentGrowthsOf(ps: seq<SensitivityPoint>): (r: seq<real>)
    ensures |r| == |ps| && forall k :: 0 <= k < |ps| ==> r[k] == ps[k].rentGrowth
  {
    seq(|ps|, k requires 0 <= k < |ps| => ps[k].rentGrowth)
  }

  /** The row axis (exit cap rates) and the column axis (rent growths). */
  function RowAxis(ps: seq<SensitivityPoint>): seq<real> {
    Axis(ExitRatesOf(ps))
  }

  function ColumnAxis(ps: seq<SensitivityPoint>): seq<real> {
    Axis(RentGrowthsOf(ps))
  }

  // ----- lookup -----

  function KeyOf(p: SensitivityPoint): (real, real) {
    (p.exitCapRate, p.rentGrowth)
  }

  /** The lookup after `forEach` has set the points in order. */
  function Lookup(ps: seq<SensitivityPoint>): map<(real, real), SensitivityPoint>
    decreases |ps|
  {
    if ps == [] then map[] else Lookup(ps[..|ps| - 1])[KeyOf(ps[|ps| - 1]) := ps[|ps| - 1]]
  }

  /** The `forEach` filling the lookup. */
  method BuildLookup(ps: seq<SensitivityPoint>) returns (lookup: map<(real, real), SensitivityPoint>)
    ensures lookup == Lookup(ps)
  {
    lookup := map[];
    var i := 0;
    while i < |ps|
      invariant 0 <= i <= |ps|
      invariant lookup == Lookup(ps[..i])
    {
      assert ps[..i + 1][..i] == ps[..i];
      lookup := lookup[KeyOf(ps[i]) := ps[i]];
      i := i + 1;
    }
    assert ps[..|ps|] == ps;
  }

  /** The lookup has a key for exactly the pairs some point carries, and the
      point stored under a key carries that key. */
  lemma {:induction false} LookupKeys(ps: seq<SensitivityPoint>, key: (real, real))
    ensures key in Lookup(ps) <==> exists k :: 0 <= k < |ps| && KeyOf(ps[k]) == key
    ensures key in Lookup(ps) ==> KeyOf(Lookup(ps)[key]) == key
    decreases |ps|
  {
    if ps != [] {
      var n := |ps| - 1;
      LookupKeys(ps[..n], key);
      if key != KeyOf(ps[n]) && key in Lookup(ps) {
        var k :| 0 <= k < n && KeyOf(ps[..n][k]) == key;
        assert KeyOf(ps[k]) == key;
      }
      if exists k :: 0 <= k < |ps| && KeyOf(ps[k]) == key {
        var k :| 0 <= k < |ps| && KeyOf(ps[k]) == key;
        if k < n {
          assert KeyOf(ps[..n][k]) == key;
        }
      }
    }
  }

  /** Of several points with one pair, the last one set is the one kept. */
  lemma {:induction false} LookupLastWins(ps: seq<SensitivityPoint>, k: nat)
    requires k < |ps|
    requires forall j :: k < j < |ps| ==> KeyOf(ps[j]) != KeyOf(ps[k])
    ensures KeyOf(ps[k]) in Lookup(ps) && Lookup(ps)[KeyOf(ps[k])] == ps[k]
    decreases |ps|
  {
    var n := |ps| - 1;
    if k < n {
      LookupLastWins(ps[..n], k);
    }
  }

  /** A cell: the point with the row's exit rate and the column's growth, or
      an empty cell. */
  function Cell(lookup: map<(real, real), SensitivityPoint>, exitRate: real, rentGrowth: real): Option<SensitivityPoint> {
    if (exitRate, rentGrowth) in lookup then Some(lookup[(exitRate, rentGrowth)]) else None
  }

  /** A cell is filled exactly when some point has its pair, and then shows a
      point with that pair. */
  lemma CellMeaning(ps: seq<SensitivityPoint>, exitRate: real, rentGrowth: real)
    ensures var c := Cell(Lookup(ps), exitRate, rentGrowth);
      && (c.Some? <==> exists k :: 0 <= k < |ps| && KeyOf(ps[k]) == (exitRate, rentGrowth))
      && (c.Some? ==> c.value.exitCapRate == exitRate && c.value.rentGrowth == rentGrowth)
  {
    LookupKeys(ps, (exitRate, rentGrowth));
  }

  // ----- metric and colour -----

  datatype Metric = IrrPct | EquityMultiple | CashOnCashPct | NetProfit

  /** `getMetricValue`: the field the selected metric names. */
  function MetricValue(p: SensitivityPoint, m: Metric): real {
    match m
    case IrrPct => p.irrPct
    case EquityMultiple => p.equityMultiple
    case CashOnCashPct => p.cashOnCashPct
    case NetProfit => p.netProfit
  }

  function MetricValues(ps: seq<SensitivityPoint>, m: Metric): (r: seq<real>)
    ensures |r| == |ps| && forall k :: 0 <= k < |ps| ==> r[k] == MetricValue(ps[k], m)
  {
    seq(|ps|, k requires 0 <= k < |ps| => MetricValue(ps[k], m))
  }

  /** `Math.min(...xs)` of a non-empty list. */
  function MinOf(xs: seq<real>): (r: real)
    requires xs != []
    ensures r in xs && forall k :: 0 <= k < |xs| ==> r <= xs[k]
    decreases |xs|
  {
    if |xs| == 1 then xs[0]
    else
      var m := MinOf(xs[..|xs| - 1]);
      assert forall k :: 0 <= k < |xs| - 1 ==> xs[..|xs| - 1][k] == xs[k];
      if xs[|xs| - 1] < m then xs[|xs| - 1] else m
  }

  /** `Math.max(...xs)` of a non-empty list. */
  function MaxOf(xs: seq<real>): (r: real)
    requires xs != []
    ensures r in xs && forall k :: 0 <= k < |xs| ==> xs[k] <= r
    decreases |xs|
  {
    if |xs| == 1 then xs[0]
    else
      var m := MaxOf(xs[..|xs| - 1]);
      assert forall k :: 0 <= k < |xs| - 1 ==> xs[..|xs| - 1][k] == xs[k];
      if xs[|xs| - 1] > m then xs[|xs| - 1] else m
  }

  /** A cell colour: the fixed light violet, or hue, saturation and lightness
      in degrees and percent. */
  datatype Color = Primary200 | Hsl(hue: real, saturation: real, lightness: real)

  /** `getHeatmapColor`: red at the minimum, green at the maximum. */
  function HeatmapColor(value: real, min: real, max: real): Color {
    if min == max then Primary200
    else
      var t := (value - min) / (max - min);
      Hsl(120.0 * t, 70.0, 88.0 - t * 20.0)
  }

  /** The position of a value between the minimum and the maximum. */
  lemma NormalisedPosition(value: real, min: real, max: real)
    requires min < max && min <= value <= max
    ensures 0.0 <= (value - min) / (max - min) <= 1.0
  {
    var d := max - min;
    var t := (value - min) / d;
    assert t * d == value - min;
    if t > 1.0 {
      assert t * d > 1.0 * d;
    }
  }

  /** Every cell of the selected metric gets the fixed colour when all values
      agree, and otherwise a hue from red (0) to green (120) at 70% saturation
      and a lightness from 88% down to 68%, because the minimum and maximum
      are taken over the same values. */
  lemma HeatmapColorRange(ps: seq<SensitivityPoint>, m: Metric, k: nat)
    requires k < |ps|
    ensures var vs := MetricValues(ps, m);
      var c := HeatmapColor(vs[k], MinOf(vs), MaxOf(vs));
      && (c == Primary200 <==> MinOf(vs) == MaxOf(vs))
      && (c.Hsl? ==> 0.0 <= c.hue <= 120.0 && c.saturation == 70.0 && 68.0 <= c.lightness <= 88.0)
  {
    var vs := MetricValues(ps, m);
    var lo := MinOf(vs);
    var hi := MaxOf(vs);
    if lo != hi {
      assert lo <= vs[k] <= hi;
      NormalisedPosition(vs[k], lo, hi);
    }
  }

  /** A higher value is never redder, and the extremes take the two ends of
      the scale. */
  lemma HeatmapColorOrder(v: real, w: real, min: real, max: real)
    requires min < max && v <= w
    ensures HeatmapColor(v, min, max).hue <= HeatmapColor(w, min, max).hue
    ensures HeatmapColor(min, min, max).hue == 0.0 && HeatmapColor(max, min, max).hue == 120.0
  {
    var d := max - min;
    assert (w - min) / d - (v - min) / d == (w - v) / d;
    assert (max - min) / d == 1.0;
  }

  // ----- the engine's grid -----

  /** The shape of the engine's grid: 16 points, row-major over the fixed
      axes, no pair twice. */
  predicate EngineGrid(ps: seq<SensitivityPoint>) {
    && |ps| == 16
    && (forall k :: 0 <= k < 16 ==> ps[k].exitCapRate == ExitRates[k / 4] && ps[k].rentGrowth == RentGrowths[k % 4])
    && (forall k, l :: 0 <= k < l < 16 ==> KeyOf(ps[k]) != KeyOf(ps[l]))
  }

  /** The axes are the given ones and each cell shows the point at its
      row-major grid position. */
  predicate FilledHeatmap(ps: seq<SensitivityPoint>)
    requires |ps| == 16
  {
    && RowAxis(ps) == ExitRates && ColumnAxis(ps) == RentGrowths
    && forall i, j :: 0 <= i < 4 && 0 <= j < 4 ==>
         Cell(Lookup(ps), ExitRates[i], RentGrowths[j]) == Some(ps[GridIndex(i, j)])
  }

  /** For the engine's 16-point grid the axes are exactly the four exit rates
      and the four growths, ascending, and every cell shows the one point with
      its pair. */
  lemma FullGridFillsHeatmap(input: UnderwritingInput)
    requires input.deal.holdPeriodYears >= 1 && SensitivityGrid(input).Success?
    ensures |SensitivityGrid(input).value| == 16 && FilledHeatmap(SensitivityGrid(input).value)
  {
    EngineGridOf(input);
    EngineGridFilled(SensitivityGrid(input).value);
  }

  lemma EngineGridFilled(ps: seq<SensitivityPoint>)
    requires EngineGrid(ps)
    ensures FilledHeatmap(ps)
  {
    EngineGridAxes(ps);
    EngineGridCells(ps);
  }

  lemma EngineGridOf(input: UnderwritingInput)
    requires input.deal.holdPeriodYears >= 1 && SensitivityGrid(input).Success?
    ensures EngineGrid(SensitivityGrid(input).value)
  {
    SensitivityGridShape(input);
  }

  lemma EngineGridAxes(ps: seq<SensitivityPoint>)
    requires EngineGrid(ps)
    ensures RowAxis(ps) == ExitRates && ColumnAxis(ps) == RentGrowths
  {
    forall y
      ensures y in ExitRatesOf(ps) <==> y in ExitRates
    {
      if y in ExitRates {
        var i :| 0 <= i < 4 && ExitRates[i] == y;
        GridIndexParts(i, 0);
        assert ExitRatesOf(ps)[GridIndex(i, 0)] == y;
      }
      if y in ExitRatesOf(ps) {
        var k :| 0 <= k < 16 && ExitRatesOf(ps)[k] == y;
        assert ExitRates[k / 4] == y;
      }
    }
    forall y
      ensures y in RentGrowthsOf(ps) <==> y in RentGrowths
    {
      if y in RentGrowths {
        var j :| 0 <= j < 4 && RentGrowths[j] == y;
        GridIndexParts(0, j);
        assert RentGrowthsOf(ps)[GridIndex(0, j)] == y;
      }
      if y in RentGrowthsOf(ps) {
        var k :| 0 <= k < 16 && RentGrowthsOf(ps)[k] == y;
        assert RentGrowths[k % 4] == y;
      }
    }
    IncreasingUnique(RowAxis(ps), ExitRates);
    IncreasingUnique(ColumnAxis(ps), RentGrowths);
  }

  lemma EngineGridCells(ps: seq<SensitivityPoint>)
    requires EngineGrid(ps)
    ensures forall i, j :: 0 <= i < 4 && 0 <= j < 4 ==>
      Cell(Lookup(ps), ExitRates[i], RentGrowths[j]) == Some(ps[GridIndex(i, j)])
  {
    forall i, j | 0 <= i < 4 && 0 <= j < 4
      ensures Cell(Lookup(ps), ExitRates[i], RentGrowths[j]) == Some(ps[GridIndex(i, j)])
    {
      var k := GridIndex(i, j);
      GridIndexParts(i, j);
      assert KeyOf(ps[k]) == (ExitRates[i], RentGrowths[j]);
      LookupLastWins(ps, k);
    }
  }

  /** The position of row `i`, column `j` in the engine's row-major grid. */
  function GridIndex(i: nat, j: nat): nat {
    4 * i + j
  }

  lemma GridIndexParts(i: nat, j: nat)
    requires i < 4 && j < 4
    ensures GridIndex(i, j) < 16 && GridIndex(i, j) / 4 == i && GridIndex(i, j) % 4 == j
  {
  }
}
