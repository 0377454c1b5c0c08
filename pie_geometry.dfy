/** The angle arithmetic shared by the widget's chart bitmap
    (SpendingWidgetProvider.drawPieChart) and PieChartView.onDraw: sectors
    start at 12 o'clock (-90 degrees), each sweeps its value's share of 360
    degrees, and each starts where the previous one ended. Angles are reals,
    an idealisation of the source's float arithmetic. */
module PieGeometry {
  import opened Colors

  /** One filled sector: where it starts, how far it sweeps, its colour. */
  datatype Arc = Arc(startAngle: real, sweepAngle: real, color: Argb)

  /** What a chart draws: nothing, or sectors under a filled centre disc
      (the donut hole) with an optional label in it. */
  datatype Drawing =
    | NoArcs
    | Donut(arcs: seq<Arc>, radius: real, innerRadius: real, holeColor: Argb, centerLabel: string)

  /** 12 o'clock in the canvas' clockwise-from-3-o'clock convention. */
  const StartAngle: real := -90.0

  function Sum(s: seq<real>): real {
    if s == [] then 0.0 else Sum(s[..|s| - 1]) + s[|s| - 1]
  }

  /** `value / total * 360`: the sector of one value. */
  function Sweep(value: real, total: real): real
    requires total != 0.0
  {
    value / total * 360.0
  }

  /** Where sector `i` starts: 12 o'clock plus the share of everything
      before it. */
  function StartOf(values: seq<real>, i: nat, total: real): real
    requires i <= |values| && total != 0.0
  {
    StartAngle + Sum(values[..i]) / total * 360.0
  }

  /** The sectors for `values`, coloured `palette[i % palette.size]`. */
  function SweepLayout(values: seq<real>, total: real, palette: seq<Argb>): (arcs: seq<Arc>)
    requires total != 0.0 && |palette| > 0
    ensures |arcs| == |values|
  {
    seq(|values|, i requires 0 <= i < |values| =>
      Arc(StartOf(values, i, total), Sweep(values[i], total), palette[i % |palette|]))
  }

  /** The angle at which the last sector ends. */
  function EndAngle(arcs: seq<Arc>): real {
    if arcs == [] then StartAngle else arcs[|arcs| - 1].startAngle + arcs[|arcs| - 1].sweepAngle
  }

  function Sweeps(arcs: seq<Arc>): (s: seq<real>)
    ensures |s| == |arcs|
  {
    seq(|arcs|, i requires 0 <= i < |arcs| => arcs[i].sweepAngle)
  }

  /** Extending the prefix by one value advances the start by its sweep. */
  lemma StartStep(values: seq<real>, i: nat, total: real)
    requires i < |values| && total != 0.0
    ensures StartOf(values, i + 1, total) == StartOf(values, i, total) + Sweep(values[i], total)
  {
    assert values[..i + 1][..i] == values[..i];
    assert Sum(values[..i + 1]) == Sum(values[..i]) + values[i];
    var s := Sum(values[..i]);
    assert (s + values[i]) / total == s / total + values[i] / total;
  }

  /** Every sector starts where the previous one ends, the first at 12
      o'clock, and the last ends at the share of all values; sector i
      sweeps its value's share of 360 degrees in `palette[i % size]`. */
  lemma {:induction false} LayoutIsContiguous(values: seq<real>, total: real, palette: seq<Argb>)
    requires total != 0.0 && |palette| > 0
    ensures var arcs := SweepLayout(values, total, palette);
      && (|arcs| > 0 ==> arcs[0].startAngle == StartAngle)
      && (forall i :: 0 <= i < |arcs| - 1 ==>
            arcs[i + 1].startAngle == arcs[i].startAngle + arcs[i].sweepAngle)
      && EndAngle(arcs) == StartOf(values, |values|, total)
      && (forall i :: 0 <= i < |arcs| ==>
            arcs[i].sweepAngle == values[i] / total * 360.0 && arcs[i].color == palette[i % |palette|])
  {
    var arcs := SweepLayout(values, total, palette);
    if |arcs| > 0 {
      assert values[..0] == [];
    }
    forall i | 0 <= i < |arcs| - 1
      ensures arcs[i + 1].startAngle == arcs[i].startAngle + arcs[i].sweepAngle
    {
      StartStep(values, i, total);
    }
    if |values| > 0 {
      StartStep(values, |values| - 1, total);
    } else {
      assert values[..0] == [];
    }
  }

  /** Dividing every value by the same total divides the sum by it. */
  lemma {:induction false} ScaledSum(values: seq<real>, total: real)
    requires total != 0.0
    ensures Sum(seq(|values|, i requires 0 <= i < |values| => Sweep(values[i], total)))
            == Sum(values) / total * 360.0
  {
    var sweeps := seq(|values|, i requires 0 <= i < |values| => Sweep(values[i], total));
    if values != [] {
      var init := values[..|values| - 1];
      ScaledSum(init, total);
      assert sweeps[..|sweeps| - 1] == seq(|init|, i requires 0 <= i < |init| => Sweep(init[i], total));
      var s := Sum(init);
      assert (s + values[|values| - 1]) / total == s / total + values[|values| - 1] / total;
    }
  }

  /** A total's share of itself is the whole circle. */
  lemma WholeShare(total: real)
    requires total != 0.0
    ensures total / total * 360.0 == 360.0
  {
  }

  /** When the total is the sum of the values, the sectors partition the
      circle: their sweeps add up to 360 degrees and the last one ends at
      270, back at 12 o'clock. */
  lemma LayoutCoversCircle(values: seq<real>, palette: seq<Argb>)
    requires Sum(values) != 0.0 && |palette| > 0
    ensures var arcs := SweepLayout(values, Sum(values), palette);
      Sum(Sweeps(arcs)) == 360.0 && EndAngle(arcs) == 270.0
  {
    var total := Sum(values);
    WholeShare(total);
    var arcs := SweepLayout(values, total, palette);
    LayoutIsContiguous(values, total, palette);
    assert values[..|values|] == values;
    assert EndAngle(arcs) == StartAngle + 360.0;
    ScaledSum(values, total);
    var sweeps := seq(|values|, i requires 0 <= i < |values| => Sweep(values[i], total));
    assert Sweeps(arcs) == sweeps;
  }

  /** A non-negative value is at most the sum of non-negative values. */
  lemma {:induction false} ValueBelowSum(values: seq<real>, i: nat)
    requires i < |values|
    requires forall k :: 0 <= k < |values| ==> values[k] >= 0.0
    ensures 0.0 <= values[i] <= Sum(values)
  {
    var init := values[..|values| - 1];
    NonNegativeSum(init);
    if i < |values| - 1 {
      ValueBelowSum(init, i);
    }
  }

  lemma {:induction false} NonNegativeSum(values: seq<real>)
    requires forall k :: 0 <= k < |values| ==> values[k] >= 0.0
    ensures Sum(values) >= 0.0
  {
    if values != [] {
      NonNegativeSum(values[..|values| - 1]);
    }
  }

  /** A share of a positive total that is at most the total lies in [0, 1]. */
  lemma ShareBounds(v: real, total: real)
    requires 0.0 <= v <= total && total > 0.0
    ensures 0.0 <= v / total <= 1.0
  {
    assert v / total * total == v;
  }

  /** With non-negative values and a positive sum, every sector sweeps
      between 0 and 360 degrees. */
  lemma SweepsWithinCircle(values: seq<real>, palette: seq<Argb>)
    requires forall k :: 0 <= k < |values| ==> values[k] >= 0.0
    requires Sum(values) > 0.0 && |palette| > 0
    ensures forall a :: a in SweepLayout(values, Sum(values), palette) ==>
              0.0 <= a.sweepAngle <= 360.0
  {
    var total := Sum(values);
    var arcs := SweepLayout(values, total, palette);
    forall i | 0 <= i < |values|
      ensures 0.0 <= arcs[i].sweepAngle <= 360.0
    {
      ValueBelowSum(values, i);
      ShareBounds(values[i], total);
    }
  }
}
