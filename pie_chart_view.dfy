/** PieChartView: a view that keeps a list of labelled sections and their
    total, and draws them as a donut whose sectors cycle through a fixed
    six-colour palette. */
module PieChart {
  import opened Wrappers
  import opened Colors
  import opened PieGeometry

  /** `PieSection`: a label, a value and an optional colour of its own,
      which the view never uses. */
  datatype PieSection = PieSection(labelText: string, value: real, color: Option<Argb>)

  /** The view's palette: red, green, yellow, purple, pink, blue. */
  const SectionColors: seq<Argb> := [0xFFFF_6B6B, 0xFF4E_CDC4, 0xFFFF_BE0B, 0xFF83_38EC, 0xFFFF_006E, 0xFF3A_86FF]
  /** The gap, in pixels, between the chart's rim and the view's edge. */
  const Padding: real := 20.0
  /** The donut hole's radius as a share of the chart's. */
  const HoleShare: real := 0.5
  const HoleColor: Argb := 0xFF00_A8CC

  function Values(sections: seq<PieSection>): (values: seq<real>)
    ensures |values| == |sections|
    ensures forall i :: 0 <= i < |values| ==> values[i] == sections[i].value
  {
    seq(|sections|, i requires 0 <= i < |sections| => sections[i].value)
  }

  /** The chart's radius in a `width` x `height` view: half the shorter
      side, less the padding. */
  function Radius(width: int, height: int): real {
    (if width < height then width else height) as real / 2.0 - Padding
  }

  /** What `onDraw` draws for the view's state: nothing when there are no
      sections or the total is zero; otherwise one sector per section, from
      12 o'clock, section i sweeping `value / total * 360` degrees in
      `SectionColors[i % 6]`, under a hole of half the radius. */
  function ViewDrawing(sections: seq<PieSection>, total: real, width: int, height: int): Drawing {
    if sections == [] || total == 0.0 then NoArcs
    else
      var radius := Radius(width, height);
      Donut(SweepLayout(Values(sections), total, SectionColors), radius, radius * HoleShare, HoleColor, "")
  }

  /** The sector loop of `onDraw`: from 12 o'clock, each section sweeps
      its share of 360 degrees in the next of the six colours, starting
      where the previous one ended. */
  method SweepSections(sections: seq<PieSection>, total: real) returns (arcs: seq<Arc>)
    requires total != 0.0
    ensures arcs == SweepLayout(Values(sections), total, SectionColors)
  {
    var values := Values(sections);
    var startAngle := StartAngle;
    arcs := [];
    for index := 0 to |sections|
      invariant |arcs| == index
      invariant startAngle == StartOf(values, index, total)
      invariant forall j :: 0 <= j < index ==>
        arcs[j] == Arc(StartOf(values, j, total), Sweep(values[j], total), SectionColors[j % |SectionColors|])
    {
      var sweepAngle := sections[index].value / total * 360.0;
      arcs := arcs + [Arc(startAngle, sweepAngle, SectionColors[index % |SectionColors|])];
      StartStep(values, index, total);
      startAngle := startAngle + sweepAngle;
    }
  }

  class PieChartView {
    var sections: seq<PieSection>
    var total: real

    /** `total` is the sum of the sections' values. */
    ghost predicate Valid()
      reads this
    {
      total == Sum(Values(sections))
    }

    constructor()
      ensures sections == [] && total == 0.0
      ensures Valid()
    {
      sections := [];
      total := 0.0;
    }

    /** `setData`: replaces the sections and recomputes the total. */
    method SetData(newSections: seq<PieSection>)
      modifies this
      ensures sections == newSections
      ensures total == Sum(Values(newSections))
      ensures Valid()
    {
      sections := newSections;
      total := Sum(Values(newSections));
    }

    /** `onDraw` on a `width` x `height` canvas: the drawing of the view's
      state, whose sectors, when there are any, sweep the whole circle. */
    method OnDraw(width: int, height: int) returns (drawing: Drawing)
      requires Valid()
      ensures drawing == ViewDrawing(sections, total, width, height)
      ensures drawing.Donut? ==> Sum(Sweeps(drawing.arcs)) == 360.0 && EndAngle(drawing.arcs) == 270.0
    {
      DrawingCoversCircle(sections, total, width, height);
      if sections == [] || total == 0.0 {
        return NoArcs;
      }
      var radius := Radius(width, height);
      var arcs := SweepSections(sections, total);
      var innerRadius := radius * HoleShare;
      drawing := Donut(arcs, radius, innerRadius, HoleColor, "");
    }
  }

  /** A view with no sections, or whose total is zero, draws nothing; any
      other draws a donut with one sector per section, its hole half the
      radius, the radius half the shorter side less 20 pixels. */
  lemma DrawsNothingIff(sections: seq<PieSection>, total: real, width: int, height: int)
    ensures ViewDrawing(sections, total, width, height).NoArcs? <==> (sections == [] || total == 0.0)
    ensures var d := ViewDrawing(sections, total, width, height);
      d.Donut? ==> && |d.arcs| == |sections|
                   && d.innerRadius == d.radius * 0.5
                   && d.radius == (if width < height then width else height) as real / 2.0 - 20.0
  {
  }

  /** After `setData`, with some sections and a non-zero total, the sectors
      start at 12 o'clock, are contiguous, sweep 360 degrees in all (there
      is no cap on their number) and end back at 12 o'clock; section i is
      painted `SectionColors[i % 6]`. */
  lemma ViewCoversCircle(sections: seq<PieSection>, width: int, height: int)
    requires sections != [] && Sum(Values(sections)) != 0.0
    ensures var d := ViewDrawing(sections, Sum(Values(sections)), width, height);
      && d.Donut?
      && |d.arcs| == |sections|
      && d.arcs[0].startAngle == StartAngle
      && (forall i :: 0 <= i < |d.arcs| - 1 ==> d.arcs[i + 1].startAngle == d.arcs[i].startAngle + d.arcs[i].sweepAngle)
      && Sum(Sweeps(d.arcs)) == 360.0
      && EndAngle(d.arcs) == 270.0
      && (forall i :: 0 <= i < |d.arcs| ==> d.arcs[i].color == SectionColors[i % 6])
  {
    var values := Values(sections);
    LayoutIsContiguous(values, Sum(values), SectionColors);
    LayoutCoversCircle(values, SectionColors);
  }

  /** When the total is the sections' sum, whatever sectors the view draws
      sweep the whole circle. */
  lemma DrawingCoversCircle(sections: seq<PieSection>, total: real, width: int, height: int)
    requires total == Sum(Values(sections))
    ensures var d := ViewDrawing(sections, total, width, height);
      d.Donut? ==> Sum(Sweeps(d.arcs)) == 360.0 && EndAngle(d.arcs) == 270.0
  {
    if sections != [] && total != 0.0 {
      ViewCoversCircle(sections, width, height);
    }
  }

  /** Only the sections' values matter to the drawing: their labels and
      their own colours are ignored. */
  lemma SectionColorIgnored(a: seq<PieSection>, b: seq<PieSection>, total: real, width: int, height: int)
    requires |a| == |b|
    requires forall i :: 0 <= i < |a| ==> a[i].value == b[i].value
    ensures ViewDrawing(a, total, width, height) == ViewDrawing(b, total, width, height)
  {
    assert Values(a) == Values(b);
  }
}
