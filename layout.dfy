/**
 * Plot geometry and coordinate arithmetic of the two scatter charts.
 * Coordinates are exact reals; the source computes the same expressions in
 * floating point.
 */
module Layout {
  import opened Text

  /** Outer size and paddings of one chart; the drawable area is what the paddings leave. */
  datatype Geometry = Geometry(width: int, height: int, leftPad: int, rightPad: int, topPad: int, bottomPad: int)
  {
    function PlotW(): int { width - leftPad - rightPad }
    function PlotH(): int { height - topPad - bottomPad }
    /** Paddings are non-negative and leave a strictly positive drawable area. */
    predicate Valid() {
      leftPad >= 0 && rightPad >= 0 && topPad >= 0 && bottomPad >= 0 && PlotW() > 0 && PlotH() > 0
    }
  }

  /** `Math.max(floor, clientWidth || 700)`: a zero width reads as 700. */
  function FlooredWidth(clientWidth: nat, floor: nat): (w: nat)
    ensures w >= floor
    ensures clientWidth == 0 ==> w == if floor > 700 then floor else 700
    ensures clientWidth > 0 ==> w == if clientWidth > floor then clientWidth else floor
  {
    var measured := if clientWidth == 0 then 700 else clientWidth;
    if measured > floor then measured else floor
  }

  /** Skill chart: 200 high, paddings 72/20/18/18, width floored at 600. */
  function SkillGeometry(clientWidth: nat): (g: Geometry)
    ensures g.Valid() && g.height == 200
    ensures g.width >= 600 && g.PlotW() >= 508 && g.PlotH() == 164
    ensures clientWidth >= 600 ==> g.width == clientWidth
  {
    Geometry(FlooredWidth(clientWidth, 600), 200, 72, 20, 18, 18)
  }

  /** Project chart: 240 high, paddings 64/24/20/44, width floored at 700. */
  function ProjectGeometry(clientWidth: nat): (g: Geometry)
    ensures g.Valid() && g.height == 240
    ensures g.width >= 700 && g.PlotW() >= 612 && g.PlotH() == 176
    ensures clientWidth >= 700 ==> g.width == clientWidth
  {
    Geometry(FlooredWidth(clientWidth, 700), 240, 64, 24, 20, 44)
  }

  /** `leftPad + (v/100) * plotW`: the horizontal position of value `v` on the 0–100 axis. */
  function XOf(g: Geometry, v: int): real
  {
    g.leftPad as real + (v as real / 100.0) * g.PlotW() as real
  }

  /** The horizontal map is non-decreasing. */
  lemma XMonotone(g: Geometry, a: int, b: int)
    requires g.Valid() && a <= b
    ensures XOf(g, a) <= XOf(g, b)
  {
    var d := (b as real / 100.0) - (a as real / 100.0);
    assert d >= 0.0;
    assert d * g.PlotW() as real >= 0.0;
  }

  /** Values on the 0–100 domain land between the left padding and the right edge of the plot. */
  lemma XInPlot(g: Geometry, v: int)
    requires g.Valid() && 0 <= v <= 100
    ensures g.leftPad as real <= XOf(g, v) <= (g.width - g.rightPad) as real
  {
    var f := v as real / 100.0;
    assert 0.0 <= f <= 1.0;
    assert f * g.PlotW() as real <= g.PlotW() as real;
  }

  /** `topPad + (1 - v/100) * plotH`: the vertical position of value `v`, inverted. */
  function YInvertedOf(g: Geometry, v: int): real
  {
    g.topPad as real + (1.0 - v as real / 100.0) * g.PlotH() as real
  }

  /** Inversion: a strictly higher value sits strictly higher (smaller coordinate). */
  lemma YInvertedAntitone(g: Geometry, a: int, b: int)
    requires g.Valid() && a < b
    ensures YInvertedOf(g, b) < YInvertedOf(g, a)
  {
    var d := (b as real / 100.0) - (a as real / 100.0);
    assert d > 0.0;
    assert d * g.PlotH() as real > 0.0;
    assert YInvertedOf(g, a) - YInvertedOf(g, b) == d * g.PlotH() as real;
  }

  /** Values on the 0–100 domain stay between the top padding and the bottom of the plot; 100 is the top. */
  lemma YInvertedInPlot(g: Geometry, v: int)
    requires g.Valid() && 0 <= v <= 100
    ensures g.topPad as real <= YInvertedOf(g, v) <= (g.topPad + g.PlotH()) as real
    ensures v == 100 ==> YInvertedOf(g, v) == g.topPad as real
    ensures v == 0 ==> YInvertedOf(g, v) == (g.topPad + g.PlotH()) as real
  {
    var f := 1.0 - v as real / 100.0;
    var h := g.PlotH() as real;
    assert 0.0 <= f <= 1.0 && h > 0.0;
    assert YInvertedOf(g, v) == g.topPad as real + f * h;
    assert 0.0 <= f * h by {
      assert f >= 0.0 && h >= 0.0;
    }
    assert f * h <= h by {
      assert (1.0 - f) * h >= 0.0;
      assert f * h == h - (1.0 - f) * h;
    }
  }

  /** One x-axis tick: its position and its text `t + '%'`. */
  datatype Tick = Tick(x: real, y: int, text: string)

  const TICK_VALUES: seq<int> := [0, 25, 50, 75, 100]

  /** The five ticks of an x axis, on the text baseline `y`. */
  function Ticks(g: Geometry, y: int): (ts: seq<Tick>)
    ensures |ts| == |TICK_VALUES|
  {
    seq(|TICK_VALUES|, k requires 0 <= k < |TICK_VALUES| =>
      Tick(XOf(g, TICK_VALUES[k]), y, NatToString(TICK_VALUES[k]) + "%"))
  }

  /**
   * The ticks span the plot from the left padding to the right edge in four
   * equal steps, all on baseline `y`, labelled 0% to 100%.
   */
  lemma TicksSpanAxis(g: Geometry, y: int)
    requires g.Valid()
    ensures var ts := Ticks(g, y);
      && ts[0].x == g.leftPad as real
      && ts[4].x == (g.width - g.rightPad) as real
      && (forall k :: 0 <= k < 4 ==> ts[k + 1].x - ts[k].x == g.PlotW() as real / 4.0)
      && (forall k :: 0 <= k < 5 ==> ts[k].y == y)
      && [ts[0].text, ts[1].text, ts[2].text, ts[3].text, ts[4].text] == ["0%", "25%", "50%", "75%", "100%"]
  {
    var ts := Ticks(g, y);
    var w := g.PlotW() as real;
    assert ts[0].x == g.leftPad as real + 0.0 * w;
    assert ts[1].x == g.leftPad as real + 0.25 * w;
    assert ts[2].x == g.leftPad as real + 0.5 * w;
    assert ts[3].x == g.leftPad as real + 0.75 * w;
    assert ts[4].x == g.leftPad as real + 1.0 * w;
    assert NatToString(0) == "0" && NatToString(2) == "2" && NatToString(5) == "5" && NatToString(7) == "7";
    assert NatToString(10) == "10" by { assert NatToString(1) == "1"; }
    assert NatToString(25) == "25" && NatToString(50) == "50" && NatToString(75) == "75";
    assert NatToString(100) == "100";
    assert ts[0].text == "0" + "%" == "0%";
    assert ts[1].text == "25" + "%" == "25%";
    assert ts[2].text == "50" + "%" == "50%";
    assert ts[3].text == "75" + "%" == "75%";
    assert ts[4].text == "100" + "%" == "100%";
  }

  /** `plotH / max(1, groupCount)`: the height of one group band. */
  function Band(g: Geometry, groupCount: nat): real
  {
    g.PlotH() as real / (if groupCount > 1 then groupCount else 1) as real
  }

  /** `(r - 0.5) * (band * 0.4)` for a random draw `r`. */
  function Jitter(band: real, r: real): real
  {
    (r - 0.5) * (band * 0.4)
  }

  /** `topPad + groupIndex * band + band / 2 + jitter`: a skill marker's vertical position. */
  function SkillY(g: Geometry, groupIndex: int, groupCount: nat, r: real): real
  {
    var band := Band(g, groupCount);
    g.topPad as real + groupIndex as real * band + band / 2.0 + Jitter(band, r)
  }

  /** `topPad + (idx + 0.5) * band`: a group label's vertical position (before its +4 baseline shift). */
  function GroupLabelY(g: Geometry, idx: int, groupCount: nat): real
  {
    g.topPad as real + (idx as real + 0.5) * Band(g, groupCount)
  }

  lemma BandPositive(g: Geometry, groupCount: nat)
    requires g.Valid()
    ensures Band(g, groupCount) > 0.0
    ensures groupCount >= 1 ==> Band(g, groupCount) * groupCount as real == g.PlotH() as real
  {
  }

  /** A group's label sits exactly on the centre of its band: the un-jittered marker position. */
  lemma GroupLabelAtBandCentre(g: Geometry, idx: int, groupCount: nat)
    ensures GroupLabelY(g, idx, groupCount) == SkillY(g, idx, groupCount, 0.5)
  {
  }

  /**
   * For a draw `r` in [0, 1) the marker lies within ±0.2 of a band around the
   * band's centre, and so strictly inside its own band, which for a valid
   * group index lies inside the plot.
   */
  lemma SkillYInBand(g: Geometry, groupIndex: int, groupCount: nat, r: real)
    requires g.Valid() && 0.0 <= r < 1.0
    ensures var band := Band(g, groupCount);
      var centre := GroupLabelY(g, groupIndex, groupCount);
      var y := SkillY(g, groupIndex, groupCount, r);
      && centre - 0.2 * band <= y < centre + 0.2 * band
      && g.topPad as real + groupIndex as real * band < y < g.topPad as real + (groupIndex + 1) as real * band
    ensures 0 <= groupIndex < groupCount ==>
      g.topPad as real < SkillY(g, groupIndex, groupCount, r) < (g.topPad + g.PlotH()) as real
  {
    var band := Band(g, groupCount);
    BandPositive(g, groupCount);
    var j := Jitter(band, r);
    var lo := g.topPad as real + groupIndex as real * band;
    assert GroupLabelY(g, groupIndex, groupCount) == lo + band / 2.0;
    assert SkillY(g, groupIndex, groupCount, r) == lo + band / 2.0 + j;
    assert (groupIndex + 1) as real * band == groupIndex as real * band + band;
    assert -0.2 * band <= j < 0.2 * band by {
      JitterBound(band, r);
    }
    if 0 <= groupIndex < groupCount {
      BandInPlot(g, groupIndex, groupCount);
    }
  }

  lemma JitterBound(band: real, r: real)
    requires band > 0.0 && 0.0 <= r < 1.0
    ensures -0.2 * band <= Jitter(band, r) < 0.2 * band
  {
    assert (r - 0.5) * band >= -0.5 * band;
    assert (r - 0.5) * band < 0.5 * band;
    assert Jitter(band, r) == (r - 0.5) * band * 0.4;
  }

  lemma BandInPlot(g: Geometry, groupIndex: int, groupCount: nat)
    requires g.Valid() && 0 <= groupIndex < groupCount
    ensures var band := Band(g, groupCount);
      && g.topPad as real <= g.topPad as real + groupIndex as real * band
      && g.topPad as real + (groupIndex + 1) as real * band <= (g.topPad + g.PlotH()) as real
  {
    var band := Band(g, groupCount);
    BandPositive(g, groupCount);
    assert (groupCount - groupIndex - 1) as real * band >= 0.0;
    assert (groupIndex + 1) as real * band <= groupCount as real * band;
    assert groupIndex as real * band >= 0.0;
  }

  /** `Math.round(x)`: the nearest integer, ties rounded up. */
  function Round(x: real): (n: int)
    ensures x - 0.5 < n as real <= x + 0.5
  {
    (x + 0.5).Floor
  }

  /** `Math.max(6, Math.min(18, Math.round((effort/100) * 20)))`: a project marker's radius. */
  function Radius(effort: int): (r: int)
    ensures 6 <= r <= 18
    ensures r == 6 || r == 18 || r == Round(effort as real / 5.0)
  {
    var raw := Round((effort as real / 100.0) * 20.0);
    if raw > 18 then 18 else if raw < 6 then 6 else raw
  }

  lemma RoundMonotone(x: real, y: real)
    requires x <= y
    ensures Round(x) <= Round(y)
  {
  }

  /**
   * Larger effort never gives a smaller marker; between the clamps the radius
   * is effort/5 rounded to the nearest integer.
   */
  lemma RadiusMonotone(a: int, b: int)
    requires a <= b
    ensures Radius(a) <= Radius(b)
  {
    RoundMonotone((a as real / 100.0) * 20.0, (b as real / 100.0) * 20.0);
  }

  lemma RadiusBetweenClamps(effort: int)
    requires 28 <= effort <= 92
    ensures effort as real / 5.0 - 0.5 < Radius(effort) as real <= effort as real / 5.0 + 0.5
  {
    assert (effort as real / 100.0) * 20.0 == effort as real / 5.0;
  }

  /** Top-left corner of the legend block: 180 wide, flush with the plot's right edge, 6 below its top. */
  function LegendOrigin(g: Geometry): (p: (int, int))
    ensures p.0 + 180 == g.width - g.rightPad && p.1 == g.topPad + 6
  {
    (g.width - g.rightPad - 180, g.topPad + 6)
  }

  /** The legend block's height: four rows 18 apart, the last swatch 12 high. */
  const LEGEND_HEIGHT: int := 3 * 18 + 12

  /**
   * On the project chart the legend block lies inside the plot area, in
   * its top-right corner: flush with the right edge, 6 below the top, and
   * within the plot's left and bottom edges.
   */
  lemma LegendInsidePlot(clientWidth: nat)
    ensures var g := ProjectGeometry(clientWidth);
      var (x, y) := LegendOrigin(g);
      && g.leftPad < x && x + 180 == g.width - g.rightPad
      && g.topPad < y && y + LEGEND_HEIGHT < g.topPad + g.PlotH()
  {
  }
}
