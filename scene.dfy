/**
 * The scenes the two renderers build, as values: what each text label and
 * marker ends up at once its entry animation has run. Animation timing,
 * styling strings and the SVG node objects themselves are not modelled.
 */
module Scene {
  import opened Text
  import opened Records
  import opened Layout
  import opened Groups

  /** A group name written at the left of its band (`x = 12`, `y = band centre + 4`). */
  datatype GroupLabel = GroupLabel(x: int, y: real, text: string)

  /**
   * A skill marker: centre, final radius 7, the record it shows, its `<title>`
   * text, and the text its tooltip shows.
   */
  datatype SkillPoint = SkillPoint(cx: real, cy: real, r: int, labelText: string, val: int, group: string, title: string, tip: string)

  /**
   * A project marker: centre, final radius, fill, name, and the id written
   * beside it at (`tagX`, `tagY`).
   */
  datatype ProjectPoint = ProjectPoint(cx: real, cy: real, r: int, fill: string, name: string, tagX: real, tagY: real, tag: string, title: string)

  /** One legend row: swatch and text offsets inside the legend block, domain name, swatch colour. */
  datatype LegendEntry = LegendEntry(swatchY: int, textY: int, name: string, color: string)

  datatype Scene =
    | NoScene
    | SkillChart(g: Geometry, groupLabels: seq<GroupLabel>, ticks: seq<Tick>, points: seq<SkillPoint>)
    | ProjectChart(g: Geometry, ticks: seq<Tick>, markers: seq<ProjectPoint>, legendAt: (int, int), legend: seq<LegendEntry>)
  {
    function PointCount(): nat
    {
      match this
      case NoScene => 0
      case SkillChart(_, _, _, ps) => |ps|
      case ProjectChart(_, _, ps, _, _) => |ps|
    }
  }

  /** `${label} — ${val}% (${group})`. */
  function SkillTitle(s: Skill): string
  {
    s.labelText + " — " + IntToString(s.val) + "% (" + s.group + ")"
  }

  /**
   * What a skill marker's tooltip shows: `data-label`, or, when the label is
   * empty (and so falsy), the text of the marker's `<title>`.
   */
  function SkillTip(s: Skill): (t: string)
    ensures |t| > 0
    ensures s.labelText != "" ==> t == s.labelText
  {
    if s.labelText != "" then s.labelText else SkillTitle(s)
  }

  function SkillPointOf(g: Geometry, names: seq<string>, s: Skill, r: real): SkillPoint
  {
    SkillPoint(XOf(g, s.val), SkillY(g, IndexOf(names, s.group), |names|, r), 7,
      s.labelText, s.val, s.group, SkillTitle(s), SkillTip(s))
  }

  /** The skill markers in record order; `rs[i]` is the random draw for record `i`. */
  function SkillPoints(g: Geometry, names: seq<string>, skills: seq<Skill>, rs: seq<real>): (ps: seq<SkillPoint>)
    requires |rs| == |skills|
    ensures |ps| == |skills|
  {
    seq(|skills|, i requires 0 <= i < |skills| => SkillPointOf(g, names, skills[i], rs[i]))
  }

  function GroupLabels(g: Geometry, names: seq<string>): (ls: seq<GroupLabel>)
    ensures |ls| == |names|
  {
    seq(|names|, k requires 0 <= k < |names| => GroupLabel(12, GroupLabelY(g, k, |names|) + 4.0, names[k]))
  }

  /** The scene `renderSkillScatter` builds for the given record list, width and draws. */
  function SkillSceneOf(skills: seq<Skill>, clientWidth: nat, rs: seq<real>): Scene
    requires |rs| == |skills|
  {
    var g := SkillGeometry(clientWidth);
    var names := GroupNames(skills);
    SkillChart(g, GroupLabels(g, names), Ticks(g, g.height - 4), SkillPoints(g, names, skills, rs))
  }

  /** `${label} — ${domain} — Progress:${progress}% Impact:${impact}%`. */
  function ProjectTitle(p: Project): string
  {
    p.labelText + " — " + p.domain + " — Progress:" + IntToString(p.progress) + "% Impact:" + IntToString(p.impact) + "%"
  }

  function ProjectPointOf(g: Geometry, p: Project): ProjectPoint
  {
    var cx := XOf(g, p.progress);
    var cy := YInvertedOf(g, p.impact);
    var r := Radius(p.effort);
    ProjectPoint(cx, cy, r, ColorOr(p.domain, MARKER_FALLBACK), p.labelText,
      cx + r as real + 6.0, cy + 4.0, p.id, ProjectTitle(p))
  }

  function ProjectPoints(g: Geometry, projects: seq<Project>): (ps: seq<ProjectPoint>)
    ensures |ps| == |projects|
  {
    seq(|projects|, i requires 0 <= i < |projects| => ProjectPointOf(g, projects[i]))
  }

  /** The fixed legend: one row per domain of the colour map, 18 apart. */
  function Legend(): (es: seq<LegendEntry>)
    ensures |es| == |LEGEND_DOMAINS|
  {
    seq(|LEGEND_DOMAINS|, k requires 0 <= k < |LEGEND_DOMAINS| =>
      LegendEntry(k * 18, k * 18 + 10, LEGEND_DOMAINS[k], ColorOr(LEGEND_DOMAINS[k], LEGEND_FALLBACK)))
  }

  /** The scene `renderProjectScatter` builds for the given projects and width. */
  function ProjectSceneOf(projects: seq<Project>, clientWidth: nat): Scene
  {
    var g := ProjectGeometry(clientWidth);
    ProjectChart(g, Ticks(g, g.height - g.bottomPad + 16), ProjectPoints(g, projects), LegendOrigin(g), Legend())
  }

  /**
   * One marker per skill, in record order, and one label per distinct group.
   * Every marker lies strictly inside the plot, within ±0.2 of a band of the
   * band labelled with its own group; a value in 0–100 also puts it between
   * the left padding and the right edge of the plot.
   */
  lemma SkillSceneLayout(skills: seq<Skill>, clientWidth: nat, rs: seq<real>, i: int)
    requires |rs| == |skills| && forall k :: 0 <= k < |rs| ==> 0.0 <= rs[k] < 1.0
    requires 0 <= i < |skills|
    ensures var sc := SkillSceneOf(skills, clientWidth, rs);
      var g := sc.g;
      var p := sc.points[i];
      var band := Band(g, |sc.groupLabels|);
      && |sc.points| == |skills| && |sc.groupLabels| == |GroupNames(skills)|
      && p.labelText == skills[i].labelText && p.val == skills[i].val && p.group == skills[i].group
      && (g.topPad as real) < p.cy < (g.topPad + g.PlotH()) as real
      && (exists k :: 0 <= k < |sc.groupLabels| && sc.groupLabels[k].text == skills[i].group
           && sc.groupLabels[k].y - 4.0 - 0.2 * band <= p.cy < sc.groupLabels[k].y - 4.0 + 0.2 * band)
      && (0 <= skills[i].val <= 100 ==> g.leftPad as real <= p.cx <= (g.width - g.rightPad) as real)
  {
    var sc := SkillSceneOf(skills, clientWidth, rs);
    var g := SkillGeometry(clientWidth);
    var names := GroupNames(skills);
    var k := IndexOf(names, skills[i].group);
    GroupIndexInRange(skills, i);
    assert sc.points[i] == SkillPointOf(g, names, skills[i], rs[i]);
    assert sc.groupLabels[k] == GroupLabels(g, names)[k];
    PointNearLabel(g, names, skills[i], rs[i], k);
    if 0 <= skills[i].val <= 100 {
      XInPlot(g, skills[i].val);
    }
  }

  /** A skill marker sits within ±0.2 of a band of its group's label, inside the plot. */
  lemma PointNearLabel(g: Geometry, names: seq<string>, s: Skill, r: real, k: int)
    requires g.Valid() && 0.0 <= r < 1.0 && 0 <= k < |names| && k == IndexOf(names, s.group)
    ensures var p := SkillPointOf(g, names, s, r);
      var l := GroupLabels(g, names)[k];
      var band := Band(g, |names|);
      && l.text == s.group
      && l.y - 4.0 - 0.2 * band <= p.cy < l.y - 4.0 + 0.2 * band
      && (g.topPad as real) < p.cy < (g.topPad + g.PlotH()) as real
  {
    var n := |names|;
    var centre := GroupLabelY(g, k, n);
    var band := Band(g, n);
    var y := SkillY(g, k, n, r);
    assert SkillPointOf(g, names, s, r).cy == y;
    assert GroupLabels(g, names)[k].y == centre + 4.0;
    assert centre - 0.2 * band <= y < centre + 0.2 * band
      && (g.topPad as real) < y < (g.topPad + g.PlotH()) as real by {
      SkillYInBand(g, k, n, r);
    }
  }

  /** Group labels are listed top to bottom in first-occurrence order, one band apart. */
  lemma GroupLabelsEvenlySpaced(skills: seq<Skill>, clientWidth: nat, rs: seq<real>)
    requires |rs| == |skills|
    ensures var sc := SkillSceneOf(skills, clientWidth, rs);
      var n := |sc.groupLabels|;
      forall k :: 0 <= k < n - 1 ==> sc.groupLabels[k + 1].y - sc.groupLabels[k].y == Band(sc.g, n)
  {
  }

  /**
   * One marker per project in record order, with radius in [6, 18], a fill
   * that is the domain's colour or the fallback, and its id beside it; a
   * progress and impact in 0–100 keep it inside the plot.
   */
  lemma ProjectSceneLayout(projects: seq<Project>, clientWidth: nat, i: int)
    requires 0 <= i < |projects|
    ensures var sc := ProjectSceneOf(projects, clientWidth);
      var g := sc.g;
      var p := sc.markers[i];
      var q := projects[i];
      && |sc.markers| == |projects|
      && p.name == q.labelText && p.tag == q.id
      && 6 <= p.r <= 18
      && p.fill == (if q.domain in LEGEND_DOMAINS then DomainColor(q.domain).value else MARKER_FALLBACK)
      && p.tagX == p.cx + p.r as real + 6.0 && p.tagY == p.cy + 4.0
      && (0 <= q.progress <= 100 ==> g.leftPad as real <= p.cx <= (g.width - g.rightPad) as real)
      && (0 <= q.impact <= 100 ==> g.topPad as real <= p.cy <= (g.topPad + g.PlotH()) as real)
  {
    var g := ProjectGeometry(clientWidth);
    var q := projects[i];
    if 0 <= q.progress <= 100 {
      XInPlot(g, q.progress);
    }
    if 0 <= q.impact <= 100 {
      YInvertedInPlot(g, q.impact);
    }
  }

  /**
   * Higher impact is drawn strictly higher, more progress never further
   * left, and more effort never as a smaller marker.
   */
  lemma ProjectSceneOrder(projects: seq<Project>, clientWidth: nat, i: int, j: int)
    requires 0 <= i < |projects| && 0 <= j < |projects|
    ensures var ps := ProjectSceneOf(projects, clientWidth).markers;
      && (projects[i].impact < projects[j].impact ==> ps[j].cy < ps[i].cy)
      && (projects[i].progress <= projects[j].progress ==> ps[i].cx <= ps[j].cx)
      && (projects[i].effort <= projects[j].effort ==> ps[i].r <= ps[j].r)
  {
    var g := ProjectGeometry(clientWidth);
    var a, b := projects[i], projects[j];
    if a.impact < b.impact {
      YInvertedAntitone(g, a.impact, b.impact);
    }
    if a.progress <= b.progress {
      XMonotone(g, a.progress, b.progress);
    }
    if a.effort <= b.effort {
      RadiusMonotone(a.effort, b.effort);
    }
  }

  /**
   * The legend lists the four mapped domains, 18 apart, each with its own
   * mapped colour (never the fallback), in a block flush with the plot's
   * right edge.
   */
  lemma LegendLayout(projects: seq<Project>, clientWidth: nat)
    ensures var sc := ProjectSceneOf(projects, clientWidth);
      && |sc.legend| == 4
      && sc.legendAt.0 + 180 == sc.g.width - sc.g.rightPad
      && forall k :: 0 <= k < 4 ==>
           && sc.legend[k].name == LEGEND_DOMAINS[k]
           && sc.legend[k].swatchY == 18 * k
           && sc.legend[k].color == DomainColor(LEGEND_DOMAINS[k]).value
  {
    var sc := ProjectSceneOf(projects, clientWidth);
    forall k | 0 <= k < 4 ensures sc.legend[k].color == DomainColor(LEGEND_DOMAINS[k]).value {
      assert LEGEND_DOMAINS[k] in LEGEND_DOMAINS;
    }
  }

  /** The domains of the projects, in record order. */
  function DomainsOf(projects: seq<Project>): (ds: seq<string>)
    ensures |ds| == |projects| && forall i :: 0 <= i < |projects| ==> ds[i] == projects[i].domain
  {
    seq(|projects|, i requires 0 <= i < |projects| => projects[i].domain)
  }

  /**
   * For the portfolio the fixed legend is exactly the distinct domains of
   * the plotted projects, in first-occurrence order.
   */
  lemma PortfolioLegendIsDistinctDomains()
    ensures Distinct(DomainsOf(PORTFOLIO)) == LEGEND_DOMAINS
  {
    var ai, sec, data, eng := LEGEND_DOMAINS[0], LEGEND_DOMAINS[1], LEGEND_DOMAINS[2], LEGEND_DOMAINS[3];
    assert DomainsOf(PORTFOLIO) == [ai, ai, sec, data, eng];
    assert |ai| != |sec| && |ai| != |data| && |ai| != |eng| && |sec| != |data| && |sec| != |eng| && |data| != |eng|;
    DistinctRepeatedFirst(ai, sec, data, eng);
  }

  /** Four different names with the first one repeated reduce to the four names. */
  lemma DistinctRepeatedFirst(a: string, b: string, c: string, d: string)
    requires a != b && a != c && a != d && b != c && b != d && c != d
    ensures Distinct([a, a, b, c, d]) == [a, b, c, d]
  {
    DistinctAfterThree(a, b, c);
    assert [a, a, b, c, d][..4] == [a, a, b, c];
  }

  lemma DistinctAfterThree(a: string, b: string, c: string)
    requires a != b && a != c && b != c
    ensures Distinct([a, a, b, c]) == [a, b, c]
  {
    DistinctAfterTwo(a, b);
    assert [a, a, b, c][..3] == [a, a, b];
  }

  lemma DistinctAfterTwo(a: string, b: string)
    requires a != b
    ensures Distinct([a, a, b]) == [a, b]
  {
    var one, two, three := [a], [a, a], [a, a, b];
    assert Distinct(one) == [a] by {
      assert one[..0] == [] && Distinct(one[..0]) == [];
      assert a !in Distinct(one[..0]);
    }
    assert Distinct(two) == [a] by {
      assert two[..1] == one && two[1] == a;
    }
    assert Distinct(three) == [a, b] by {
      assert three[..2] == two && three[2] == b;
      assert b !in Distinct(two);
    }
  }


  /**
   * The centre of marker `m` lies inside the 180 × 66 box the code reserves
   * for the legend of geometry `g`. The drawn swatches and texts fill only
   * part of that box.
   */
  predicate UnderLegend(g: Geometry, m: ProjectPoint)
  {
    var (x, y) := LegendOrigin(g);
    && x as real <= m.cx <= (x + 180) as real
    && y as real <= m.cy <= (y + LEGEND_HEIGHT) as real
  }

  /**
   * At the default width of 700, a project with progress 71–100 and impact
   * 60–96 is drawn with its centre inside the box reserved for the legend.
   */
  lemma UnderLegendAtDefaultWidth(p: Project)
    requires 71 <= p.progress <= 100 && 60 <= p.impact <= 96
    ensures UnderLegend(ProjectGeometry(0), ProjectPointOf(ProjectGeometry(0), p))
  {
    var g := ProjectGeometry(0);
    assert g.width == 700 && g.PlotW() == 612 && g.PlotH() == 176;
    assert LegendOrigin(g) == (496, 26);
  }

  /**
   * The legend is placed over plotted data: at the default width of 700,
   * the NOVA and AIsmartAdvisory markers' centres lie inside the box
   * reserved for the legend.
   */
  lemma PortfolioLegendOverlapsMarkers()
    ensures var sc := ProjectSceneOf(PORTFOLIO, 0);
      sc.legendAt == LegendOrigin(sc.g) && UnderLegend(sc.g, sc.markers[0]) && UnderLegend(sc.g, sc.markers[1])
  {
    var g := ProjectGeometry(0);
    var sc := ProjectSceneOf(PORTFOLIO, 0);
    var nova, advisory := PORTFOLIO[0], PORTFOLIO[1];
    assert sc.g == g;
    assert sc.markers[0] == ProjectPointOf(g, nova) && sc.markers[1] == ProjectPointOf(g, advisory);
    assert nova.progress == 92 && nova.impact == 94;
    assert advisory.progress == 75 && advisory.impact == 78;
    UnderLegendAtDefaultWidth(nova);
    UnderLegendAtDefaultWidth(advisory);
  }
}
