/**
 * A chart container: the `.scatter-container` or `.project-scatter-container`
 * element a renderer fills once, together with the tooltip and (for the
 * project chart) the hover card it owns, the point handlers that drive
 * them, and the CSV export of the projects it retains.
 */
module Chart {
  import opened Wrappers
  import opened Text
  import opened Records
  import opened Layout
  import opened Groups
  import opened Scene
  import Csv

  /** The part of `getBoundingClientRect()` the handlers read. */
  datatype Rect = Rect(left: real, top: real, width: real)

  datatype Action = CopyName | OpenRepo | CloseCard

  /** A hover-card button: what pressing it does, and its caption. */
  datatype Button = Button(action: Action, caption: string)

  const CARD_WIDTH: real := 180.0

  /**
   * The hover card's left edge: 12 to the right of the click, pulled back
   * so that the card's 180 units end at the container's right edge.
   */
  function CardLeft(clientX: real, rect: Rect): (left: real)
    ensures left + CARD_WIDTH <= rect.width && left <= clientX - rect.left + 12.0
    ensures left == clientX - rect.left + 12.0 || left + CARD_WIDTH == rect.width
  {
    var left := clientX - rect.left + 12.0;
    if rect.width - CARD_WIDTH < left then rect.width - CARD_WIDTH else left
  }

  /** The hover card's top edge: 12 below the click, but never above 6. */
  function CardTop(clientY: real, rect: Rect): (top: real)
    ensures top >= 6.0 && top >= clientY - rect.top + 12.0
    ensures top == clientY - rect.top + 12.0 || top == 6.0
  {
    var top := clientY - rect.top + 12.0;
    if 6.0 > top then 6.0 else top
  }

  /** `n || ''` on a number in a template: 0 is falsy and prints as nothing. */
  function OrEmpty(n: int): (s: string)
    ensures n == 0 <==> s == ""
    ensures n != 0 ==> ParseInt(s) == Some(n)
  {
    if n == 0 then ""
    else
      IntToStringRoundTrip(n);
      IntToString(n)
  }

  /**
   * The card's description: the project's own, or, when that is empty, a
   * summary line built from its domain, progress and impact.
   */
  function CardDescription(p: Project): (d: string)
    ensures |d| > 0
    ensures p.desc != "" ==> d == p.desc
    ensures p.desc == "" ==> d == p.domain + " — Progress " + OrEmpty(p.progress) + "% • Impact " + OrEmpty(p.impact) + "%"
  {
    if p.desc != "" then p.desc
    else p.domain + " — Progress " + OrEmpty(p.progress) + "% • Impact " + OrEmpty(p.impact) + "%"
  }

  const COPY_BUTTON := Button(CopyName, "Copy name")
  const REPO_BUTTON := Button(OpenRepo, "Open repo")
  const CLOSE_BUTTON := Button(CloseCard, "Close")

  /** The tooltip: shown or not, its text, and its position once one has been set. */
  datatype Tooltip = Tooltip(visible: bool, text: string, at: Option<(real, real)>)

  /**
   * The hover card: shown or not, its title, its description, the
   * repository its "Open repo" opens, its buttons, and its position.
   */
  datatype Card = Card(visible: bool, title: string, desc: string, repo: string, buttons: seq<Button>, at: Option<(real, real)>)

  /** What a renderer creates: an empty tooltip (and card) with `display: none`. */
  const HIDDEN_TIP := Tooltip(false, "", None)
  const HIDDEN_CARD := Card(false, "", "", "", [], None)

  /** The card's buttons are "Copy name" first and "Close" last, with "Open repo" between exactly when there is a repository. */
  predicate CardButtons(actions: seq<Button>, repo: string)
  {
    && |actions| >= 2
    && actions[0].action == CopyName
    && actions[|actions| - 1] == CLOSE_BUTTON
    && (|actions| == 3 <==> repo != "")
    && (|actions| == 2 || (|actions| == 3 && actions[1] == REPO_BUTTON))
  }

  /**
   * The hover card a click at (`clientX`, `clientY`) on project `p` opens:
   * shown, titled with the project's name, with its description, the
   * buttons `CardButtons` describes for its repository, and a top edge
   * never above 6.
   */
  function OpenedCard(p: Project, clientX: real, clientY: real, rect: Rect): (c: Card)
    ensures c.visible && c.title == p.labelText && c.repo == p.repo
    ensures c.desc == CardDescription(p) && |c.desc| > 0
    ensures CardButtons(c.buttons, p.repo)
    ensures c.buttons == [COPY_BUTTON] + (if p.repo != "" then [REPO_BUTTON] else []) + [CLOSE_BUTTON]
    ensures p.repo == "" ==> c.buttons == [COPY_BUTTON, CLOSE_BUTTON]
    ensures c.at == Some((CardLeft(clientX, rect), CardTop(clientY, rect)))
    ensures c.at.value.0 + CARD_WIDTH <= rect.width && c.at.value.1 >= 6.0
  {
    Card(true, p.labelText, CardDescription(p), p.repo,
      [COPY_BUTTON] + (if p.repo != "" then [REPO_BUTTON] else []) + [CLOSE_BUTTON],
      Some((CardLeft(clientX, rect), CardTop(clientY, rect))))
  }

  /** The group labels, one per group name, drawn in order. */
  method DrawGroupLabels(g: Geometry, names: seq<string>) returns (labels: seq<GroupLabel>)
    ensures labels == GroupLabels(g, names)
  {
    var n := |names|;
    labels := [];
    for idx := 0 to n
      invariant |labels| == idx
      invariant forall k :: 0 <= k < idx ==> labels[k] == GroupLabels(g, names)[k]
    {
      labels := labels + [GroupLabel(12, GroupLabelY(g, idx, n) + 4.0, names[idx])];
    }
  }

  /** The five x-axis ticks on baseline `y`, drawn from left to right. */
  method DrawTicks(g: Geometry, y: int) returns (ticks: seq<Tick>)
    ensures ticks == Ticks(g, y)
  {
    ticks := [];
    for t := 0 to |TICK_VALUES|
      invariant |ticks| == t
      invariant forall k :: 0 <= k < t ==> ticks[k] == Ticks(g, y)[k]
    {
      ticks := ticks + [Tick(XOf(g, TICK_VALUES[t]), y, NatToString(TICK_VALUES[t]) + "%")];
    }
  }

  /** One marker per skill, in record order; `rs[i]` is the random draw for skill `i`. */
  method DrawSkillPoints(g: Geometry, names: seq<string>, skills: seq<Skill>, rs: seq<real>) returns (points: seq<SkillPoint>)
    requires |rs| == |skills|
    ensures points == SkillPoints(g, names, skills, rs)
  {
    ghost var expected := SkillPoints(g, names, skills, rs);
    var n := |names|;
    points := [];
    for i := 0 to |skills|
      invariant points == expected[..i]
    {
      var s := skills[i];
      var groupIndex := IndexOf(names, s.group);
      var band := Band(g, n);
      var y := g.topPad as real + groupIndex as real * band + band / 2.0 + Jitter(band, rs[i]);
      var p := SkillPoint(XOf(g, s.val), y, 7, s.labelText, s.val, s.group, SkillTitle(s), SkillTip(s));
      assert p == expected[i] by {
        assert y == SkillY(g, groupIndex, n, rs[i]);
      }
      assert expected[..i + 1] == expected[..i] + [p];
      points := points + [p];
    }
    assert expected[..|skills|] == expected;
  }


  /** One marker (with its id beside it) per project, in record order. */
  method DrawProjectPoints(g: Geometry, projects: seq<Project>) returns (markers: seq<ProjectPoint>)
    ensures markers == ProjectPoints(g, projects)
  {
    markers := [];
    for i := 0 to |projects|
      invariant |markers| == i
      invariant forall k :: 0 <= k < i ==> markers[k] == ProjectPoints(g, projects)[k]
    {
      var p := projects[i];
      var cx := XOf(g, p.progress);
      var cy := YInvertedOf(g, p.impact);
      var r := Radius(p.effort);
      markers := markers + [ProjectPoint(cx, cy, r, ColorOr(p.domain, MARKER_FALLBACK), p.labelText,
        cx + r as real + 6.0, cy + 4.0, p.id, ProjectTitle(p))];
    }
  }

  /** The legend rows, one per mapped domain. */
  method DrawLegend() returns (legend: seq<LegendEntry>)
    ensures legend == Legend()
  {
    legend := [];
    for k := 0 to |LEGEND_DOMAINS|
      invariant |legend| == k
      invariant forall j :: 0 <= j < k ==> legend[j] == Legend()[j]
    {
      var d := LEGEND_DOMAINS[k];
      legend := legend + [LegendEntry(k * 18, k * 18 + 10, d, ColorOr(d, LEGEND_FALLBACK))];
    }
  }

  /**
   * The rows `exportProjectsCSV` collects: the header, then one row per
   * project, in order.
   */
  method CollectRows(ps: seq<Project>) returns (rows: seq<string>)
    ensures rows == Csv.Rows(ps)
  {
    rows := [Csv.HEADER];
    for i := 0 to |ps|
      invariant |rows| == i + 1 && rows[0] == Csv.HEADER
      invariant forall k :: 0 <= k < i ==> rows[k + 1] == Csv.Row(ps[k])
    {
      rows := rows + [Csv.Row(ps[i])];
    }
    var expected := Csv.Rows(ps);
    forall k | 0 <= k < |rows|
      ensures rows[k] == expected[k]
    {
      if k > 0 {
        assert rows[(k - 1) + 1] == Csv.Row(ps[k - 1]);
        assert expected[(k - 1) + 1] == Csv.Row(ps[k - 1]);
      }
    }
  }

  class ChartContainer {
    /** `dataset.rendered`. */
    var rendered: bool
    /** What the renderer drew; NoScene before it ran. */
    var scene: Scene
    /** `_projects`: the records the CSV export reads. */
    var retained: Option<seq<Project>>
    var tip: Tooltip
    /** The point that has keyboard focus, if any. */
    var focused: Option<nat>
    var card: Card

    /** The text each point's tooltip shows, in point order. */
    function Labels(): (ls: seq<string>)
      reads this
      ensures |ls| == scene.PointCount()
    {
      match scene
      case NoScene => []
      case SkillChart(_, _, _, ps) => seq(|ps|, k requires 0 <= k < |ps| => ps[k].tip)
      case ProjectChart(_, _, ms, _, _) => seq(|ms|, k requires 0 <= k < |ms| => ms[k].name)
    }

    ghost predicate Valid()
      reads this
    {
      && (rendered <==> !scene.NoScene?)
      && (!rendered ==> !tip.visible && focused.None?)
      && (focused.Some? ==> focused.value < scene.PointCount())
      && (tip.visible ==> tip.text in Labels())
      && (scene.ProjectChart? <==> retained.Some?)
      && (scene.ProjectChart? ==>
            && |scene.markers| == |retained.value|
            && forall k :: 0 <= k < |scene.markers| ==> scene.markers[k].name == retained.value[k].labelText)
      && (card.visible ==>
            && scene.ProjectChart?
            && card.title in Labels()
            && |card.desc| > 0
            && CardButtons(card.buttons, card.repo)
            && card.at.Some? && card.at.value.1 >= 6.0)
    }

    /** A fresh container: nothing drawn, no projects retained. */
    constructor ()
      ensures Valid()
      ensures !rendered && scene == NoScene && retained == None
      ensures tip == HIDDEN_TIP && focused == None && card == HIDDEN_CARD
    {
      rendered := false;
      scene := NoScene;
      retained := None;
      tip := HIDDEN_TIP;
      focused := None;
      card := HIDDEN_CARD;
    }

    /**
     * `renderSkillScatter`: does nothing on a container already rendered or
     * for an empty skill list; otherwise draws the skill scene (`rs[i]` is
     * the `Math.random()` draw for skill `i`), adds a hidden tooltip and
     * marks the container rendered.
     */
    method RenderSkillScatter(skills: seq<Skill>, clientWidth: nat, rs: seq<real>)
      requires Valid() && |rs| == |skills|
      modifies this
      ensures Valid()
      ensures old(rendered) || |skills| == 0 ==> unchanged(this)
      ensures !old(rendered) && |skills| > 0 ==>
        && rendered && scene == SkillSceneOf(skills, clientWidth, rs)
        && tip == HIDDEN_TIP && focused == None
        && retained == old(retained) && card == old(card)
    {
      if rendered || |skills| == 0 {
        return;
      }
      var g := SkillGeometry(clientWidth);
      var names := GroupNames(skills);
      var labels := DrawGroupLabels(g, names);
      var ticks := DrawTicks(g, g.height - 4);
      var points := DrawSkillPoints(g, names, skills, rs);
      scene := SkillChart(g, labels, ticks, points);
      tip := HIDDEN_TIP;
      focused := None;
      rendered := true;
    }

    /**
     * `renderProjectScatter`: does nothing on a container already rendered;
     * otherwise draws the project scene for the fixed portfolio, adds a
     * hidden tooltip and a hidden hover card, retains the portfolio for
     * export and marks the container rendered.
     */
    method RenderProjectScatter(clientWidth: nat)
      requires Valid()
      modifies this
      ensures Valid()
      ensures old(rendered) ==> unchanged(this)
      ensures !old(rendered) ==>
        && rendered && scene == ProjectSceneOf(PORTFOLIO, clientWidth)
        && retained == Some(PORTFOLIO)
        && tip == HIDDEN_TIP && focused == None && card == HIDDEN_CARD
    {
      if rendered {
        return;
      }
      var g := ProjectGeometry(clientWidth);
      var projects := PORTFOLIO;
      var ticks := DrawTicks(g, g.height - g.bottomPad + 16);
      var markers := DrawProjectPoints(g, projects);
      var legend := DrawLegend();
      scene := ProjectChart(g, ticks, markers, LegendOrigin(g), legend);
      tip := HIDDEN_TIP;
      card := HIDDEN_CARD;
      focused := None;
      retained := Some(projects);
      rendered := true;
    }

    /** `mouseenter` on point `i`: the tooltip shows the point's label. */
    method MouseEnter(i: nat)
      requires Valid() && i < scene.PointCount()
      modifies this
      ensures Valid()
      ensures tip == old(tip).(visible := true, text := old(Labels())[i])
      ensures rendered == old(rendered) && scene == old(scene) && retained == old(retained)
      ensures focused == old(focused) && card == old(card)
    {
      tip := tip.(visible := true, text := Labels()[i]);
    }

    /** `mousemove` over a point: the tooltip follows the pointer, 12 right of and below it. */
    method MouseMove(i: nat, clientX: real, clientY: real, rect: Rect)
      requires Valid() && i < scene.PointCount()
      modifies this
      ensures Valid()
      ensures tip == old(tip).(at := Some((clientX - rect.left + 12.0, clientY - rect.top + 12.0)))
      ensures rendered == old(rendered) && scene == old(scene) && retained == old(retained)
      ensures focused == old(focused) && card == old(card)
    {
      tip := tip.(at := Some((clientX - rect.left + 12.0, clientY - rect.top + 12.0)));
    }

    /** `mouseleave` from a point: the tooltip is hidden; the hover card stays. */
    method MouseLeave(i: nat)
      requires Valid() && i < scene.PointCount()
      modifies this
      ensures Valid()
      ensures tip == old(tip).(visible := false)
      ensures rendered == old(rendered) && scene == old(scene) && retained == old(retained)
      ensures focused == old(focused) && card == old(card)
    {
      tip := tip.(visible := false);
    }

    /**
     * `focus` on point `i` (whose box is `bbox`): the point takes focus and
     * the tooltip shows its label just above its box.
     */
    method Focus(i: nat, bbox: Rect, rect: Rect)
      requires Valid() && i < scene.PointCount()
      modifies this
      ensures Valid()
      ensures focused == Some(i)
      ensures tip == Tooltip(true, old(Labels())[i], Some((bbox.left - rect.left + 12.0, bbox.top - rect.top - 6.0)))
      ensures rendered == old(rendered) && scene == old(scene) && retained == old(retained) && card == old(card)
    {
      tip := Tooltip(true, Labels()[i], Some((bbox.left - rect.left + 12.0, bbox.top - rect.top - 6.0)));
      focused := Some(i);
    }

    /** `blur` of the focused point: focus is gone and the tooltip is hidden; the hover card stays. */
    method Blur()
      requires Valid() && focused.Some?
      modifies this
      ensures Valid()
      ensures focused == None && tip == old(tip).(visible := false)
      ensures rendered == old(rendered) && scene == old(scene) && retained == old(retained) && card == old(card)
    {
      focused := None;
      tip := tip.(visible := false);
    }

    /**
     * `click` on point `i` at (`clientX`, `clientY`). Only project points
     * listen: the hover card opens with the project's name, description and
     * buttons, placed by `CardLeft` and `CardTop`. The tooltip is left as
     * it was.
     */
    method Click(i: nat, clientX: real, clientY: real, rect: Rect)
      requires Valid() && i < scene.PointCount()
      modifies this
      ensures Valid()
      ensures !old(scene).ProjectChart? ==> unchanged(this)
      ensures old(scene).ProjectChart? ==> card == OpenedCard(old(retained).value[i], clientX, clientY, rect)
      ensures rendered == old(rendered) && scene == old(scene) && retained == old(retained)
      ensures focused == old(focused) && tip == old(tip)
    {
      if !scene.ProjectChart? {
        return;
      }
      var p := retained.value[i];
      assert Labels()[i] == p.labelText;
      var buttons := [];
      buttons := buttons + [COPY_BUTTON];
      if p.repo != "" {
        buttons := buttons + [REPO_BUTTON];
      }
      buttons := buttons + [CLOSE_BUTTON];
      card := Card(true, p.labelText, CardDescription(p), p.repo, buttons,
        Some((CardLeft(clientX, rect), CardTop(clientY, rect))));
    }

    /**
     * `keydown` with `key` on point `i`. On a skill point, Enter or Space
     * raises an alert with the label (returned as `alerted`) and Escape
     * drops focus. On a project point, Enter or Space calls `pt.click()`;
     * a `<circle>` is an SVG element, which has no `click` method, so the
     * call throws (`threw`) and nothing changes. Escape on a project point
     * drops focus and hides the hover card.
     */
    method KeyDown(i: nat, key: string, rect: Rect) returns (alerted: Option<string>, threw: bool)
      requires Valid() && i < scene.PointCount()
      modifies this
      ensures Valid()
      ensures rendered == old(rendered) && scene == old(scene) && retained == old(retained)
      ensures alerted == (if scene.SkillChart? && (key == "Enter" || key == " ") then Some(old(Labels())[i]) else None)
      ensures threw <==> scene.ProjectChart? && (key == "Enter" || key == " ")
      ensures key == "Escape" && old(focused) == Some(i) ==> focused == None && tip == old(tip).(visible := false)
      ensures !(key == "Escape" && old(focused) == Some(i)) ==> focused == old(focused) && tip == old(tip)
      ensures scene.ProjectChart? && key == "Escape" ==> card == old(card).(visible := false)
      ensures key != "Escape" || scene.SkillChart? ==> card == old(card)
      ensures key != "Escape" ==> unchanged(this)
    {
      alerted, threw := None, false;
      if scene.SkillChart? {
        if key == "Enter" || key == " " {
          alerted := Some(Labels()[i]);
        }
        if key == "Escape" && focused == Some(i) {
          Blur();
        }
      } else {
        if key == "Enter" || key == " " {
          threw := true;
          return;
        }
        if key == "Escape" {
          if focused == Some(i) {
            Blur();
          }
          card := card.(visible := false);
        }
      }
    }

    /**
     * The keyboard handling the project chart evidently intends: Enter or
     * Space on a project point acts as a click at client position (0, 0),
     * which a synthetic click reports, and opens the hover card. Every other
     * case is `KeyDown`.
     */
    method KeyDownIntended(i: nat, key: string, rect: Rect) returns (alerted: Option<string>)
      requires Valid() && i < scene.PointCount()
      modifies this
      ensures Valid()
      ensures rendered == old(rendered) && scene == old(scene) && retained == old(retained)
      ensures alerted == (if scene.SkillChart? && (key == "Enter" || key == " ") then Some(old(Labels())[i]) else None)
      ensures scene.ProjectChart? && (key == "Enter" || key == " ") ==> card == OpenedCard(old(retained).value[i], 0.0, 0.0, rect)
      ensures key == "Escape" && old(focused) == Some(i) ==> focused == None && tip == old(tip).(visible := false)
      ensures !(key == "Escape" && old(focused) == Some(i)) ==> focused == old(focused) && tip == old(tip)
      ensures scene.ProjectChart? && key == "Escape" ==> card == old(card).(visible := false)
      ensures scene.SkillChart? ==> card == old(card)
      ensures (scene.SkillChart? || (key != "Enter" && key != " ")) && key != "Escape" ==> unchanged(this)
    {
      if scene.ProjectChart? && (key == "Enter" || key == " ") {
        Click(i, 0.0, 0.0, rect);
        alerted := None;
      } else {
        var threw;
        alerted, threw := KeyDown(i, key, rect);
      }
    }

    /**
     * Pressing "Copy name": the card's title goes to the clipboard
     * (returned) and the button's caption becomes "Copied".
     */
    method PressCopy() returns (clipboard: string)
      requires Valid() && card.visible
      modifies this
      ensures Valid()
      ensures clipboard == old(card).title
      ensures card == old(card).(buttons := old(card).buttons[0 := Button(CopyName, "Copied")])
      ensures rendered == old(rendered) && scene == old(scene) && retained == old(retained)
      ensures focused == old(focused) && tip == old(tip)
    {
      clipboard := card.title;
      card := card.(buttons := card.buttons[0 := Button(CopyName, "Copied")]);
    }

    /** Pressing "Open repo", which the card has only for a project with a repository: returns the address opened. */
    method PressOpenRepo() returns (url: string)
      requires Valid() && card.visible && |card.buttons| == 3
      ensures url == card.repo && url != ""
    {
      url := card.repo;
    }

    /** Pressing "Close": the hover card is hidden. */
    method PressClose()
      requires Valid() && card.visible
      modifies this
      ensures Valid()
      ensures card == old(card).(visible := false)
      ensures rendered == old(rendered) && scene == old(scene) && retained == old(retained)
      ensures focused == old(focused) && tip == old(tip)
    {
      card := card.(visible := false);
    }

    /**
     * `exportProjectsCSV`: the header line and one row per retained project,
     * joined by line breaks. The code falls back to no rows when nothing is
     * retained, but the page cannot reach that case: the only caller is the
     * CSV button's listener, attached by the same render that retains the
     * portfolio.
     */
    method ExportProjectsCsv() returns (doc: string)
      ensures doc == Csv.Document(if retained.Some? then retained.value else [])
    {
      var ps := if retained.Some? then retained.value else [];
      var rows := CollectRows(ps);
      doc := Join(rows, '\n');
    }
  }

  /**
   * A skill container given no skills stays unrendered, so a later render
   * with skills still draws one marker per skill; rendering it again, with
   * any skills, width and draws, adds nothing.
   */
  method SkillRenderOnce(skills: seq<Skill>, clientWidth: nat, rs: seq<real>, others: seq<Skill>, otherWidth: nat, otherRs: seq<real>)
    returns (renderedAfterEmpty: bool, markers: nat, markersAfterSecond: nat)
    requires |skills| > 0 && |rs| == |skills| && |otherRs| == |others|
    ensures !renderedAfterEmpty
    ensures markers == |skills| && markersAfterSecond == |skills|
  {
    var c := new ChartContainer();
    c.RenderSkillScatter([], clientWidth, []);
    renderedAfterEmpty := c.rendered;
    c.RenderSkillScatter(skills, clientWidth, rs);
    markers := c.scene.PointCount();
    c.RenderSkillScatter(others, otherWidth, otherRs);
    markersAfterSecond := c.scene.PointCount();
  }

  /**
   * Enter on a portfolio marker, as the code is written: the call
   * `pt.click()` throws and the hover card stays hidden.
   */
  method EnterOpensNoCard(clientWidth: nat, i: nat, rect: Rect) returns (cardShown: bool, threw: bool)
    requires i < |PORTFOLIO|
    ensures threw && !cardShown
  {
    var c := new ChartContainer();
    c.RenderProjectScatter(clientWidth);
    assert c.scene.PointCount() == |PORTFOLIO|;
    var alerted;
    alerted, threw := c.KeyDown(i, "Enter", rect);
    cardShown := c.card.visible;
  }

  /**
   * Enter on any portfolio marker, handled as intended, opens the hover
   * card for that project with only "Copy name" and "Close": no portfolio
   * project has a repository.
   */
  method ActivateWithoutRepo(clientWidth: nat, i: nat, rect: Rect) returns (title: string, buttons: seq<Button>)
    requires i < |PORTFOLIO|
    ensures title == PORTFOLIO[i].labelText
    ensures buttons == [COPY_BUTTON, CLOSE_BUTTON]
  {
    var c := new ChartContainer();
    c.RenderProjectScatter(clientWidth);
    assert c.scene.PointCount() == |PORTFOLIO|;
    assert PORTFOLIO[i].repo == "" by {
      PortfolioHasNoRepos();
    }
    var _ := c.KeyDownIntended(i, "Enter", rect);
    title := c.card.title;
    buttons := c.card.buttons;
  }

  /** Every portfolio project has an empty `repo`. */
  lemma PortfolioHasNoRepos()
    ensures forall i :: 0 <= i < |PORTFOLIO| ==> PORTFOLIO[i].repo == ""
  {
  }

  /**
   * Before the project chart is drawn nothing is retained, and the CSV button
   * is not yet wired; once it is drawn, the export is the document for the
   * whole portfolio.
   */
  method ExportAfterRender(clientWidth: nat) returns (retainedBefore: bool, doc: string)
    ensures !retainedBefore
    ensures doc == Csv.Document(PORTFOLIO)
  {
    var c := new ChartContainer();
    retainedBefore := c.retained.Some?;
    c.RenderProjectScatter(clientWidth);
    doc := c.ExportProjectsCsv();
  }

  /**
   * The portfolio's export is exactly six lines: the header, then one line
   * per project, each reading back as that project.
   */
  lemma PortfolioDocumentRoundTrip()
    ensures var lines := Split(Csv.Document(PORTFOLIO), '\n');
      && |lines| == 6
      && lines[0] == Csv.HEADER
      && forall i :: 0 <= i < 5 ==> Csv.DecodeRow(lines[i + 1]) == Some(Csv.Summary(PORTFOLIO[i]))
  {
    PortfolioNovaExportable();
    PortfolioAdvisoryExportable();
    PortfolioSecuraExportable();
    PortfolioAmazonEdaExportable();
    PortfolioBrainTestExportable();
    assert forall i :: 0 <= i < |PORTFOLIO| ==> Csv.Exportable(PORTFOLIO[i]);
    Csv.DocumentRoundTrip(PORTFOLIO);
  }

  /**
   * Each portfolio project's row reads back. The `…Texts` lemma beside each
   * states the facts about the record's literal strings on their own, and
   * the project lemma transfers them to the record's fields.
   */
  lemma PortfolioNovaExportable()
    ensures Csv.Exportable(NOVA)
  {
    NovaTexts();
    assert NOVA.id == "NOVA" && NOVA.labelText == "NOVA — NextGen Virtual Assistant" && NOVA.domain == "AI/ML";
  }

  lemma NovaTexts()
    ensures ',' !in "NOVA" && '\n' !in "NOVA" && "NOVA"[0] != '"'
    ensures ',' !in "AI/ML" && '\n' !in "AI/ML" && "AI/ML"[0] != '"'
    ensures '\n' !in "NOVA — NextGen Virtual Assistant"
  {
  }

  lemma PortfolioAdvisoryExportable()
    ensures Csv.Exportable(ADVISORY)
  {
    AdvisoryTexts();
    assert ADVISORY.id == "AIsmartAdvisory" && ADVISORY.labelText == "AIsmartAdvisory" && ADVISORY.domain == "AI/ML";
  }

  lemma AdvisoryTexts()
    ensures ',' !in "AIsmartAdvisory" && '\n' !in "AIsmartAdvisory" && "AIsmartAdvisory"[0] != '"'
    ensures ',' !in "AI/ML" && '\n' !in "AI/ML" && "AI/ML"[0] != '"'
    ensures '\n' !in "AIsmartAdvisory"
  {
  }

  lemma PortfolioSecuraExportable()
    ensures Csv.Exportable(SECURAX)
  {
    SecuraTexts();
    assert SECURAX.id == "SecuraX" && SECURAX.labelText == "SecuraX — Login System" && SECURAX.domain == "Cybersecurity";
  }

  lemma SecuraTexts()
    ensures ',' !in "SecuraX" && '\n' !in "SecuraX" && "SecuraX"[0] != '"'
    ensures ',' !in "Cybersecurity" && '\n' !in "Cybersecurity" && "Cybersecurity"[0] != '"'
    ensures '\n' !in "SecuraX — Login System"
  {
  }

  lemma PortfolioAmazonEdaExportable()
    ensures Csv.Exportable(AMAZON_EDA)
  {
    AmazonEdaTexts();
    assert AMAZON_EDA.id == "AmazonEDA" && AMAZON_EDA.labelText == "Amazon-Prime-EDA-Vishwas" && AMAZON_EDA.domain == "Data Analytics";
  }

  lemma AmazonEdaTexts()
    ensures ',' !in "AmazonEDA" && '\n' !in "AmazonEDA" && "AmazonEDA"[0] != '"'
    ensures ',' !in "Data Analytics" && '\n' !in "Data Analytics" && "Data Analytics"[0] != '"'
    ensures '\n' !in "Amazon-Prime-EDA-Vishwas"
  {
  }

  lemma PortfolioBrainTestExportable()
    ensures Csv.Exportable(BRAIN_TEST)
  {
    BrainTestTexts();
    assert BRAIN_TEST.id == "BrainTest" && BRAIN_TEST.labelText == "Brain Test Game" && BRAIN_TEST.domain == "Software Engineering";
  }

  lemma BrainTestTexts()
    ensures ',' !in "BrainTest" && '\n' !in "BrainTest" && "BrainTest"[0] != '"'
    ensures ',' !in "Software Engineering" && '\n' !in "Software Engineering" && "Software Engineering"[0] != '"'
    ensures '\n' !in "Brain Test Game"
  {
  }
}
