# Portfolio scatter charts — a verified model

This Dafny project models the logic inside `script.js`, the single script
of a personal portfolio site. That logic covers:

- the two SVG scatter charts the script draws: a skill chart in a
  category/value layout and a project chart in a value/value layout;
- the tooltip and hover card the charts' points drive;
- the CSV export of the projects the project chart retains;
- the roving keyboard focus over the tab buttons.

Drawing is modelled as what it produces once every entry animation has
run: a `Scene.Scene` value holding the group labels, ticks, markers and
legend with their coordinates and texts. Coordinates are `real`s and the
constants are those of the script. `Math.random()` draws are inputs
`r` with `0 <= r < 1`.

Modules, one per concern of the script:

- **`Text`**: JavaScript's decimal rendering of integers, and
  `join`/`split` on a single character.
- **`Records`**: the skill and project records, the fixed portfolio of
  five projects, and the domain colour map.
- **`Layout`**: chart widths and paddings, x/y mapping, ticks, band and
  jitter, marker radius, and legend origin.
- **`Groups`**: `[...new Set(...)]` in first-occurrence order, and `indexOf`.
- **`Scene`**: the scenes both renderers build, and their layout lemmas.
- **`Csv`**: the row writer, a reader for the rows it writes, and the
  round trip between them.
- **`Chart`**: class `ChartContainer`, which holds the per-container state
  (render flag, scene, retained projects, tooltip, focused point, hover
  card). Its methods are the renderers, the point event handlers, the
  card buttons and the CSV export.
- **`Tabs`**: `focusTabIndex` with JavaScript's truncating `%`.

Behaviour the model takes from the code as written, where a reader might
expect otherwise:

- **Legend.** The legend is the fixed list of the four domains of the
  colour map, not the distinct groups of the data. For the portfolio the
  two coincide, which `Scene.PortfolioLegendIsDistinctDomains` proves.
- **CSV quoting.** The export always quotes the label, and only the
  label, doubling every inner `"`. Id, domain and numbers are written
  verbatim, even when they contain a comma, a quote or a line break. A
  row therefore reads back when its id and domain have no comma and do not
  start with `"` (`Csv.Readable`); the label may hold anything. The
  document round trip also needs the id, label and domain free of line
  breaks (`Csv.SingleLine`). That is only because the model's reader cuts
  the document at every `'\n'` before it reads fields. The export itself
  writes a quoted label with a line break faithfully.
- **Tooltip and card.** They are independent. Opening the card leaves the
  tooltip as it was, and hiding the tooltip leaves the card open.
- **Skill tooltip text.** It is `data-label`, or the marker's `<title>`
  text when the label is empty.
- **Keyboard activation.** Enter or Space on a project point calls
  `pt.click()`. A project point is an SVG `<circle>`, and `click()` is
  defined only on HTML elements, so the call throws and no card opens
  (see "Findings"). The skill chart's Enter/Space alert is unaffected.
- **Legend placement.** The legend block sits inside the plot's top-right
  corner (`Layout.LegendInsidePlot`). With the default width, the centres
  of the NOVA and AIsmartAdvisory markers lie inside the 180 × 66 box the
  code reserves for the legend (`Scene.PortfolioLegendOverlapsMarkers`).
  The drawn swatches and texts fill only part of that box.
- **Card summary.** When a project has no description, the card prints
  `${p.progress || ''}`, which shows 0 as nothing.

## Model

| member | source | states |
|---|---|---|
| Text.NatToString | script.js:87 | the decimal text of a tick value: non-empty, all digits, no leading zero |
| Text.IntToString | script.js:274 | `String(n)` of a number field: digits, with a leading `-` only in first place |
| Text.NatToStringValue | script.js:274 | the digits written for a natural read back as that natural |
| Text.IntToStringRoundTrip | script.js:274 | a number field of a CSV row parses back to the integer written |
| Text.IntToStringPlain | script.js:274 | a number field never contains a comma, a quote or a line break |
| Text.SplitJoin | script.js:275 | splitting the `join('\n')` of line-break-free rows on `'\n'` gives back exactly those rows |
| Records.DomainColor | script.js:153-158 | a domain has a colour in `colorMap` exactly when it is one of the four mapped domains |
| Records.ColorOr | script.js:186 | `colorMap[d] \|\| fallback`: the mapped colour for a mapped domain, the fallback for any other |
| Records.MarkerFillNonEmpty | script.js:186 | a project marker's fill is never empty, whatever its domain |
| Layout.FlooredWidth | script.js:51 | `Math.max(floor, clientWidth \|\| 700)`: never below the floor, 700 for a zero width, otherwise the larger of width and floor |
| Layout.SkillGeometry | script.js:51-68 | skill chart: width ≥ 600 (the container's when wider), height 200, `plotW` ≥ 508, `plotH` = 164 |
| Layout.ProjectGeometry | script.js:161-166 | project chart: width ≥ 700 (the container's when wider), height 240, `plotW` ≥ 612, `plotH` = 176 |
| Layout.XMonotone | script.js:92 | the x coordinate `leftPad + (v/100)*plotW` is non-decreasing in the value |
| Layout.XInPlot | script.js:181 | a value in 0–100 gives an x in [leftPad, width − rightPad] |
| Layout.YInvertedAntitone | script.js:182 | higher impact gives a strictly smaller `cy` |
| Layout.YInvertedInPlot | script.js:182 | an impact in 0–100 gives a `cy` in [topPad, topPad + plotH], 100 at the top and 0 at the bottom |
| Layout.TicksSpanAxis | script.js:85-88 | five ticks from leftPad to width − rightPad in four equal steps, on one baseline, labelled 0%, 25%, 50%, 75%, 100% |
| Layout.BandPositive | script.js:93 | a band is positive, and n ≥ 1 bands add up to `plotH` |
| Layout.GroupLabelAtBandCentre | script.js:72 | a group label's y is its band's centre: where a marker with no jitter (r = 0.5) sits |
| Layout.JitterBound | script.js:94 | for r in [0, 1) the jitter lies in [−0.2·band, 0.2·band) |
| Layout.BandInPlot | script.js:93-95 | the band of a group index in [0, #groups) lies inside [topPad, topPad + plotH] |
| Layout.SkillYInBand | script.js:93-95 | a skill marker's y lies within its band's centre ± 0.2·band, strictly inside its band, and inside the plot for a real group index |
| Layout.Round | script.js:183 | `Math.round`: the integer within half a unit, ties upward |
| Layout.Radius | script.js:183 | the marker radius lies in [6, 18] and is 6, 18 or `effort/5` rounded |
| Layout.RoundMonotone | script.js:183 | rounding is monotone |
| Layout.RadiusMonotone | script.js:183 | more effort never gives a smaller marker |
| Layout.RadiusBetweenClamps | script.js:183 | for effort 28–92 the radius is within half a unit of `effort/5` |
| Layout.LegendOrigin | script.js:198 | the 180-wide legend block ends at width − rightPad and starts 6 below topPad |
| Layout.LegendInsidePlot | script.js:197-198 | the 66-high legend block lies inside the plot: right of leftPad, flush with width − rightPad, below topPad and above the plot's bottom |
| Groups.IndexOf | script.js:91 | `indexOf`: −1 exactly when absent, otherwise the first position holding the element |
| Groups.Distinct | script.js:66 | `[...new Set(s)]`: the same elements as `s`, no repeats, no longer than `s` |
| Groups.DistinctFirstOccurrenceOrder | script.js:66 | the distinct groups are listed in the order of their first occurrence |
| Groups.GroupIndexInRange | script.js:91 | every skill's `indexOf` band is in [0, #groups) and names its own group; there are 1 to #skills groups |
| Scene.SkillTip | script.js:114 | the skill tooltip text is never empty, and is the label whenever the label is non-empty |
| Scene.SkillSceneLayout | script.js:90-99 | one marker per skill in record order, carrying its skill's label, value and group; each lies inside the plot within ±0.2·band of the label of its own group, and a value in 0–100 puts it inside the plot horizontally |
| Scene.PointNearLabel | script.js:72-95 | a skill marker lies within ±0.2·band of its group label's band centre, and inside the plot |
| Scene.GroupLabelsEvenlySpaced | script.js:71-72 | consecutive group labels are exactly one band apart |
| Scene.ProjectSceneLayout | script.js:180-193 | one marker per project in record order: radius 6–18, fill the domain's colour or the fallback, id tag at (cx + r + 6, cy + 4), inside the plot for progress and impact in 0–100 |
| Scene.ProjectSceneOrder | script.js:181-183 | higher impact strictly higher, more progress never further left, more effort never smaller |
| Scene.LegendLayout | script.js:198-205 | four legend rows, 18 apart, each a mapped domain with its own mapped colour, in a block flush with the plot's right edge |
| Scene.PortfolioLegendIsDistinctDomains | script.js:145-151 | for the portfolio, the fixed legend list equals the distinct plotted domains in first-occurrence order |
| Scene.UnderLegendAtDefaultWidth | script.js:181-182 | at width 700, a project with progress 71–100 and impact 60–96 has its marker centre inside the 180 × 66 box reserved for the legend |
| Scene.PortfolioLegendOverlapsMarkers | script.js:197-198 | in the portfolio scene at width 700 the legend is drawn at its origin, and the NOVA and AIsmartAdvisory marker centres lie inside the 180 × 66 box reserved for it |
| Csv.Quote | script.js:274 | a label field starts and ends with `"` and holds the escaped label between them |
| Csv.QuotedBodyRoundTrip | script.js:274 | reading a quoted field returns exactly the label, and stops at the closing quote |
| Csv.UnquoteQuote | script.js:274 | unescaping a label field gives back the original label |
| Csv.EscapeQuoteFree | script.js:274 | a label without quotes is written unchanged between the quotes |
| Csv.QuoteTwoInnerQuotes | script.js:274 | `He said "hi", ok` is written as `"He said ""hi"", ok"`: each inner quote doubled, the whole wrapped |
| Csv.ParseEncodeLine | script.js:274 | reading a line of written fields gives back every field's text, in order |
| Csv.ParseEncodeLineStep | script.js:274 | a line reads back as its first field, then the fields of the rest, once the rest reads back |
| Csv.Rows | script.js:273-274 | the header `id,label,domain,progress,impact,effort`, then one row per project in order |
| Csv.RowRoundTrip | script.js:274 | a project's row decodes to its id, label, domain, progress, impact and effort, whenever id and domain have no comma and no leading quote, whatever the label |
| Csv.RowSingleLine | script.js:274 | a project's row holds no line break |
| Csv.DocumentRoundTrip | script.js:272-275 | the document of N projects splits into exactly 1 + N lines: the header, then a line per project decoding to that project |
| Chart.CardLeft | script.js:238-239 | the card's left is ≤ rect.width − 180 and ≤ 12 right of the click, and equals one of the two |
| Chart.CardTop | script.js:238-239 | the card's top is ≥ 6 and ≥ 12 below the click, and equals one of the two |
| Chart.OrEmpty | script.js:232 | `n \|\| ''` on a number: empty exactly for 0, and otherwise text that reads back as `n` |
| Chart.CardDescription | script.js:232 | never empty; the project's description when it has one, otherwise the domain/progress/impact summary |
| Chart.OpenedCard | script.js:232-239 | the card a click opens is shown with the project's name, repository and `CardDescription`; its buttons are exactly Copy name, Open repo only with a repository, and Close; it sits at (`CardLeft`, `CardTop`) of the click, ending within the container and at least 6 from the top |
| Chart.DrawGroupLabels | script.js:71-77 | the `forEach` over groups draws exactly the group labels of the scene |
| Chart.DrawTicks | script.js:85-88 | the `forEach` over tick values draws exactly the scene's ticks |
| Chart.DrawSkillPoints | script.js:90-102 | the `forEach` over skills draws exactly the scene's skill markers |
| Chart.DrawProjectPoints | script.js:180-195 | the `forEach` over projects draws exactly the scene's project markers |
| Chart.DrawLegend | script.js:200-205 | the `forEach` over domains draws exactly the legend rows |
| Chart.CollectRows | script.js:273-274 | the `push` loop collects the header and one row per project, in order |
| Chart.ChartContainer.constructor | script.js:37 | a fresh container: not rendered, nothing drawn or retained, tooltip and card hidden |
| Chart.ChartContainer.RenderSkillScatter | script.js:35-138 | a no-op on a rendered container or for an empty skill list; otherwise draws the skill scene with a hidden tooltip and sets `rendered` |
| Chart.ChartContainer.RenderProjectScatter | script.js:141-245 | a no-op on a rendered container; otherwise draws the portfolio's scene, hides tooltip and card, retains the portfolio and sets `rendered` |
| Chart.ChartContainer.MouseEnter | script.js:118-120 | the tooltip shows the point's label; nothing else changes |
| Chart.ChartContainer.MouseMove | script.js:121-125 | the tooltip moves to 12 right of and 12 below the pointer |
| Chart.ChartContainer.MouseLeave | script.js:126 | the tooltip hides; the card stays |
| Chart.ChartContainer.Focus | script.js:127-131 | the point takes focus and the tooltip shows its label at (bbox.left + 12, bbox.top − 6) relative to the container |
| Chart.ChartContainer.Blur | script.js:132 | focus is gone and the tooltip hides; the card stays |
| Chart.ChartContainer.Click | script.js:230-240 | on a project point the card becomes `OpenedCard` of that project; on a skill point nothing changes; the tooltip is untouched |
| Chart.ChartContainer.KeyDown | script.js:241 | Enter/Space alert the label on a skill point, and throw on a project point with nothing changed; Escape drops focus (hiding the tooltip) and, on a project point, hides the card; other keys change nothing |
| Chart.ChartContainer.KeyDownIntended | script.js:230-241 | as `KeyDown`, except that Enter/Space on a project point opens exactly the card a click at (0, 0) opens |
| Chart.ChartContainer.PressCopy | script.js:234 | the card's title goes to the clipboard and the first button reads "Copied" |
| Chart.ChartContainer.PressOpenRepo | script.js:235 | the address opened is the card's repository, and it is never empty |
| Chart.ChartContainer.PressClose | script.js:236 | the card hides; nothing else changes |
| Chart.ChartContainer.ExportProjectsCsv | script.js:272-275 | the header, then one row per retained project, joined by line breaks; the no-rows fallback of `\|\| []` is modelled but cannot be reached from the page, whose only caller (script.js:280) is wired after the portfolio is retained |
| Chart.SkillRenderOnce | script.js:37-48 | after an empty render the container is still unrendered; the next render draws one marker per skill; a further render adds nothing |
| Chart.PortfolioHasNoRepos | script.js:145-151 | no portfolio project has a repository |
| Chart.EnterOpensNoCard | script.js:241 | after the project chart is drawn, Enter on any marker throws and the card stays hidden |
| Chart.ActivateWithoutRepo | script.js:230-241 | Enter on any portfolio marker, handled as intended, opens its card titled with its name, with only "Copy name" and "Close" |
| Chart.ExportAfterRender | script.js:217-280 | before the project chart is drawn nothing is retained (the CSV button is not yet wired); after it, the export is the portfolio's document |
| Chart.PortfolioDocumentRoundTrip | script.js:272-275 | the portfolio's export is exactly six lines: the header, then a line per project decoding to that project |
| Chart.PortfolioNovaExportable | script.js:146 | NOVA's row reads back and is one line |
| Chart.PortfolioAdvisoryExportable | script.js:147 | AIsmartAdvisory's row reads back and is one line |
| Chart.PortfolioSecuraExportable | script.js:148 | SecuraX's row reads back and is one line |
| Chart.PortfolioAmazonEdaExportable | script.js:149 | AmazonEDA's row reads back and is one line |
| Chart.PortfolioBrainTestExportable | script.js:150 | BrainTest's row reads back and is one line |
| Tabs.JsRem | script.js:313 | JavaScript `%`: `a − b·trunc(a/b)` with the quotient truncated toward zero; the usual remainder for non-negative dividends, in (−b, 0] for negative ones |
| Tabs.FocusTabIndex | script.js:311-315 | a focused index is always in [0, total), and there is one whenever the sum is non-negative |
| Tabs.ArrowStepWraps | script.js:311-315 | one arrow step from any button lands on the neighbour, wrapping last → first and first → last |
| Tabs.ArrowStepsCancel | script.js:344-345 | ArrowRight then ArrowLeft returns focus to where it started |

## Findings

| source | as written | input that shows it | evidently intended | confidence | as-written member | corrected member |
|---|---|---|---|---|---|---|
| script.js:241 | Enter/Space on a project marker calls `pt.click()` on an SVG `<circle>`, which has no `click` method, so the handler throws | Enter on any project marker after the project chart is drawn | the key opens the hover card, as a click on the marker does | not executed | Chart.EnterOpensNoCard | Chart.ChartContainer.KeyDownIntended |

`Chart.EnterOpensNoCard` proves that, as written, the card stays hidden.
`Chart.ChartContainer.KeyDownIntended` opens the card a click at (0, 0)
opens, and `Chart.ActivateWithoutRepo` is proved through it.

## Left out

- **DOM construction and styling.** Node creation, attributes, CSS
  strings, the gradient definition, axis lines and axis captions are not
  modelled. They are presentation with no logic beyond the coordinates
  above.
- **Animations.** The `setTimeout` staggers for markers, tags and skill
  bars, `animateSkillBars` and the IntersectionObserver reveals are
  timing only. Markers are modelled at their final radius and opacity.
- **PNG export.** `exportSVGToPNG` and its viewBox parse depend on
  XMLSerializer, Blob, Image and Canvas, which are foreign browser APIs.
- **Browser I/O.** `downloadURI`, the clipboard write, `window.open` and
  `alert` are not performed. `PressCopy`, `PressOpenRepo` and `KeyDown`
  return the text those calls would receive.
- **The copy button's 1200 ms reset** to "Copy name" is a timer, so it is
  not modelled. The next card opening rebuilds the button anyway.
- **Reading skills from the page.** Card headings, span text, `trim` and
  the `parseInt` fallback to 0 are DOM reads. Skills are inputs to
  `RenderSkillScatter`.
- **The `!container` early return.** It is a missing DOM element; the
  model always has a container.
- **Tab glue.** The tab indicator, panel show/hide, Home/End focus,
  Enter/Space click on tabs, the initial-tab code and the URL hash handling are
  page glue, as are the profile tilt and the background parallax.
- **Event dispatch.** The browser decides which point receives an event.
  The handlers take the point's index and, for positions, the bounding
  rectangles and pointer coordinates as parameters.
- **Floating point.** Coordinates are exact reals. Binary floating-point
  rounding and the printing of numbers into SVG attributes are not modelled.
- **The viewBox parse** in the PNG export is left out with the export.
- Records.ColorOr: treats only the four mapped domains as having a
  colour. In the script `colorMap[d]` also finds the names inherited from
  `Object.prototype` (`constructor`, `toString`, `__proto__`, …), which
  give a truthy value that is not a colour. No portfolio domain is such a
  name, so the model returns the fallback for every unmapped domain.
- **Legend placement clear of the plot.** The legend is modelled where the
  script draws it, over the plot. A placement that avoids the markers is not
  modelled.
- Chart.ChartContainer.RenderSkillScatter: takes the random draws as a
  parameter. `Math.random()` is not modelled. The placement lemmas
  assume draws in [0, 1).
