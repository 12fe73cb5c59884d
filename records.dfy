/**
 * The records the two scatter charts plot: skills (read from the skill
 * cards of a panel) and projects (the fixed portfolio of five), and the
 * domain-to-colour mapping of the project chart.
 */
module Records {
  import opened Wrappers

  /** One skill: its label, its bar value (the parsed `data-value`) and the heading of its card. */
  datatype Skill = Skill(labelText: string, val: int, group: string)

  /** One project record; `repo` empty means "no repository link". */
  datatype Project = Project(
    id: string, labelText: string, domain: string,
    progress: int, impact: int, effort: int,
    repo: string, desc: string)

  /** The five projects the project chart always plots, in plotting order. */
  const NOVA := Project("NOVA", "NOVA — NextGen Virtual Assistant", "AI/ML", 92, 94, 90, "",
    "Flagship AI-powered virtual assistant focusing on productivity, modular NLP pipelines, and optimizations for real-world use.")
  const ADVISORY := Project("AIsmartAdvisory", "AIsmartAdvisory", "AI/ML", 75, 78, 68, "",
    "AI-driven advisory system providing recommendations and decision support using ML pipelines and model interpretability.")
  const SECURAX := Project("SecuraX", "SecuraX — Login System", "Cybersecurity", 60, 66, 60, "",
    "Secure authentication and monitoring solution with login-attempt tracking, threat awareness, and secure credential handling.")
  const AMAZON_EDA := Project("AmazonEDA", "Amazon-Prime-EDA-Vishwas", "Data Analytics", 68, 60, 58, "",
    "Exploratory Data Analysis on Amazon Prime dataset: cleaning, preprocessing, visualization, and business insight extraction.")
  const BRAIN_TEST := Project("BrainTest", "Brain Test Game", "Software Engineering", 48, 40, 35, "",
    "Interactive logic-based game emphasizing algorithmic thinking, event handling, and a clean responsive UI for engagement.")

  const PORTFOLIO: seq<Project> := [NOVA, ADVISORY, SECURAX, AMAZON_EDA, BRAIN_TEST]

  /** The domains of the colour map, in the order the legend lists them. */
  const LEGEND_DOMAINS: seq<string> := ["AI/ML", "Cybersecurity", "Data Analytics", "Software Engineering"]

  /** `colorMap[domain]`: None for a domain the map does not know. */
  function DomainColor(domain: string): (c: Option<string>)
    ensures c.Some? <==> domain in LEGEND_DOMAINS
  {
    if domain == "AI/ML" then Some("var(--accent-pink)")
    else if domain == "Cybersecurity" then Some("var(--accent-red)")
    else if domain == "Data Analytics" then Some("var(--accent-green)")
    else if domain == "Software Engineering" then Some("var(--accent-blue)")
    else None
  }

  /** `colorMap[domain] || fallback`: the colour, or the fallback when unmapped. */
  function ColorOr(domain: string, fallback: string): (c: string)
    ensures domain !in LEGEND_DOMAINS ==> c == fallback
    ensures domain in LEGEND_DOMAINS ==> c == DomainColor(domain).value
  {
    match DomainColor(domain)
    case Some(v) => v
    case None => fallback
  }

  const MARKER_FALLBACK := "var(--accent-soft)"
  const LEGEND_FALLBACK := "var(--muted)"

  /** A marker's fill is never empty: every mapped colour and the fallback are non-empty. */
  lemma MarkerFillNonEmpty(domain: string)
    ensures |ColorOr(domain, MARKER_FALLBACK)| > 0
  {
  }
}
