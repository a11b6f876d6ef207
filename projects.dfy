/** The project grid of script.js: `ProjectFilter` narrows the project list
    by platform or by a search query, and renders one card per remaining
    project. */
module Projects {
  import opened Text

  /** One entry of `portfolioData.projects`; `platform` is the JavaScript
      field `type`, `icon` is used only by portfolio.js. */
  datatype Project = Project(
    title: string,
    description: string,
    technologies: seq<string>,
    github: string,
    demo: string,
    platform: string,
    icon: string)

  /** What a filter keeps: projects whose platform contains a needle, or
      projects that mention a query. */
  datatype Criterion = PlatformContains(needle: string) | Mentions(query: string)

  /** The callback given to `projects.filter(...)`, both ways of comparing
      case-insensitively.  A needle naming the platform in any case is kept,
      a needle longer than the platform never is, and a query spelling the
      title in any case is kept. */
  predicate Keeps(c: Criterion, p: Project): (r: bool)
    ensures c.PlatformContains? && SameUpToCase(c.needle, p.platform) ==> r
    ensures c.PlatformContains? && |c.needle| > |p.platform| ==> !r
    ensures c.Mentions? && SameUpToCase(c.query, p.title) ==> r
  {
    match c
    case PlatformContains(needle) =>
      LowerEqualIffSameUpToCase(needle, p.platform);
      Contains(Lower(p.platform), Lower(needle))
    case Mentions(query) =>
      LowerEqualIffSameUpToCase(query, p.title);
      var q := Lower(query);
      || Contains(Lower(p.title), q)
      || Contains(Lower(p.description), q)
      || exists k | 0 <= k < |p.technologies| :: Contains(Lower(p.technologies[k]), q)
  }

  /** Two criteria of the same kind whose arguments differ only in case. */
  predicate SameCriterionUpToCase(c1: Criterion, c2: Criterion) {
    || (c1.PlatformContains? && c2.PlatformContains? && SameUpToCase(c1.needle, c2.needle))
    || (c1.Mentions? && c2.Mentions? && SameUpToCase(c1.query, c2.query))
  }

  /** The comparison ignores the case of the filter argument and the query. */
  lemma KeepsIgnoresCase(c1: Criterion, c2: Criterion, p: Project)
    requires SameCriterionUpToCase(c1, c2)
    ensures Keeps(c1, p) <==> Keeps(c2, p)
  {
    if c1.PlatformContains? {
      LowerEqualIffSameUpToCase(c1.needle, c2.needle);
    } else {
      LowerEqualIffSameUpToCase(c1.query, c2.query);
    }
  }

  /** `r` is `s` with some elements left out and the rest in their order. */
  ghost predicate IsSubsequence(r: seq<Project>, s: seq<Project>)
    decreases |s|
  {
    if r == [] then true
    else if s == [] then false
    else if r[0] == s[0] then IsSubsequence(r[1..], s[1..])
    else IsSubsequence(r, s[1..])
  }

  /** `Array.prototype.filter`: exactly the projects the criterion keeps, as
      often as they occur, in their original order. */
  function Select(ps: seq<Project>, c: Criterion): (r: seq<Project>)
    ensures forall p :: multiset(r)[p] == if Keeps(c, p) then multiset(ps)[p] else 0
    ensures IsSubsequence(r, ps)
    ensures |r| <= |ps|
  {
    if ps == [] then []
    else
      assert ps == [ps[0]] + ps[1..];
      if Keeps(c, ps[0]) then [ps[0]] + Select(ps[1..], c) else Select(ps[1..], c)
  }

  /** Filtering or searching with arguments that differ only in case shows
      the same projects in the same order. */
  lemma {:induction false} SelectIgnoresCase(ps: seq<Project>, c1: Criterion, c2: Criterion)
    requires SameCriterionUpToCase(c1, c2)
    ensures Select(ps, c1) == Select(ps, c2)
  {
    if ps != [] {
      KeepsIgnoresCase(c1, c2, ps[0]);
      SelectIgnoresCase(ps[1..], c1, c2);
    }
  }

  /** A criterion that keeps every project selects the whole list. */
  lemma {:induction false} SelectAll(ps: seq<Project>, c: Criterion)
    requires forall p :: p in ps ==> Keeps(c, p)
    ensures Select(ps, c) == ps
  {
    if ps != [] {
      SelectAll(ps[1..], c);
    }
  }

  /** The empty query is found in every title, so it keeps every project. */
  lemma EmptyQueryKeepsAll(ps: seq<Project>)
    ensures Select(ps, Mentions("")) == ps
  {
    forall p | p in ps ensures Keeps(Mentions(""), p) {
      assert "" <= Lower(p.title);
    }
    SelectAll(ps, Mentions(""));
  }

  /** `getProjectIcon`: the Font Awesome icon of a platform, 'mobile-alt' for
      platforms the table does not know. */
  function ProjectIcon(platform: string): (r: string)
    ensures r in {"mobile-alt", "robot", "mobile"}
    ensures r == "robot" <==> platform == "Android"
    ensures r == "mobile" <==> platform == "Cross-Platform"
  {
    if platform == "iOS" then "mobile-alt"
    else if platform == "Android" then "robot"
    else if platform == "Cross-Platform" then "mobile"
    else "mobile-alt"
  }

  /** The demo-link text `createProjectCard` writes: 'App Store' for iOS,
      'Play Store' for Android, 'Live Demo' for anything else. */
  function DemoLinkText(platform: string): (r: string)
    ensures r in {"App Store", "Play Store", "Live Demo"}
    ensures r == "App Store" <==> platform == "iOS"
    ensures r == "Play Store" <==> platform == "Android"
  {
    if platform == "iOS" then "App Store" else if platform == "Android" then "Play Store" else "Live Demo"
  }

  /** The parts of a card that `createProjectCard` decides. */
  datatype Card = Card(icon: string, title: string, description: string, tags: seq<string>,
                       githubHref: string, demoHref: string, demoText: string)

  function CardOf(p: Project): (card: Card)
    ensures card.icon == ProjectIcon(p.platform) && card.demoText == DemoLinkText(p.platform)
    ensures card.title == p.title && card.description == p.description && card.tags == p.technologies
    ensures card.githubHref == p.github && card.demoHref == p.demo
  {
    Card(ProjectIcon(p.platform), p.title, p.description, p.technologies, p.github, p.demo, DemoLinkText(p.platform))
  }

  /** `renderProjects`: the grid is emptied and gets one card per project, in order. */
  function RenderCards(ps: seq<Project>): (r: seq<Card>)
    ensures |r| == |ps|
    ensures forall i :: 0 <= i < |ps| ==> r[i] == CardOf(ps[i])
  {
    seq(|ps|, i requires 0 <= i < |ps| => CardOf(ps[i]))
  }

  class ProjectFilter {
    const projects: seq<Project>
    var filteredProjects: seq<Project>
    var currentFilter: string
    /** The cards in the `.projects-grid` container. */
    var grid: seq<Card>

    /** The constructor records the projects and the filter 'all'; it does
        not render, so the grid keeps what the page had. */
    constructor (projects: seq<Project>, grid: seq<Card>)
      ensures this.projects == projects && filteredProjects == projects
      ensures currentFilter == "all" && this.grid == grid
    {
      this.projects := projects;
      filteredProjects := projects;
      currentFilter := "all";
      this.grid := grid;
    }

    /** `renderProjects`. */
    method Render()
      modifies this`grid
      ensures grid == RenderCards(filteredProjects)
    {
      grid := RenderCards(filteredProjects);
    }

    /** `filterByType`: 'all' restores the full list; any other argument keeps
        the projects whose lower-cased platform contains it lower-cased. */
    method FilterByType(platform: string)
      modifies this`filteredProjects, this`currentFilter, this`grid
      ensures currentFilter == platform
      ensures platform == "all" ==> filteredProjects == projects
      ensures platform != "all" ==> filteredProjects == Select(projects, PlatformContains(platform))
      ensures grid == RenderCards(filteredProjects)
    {
      currentFilter := platform;
      if platform == "all" {
        filteredProjects := projects;
      } else {
        filteredProjects := Select(projects, PlatformContains(platform));
      }
      Render();
    }

    /** `searchProjects`: searches the whole project list, whatever the
        current filter, and leaves `currentFilter` as it was. */
    method SearchProjects(query: string)
      modifies this`filteredProjects, this`grid
      ensures filteredProjects == Select(projects, Mentions(query))
      ensures grid == RenderCards(filteredProjects)
      ensures currentFilter == old(currentFilter)
    {
      filteredProjects := Select(projects, Mentions(query));
      Render();
    }
  }
}
