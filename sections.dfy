/** The rendering decisions of portfolio.js: the project showcase, the
    experience timeline, the statistics cards and the resume button.  The
    HTML text itself is left out; only what each template decides is kept. */
module Sections {
  import opened Text
  import opened Projects

  /** `getProjectLinkText`: the demo-link text by platform, 'Demo' for
      platforms the table does not know. */
  function ProjectLinkText(platform: string): (r: string)
    ensures r in {"App Store", "Play Store", "Live Demo", "Demo"}
    ensures r == "App Store" <==> platform == "iOS"
    ensures r == "Play Store" <==> platform == "Android"
    ensures r == "Live Demo" <==> platform == "Cross-Platform"
  {
    if platform == "iOS" then "App Store"
    else if platform == "Android" then "Play Store"
    else if platform == "Cross-Platform" then "Live Demo"
    else "Demo"
  }

  /** The two link-text rules (the inline one of script.js and the table of
      portfolio.js) agree on the three known platforms and differ on every
      other one: 'Live Demo' against 'Demo'. */
  lemma LinkTextsAgreeOnKnownPlatforms(platform: string)
    ensures platform in {"iOS", "Android", "Cross-Platform"} ==> ProjectLinkText(platform) == DemoLinkText(platform)
    ensures platform !in {"iOS", "Android", "Cross-Platform"} ==>
              DemoLinkText(platform) == "Live Demo" && ProjectLinkText(platform) == "Demo"
  {
  }

  /** A project link: its `href`, and whether it carries `target="_blank"`. */
  datatype Link = Link(href: string, newTab: bool)

  /** Links open in a new tab unless they are the placeholder '#'. */
  function OutboundLink(url: string): (r: Link)
    ensures r.href == url
    ensures r.newTab <==> url != "#"
  {
    Link(url, url != "#")
  }

  /** The parts of a project card that `populateProjectsSection` decides. */
  datatype Showcase = Showcase(icon: string, title: string, description: string, tags: seq<string>,
                               github: Link, demo: Link, demoText: string)

  function ShowcaseOf(p: Project): Showcase {
    Showcase(p.icon, p.title, p.description, p.technologies, OutboundLink(p.github), OutboundLink(p.demo),
             ProjectLinkText(p.platform))
  }

  /** `populateProjectsSection`: one card per project, in order; each link
      opens a new tab exactly when its URL is not '#'. */
  function ShowcaseCards(ps: seq<Project>): (r: seq<Showcase>)
    ensures |r| == |ps|
    ensures forall i :: 0 <= i < |ps| ==>
              && r[i].icon == ps[i].icon && r[i].title == ps[i].title
              && r[i].description == ps[i].description && r[i].tags == ps[i].technologies
              && r[i].github.href == ps[i].github && (r[i].github.newTab <==> ps[i].github != "#")
              && r[i].demo.href == ps[i].demo && (r[i].demo.newTab <==> ps[i].demo != "#")
              && r[i].demoText == ProjectLinkText(ps[i].platform)
  {
    seq(|ps|, i requires 0 <= i < |ps| => ShowcaseOf(ps[i]))
  }

  /** One entry of `portfolioData.experience`. */
  datatype Experience = Experience(period: string, title: string, company: string, description: string)

  /** One rendered `.timeline-item`. */
  datatype TimelineItem = TimelineItem(side: string, period: string, title: string, company: string, description: string)

  /** The animation class of timeline item `i`. */
  function TimelineSide(i: nat): (r: string)
    ensures r == "fade-left" <==> i % 2 == 0
    ensures r == "fade-right" <==> i % 2 == 1
  {
    if i % 2 == 0 then "fade-left" else "fade-right"
  }

  /** `populateExperienceSection`: one item per entry, in order, the sides
      alternating left, right, left, ... */
  function Timeline(es: seq<Experience>): (r: seq<TimelineItem>)
    ensures |r| == |es|
    ensures forall i :: 0 <= i < |es| ==> r[i].period == es[i].period && r[i].title == es[i].title
                                          && r[i].company == es[i].company && r[i].description == es[i].description
    ensures forall i :: 0 <= i < |es| ==> r[i].side == TimelineSide(i)
    ensures forall i :: 0 <= i < |es| ==> (r[i].side == "fade-left" <==> i % 2 == 0)
  {
    seq(|es|, i requires 0 <= i < |es| =>
      TimelineItem(TimelineSide(i), es[i].period, es[i].title, es[i].company, es[i].description))
  }

  /** Neighbouring timeline items are on opposite sides. */
  lemma TimelineAlternates(es: seq<Experience>, i: nat)
    requires i + 1 < |es|
    ensures Timeline(es)[i].side != Timeline(es)[i + 1].side
    ensures {Timeline(es)[i].side, Timeline(es)[i + 1].side} == {"fade-left", "fade-right"}
  {
    var r := Timeline(es);
    assert (i % 2 == 0) != ((i + 1) % 2 == 0);
    assert r[i].side == TimelineSide(i) && r[i + 1].side == TimelineSide(i + 1);
  }

  /** One statistic: the value written to `data-target` and its label. */
  datatype Stat = Stat(value: string, caption: string)

  /** The `portfolioData.stats` fields `populateAboutSection` reads. */
  datatype StatsData = StatsData(
    downloads: string, downloadsLabel: string,
    projects: string, projectsLabel: string,
    experience: string, experienceLabel: string,
    rating: string, ratingLabel: string)

  /** The four statistics, in the order of the cards. */
  function StatList(d: StatsData): (r: seq<Stat>)
    ensures |r| == 4
    ensures r[0] == Stat(d.downloads, d.downloadsLabel) && r[1] == Stat(d.projects, d.projectsLabel)
    ensures r[2] == Stat(d.experience, d.experienceLabel) && r[3] == Stat(d.rating, d.ratingLabel)
  {
    [Stat(d.downloads, d.downloadsLabel), Stat(d.projects, d.projectsLabel),
     Stat(d.experience, d.experienceLabel), Stat(d.rating, d.ratingLabel)]
  }

  /** A `.stat-card`: its number element's `data-target` and its label
      element's text; `None` when the card has no such element. */
  datatype StatCard = StatCard(target: Option<string>, caption: Option<string>)

  /** Fill one card with one statistic, touching only the elements it has. */
  function FillCard(card: StatCard, s: Stat): (r: StatCard)
    ensures r.target.Some? == card.target.Some? && r.caption.Some? == card.caption.Some?
    ensures card.target.Some? ==> r.target == Some(s.value)
    ensures card.caption.Some? ==> r.caption == Some(s.caption)
  {
    StatCard(if card.target.Some? then Some(s.value) else None,
             if card.caption.Some? then Some(s.caption) else None)
  }

  /** The `statCards.forEach` loop of `populateAboutSection`: card `i` gets
      statistic `i` when there is one; the cards after the last statistic
      are left as they were. */
  method FillStatCards(cards: array<StatCard>, stats: seq<Stat>)
    modifies cards
    ensures forall i :: 0 <= i < cards.Length && i < |stats| ==> cards[i] == FillCard(old(cards[i]), stats[i])
    ensures forall i :: |stats| <= i < cards.Length ==> cards[i] == old(cards[i])
  {
    var i := 0;
    while i < cards.Length
      invariant 0 <= i <= cards.Length
      invariant forall j :: 0 <= j < i && j < |stats| ==> cards[j] == FillCard(old(cards[j]), stats[j])
      invariant forall j :: i <= j < cards.Length || |stats| <= j < cards.Length ==> cards[j] == old(cards[j])
    {
      if i < |stats| {
        cards[i] := FillCard(cards[i], stats[i]);
      }
      i := i + 1;
    }
  }

  /** What the resume button does. */
  datatype ResumeAction = OpenInNewTab(url: string) | Notify(message: string, kind: string)

  /** `downloadResume`: open the URL when it is set and not the placeholder
      '#', otherwise tell the visitor it is not available yet. */
  function DownloadResume(url: string): (r: ResumeAction)
    ensures r.OpenInNewTab? <==> url != "" && url != "#"
    ensures r.OpenInNewTab? ==> r.url == url
    ensures r.Notify? ==> r.kind == "info" && r.message == "Resume will be available soon!"
  {
    if url != "" && url != "#" then OpenInNewTab(url) else Notify("Resume will be available soon!", "info")
  }
}
