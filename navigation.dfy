/** Navigation highlighting (script.js and portfolio.js alike): the rendered
    navigation list, the scroll handler that marks the link of the section
    being read, and the click handler that marks the clicked link. */
module Navigation {
  import opened Text

  /** One entry of `portfolioData.navigation`. */
  datatype NavItem = NavItem(id: string, href: string, caption: string)

  /** One rendered navigation link. */
  datatype NavLink = NavLink(href: string, caption: string, active: bool)

  /** `populateNavigation`: one link per entry, in order; only the entry with
      id 'home' starts out active. */
  function RenderNavigation(items: seq<NavItem>): (r: seq<NavLink>)
    ensures |r| == |items|
    ensures forall i :: 0 <= i < |items| ==> r[i].href == items[i].href && r[i].caption == items[i].caption
    ensures forall i :: 0 <= i < |items| ==> (r[i].active <==> items[i].id == "home")
  {
    seq(|items|, i requires 0 <= i < |items| => NavLink(items[i].href, items[i].caption, items[i].id == "home"))
  }

  /** A `section[id]` of the page, in document order, with its `offsetTop`. */
  datatype Section = Section(id: string, offsetTop: int)

  /** The scroll handler counts a section as reached once the page is
      scrolled to within 100 pixels above it. */
  predicate Reached(s: Section, scrollY: real) {
    scrollY >= (s.offsetTop - 100) as real
  }

  /** Section `i` is reached and no later section is. */
  predicate LastReached(sections: seq<Section>, scrollY: real, i: int) {
    && 0 <= i < |sections|
    && Reached(sections[i], scrollY)
    && forall j :: i < j < |sections| ==> !Reached(sections[j], scrollY)
  }

  /** The section being read: the last reached one in document order, or ''
      when none is reached. */
  function ActiveSection(sections: seq<Section>, scrollY: real): (r: string)
    ensures r == "" || exists i :: LastReached(sections, scrollY, i) && sections[i].id == r
    decreases |sections|
  {
    if sections == [] then ""
    else if Reached(sections[|sections| - 1], scrollY) then
      assert LastReached(sections, scrollY, |sections| - 1);
      sections[|sections| - 1].id
    else
      var init := sections[..|sections| - 1];
      var r := ActiveSection(init, scrollY);
      if r == "" then r
      else
        var i :| LastReached(init, scrollY, i) && init[i].id == r;
        assert LastReached(sections, scrollY, i);
        r
  }

  /** `ActiveSection` is the id of the last reached section, and '' when no
      section is reached. */
  lemma {:induction false} ActiveSectionIsLastReached(sections: seq<Section>, scrollY: real)
    ensures (forall i :: 0 <= i < |sections| ==> !Reached(sections[i], scrollY)) ==> ActiveSection(sections, scrollY) == ""
    ensures forall i :: LastReached(sections, scrollY, i) ==> ActiveSection(sections, scrollY) == sections[i].id
    decreases |sections|
  {
    if sections != [] {
      var n := |sections| - 1;
      var init := sections[..n];
      if !Reached(sections[n], scrollY) {
        ActiveSectionIsLastReached(init, scrollY);
        forall i | LastReached(sections, scrollY, i)
          ensures ActiveSection(sections, scrollY) == sections[i].id
        {
          assert LastReached(init, scrollY, i);
        }
      }
    }
  }

  /** The `sections.forEach` loop of the scroll handler, in document order. */
  method CurrentSection(sections: seq<Section>, scrollY: real) returns (current: string)
    ensures current == ActiveSection(sections, scrollY)
  {
    current := "";
    var i := 0;
    while i < |sections|
      invariant 0 <= i <= |sections|
      invariant current == ActiveSection(sections[..i], scrollY)
    {
      assert sections[..i + 1][..i] == sections[..i];
      if Reached(sections[i], scrollY) {
        current := sections[i].id;
      }
      i := i + 1;
    }
    assert sections[..i] == sections;
  }

  /** The navigation bar: the `scrolled` class of `#navbar` and the `active`
      class of each `.nav-links a`, in document order. */
  class NavBar {
    const hrefs: seq<string>
    const active: array<bool>
    var scrolled: bool

    ghost predicate Valid()
      reads this
    {
      active.Length == |hrefs|
    }

    /** The bar over the links on the page when the handlers are attached,
        before any scrolling. */
    constructor (links: seq<NavLink>)
      ensures Valid() && fresh(active) && !scrolled
      ensures hrefs == seq(|links|, i requires 0 <= i < |links| => links[i].href)
      ensures forall k :: 0 <= k < |links| ==> active[k] == links[k].active
    {
      hrefs := seq(|links|, i requires 0 <= i < |links| => links[i].href);
      active := new bool[|links|](i requires 0 <= i < |links| => links[i].active);
      scrolled := false;
    }

    /** The scroll handler: `scrolled` exactly when the page is scrolled more
        than 50 pixels, and exactly the links pointing at `#` + the active
        section are active. */
    method OnScroll(sections: seq<Section>, scrollY: real)
      requires Valid()
      modifies this`scrolled, active
      ensures Valid()
      ensures scrolled <==> scrollY > 50.0
      ensures forall k :: 0 <= k < active.Length ==> (active[k] <==> hrefs[k] == "#" + ActiveSection(sections, scrollY))
    {
      scrolled := scrollY > 50.0;
      var current := CurrentSection(sections, scrollY);
      var k := 0;
      while k < active.Length
        invariant 0 <= k <= active.Length
        invariant scrolled <==> scrollY > 50.0
        invariant forall j :: 0 <= j < k ==> (active[j] <==> hrefs[j] == "#" + current)
      {
        active[k] := false;
        if hrefs[k] == "#" + current {
          active[k] := true;
        }
        k := k + 1;
      }
    }

    /** `updateActiveNavLink`: clear every link, then mark the clicked one. */
    method UpdateActiveNavLink(clicked: nat)
      requires Valid() && clicked < active.Length
      modifies active
      ensures forall k :: 0 <= k < active.Length ==> (active[k] <==> k == clicked)
    {
      var k := 0;
      while k < active.Length
        invariant 0 <= k <= active.Length
        invariant forall j :: 0 <= j < k ==> !active[j]
      {
        active[k] := false;
        k := k + 1;
      }
      active[clicked] := true;
    }

    /** The click handler of `setupSmoothScrolling`: when the link's target
        section exists, scroll to 80 pixels above it and mark the link;
        otherwise do nothing. */
    method OnLinkClick(clicked: nat, target: Option<Section>) returns (scrollTo: Option<int>)
      requires Valid() && clicked < active.Length
      modifies active
      ensures target.None? ==> scrollTo.None? && unchanged(active)
      ensures target.Some? ==> scrollTo == Some(target.value.offsetTop - 80)
      ensures target.Some? ==> forall k :: 0 <= k < active.Length ==> (active[k] <==> k == clicked)
    {
      if target.None? {
        return None;
      }
      scrollTo := Some(target.value.offsetTop - 80);
      UpdateActiveNavLink(clicked);
    }
  }

  /** Re-mark a list of links for the section being read: a link is active
      exactly when it points at that section. */
  function MarkLinks(links: seq<NavLink>, current: string): (r: seq<NavLink>)
    ensures |r| == |links|
    ensures forall k :: 0 <= k < |links| ==> r[k].href == links[k].href && r[k].caption == links[k].caption
    ensures forall k :: 0 <= k < |links| ==> (r[k].active <==> links[k].href == "#" + current)
  {
    seq(|links|, k requires 0 <= k < |links| => links[k].(active := links[k].href == "#" + current))
  }

  /** The navigation of portfolio.js as written: `bindEvents` runs before
      `populateContent`, so the handlers hold the anchors that were in the
      page before `populateNavigation` replaced them (`bound`), while the
      visitor sees the rendered ones (`shown`). */
  datatype NavPage = NavPage(bound: seq<NavLink>, shown: seq<NavLink>, scrolled: bool)

  /** The page after the constructor of portfolio.js: the handlers captured
      `initial`, then the navigation list was rendered from `items`. */
  function LoadAsWritten(initial: seq<NavLink>, items: seq<NavItem>): (r: NavPage)
    ensures r.bound == initial && r.shown == RenderNavigation(items) && !r.scrolled
  {
    NavPage(initial, RenderNavigation(items), false)
  }

  /** The scroll handler of portfolio.js as written: it re-marks the anchors
      it captured and never the rendered ones. */
  function ScrollAsWritten(p: NavPage, sections: seq<Section>, scrollY: real): (r: NavPage)
    ensures r.shown == p.shown
    ensures r.bound == MarkLinks(p.bound, ActiveSection(sections, scrollY))
    ensures r.scrolled <==> scrollY > 50.0
  {
    NavPage(MarkLinks(p.bound, ActiveSection(sections, scrollY)), p.shown, scrollY > 50.0)
  }

  /** A page with 'Home' and 'About', scrolled to the top of the about
      section: as written, the rendered 'Home' link stays active and 'About'
      is not marked, whereas re-marking the rendered links, as the corrected
      bar does, marks 'About' alone. */
  lemma RenderedLinksIgnoreScroll(initial: seq<NavLink>)
    ensures var items := [NavItem("home", "#home", "Home"), NavItem("about", "#about", "About")];
            var sections := [Section("home", 0), Section("about", 800)];
            var after := ScrollAsWritten(LoadAsWritten(initial, items), sections, 700.0);
            && after.shown[0].active && !after.shown[1].active
            && MarkLinks(RenderNavigation(items), ActiveSection(sections, 700.0)) ==
               [NavLink("#home", "Home", false), NavLink("#about", "About", true)]
  {
    var items := [NavItem("home", "#home", "Home"), NavItem("about", "#about", "About")];
    var sections := [Section("home", 0), Section("about", 800)];
    assert ActiveSection(sections, 700.0) == "about" by {
      assert Reached(sections[1], 700.0);
    }
    var marked := MarkLinks(RenderNavigation(items), "about");
    assert marked[0] == NavLink("#home", "Home", false);
    assert marked[1] == NavLink("#about", "About", true);
  }

  /** Whatever the scroll position, the rendered links keep the flags
      `populateNavigation` gave them: only 'home' is ever active. */
  lemma {:induction false} RenderedLinksNeverFollowScroll(initial: seq<NavLink>, items: seq<NavItem>,
                                                          scrolls: seq<real>, sections: seq<Section>)
    ensures var p := ScrollsAsWritten(LoadAsWritten(initial, items), sections, scrolls);
            p.shown == RenderNavigation(items)
    decreases |scrolls|
  {
    if scrolls != [] {
      RenderedLinksNeverFollowScroll(initial, items, scrolls[..|scrolls| - 1], sections);
    }
  }

  /** A sequence of scroll events, in order, on the page as written. */
  function ScrollsAsWritten(p: NavPage, sections: seq<Section>, scrolls: seq<real>): NavPage
    decreases |scrolls|
  {
    if scrolls == [] then p
    else ScrollAsWritten(ScrollsAsWritten(p, sections, scrolls[..|scrolls| - 1]), sections, scrolls[|scrolls| - 1])
  }
}
