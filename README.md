# Portfolio page behaviour, modelled in Dafny

This project models the parts of a single-page portfolio site (script.js and
portfolio.js, with data.js as the page's data) whose behaviour can be stated
and proved. The rest of the site only moves data into the DOM.

- **Typewriter effect** (`Typewriter`, `TypewriterRun`). `startTypingEffect`
  cycles through the taglines. It types a phrase one character every 100 ms,
  pauses 2000 ms, then 1000 ms more, deletes one character every 50 ms, waits
  500 ms and moves to the next phrase.
  - The closure variables `currentPhrase`, `currentChar`, `isDeleting` and
    `isPaused`, plus the element's text, form the record `Cursor`. The class
    `TypingEffect` holds them as fields.
  - One call of `type` is the function `Type`, which `TypingEffect.Step`
    implements. The 2000 ms closure that sets `isDeleting` before calling
    `type` is `Resume`, which `TypingEffect.BeginDelete` implements.
  - Each callback returns the one `Timer` (delay and callback) it schedules.
    `Run` follows that chain of timers.
  - The lemmas show four things. The shown text is always a prefix of the
    current phrase. A cycle returns to character 0 of the next phrase with
    the exact timer sequence. N cycles return to phrase 0. The taglines
    of each page (data.js for portfolio.js, script.js's own data object for
    script.js) and `["Hi", "Yo"]` are worked instances.
- **Project filter** (`Projects`). This is `ProjectFilter` of script.js.
  - `filterByType` and `searchProjects` select projects by case-insensitive
    substring. Both give an order-preserving selection of the full list,
    specified by multiplicity and subsequence.
  - `renderProjects` draws one card per selected project. Each card's icon
    and link text come from the project's platform.
- **Rendering decisions of portfolio.js** (`Sections`). These are: the
  link-text table, `target="_blank"` only for real URLs, the alternating
  timeline sides, filling the statistics cards, and the resume button.
- **Navigation** (`Navigation`). The scroll and click handlers are the same
  in both files. portfolio.js also renders the navigation list from its data.
  - The rendered navigation list starts with only 'home' active.
  - The handlers work on the links that are on the page when they are
    attached (`NavBar`). In portfolio.js they are attached before the list
    is rendered, so they never reach the rendered links (see Findings).
  - The scroll handler works in two steps. It finds the last section whose
    `offsetTop - 100` the page has scrolled past, then marks exactly the
    links to it. It also sets `scrolled` when `scrollY > 50`.
  - The click handler marks exactly the clicked link.
- **Theme switcher** (`Theme`). This is `ThemeController` of script.js: a
  guarded table lookup. It writes the theme's CSS variables to the root
  style, records the current theme and stores its name. `localStorage` is
  the field `saved`.

Both files have a copy of `startTypingEffect`, and they are the same except
for the null guard in portfolio.js. `TypingEffect` models the shared body.
`StartTypingEffect` models the guarded entry of portfolio.js.

Two behaviours of the typewriter code shape the model.
- With an empty phrase list, `phrases[currentPhrase]` is undefined
  (script.js:340) and the first `current.substring` throws (script.js:359).
  A phrase of length 0 is never finished, because the completion test `currentChar === current.length` (script.js:362) is
  reached only after a character was typed. The model therefore requires a
  non-empty list of non-empty phrases (`Typewriter.WellFormed`).
- Each call of `startTypingEffect` creates its own closure state and its own
  timer chain, and nothing guards against a second call. In the model, each
  `TypingEffect` object is one independent chain.

Files: `text.dfy` (Option, ASCII `toLowerCase`, `includes`),
`typewriter.dfy`, `typewriter_run.dfy`, `projects.dfy`, `sections.dfy`,
`navigation.dfy`, `theme.dfy`.

## Model

| member | source | states |
|---|---|---|
| `Text.Lower` | script.js:616 | Lowercasing keeps the length, turns each upper-case ASCII letter into its lower-case letter (code + 32), and keeps every other character |
| `Text.LowerEqualIffSameUpToCase` | script.js:616 | Two strings lower-case to the same string iff they differ only in the case of ASCII letters |
| `Text.Contains` | script.js:616 | `includes` never finds a needle longer than the string, and always finds a prefix of it (the empty string, the string itself) |
| `Text.ContainsIffOccurs` | script.js:625-627 | `includes` finds the needle iff it occurs at some position of the string |
| `Typewriter.Prefix` | script.js:349 | `substring(0, n)` is a prefix of the phrase whose length is `n` clamped into `0..length` |
| `Typewriter.Start` | script.js:334-337 | Set-up state: phrase 0, character 0, neither deleting nor paused; the element keeps its text |
| `Typewriter.Type` | script.js:339-374 | A step taken while paused only clears `isPaused` and schedules 1000 ms. A typing step appends the next character of the phrase and schedules 100 ms; the step that completes the phrase pauses and schedules the 2000 ms closure. A deleting step drops the last character and schedules 50 ms; the step that reaches 0 clears `isDeleting`, moves to phrase `(i + 1) mod N` with an empty text and schedules 500 ms. The step keeps the invariant (text = first `currentChar` characters of the phrase, counter in range), and the first step establishes it whatever the element showed |
| `Typewriter.Resume` | script.js:364-367 | The 2000 ms closure on a paused state gives deleting, not paused, the same text and counter, and schedules 1000 ms; it keeps the invariant |
| `Typewriter.TypingEffect.constructor` | script.js:331-337 | The fields start at phrase 0, character 0, not deleting, not paused |
| `Typewriter.TypingEffect.Step` | script.js:339-374 | The new fields and the returned timer are exactly those of `Type` on the old fields; the invariant is kept |
| `Typewriter.TypingEffect.BeginDelete` | script.js:364-367 | The new fields and the returned timer are those of `Resume`; from a paused valid state the result is valid and deleting |
| `Typewriter.StartTypingEffect` | portfolio.js:432-480 | With no typing element, nothing is created and nothing is scheduled, whatever the phrases. Otherwise it creates fresh state, makes the first `type` call and returns its timer, and the state satisfies the invariant |
| `TypewriterRun.Tick` | script.js:339-374 | Running the pending callback keeps the phrase index in range and keeps the between-callbacks invariant (including: the 2000 ms closure is pending exactly while paused) |
| `TypewriterRun.Run` | script.js:339-376 | Following the chain of timers never leaves the phrase list |
| `TypewriterRun.Delays` | script.js:339-376 | Each callback schedules exactly one timer |
| `TypewriterRun.RunSplit` | script.js:339-376 | Running `a` callbacks then `b` more equals running `a + b`; the timer sequences concatenate |
| `TypewriterRun.RunKeepsSettled` | script.js:348-370 | Every run from a settled state stays settled |
| `TypewriterRun.AlwaysSettled` | script.js:331-377 | After every callback since page load, the text is the first `currentChar` characters of `phrases[currentPhrase]` and the invariant holds |
| `TypewriterRun.TypingPhase` | script.js:358-373 | The first `k` callbacks on phrase `i` type `k` characters with 100 ms timers. The `L`-th callback pauses with the 2000 ms closure pending |
| `TypewriterRun.DeletingPhase` | script.js:348-373 | From the fully typed phrase, `k` callbacks delete `k` characters with 50 ms timers; the `L`-th moves to the start of phrase `(i + 1) mod N` with a 500 ms timer |
| `TypewriterRun.Cycle` | script.js:339-374 | After `L` typing steps, the pause transition and `L` deleting steps, the state is character 0, not deleting, not paused, phrase `(i + 1) mod N`. The timers are 100 × (L-1), 2000, 1000, 50 × (L-1), 500 |
| `TypewriterRun.Rotation` | script.js:354 | After the cycles of the first `k` phrases the effect is at the start of phrase `k mod N`; after `N` cycles it is back at phrase 0 |
| `TypewriterRun.TwoPhraseExample` | script.js:334-374 | For `["Hi", "Yo"]`, ten callbacks (two full cycles) return to phrase 0 |
| `TypewriterRun.TaglinesRotate` | data.js:35-40 | The data.js taglines (the phrases of portfolio.js) are a valid phrase list, and one rotation returns to the first tagline |
| `TypewriterRun.ScriptTaglinesRotate` | script.js:16-21 | The taglines script.js declares for its own effect are a valid phrase list, and one rotation returns to the first |
| `Projects.Keeps` | script.js:615-617 | The filter callbacks: a type argument naming the platform in any case keeps the project, one longer than the platform never does; a query spelling the title in any case keeps it |
| `Projects.KeepsIgnoresCase` | script.js:616 | Type arguments (or queries) that differ only in ASCII case keep the same projects |
| `Projects.SelectIgnoresCase` | script.js:615-617 | Filtering or searching with arguments that differ only in case shows the same projects in the same order |
| `Projects.Select` | script.js:615-617 | `filter` keeps exactly the projects the criterion accepts, each as often as it occurs, in original order (a subsequence) |
| `Projects.SelectAll` | script.js:624-628 | A criterion that accepts every project selects the whole list unchanged |
| `Projects.EmptyQueryKeepsAll` | script.js:622-630 | Searching for the empty query keeps every project |
| `Projects.ProjectIcon` | script.js:686-693 | 'robot' exactly for Android, 'mobile' exactly for Cross-Platform, 'mobile-alt' for iOS and every unknown type |
| `Projects.DemoLinkText` | script.js:677 | 'App Store' exactly for iOS, 'Play Store' exactly for Android, otherwise 'Live Demo' |
| `Projects.CardOf` | script.js:655-684 | A card carries the project's icon, title, description, tags, links and the platform's link text |
| `Projects.RenderCards` | script.js:636-639 | One card per project, in order |
| `Projects.ProjectFilter.constructor` | script.js:604-608 | Starts with every project shown and the filter 'all' |
| `Projects.ProjectFilter.Render` | script.js:632-639 | The grid holds the cards of the filtered projects |
| `Projects.ProjectFilter.FilterByType` | script.js:610-620 | `currentFilter` records the argument. 'all' restores the full list. Any other argument keeps exactly the projects whose lower-cased type contains it lower-cased, in order. The grid is re-rendered |
| `Projects.ProjectFilter.SearchProjects` | script.js:622-630 | Keeps exactly the projects whose title, description or some technology contains the query case-insensitively, searched over all projects whatever the current filter; `currentFilter` is unchanged |
| `Sections.ProjectLinkText` | portfolio.js:189-196 | iOS → 'App Store', Android → 'Play Store', Cross-Platform → 'Live Demo', anything else → 'Demo' (each as an iff) |
| `Sections.LinkTextsAgreeOnKnownPlatforms` | portfolio.js:189-196 | The link text of portfolio.js and that of script.js agree on the three known platforms; on any other type they differ ('Demo' against 'Live Demo') |
| `Sections.OutboundLink` | portfolio.js:177-180 | A link keeps its URL and gets `target="_blank"` iff the URL is not '#' |
| `Sections.ShowcaseCards` | portfolio.js:165-186 | One card per project, in order; the GitHub and demo links open a new tab iff their URL is not '#'; the demo text is the platform's link text |
| `Sections.TimelineSide` | portfolio.js:209 | 'fade-left' iff the index is even, 'fade-right' iff it is odd |
| `Sections.Timeline` | portfolio.js:208-217 | One item per experience entry, in order, with its fields; item `i` takes `TimelineSide(i)`, so it is on the left iff `i` is even |
| `Sections.TimelineAlternates` | portfolio.js:208-209 | Neighbouring timeline items are on opposite sides |
| `Sections.StatList` | portfolio.js:102-107 | Exactly four statistics, in card order: downloads, projects, experience, rating, each with its label |
| `Sections.FillCard` | portfolio.js:110-115 | A card's number and label elements receive the statistic's value and label when present, and stay absent otherwise |
| `Sections.FillStatCards` | portfolio.js:109-116 | Card `i` is filled with `stats[i]` for `i < |stats|`; later cards are untouched |
| `Sections.DownloadResume` | portfolio.js:585-591 | Opens the URL iff it is non-empty and not '#'; otherwise shows the 'info' notice |
| `Navigation.RenderNavigation` | portfolio.js:58-65 | One link per navigation entry, in order, with its href and label; only the entry with id 'home' is active |
| `Navigation.ActiveSection` | portfolio.js:329-337 | The section the handler selects is '' or the id of a section that is reached with no later section reached |
| `Navigation.ActiveSectionIsLastReached` | portfolio.js:329-337 | The active section is the id of the last section in document order with `offsetTop - 100 <= scrollY`, and '' if there is none |
| `Navigation.CurrentSection` | portfolio.js:329-337 | The forward `forEach` loop computes exactly that active section |
| `Navigation.NavBar.constructor` | script.js:217-218 | The bar holds the links on the page when the handlers are attached, with their active flags, and is not scrolled |
| `Navigation.NavBar.OnScroll` | portfolio.js:322-345 | The navbar has `scrolled` iff `scrollY > 50`; afterwards a link is active iff its href is `'#' + id` of the active section |
| `Navigation.NavBar.UpdateActiveNavLink` | portfolio.js:348-353 | Afterwards exactly one link is active, the clicked one |
| `Navigation.MarkLinks` | portfolio.js:339-344 | Re-marking keeps each link's href and label, in order, and makes a link active iff its href is `'#' + ` the current section |
| `Navigation.LoadAsWritten` | portfolio.js:5-9 | As written, the handlers hold the links present before rendering, while the page shows `RenderNavigation` of the data, not scrolled |
| `Navigation.ScrollAsWritten` | portfolio.js:320-345 | As written, a scroll re-marks the captured links for the active section and leaves the rendered links unchanged; `scrolled` iff `scrollY > 50` |
| `Navigation.RenderedLinksIgnoreScroll` | portfolio.js:59-64 | With 'Home' and 'About' and the page scrolled to the about section, the rendered 'Home' stays active and 'About' is not marked, whereas re-marking the rendered links marks 'About' alone |
| `Navigation.RenderedLinksNeverFollowScroll` | portfolio.js:320-345 | As written, after any sequence of scroll events the rendered links still carry the flags rendering gave them |
| `Navigation.NavBar.OnLinkClick` | portfolio.js:300-313 | With a target section, it scrolls to 80 px above the section and marks only the clicked link; with none, it changes nothing |
| `Theme.ThemesAreUniform` | script.js:815-834 | Each of the three themes sets the same four CSS variables, each once |
| `Theme.Apply` | script.js:842-844 | After the `setProperty` loop the root style has exactly its old properties and the theme's properties |
| `Theme.ApplyAt` | script.js:842-844 | Setting a theme's properties in order gives each its value and leaves every other property as it was |
| `Theme.SwitchForgetsHistory` | script.js:837-849 | After a switch, the four variables depend only on the chosen theme, not on what the page had before |
| `Theme.ThemeController.constructor` | script.js:813-835 | Starts on 'dark' without touching the page or storage |
| `Theme.ThemeController.SwitchTheme` | script.js:837-849 | An unknown name changes nothing. A known name sets exactly that theme's CSS properties, leaves the others alone, makes it current and stores its name |
| `Theme.ThemeController.LoadSavedTheme` | script.js:851-856 | A stored name is applied only if it is a known theme; otherwise nothing changes |
| `Theme.SwitchThemeAsWritten` | script.js:837-849 | The code as written: a known name switches; a name that is neither a theme nor inherited from `Object.prototype` changes nothing |
| `Theme.InheritedNameIsAccepted` | script.js:838 | As written, 'toString' is no theme, yet it becomes the current theme and is stored, with no CSS property set |

## Findings

| source | as written | input that shows it | evidently intended | confidence | as-written member | corrected member |
|---|---|---|---|---|---|---|
| script.js:838 | The guard `this.themes[themeName]` is also truthy for names every object inherits from `Object.prototype`. For those names `Object.keys` is empty, so no CSS variable is set, but `currentTheme` becomes that name and the name is stored. `loadSavedTheme` (script.js:853) then re-applies it on every load | `switchTheme('toString')` | Only the three own theme names pass the guard; any other name changes nothing | high; not executed | `Theme.SwitchThemeAsWritten`, `Theme.InheritedNameIsAccepted` | `Theme.ThemeController.SwitchTheme` |

| portfolio.js:8-9 | The constructor calls `bindEvents` before `populateContent`. `setupNavigationEffects` (portfolio.js:320) and `setupSmoothScrolling` (portfolio.js:298) capture the anchors of `.nav-links` then, and `populateNavigation` (portfolio.js:62-64) replaces them. The scroll handler re-marks detached anchors, and the rendered links get no click handler | Links 'Home', 'About'; sections at 0 and 800; scroll to 700 | The handlers act on the rendered links, so 'About' becomes active | high; not executed | `Navigation.ScrollAsWritten`, `Navigation.RenderedLinksIgnoreScroll` | `Navigation.NavBar.OnScroll` on a bar built from `Navigation.RenderNavigation` |

## Left out

- Timers, observers and events: `setTimeout` is the `Timer` a step returns. `IntersectionObserver`, `requestAnimationFrame` and listener registration are not modelled. Neither is cancelling the chain when the page is torn down.
- Typewriter.TypingEffect: only the guarded start of portfolio.js is modelled. script.js has no null check and throws when `#typingText` is missing.
- Typewriter.WellFormed: an empty phrase list (a crash in the code) and empty phrases (typing never ends) are excluded by requirement, not modelled.
- Text.Lower: only ASCII letters are lowercased; Unicode case mapping of `toLowerCase` is not modelled. Strings are sequences of characters, not UTF-16 code units.
- Projects.ProjectIcon: a type naming an `Object.prototype` member (e.g. 'constructor') makes the code's lookup return that member instead of the default. The model returns 'mobile-alt'.
- Sections.ProjectLinkText: the same inherited-name lookup would return a function instead of 'Demo'. The model returns 'Demo'.
- Theme.SwitchTheme: the class follows the corrected guard (see Findings). `Theme.SwitchThemeAsWritten` is the as-written behaviour, and it also applies to `loadSavedTheme`.
- Sections.FillStatCards: statistic values are kept as the strings `setAttribute` writes, because numbers (such as 1.5) would need floating point. The number formatting is not modelled.
- Floating point: counter animation, parallax rate, scroll-progress percentage, random particles, and the per-card animation delay `index * 0.1`.
- Browser I/O: the PDF blob download of script.js, notifications and the form-success toast, the contact form, the mobile menu toggle, `handleResize`, `PerformanceMonitor`, the cursor tracker, meta tags and the loader.
- HTML text: templates are reduced to the decisions they make. Data is interpolated without escaping, and the model claims none.
- The `if (!container) return` guards of the `populate*` functions are not modelled; with no container they only skip the assignment. The hero, skills, testimonials, contact and footer templates, and the about-text paragraphs, are straight data-to-markup maps with no decision in them.
- Navigation.NavBar.OnScroll: assumes `#navbar` exists. Without it, `navbar.classList` (script.js:223, portfolio.js:324) throws before any link is re-marked, and the model does not capture that abort.
- Projects.ProjectFilter.Render: assumes `.projects-grid` exists. Without it, `container.innerHTML = ''` (script.js:634) throws.
- Projects.ProjectFilter.FilterByType: assumes `.projects-grid` exists. Without it the code has already assigned `currentFilter` and `filteredProjects` when rendering throws, so those change but the grid does not; the model does not capture that state.
- Projects.ProjectFilter.SearchProjects: assumes `.projects-grid` exists. Without it `filteredProjects` has already changed when rendering throws, and the grid has not; the model does not capture that state.
- Navigation.Section: `offsetTop` is an integer in the DOM and is modelled as `int`; `scrollY` is a `real`, so fractional scroll positions under zoom are covered. Floating-point rounding of `offsetTop - 100` is not modelled.
- Navigation.ScrollAsWritten: covers the scroll handler of portfolio.js as written. That the rendered links get no click handler (a click does the browser's default jump, without the 80 px offset or re-marking) is stated in Findings, not modelled.
- The click handler is attached only to links whose href starts with '#'; the model takes the clicked link's index as given.
- data.js and the data object of script.js are static configuration; only their taglines appear, as example inputs.
