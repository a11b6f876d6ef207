/** `ThemeController` of script.js: three named colour themes, each a list
    of CSS custom properties written to the document root, with the chosen
    name remembered under the storage key 'portfolio-theme'. */
module Theme {
  import opened Text

  /** A theme's CSS custom properties, in the order `Object.keys` lists them. */
  type Properties = seq<(string, string)>

  const Themes: map<string, Properties> := map[
    "dark" := [("--primary-color", "#667eea"), ("--secondary-color", "#764ba2"),
               ("--dark-bg", "#0f0f23"), ("--darker-bg", "#020024")],
    "blue" := [("--primary-color", "#4facfe"), ("--secondary-color", "#00f2fe"),
               ("--dark-bg", "#0a1b2e"), ("--darker-bg", "#051016")],
    "purple" := [("--primary-color", "#a855f7"), ("--secondary-color", "#ec4899"),
                 ("--dark-bg", "#1e1b3a"), ("--darker-bg", "#0f0d1a")]
  ]

  /** The properties every theme sets. */
  const Variables: set<string> := {"--primary-color", "--secondary-color", "--dark-bg", "--darker-bg"}

  /** The property names a list sets. */
  function Names(props: Properties): set<string>
    decreases |props|
  {
    if props == [] then {} else Names(props[..|props| - 1]) + {props[|props| - 1].0}
  }

  predicate DistinctNames(props: Properties) {
    forall i, j :: 0 <= i < j < |props| ==> props[i].0 != props[j].0
  }

  /** A name is set by a list exactly when some entry of the list has it. */
  lemma {:induction false} NamesAt(props: Properties, k: string)
    ensures k in Names(props) <==> exists i :: 0 <= i < |props| && props[i].0 == k
    decreases |props|
  {
    if props != [] {
      var n := |props| - 1;
      NamesAt(props[..n], k);
      if k in Names(props[..n]) {
        var i :| 0 <= i < n && props[..n][i].0 == k;
        assert props[i].0 == k;
      }
      if exists i :: 0 <= i < |props| && props[i].0 == k {
        var i :| 0 <= i < |props| && props[i].0 == k;
        if i < n {
          assert props[..n][i].0 == k;
        }
      }
    }
  }

  /** The three themes each set the same four variables, once each. */
  lemma ThemesAreUniform(name: string)
    requires name in Themes
    ensures DistinctNames(Themes[name]) && Names(Themes[name]) == Variables
  {
    var t := Themes[name];
    forall k ensures k in Names(t) <==> k in Variables {
      NamesAt(t, k);
      if k in Variables {
        assert k == t[0].0 || k == t[1].0 || k == t[2].0 || k == t[3].0;
      }
    }
  }

  /** `root.style.setProperty(property, value)` for each property in order:
      afterwards the style has exactly its old properties and the listed ones. */
  function Apply(style: map<string, string>, props: Properties): (r: map<string, string>)
    ensures forall k :: k in r <==> k in style || k in Names(props)
    decreases |props|
  {
    if props == [] then style
    else Apply(style, props[..|props| - 1])[props[|props| - 1].0 := props[|props| - 1].1]
  }

  /** Applying a list of distinct properties sets each of them to its value
      and leaves every other property as it was. */
  lemma {:induction false} ApplyAt(style: map<string, string>, props: Properties, k: string)
    requires DistinctNames(props)
    ensures forall i :: 0 <= i < |props| && props[i].0 == k ==> k in Apply(style, props) && Apply(style, props)[k] == props[i].1
    ensures k !in Names(props) ==> (k in Apply(style, props) <==> k in style)
    ensures k !in Names(props) && k in style ==> Apply(style, props)[k] == style[k]
    decreases |props|
  {
    if props != [] {
      var n := |props| - 1;
      ApplyAt(style, props[..n], k);
    }
  }

  /** After a switch the four variables hold the new theme's values,
      whatever the page showed before. */
  lemma SwitchForgetsHistory(style1: map<string, string>, style2: map<string, string>, name: string, k: string)
    requires name in Themes && k in Variables
    ensures k in Apply(style1, Themes[name]) && k in Apply(style2, Themes[name])
    ensures Apply(style1, Themes[name])[k] == Apply(style2, Themes[name])[k]
  {
    ThemesAreUniform(name);
    var t := Themes[name];
    assert k == t[0].0 || k == t[1].0 || k == t[2].0 || k == t[3].0;
    ApplyAt(style1, t, k);
    ApplyAt(style2, t, k);
  }

  class ThemeController {
    var currentTheme: string
    /** The custom properties set on `document.documentElement.style`. */
    var rootStyle: map<string, string>
    /** `localStorage.getItem('portfolio-theme')`. */
    var saved: Option<string>

    /** The controller starts on 'dark' and touches neither the page nor storage. */
    constructor (rootStyle: map<string, string>, saved: Option<string>)
      ensures currentTheme == "dark" && this.rootStyle == rootStyle && this.saved == saved
    {
      currentTheme := "dark";
      this.rootStyle := rootStyle;
      this.saved := saved;
    }

    /** `switchTheme`, with the guard checking for an own theme name: an
        unknown name changes nothing; a known one sets exactly that theme's
        properties, records it as current and persists it. */
    method SwitchTheme(name: string)
      modifies this
      ensures name !in Themes ==> unchanged(this)
      ensures name in Themes ==> currentTheme == name && saved == Some(name)
      ensures name in Themes ==> rootStyle == Apply(old(rootStyle), Themes[name])
      ensures name in Themes ==> forall i :: 0 <= i < |Themes[name]| ==>
                Themes[name][i].0 in rootStyle && rootStyle[Themes[name][i].0] == Themes[name][i].1
      ensures name in Themes ==> forall k :: k !in Variables ==> (k in rootStyle <==> k in old(rootStyle))
      ensures name in Themes ==> forall k :: k !in Variables && k in old(rootStyle) ==> rootStyle[k] == old(rootStyle)[k]
    {
      if name in Themes {
        var theme := Themes[name];
        var i := 0;
        while i < |theme|
          invariant 0 <= i <= |theme|
          invariant rootStyle == Apply(old(rootStyle), theme[..i])
          invariant currentTheme == old(currentTheme) && saved == old(saved)
        {
          assert theme[..i + 1][..i] == theme[..i];
          rootStyle := rootStyle[theme[i].0 := theme[i].1];
          i := i + 1;
        }
        assert theme[..i] == theme;
        currentTheme := name;
        saved := Some(name);
        ThemesAreUniform(name);
        forall k ensures (k !in Variables ==> (k in rootStyle <==> k in old(rootStyle)))
                         && (k !in Variables && k in old(rootStyle) ==> rootStyle[k] == old(rootStyle)[k])
                         && (forall j :: 0 <= j < |theme| && theme[j].0 == k ==> k in rootStyle && rootStyle[k] == theme[j].1)
        {
          ApplyAt(old(rootStyle), theme, k);
        }
      }
    }

    /** `loadSavedTheme`: a stored name is applied only when it names a theme. */
    method LoadSavedTheme()
      modifies this
      ensures !(old(saved).Some? && old(saved).value in Themes) ==> unchanged(this)
      ensures old(saved).Some? && old(saved).value in Themes ==>
                && currentTheme == old(saved).value && saved == old(saved)
                && rootStyle == Apply(old(rootStyle), Themes[old(saved).value])
    {
      if saved.Some? && saved.value != "" && saved.value in Themes {
        SwitchTheme(saved.value);
      }
    }
  }

  /** The names a plain JavaScript object inherits from `Object.prototype`;
      looking one of them up on the themes object yields a function or an
      object, which is truthy. */
  const InheritedNames: set<string> := {
    "constructor", "toString", "toLocaleString", "valueOf", "hasOwnProperty",
    "isPrototypeOf", "propertyIsEnumerable", "__proto__",
    "__defineGetter__", "__defineSetter__", "__lookupGetter__", "__lookupSetter__"
  }

  /** The controller's state as values: current theme, root style, storage. */
  datatype ThemeState = ThemeState(current: string, style: map<string, string>, saved: Option<string>)

  /** `switchTheme` exactly as script.js writes it: the guard `this.themes[themeName]`
      also accepts inherited names, whose `Object.keys` list is empty. */
  function SwitchThemeAsWritten(s: ThemeState, name: string): (r: ThemeState)
    ensures name in Themes ==> r == ThemeState(name, Apply(s.style, Themes[name]), Some(name))
    ensures name !in Themes && name !in InheritedNames ==> r == s
  {
    if name in Themes then ThemeState(name, Apply(s.style, Themes[name]), Some(name))
    else if name in InheritedNames then ThemeState(name, Apply(s.style, []), Some(name))
    else s
  }

  /** 'toString' is no theme, yet the code as written makes it the current
      theme and stores it, setting no CSS property. */
  lemma InheritedNameIsAccepted(s: ThemeState)
    ensures "toString" !in Themes
    ensures SwitchThemeAsWritten(s, "toString") == ThemeState("toString", s.style, Some("toString"))
    ensures SwitchThemeAsWritten(s, "toString") != s || s.current == "toString"
  {
  }
}
