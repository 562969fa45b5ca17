/** The popup's theme switcher: the theme index, the body's class set, the stored theme name and
    the button's icon. */
module Theme {
  import opened JsText

  const Default := Lit("default")

  /** The themes in button order. */
  const Themes: seq<JsString> := [Default, Lit("dark"), Lit("tech"), Lit("nature"), Lit("dream"), Lit("vibrant")]

  /** The button icon for each theme, as UTF-16 code units (five of them outside the Basic
      Multilingual Plane): 🎨 🌙 💻 🌿 ✨ 🔥. */
  const Icons: seq<JsString> := [[0xD83C, 0xDFA8], [0xD83C, 0xDF19], [0xD83D, 0xDCBB], [0xD83C, 0xDF3F],
                                 [0x2728], [0xD83D, 0xDD25]]

  /** The classes `applyTheme` removes: exactly these five. */
  const ThemeClasses: set<JsString> :=
    {Lit("theme-dark"), Lit("theme-tech"), Lit("theme-nature"), Lit("theme-dream"), Lit("theme-vibrant")}

  function ThemeClass(name: JsString): JsString {
    Lit("theme-") + name
  }

  /** The body's classes after `applyTheme(name)`. */
  function Themed(classes: set<JsString>, name: JsString): (r: set<JsString>)
    ensures r - ThemeClasses - {ThemeClass(name)} == classes - ThemeClasses - {ThemeClass(name)}
    ensures name == Default ==> r * ThemeClasses == {}
    ensures name != Default ==> ThemeClass(name) in r
  {
    (classes - ThemeClasses) + (if name == Default then {} else {ThemeClass(name)})
  }

  /** The position of `name` in the theme list (`themes.indexOf`, -1 as None). */
  function ThemeIndex(name: JsString): (k: Option<nat>)
    ensures k.Some? ==> k.value < |Themes| && Themes[k.value] == name
    ensures k.None? <==> name !in Themes
  {
    if name == Themes[0] then Some(0)
    else if name == Themes[1] then Some(1)
    else if name == Themes[2] then Some(2)
    else if name == Themes[3] then Some(3)
    else if name == Themes[4] then Some(4)
    else if name == Themes[5] then Some(5)
    else None
  }

  /** The class of every listed theme but the default is one the switcher removes. */
  lemma ListedThemeClasses(k: nat)
    requires 1 <= k < |Themes|
    ensures ThemeClass(Themes[k]) in ThemeClasses
  {
    LitConcat("theme-", "dark");
    assert "theme-" + "dark" == "theme-dark";
    LitConcat("theme-", "tech");
    assert "theme-" + "tech" == "theme-tech";
    LitConcat("theme-", "nature");
    assert "theme-" + "nature" == "theme-nature";
    LitConcat("theme-", "dream");
    assert "theme-" + "dream" == "theme-dream";
    LitConcat("theme-", "vibrant");
    assert "theme-" + "vibrant" == "theme-vibrant";
  }

  /** Only the first listed theme is the default. */
  lemma OnlyFirstIsDefault(k: nat)
    requires 1 <= k < |Themes|
    ensures Themes[k] != Default
  {
    assert |Default| == 7;
    assert Lit("vibrant")[0] != Default[0];
  }

  /** After applying a listed theme the body carries exactly that theme's class among the
      theme classes, or none of them for the default. */
  lemma ThemedShowsOnlyOne(classes: set<JsString>, k: nat)
    requires k < |Themes|
    ensures Themed(classes, Themes[k]) * ThemeClasses == if k == 0 then {} else {ThemeClass(Themes[k])}
  {
    if k != 0 {
      ListedThemeClasses(k);
      OnlyFirstIsDefault(k);
    }
  }

  /** Applying a theme forgets the theme applied before it, and applying one twice is the same
      as once. */
  lemma ThemedLastWins(classes: set<JsString>, k: nat, name: JsString)
    requires k < |Themes|
    ensures Themed(Themed(classes, name), Themes[k]) == Themed(classes, Themes[k]) || name !in Themes
    ensures Themed(Themed(classes, Themes[k]), Themes[k]) == Themed(classes, Themes[k])
  {
    if k != 0 {
      ListedThemeClasses(k);
      OnlyFirstIsDefault(k);
    }
    if name in Themes {
      var j :| 0 <= j < |Themes| && Themes[j] == name;
      if j != 0 {
        ListedThemeClasses(j);
        OnlyFirstIsDefault(j);
      }
    }
  }

  class ThemeControl {
    /** `currentThemeIndex`. */
    var index: nat
    /** The body's class list, as a set. */
    var bodyClasses: set<JsString>
    /** What this popup last wrote under the `theme` key of storage. */
    var saved: Option<JsString>
    /** The theme button's text. */
    var icon: JsString

    ghost predicate Valid()
      reads this
    {
      index < |Themes|
    }

    /** The popup as loaded: index 0 and the page's own classes and icon. */
    constructor (classes: set<JsString>, initialIcon: JsString)
      ensures Valid()
      ensures index == 0 && bodyClasses == classes && saved == None && icon == initialIcon
    {
      index, bodyClasses, saved, icon := 0, classes, None, initialIcon;
    }

    /** `applyTheme`: remove the five theme classes, add the one for `name` (none for the
        default), and store the name. */
    method ApplyTheme(name: JsString)
      modifies this
      ensures bodyClasses == Themed(old(bodyClasses), name)
      ensures saved == Some(name)
      ensures index == old(index) && icon == old(icon)
    {
      bodyClasses := bodyClasses - ThemeClasses;
      if name != Default {
        bodyClasses := bodyClasses + {ThemeClass(name)};
      }
      saved := Some(name);
    }

    /** The stored theme at start-up: applied, and made current, only when it is a non-empty
        name in the list. The icon is not updated. */
    method Restore(stored: JsString)
      requires Valid()
      modifies this
      ensures Valid()
      ensures ThemeIndex(stored).Some? ==>
                index == ThemeIndex(stored).value && bodyClasses == Themed(old(bodyClasses), stored) &&
                saved == Some(stored) && icon == old(icon)
      ensures ThemeIndex(stored).None? ==>
                index == old(index) && bodyClasses == old(bodyClasses) && saved == old(saved) && icon == old(icon)
    {
      if stored != [] {
        var k := ThemeIndex(stored);
        if k.Some? {
          index := k.value;
          ApplyTheme(stored);
        }
      }
    }

    /** The theme button: advance to the next theme in the cycle, apply it and show its icon. */
    method Click()
      requires Valid()
      modifies this
      ensures Valid()
      ensures index == (old(index) + 1) % |Themes|
      ensures bodyClasses == Themed(old(bodyClasses), Themes[index])
      ensures saved == Some(Themes[index]) && icon == Icons[index]
    {
      index := (index + 1) % |Themes|;
      ApplyTheme(Themes[index]);
      icon := Icons[index];
    }
  }

  /** The index after `n` clicks from index `i`. */
  function Advance(i: nat, n: nat): (r: nat)
    requires i < |Themes|
    ensures r < |Themes|
  {
    if n == 0 then i else (Advance(i, n - 1) + 1) % |Themes|
  }

  /** `n` clicks move the index `n` places round the cycle of six, so six clicks bring every
      theme back. */
  lemma {:induction false} AdvanceCycle(i: nat, n: nat)
    requires i < |Themes|
    ensures Advance(i, n) == (i + n) % 6
    ensures n % 6 == 0 ==> Advance(i, n) == i
  {
    if n > 0 {
      AdvanceCycle(i, n - 1);
      StepMod(i + n - 1);
    }
    if n % 6 == 0 {
      WholeTurns(i, n);
    }
  }

  lemma StepMod(m: nat)
    ensures (m % 6 + 1) % 6 == (m + 1) % 6
  {
  }

  lemma WholeTurns(i: nat, n: nat)
    requires i < 6 && n % 6 == 0
    ensures (i + n) % 6 == i
  {
    assert n == 6 * (n / 6);
  }
}
