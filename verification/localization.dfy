/** UI language selection: a table of (code, name) pairs, the two linear
    searches between codes and names, and the per-string fallback to English. */
module Localization {
  import opened Common
  import Text
  import Sorting

  /** The generated table of (locale code, display name) pairs. */
  type Table = seq<(string, string)>

  /** Entry `i` is the first whose code is `code`. */
  predicate FirstWithCode(table: Table, code: string, i: nat) {
    i < |table| && table[i].0 == code && forall j :: 0 <= j < i ==> table[j].0 != code
  }

  /** Entry `i` is the first whose name is `name`. */
  predicate FirstWithName(table: Table, name: string, i: nat) {
    i < |table| && table[i].1 == name && forall j :: 0 <= j < i ==> table[j].1 != name
  }

  predicate UniqueCodes(table: Table) {
    forall i, j :: 0 <= i < j < |table| ==> table[i].0 != table[j].0
  }

  predicate UniqueNames(table: Table) {
    forall i, j :: 0 <= i < j < |table| ==> table[i].1 != table[j].1
  }

  /** The search loop of `get_locale_name`: the name of the first entry with
      this code, or "English" when there is none. */
  function NameOf(table: Table, code: string): (name: string)
    ensures (forall i :: 0 <= i < |table| ==> table[i].0 != code) ==> name == "English"
    ensures forall i: nat :: FirstWithCode(table, code, i) ==> name == table[i].1
  {
    if table == [] then "English"
    else if table[0].0 == code then table[0].1
    else
      assert forall i: nat :: FirstWithCode(table, code, i) ==> i > 0 && FirstWithCode(table[1..], code, i - 1);
      NameOf(table[1..], code)
  }

  /** The search loop of `get_locale_denominator`: the code of the first
      entry with this name, or "en" when there is none. */
  function CodeOf(table: Table, name: string): (code: string)
    ensures (forall i :: 0 <= i < |table| ==> table[i].1 != name) ==> code == "en"
    ensures forall i: nat :: FirstWithName(table, name, i) ==> code == table[i].0
  {
    if table == [] then "en"
    else if table[0].1 == name then table[0].0
    else
      assert forall i: nat :: FirstWithName(table, name, i) ==> i > 0 && FirstWithName(table[1..], name, i - 1);
      CodeOf(table[1..], name)
  }

  /** `get_locale_name`: "English" without a denominator, else the name of
      the first entry with that code, or "English" when no entry has it. */
  function GetLocaleName(table: Table, denominator: Option<string>): (name: string)
    ensures denominator.None? ==> name == "English"
    ensures denominator.Some? && (forall i :: 0 <= i < |table| ==> table[i].0 != denominator.value) ==> name == "English"
    ensures forall i: nat :: denominator.Some? && FirstWithCode(table, denominator.value, i) ==> name == table[i].1
  {
    if denominator.None? then "English" else NameOf(table, denominator.value)
  }

  /** `get_locale_denominator`: "en" without a name, else the code of the
      first entry with that name, or "en" when no entry has it. */
  function GetLocaleDenominator(table: Table, name: Option<string>): (code: string)
    ensures name.None? ==> code == "en"
    ensures name.Some? && (forall i :: 0 <= i < |table| ==> table[i].1 != name.value) ==> code == "en"
    ensures forall i: nat :: name.Some? && FirstWithName(table, name.value, i) ==> code == table[i].0
  {
    if name.None? then "en" else CodeOf(table, name.value)
  }

  /** With unique codes, a code in the table names its own entry. */
  lemma LocaleNameOfKnownCode(table: Table, i: nat)
    requires UniqueCodes(table) && i < |table|
    ensures GetLocaleName(table, Some(table[i].0)) == table[i].1
  {
    assert FirstWithCode(table, table[i].0, i);
  }

  /** With unique names, a name in the table gives back its own code. */
  lemma DenominatorOfKnownName(table: Table, i: nat)
    requires UniqueNames(table) && i < |table|
    ensures GetLocaleDenominator(table, Some(table[i].1)) == table[i].0
  {
    assert FirstWithName(table, table[i].1, i);
  }

  /** The two searches are inverse on the table: code to name to code. */
  lemma CodeNameCodeRoundTrip(table: Table, code: string)
    requires UniqueCodes(table) && UniqueNames(table)
    requires exists i :: 0 <= i < |table| && table[i].0 == code
    ensures GetLocaleDenominator(table, Some(GetLocaleName(table, Some(code)))) == code
  {
    var i :| 0 <= i < |table| && table[i].0 == code;
    LocaleNameOfKnownCode(table, i);
    DenominatorOfKnownName(table, i);
  }

  /** ... and name to code to name. */
  lemma NameCodeNameRoundTrip(table: Table, name: string)
    requires UniqueCodes(table) && UniqueNames(table)
    requires exists i :: 0 <= i < |table| && table[i].1 == name
    ensures GetLocaleName(table, Some(GetLocaleDenominator(table, Some(name)))) == name
  {
    var i :| 0 <= i < |table| && table[i].1 == name;
    DenominatorOfKnownName(table, i);
    LocaleNameOfKnownCode(table, i);
  }

  /** One locale file: each of the six UI strings may be missing. */
  datatype Locale = Locale(
    settings: Option<string>,
    search: Option<string>,
    theme: Option<string>,
    windowSize: Option<string>,
    musicPath: Option<string>,
    language: Option<string>)

  predicate Complete(l: Locale) {
    l.settings.Some? && l.search.Some? && l.theme.Some?
    && l.windowSize.Some? && l.musicPath.Some? && l.language.Some?
  }

  /** What `localize` hands to the UI. */
  datatype UiStrings = UiStrings(
    localizations: seq<string>,
    currentLocale: string,
    settings: string,
    search: string,
    theme: string,
    windowSize: string,
    musicPath: string,
    language: string)

  /** The denominator derived from a system locale tag: the part before the
      first '-' ("pt-BR" gives "pt"). */
  function SystemDenominator(systemLocale: string): (d: string)
    ensures '-' !in d && d <= systemLocale
    ensures |d| < |systemLocale| ==> systemLocale[|d|] == '-'
  {
    Text.BeforeFirst(systemLocale, '-')
  }

  lemma SystemDenominatorOfTag(language: string, region: string)
    requires '-' !in language
    ensures SystemDenominator(language + "-" + region) == language
  {
    Text.BeforeFirstOfJoin(language, '-', region);
  }

  /** `own.as_ref().unwrap_or(english.as_ref().unwrap())`: the default is
      unwrapped before `unwrap_or` looks at `own`, so a missing English string
      panics (None here) even when the selected locale has its own. */
  function Pick(own: Option<string>, english: Option<string>): (r: Option<string>)
    ensures r.None? <==> english.None?
    ensures r.Some? && own.Some? ==> r.value == own.value
    ensures r.Some? && own.None? ==> r.value == english.value
  {
    if english.None? then None
    else if own.Some? then own else english
  }

  /** The display names of the table, in table order. */
  function Names(table: Table): (names: seq<string>)
    ensures |names| == |table|
    ensures forall i :: 0 <= i < |table| ==> names[i] == table[i].1
  {
    if table == [] then [] else [table[0].1] + Names(table[1..])
  }

  lemma LexLeqIsTotalPreorder()
    ensures Sorting.TotalPreorder(Text.LexLeq)
  {
    forall a, b ensures Text.LexLeq(a, b) || Text.LexLeq(b, a) {
      Text.LexLeqTotal(a, b);
    }
    forall a, b, c | Text.LexLeq(a, b) && Text.LexLeq(b, c) ensures Text.LexLeq(a, c) {
      Text.LexLeqTransitive(a, b, c);
    }
  }

  /** `localize`.  `getLocale` stands for the generated locale files;
      `systemLocale` for `sys_locale::get_locale()`.  The result is None where
      the source panics: `unwrap_or` evaluates its default eagerly, so an
      absent system locale panics even when a denominator is given, and a
      missing English string panics whatever the selected locale holds. */
  function Localize(
    table: Table,
    getLocale: string -> Locale,
    denominator: Option<string>,
    systemLocale: Option<string>): (r: Option<UiStrings>)
    ensures r.Some? <==> systemLocale.Some? && Complete(getLocale("en"))
    ensures r.Some? ==>
      var d := if denominator.Some? then denominator.value else SystemDenominator(systemLocale.value);
      var own, english := getLocale(d), getLocale("en");
      && r.value.currentLocale == GetLocaleName(table, Some(d))
      && r.value.settings == (if own.settings.Some? then own.settings else english.settings).value
      && r.value.search == (if own.search.Some? then own.search else english.search).value
      && r.value.theme == (if own.theme.Some? then own.theme else english.theme).value
      && r.value.windowSize == (if own.windowSize.Some? then own.windowSize else english.windowSize).value
      && r.value.musicPath == (if own.musicPath.Some? then own.musicPath else english.musicPath).value
      && r.value.language == (if own.language.Some? then own.language else english.language).value
    ensures r.Some? ==>
      && multiset(r.value.localizations) == multiset(Names(table))
      && Sorting.Sorted(r.value.localizations, Text.LexLeq)
  {
    if systemLocale.None? then None
    else
      var d := if denominator.Some? then denominator.value else SystemDenominator(systemLocale.value);
      var own, english := getLocale(d), getLocale("en");
      LexLeqIsTotalPreorder();
      var settings := Pick(own.settings, english.settings);
      var search := Pick(own.search, english.search);
      var theme := Pick(own.theme, english.theme);
      var windowSize := Pick(own.windowSize, english.windowSize);
      var musicPath := Pick(own.musicPath, english.musicPath);
      var language := Pick(own.language, english.language);
      if settings.None? || search.None? || theme.None? || windowSize.None? || musicPath.None? || language.None? then None
      else
        Some(UiStrings(
          Sorting.Sort(Names(table), Text.LexLeq),
          GetLocaleName(table, Some(d)),
          settings.value, search.value, theme.value, windowSize.value, musicPath.value, language.value))
  }

  /** With English complete, the UI offers every table name exactly once per
      table entry, and a locale that has all six strings is shown unmixed. */
  lemma CompleteLocaleShownUnmixed(
    table: Table, getLocale: string -> Locale, d: string, systemLocale: string)
    requires Complete(getLocale("en")) && Complete(getLocale(d))
    ensures var r := Localize(table, getLocale, Some(d), Some(systemLocale));
      && r.Some?
      && |r.value.localizations| == |table|
      && r.value.settings == getLocale(d).settings.value
      && r.value.search == getLocale(d).search.value
      && r.value.theme == getLocale(d).theme.value
      && r.value.windowSize == getLocale(d).windowSize.value
      && r.value.musicPath == getLocale(d).musicPath.value
      && r.value.language == getLocale(d).language.value
  {
    var r := Localize(table, getLocale, Some(d), Some(systemLocale));
    assert |multiset(r.value.localizations)| == |multiset(Names(table))|;
  }
}
