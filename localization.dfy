/** The localization service of `services/LocalizationService.ts`: the
    current language, the three-level lookup of a translation key, the
    duration and relative-time texts built from translated unit names, and
    the language tables. The translation table itself is a parameter of the
    service: a map from language to the entries given for it. */
module Localization {
  import opened Wrappers
  import Strings
  import JsNumber

  datatype Language = En | Ko | Zh | Es | Hi | Ja | Fr | De | Pt | Ar

  /** The language's code, as the table and the settings store it. */
  function Code(l: Language): string {
    match l
    case En => "en" case Ko => "ko" case Zh => "zh" case Es => "es" case Hi => "hi"
    case Ja => "ja" case Fr => "fr" case De => "de" case Pt => "pt" case Ar => "ar"
  }

  /** The six languages whose tables are still empty placeholders. */
  predicate IsPlaceholder(l: Language) {
    l in {Hi, Ja, Fr, De, Pt, Ar}
  }

  type Table = map<Language, map<string, string>>

  /** The entry the table gives a key in one language, if it gives one. */
  function Entry(table: Table, l: Language, key: string): Option<string> {
    if l in table && key in table[l] then Some(table[l][key]) else None
  }

  /** JavaScript's truthiness of an optional string: present and non-empty. */
  predicate Usable(e: Option<string>) {
    e.Some? && e.value != ""
  }

  /** The shape of the shipped table: the placeholder languages have no
      entries. */
  predicate PlaceholdersEmpty(table: Table) {
    forall l :: IsPlaceholder(l) && l in table ==> table[l] == map[]
  }

  /** `translate` in language `l`: that language's entry when usable, then
      the English entry when usable, then the caller's fallback when
      non-empty, and the key itself last; never empty for a non-empty key. */
  function Lookup(table: Table, l: Language, key: string, fallback: Option<string>): (r: string)
    ensures Usable(Entry(table, l, key)) ==> r == Entry(table, l, key).value
    ensures !Usable(Entry(table, l, key)) && Usable(Entry(table, En, key)) ==> r == Entry(table, En, key).value
    ensures !Usable(Entry(table, l, key)) && !Usable(Entry(table, En, key)) ==>
      r == if Usable(fallback) then fallback.value else key
    ensures key != "" ==> r != ""
  {
    var translation := Entry(table, l, key);
    if Usable(translation) then translation.value
    else
      var english := Entry(table, En, key);
      if Usable(english) then english.value
      else if Usable(fallback) then fallback.value
      else key
  }

  /** In the placeholder languages every key reads as in English. */
  lemma PlaceholderReadsAsEnglish(table: Table, l: Language, key: string, fallback: Option<string>)
    requires PlaceholdersEmpty(table) && IsPlaceholder(l)
    ensures Lookup(table, l, key, fallback) == Lookup(table, En, key, fallback)
  {
  }

  /** A key with no usable entry anywhere reads as the fallback, or as itself. */
  lemma MissingKeyReadsAsFallback(table: Table, l: Language, key: string, fallback: Option<string>)
    requires forall m :: !Usable(Entry(table, m, key))
    ensures Lookup(table, l, key, fallback) == if Usable(fallback) then fallback.value else key
  {
    assert !Usable(Entry(table, l, key)) && !Usable(Entry(table, En, key));
  }

  /** The first character of a translated unit name. */
  function UnitLetter(table: Table, l: Language, unit: string): char
    requires unit != ""
  {
    Lookup(table, l, unit, None)[0]
  }

  /** `formatTime`: "{h}{u} {m}{u}" from one whole hour on, "{m}{u} {s}{u}"
      from one whole minute on, "{s}{u}" below, each u the first letter of
      the translated unit. */
  function FormatDuration(table: Table, l: Language, seconds: int): (r: string)
    ensures |r| >= 2
    ensures seconds >= 3600 ==> r[|r| - 1] == UnitLetter(table, l, "minutes")
    ensures seconds < 3600 ==> r[|r| - 1] == UnitLetter(table, l, "seconds")
  {
    var hours := JsNumber.FloorDiv(seconds, 3600);
    var minutes := JsNumber.FloorDiv(JsNumber.Rem(seconds, 3600), 60);
    var remainingSeconds := JsNumber.Rem(seconds, 60);
    if hours > 0 then
      Strings.IntToString(hours) + [UnitLetter(table, l, "hours")] + " " +
      Strings.IntToString(minutes) + [UnitLetter(table, l, "minutes")]
    else if minutes > 0 then
      Strings.IntToString(minutes) + [UnitLetter(table, l, "minutes")] + " " +
      Strings.IntToString(remainingSeconds) + [UnitLetter(table, l, "seconds")]
    else Strings.IntToString(remainingSeconds) + [UnitLetter(table, l, "seconds")]
  }

  /** For a non-negative duration the three fields are the exact split into
      hours, minutes in 0..59 and seconds in 0..59; the text shows the two
      largest non-zero ones from hours down (no seconds once there is an
      hour), or the seconds alone. */
  lemma FormatDurationFields(table: Table, l: Language, seconds: nat)
    ensures var h := seconds / 3600; var m := (seconds % 3600) / 60; var s := seconds % 60;
      && 0 <= m < 60 && 0 <= s < 60 && h * 3600 + m * 60 + s == seconds
      && FormatDuration(table, l, seconds) ==
           if h > 0 then
             Strings.NatToString(h) + [UnitLetter(table, l, "hours")] + " " +
             Strings.NatToString(m) + [UnitLetter(table, l, "minutes")]
           else if m > 0 then
             Strings.NatToString(m) + [UnitLetter(table, l, "minutes")] + " " +
             Strings.NatToString(s) + [UnitLetter(table, l, "seconds")]
           else Strings.NatToString(s) + [UnitLetter(table, l, "seconds")]
  {
    var h := seconds / 3600;
    assert (seconds % 3600) / 60 * 60 + seconds % 60 == seconds % 3600 by {
      assert seconds % 60 == (seconds % 3600) % 60 by {
        assert seconds == h * 3600 + seconds % 3600;
        assert seconds == (h * 60 + (seconds % 3600) / 60) * 60 + (seconds % 3600) % 60;
      }
    }
  }

  /** `formatRelativeTime`: the age in whole days, hours, minutes or seconds,
      the first of these that is positive, with floor division at each step. */
  function FormatRelative(table: Table, l: Language, timestampMs: int, nowMs: int): (r: string)
    ensures |r| > 4 && r[|r| - 4..] == " ago"
  {
    var diff := nowMs - timestampMs;
    var seconds := JsNumber.FloorDiv(diff, 1000);
    var minutes := JsNumber.FloorDiv(seconds, 60);
    var hours := JsNumber.FloorDiv(minutes, 60);
    var days := JsNumber.FloorDiv(hours, 24);
    if days > 0 then Strings.IntToString(days) + " " + Lookup(table, l, "days", None) + " ago"
    else if hours > 0 then Strings.IntToString(hours) + " " + Lookup(table, l, "hours", None) + " ago"
    else if minutes > 0 then Strings.IntToString(minutes) + " " + Lookup(table, l, "minutes", None) + " ago"
    else Strings.IntToString(seconds) + " " + Lookup(table, l, "seconds", None) + " ago"
  }

  /** Which unit `formatRelativeTime` reports for an age in milliseconds:
      days from one whole day on, hours from one whole hour, minutes from one
      whole minute, seconds below (negative for a time in the future). */
  lemma FormatRelativeUnits(table: Table, l: Language, timestampMs: int, nowMs: int)
    ensures var age := nowMs - timestampMs; var r := FormatRelative(table, l, timestampMs, nowMs);
      && (age >= 86400000 ==>
            r == Strings.IntToString(age / 86400000) + " " + Lookup(table, l, "days", None) + " ago")
      && (3600000 <= age < 86400000 ==>
            r == Strings.IntToString(age / 3600000) + " " + Lookup(table, l, "hours", None) + " ago")
      && (60000 <= age < 3600000 ==>
            r == Strings.IntToString(age / 60000) + " " + Lookup(table, l, "minutes", None) + " ago")
      && (age < 60000 ==>
            r == Strings.IntToString(age / 1000) + " " + Lookup(table, l, "seconds", None) + " ago")
  {
    var age := nowMs - timestampMs;
    MsToMinutes(age);
    MinutesToHours(age);
    HoursToDays(age);
  }

  lemma MsToMinutes(age: int)
    ensures (age / 1000) / 60 == age / 60000
  {
    var s := age / 1000;
    assert age == (s / 60) * 60000 + ((s % 60) * 1000 + age % 1000);
  }

  lemma MinutesToHours(age: int)
    ensures (age / 60000) / 60 == age / 3600000
  {
    var m := age / 60000;
    assert age == (m / 60) * 3600000 + ((m % 60) * 60000 + age % 60000);
  }

  lemma HoursToDays(age: int)
    ensures (age / 3600000) / 24 == age / 86400000
  {
    var h := age / 3600000;
    assert age == (h / 24) * 86400000 + ((h % 24) * 3600000 + age % 3600000);
  }

  /** `getLanguageDisplayName`'s table of names, each in its own language. */
  function NativeName(l: Language): string {
    match l
    case En => "English" case Ko => "한국어" case Zh => "中文" case Es => "Español"
    case Hi => "हिंदी" case Ja => "日本語" case Fr => "Français" case De => "Deutsch"
    case Pt => "Português" case Ar => "العربية"
  }

  /** `getLanguageDisplayName`: the table's name, or the code when the name
      is empty; every language has a name, so the code never shows. */
  function DisplayName(l: Language): (r: string)
    ensures r == NativeName(l) && r != Code(l) && r != ""
  {
    var name := NativeName(l);
    if name != "" then name else Code(l)
  }

  /** The position of each language among the table's keys. */
  function Position(l: Language): nat {
    match l
    case En => 0 case Ko => 1 case Zh => 2 case Es => 3 case Hi => 4
    case Ja => 5 case Fr => 6 case De => 7 case Pt => 8 case Ar => 9
  }

  /** `getSupportedLanguages`: the table's languages in their order, each
      with its display name, every language exactly once. */
  function SupportedLanguages(): (r: seq<(Language, string)>)
    ensures |r| == 10
    ensures forall l :: Position(l) < |r| && r[Position(l)].0 == l
    ensures forall i, j :: 0 <= i < j < |r| ==> r[i].0 != r[j].0
    ensures forall i :: 0 <= i < |r| ==> r[i].1 == DisplayName(r[i].0)
  {
    var codes := [En, Ko, Zh, Es, Hi, Ja, Fr, De, Pt, Ar];
    seq(10, i requires 0 <= i < 10 => (codes[i], DisplayName(codes[i])))
  }

  class LocalizationService {
    var currentLanguage: Language
    const translations: Table

    /** The service starts in English over the given table. */
    constructor (translations: Table)
      ensures currentLanguage == En && this.translations == translations
    {
      currentLanguage := En;
      this.translations := translations;
    }

    /** `setLanguage`: afterwards the current language is the one given. */
    method SetLanguage(language: Language)
      modifies this
      ensures currentLanguage == language
    {
      currentLanguage := language;
    }

    method GetCurrentLanguage() returns (l: Language)
      ensures l == currentLanguage
    {
      l := currentLanguage;
    }

    /** `translate` (and its shorthand `t`) in the current language. */
    function Translate(key: string, fallback: Option<string>): (r: string)
      reads this
      ensures r == Lookup(translations, currentLanguage, key, fallback)
      ensures key != "" ==> r != ""
    {
      Lookup(translations, currentLanguage, key, fallback)
    }

    /** `formatTime` in the current language. */
    function FormatTime(seconds: int): (r: string)
      reads this
      ensures seconds >= 0 ==>
        var h := seconds / 3600; var m := (seconds % 3600) / 60; var s := seconds % 60;
        r == if h > 0 then Strings.NatToString(h) + [UnitLetter(translations, currentLanguage, "hours")] + " " + Strings.NatToString(m) + [UnitLetter(translations, currentLanguage, "minutes")]
             else if m > 0 then Strings.NatToString(m) + [UnitLetter(translations, currentLanguage, "minutes")] + " " + Strings.NatToString(s) + [UnitLetter(translations, currentLanguage, "seconds")]
             else Strings.NatToString(s) + [UnitLetter(translations, currentLanguage, "seconds")]
    {
      if seconds >= 0 then
        FormatDurationFields(translations, currentLanguage, seconds);
        FormatDuration(translations, currentLanguage, seconds)
      else FormatDuration(translations, currentLanguage, seconds)
    }

    /** `formatRelativeTime` in the current language, `nowMs` standing for
        the clock. */
    function FormatRelativeTime(timestampMs: int, nowMs: int): (r: string)
      reads this
      ensures var age := nowMs - timestampMs;
        && (age >= 86400000 ==> r == Strings.IntToString(age / 86400000) + " " + Lookup(translations, currentLanguage, "days", None) + " ago")
        && (3600000 <= age < 86400000 ==> r == Strings.IntToString(age / 3600000) + " " + Lookup(translations, currentLanguage, "hours", None) + " ago")
        && (60000 <= age < 3600000 ==> r == Strings.IntToString(age / 60000) + " " + Lookup(translations, currentLanguage, "minutes", None) + " ago")
        && (age < 60000 ==> r == Strings.IntToString(age / 1000) + " " + Lookup(translations, currentLanguage, "seconds", None) + " ago")
    {
      FormatRelativeUnits(translations, currentLanguage, timestampMs, nowMs);
      FormatRelative(translations, currentLanguage, timestampMs, nowMs)
    }

    /** `isRTL`: exactly when the current language is Arabic. */
    function IsRTL(): (r: bool)
      reads this
      ensures r <==> currentLanguage == Ar
    {
      currentLanguage == Ar
    }
  }

  /** Setting a language and then reading it gives that language back. */
  method SetThenGet(s: LocalizationService, language: Language) returns (l: Language)
    modifies s
    ensures l == language
    ensures s.IsRTL() <==> language == Ar
  {
    s.SetLanguage(language);
    l := s.GetCurrentLanguage();
  }
}
