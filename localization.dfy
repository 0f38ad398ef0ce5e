/**
 * `L10n`: the application's current language, persisted under one key of the user-defaults
 * store, and its locale.
 *
 * The process-wide `UserDefaults.standard` is an explicit `UserDefaults` object here, so that
 * two instances can share it.
 */
module Localization {
  import opened Wrappers

  datatype Language = Vi | En

  /** The enum's `String` raw values. */
  function RawValue(l: Language): string {
    match l
    case Vi => "vi"
    case En => "en"
  }

  const AllCases: seq<Language> := [Vi, En]

  /** The synthesised `init?(rawValue:)`. */
  function FromRawValue(s: string): (r: Option<Language>)
    ensures r.Some? <==> exists l :: l in AllCases && RawValue(l) == s
    ensures r.Some? ==> RawValue(r.value) == s
  {
    if s == "vi" then assert Vi in AllCases && RawValue(Vi) == s; Some(Vi)
    else if s == "en" then assert En in AllCases && RawValue(En) == s; Some(En)
    else None
  }

  lemma RawValueRoundTrip(l: Language)
    ensures FromRawValue(RawValue(l)) == Some(l)
  {
  }

  const LanguageKey: string := "Tx_AppLanguage"

  /** The string entries of a user-defaults store; values of other types are not modelled. */
  class UserDefaults {
    var strings: map<string, string>

    constructor (initial: map<string, string>)
      ensures strings == initial
    {
      strings := initial;
    }

    /** `string(forKey:)`. */
    function StringFor(key: string): (r: Option<string>)
      reads this
      ensures r.Some? <==> key in strings
      ensures r.Some? ==> r.value == strings[key]
    {
      if key in strings then Some(strings[key]) else None
    }

    /** `set(_:forKey:)` with a string value. */
    method Set(value: string, key: string)
      modifies this
      ensures strings == old(strings)[key := value]
    {
      strings := strings[key := value];
    }
  }

  /** The language `init()` restores: the saved raw value, English when none is saved or it is unknown. */
  function Restore(saved: Option<string>): (l: Language)
    ensures saved.Some? && FromRawValue(saved.value).Some? ==> saved.value == RawValue(l)
    ensures saved.None? || FromRawValue(saved.value).None? ==> l == En
  {
    FromRawValue(saved.GetOr("")).GetOr(En)
  }

  /** Writing a language's raw value under the key and restoring gives the language back. */
  lemma RestoreAfterSave(strings: map<string, string>, l: Language)
    ensures var saved := strings[LanguageKey := RawValue(l)];
            Restore(if LanguageKey in saved then Some(saved[LanguageKey]) else None) == l
  {
  }

  /** English is the default: an empty store restores English. */
  lemma EmptyStoreRestoresEnglish()
    ensures Restore(None) == En && Restore(Some("")) == En && Restore(Some("VI")) == En
  {
  }

  /** `locale()`'s identifier. */
  function LocaleIdentifier(l: Language): (id: string)
    ensures |id| == 5 && id[..2] == RawValue(l) && id[2] == '_'
    ensures l == En ==> id == "en_US"
    ensures l == Vi ==> id == "vi_VN"
  {
    match l
    case En => "en_US"
    case Vi => "vi_VN"
  }

  lemma LocaleIdentifiersDistinct(l1: Language, l2: Language)
    ensures LocaleIdentifier(l1) == LocaleIdentifier(l2) ==> l1 == l2
  {
    if l1 != l2 {
      assert LocaleIdentifier(l1)[..2] != LocaleIdentifier(l2)[..2];
    }
  }

  class L10n {
    var currentLanguage: Language
    const defaults: UserDefaults

    /** `init()`: restores the saved language; assigning in `init` does not run `didSet`. */
    constructor (defaults: UserDefaults)
      ensures this.defaults == defaults
      ensures currentLanguage == Restore(defaults.StringFor(LanguageKey))
    {
      this.defaults := defaults;
      currentLanguage := Restore(defaults.StringFor(LanguageKey));
    }

    /** Assigning `currentLanguage`: the `didSet` observer persists the raw value. */
    method SetCurrentLanguage(language: Language)
      modifies this, defaults
      ensures currentLanguage == language
      ensures defaults.strings == old(defaults.strings)[LanguageKey := RawValue(language)]
    {
      currentLanguage := language;
      defaults.Set(RawValue(language), LanguageKey);
    }

    /** `update(to:)`. */
    method UpdateTo(language: Language)
      modifies this, defaults
      ensures currentLanguage == language
      ensures defaults.strings == old(defaults.strings)[LanguageKey := RawValue(language)]
    {
      SetCurrentLanguage(language);
    }

    /** `locale()`. */
    function Locale(): (id: string)
      reads this
      ensures |id| == 5 && id[..2] == RawValue(currentLanguage)
      ensures id == LocaleIdentifier(currentLanguage)
    {
      LocaleIdentifier(currentLanguage)
    }
  }

  /**
   * The language survives a restart: after `update(to:)` on one instance, a new instance over
   * the same store starts in that language.
   */
  method RestartKeepsLanguage(defaults: UserDefaults, language: Language) returns (restored: Language)
    modifies defaults
    ensures restored == language
    ensures defaults.strings == old(defaults.strings)[LanguageKey := RawValue(language)]
  {
    var first := new L10n(defaults);
    first.UpdateTo(language);
    var second := new L10n(defaults);
    restored := second.currentLanguage;
  }
}
