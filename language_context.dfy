// The language provider of the frontend: the current locale, kept in local
// storage and mirrored on the document, its translation function and the
// French/Arabic toggle.

module LanguageContext {
  import opened Common
  import opened I18n

  /** The local-storage key of the saved locale. */
  const StorageKey: string := "bvmt-locale"

  /** The locale a provider starts with: the saved one when a browser window
      exists and a non-empty value is saved, otherwise French. */
  function InitialLocale(hasWindow: bool, saved: Option<string>): (r: string)
    ensures hasWindow && saved.Some? && saved.value != "" ==> r == saved.value
    ensures !(hasWindow && saved.Some? && saved.value != "") ==> r == DefaultLocale
  {
    if hasWindow && saved.Some? && saved.value != "" then saved.value else DefaultLocale
  }

  /** toggleLanguage: French becomes Arabic, every other locale French. */
  function Toggled(locale: string): (r: string)
    ensures r == "ar" <==> locale == "fr"
    ensures r == "fr" <==> locale != "fr"
  {
    if locale == "fr" then "ar" else "fr"
  }

  /** Toggling twice gives back French or Arabic, and turns any other locale
      into Arabic. */
  lemma ToggleTwice(locale: string)
    ensures locale == "fr" || locale == "ar" ==> Toggled(Toggled(locale)) == locale
    ensures locale != "fr" && locale != "ar" ==> Toggled(Toggled(locale)) == "ar"
  {
  }

  /** The document's text direction for a locale. */
  function Direction(locale: string): (r: string)
    ensures r == "rtl" <==> locale == "ar"
  {
    if locale == "ar" then "rtl" else "ltr"
  }

  /** LanguageProvider: the locale state, the saved value and the two
      attributes the effect writes on the document element. */
  class LanguageProvider {
    var locale: string
    var saved: Option<string>
    var dir: string
    var lang: string

    constructor(hasWindow: bool, stored: Option<string>)
      ensures locale == InitialLocale(hasWindow, stored) && saved == stored
      ensures dir == "" && lang == ""
    {
      locale := InitialLocale(hasWindow, stored);
      saved := stored;
      dir := "";
      lang := "";
    }

    /** isRTL. */
    predicate IsRTL()
      reads this
    {
      locale == "ar"
    }

    /** t: the translation of a key in the current locale. */
    function T(t: Translations, key: string): (r: Entry)
      reads this
      ensures locale != "ar" ==> r == Translation(t, DefaultLocale, key)
    {
      Translation(t, locale, key)
    }

    /** The effect run after each locale change: the locale is saved, and
        the document's direction and language follow it. */
    method SyncDocument()
      modifies this`saved, this`dir, this`lang
      ensures saved == Some(locale) && lang == locale
      ensures dir == Direction(locale) && (dir == "rtl" <==> IsRTL())
    {
      saved := Some(locale);
      dir := Direction(locale);
      lang := locale;
    }

    /** setLocale. */
    method SetLocale(l: string)
      modifies this`locale
      ensures locale == l
    {
      locale := l;
    }

    /** toggleLanguage. */
    method ToggleLanguage()
      modifies this`locale
      ensures locale == Toggled(old(locale))
      ensures old(locale) == "fr" <==> IsRTL()
    {
      locale := Toggled(locale);
    }
  }

  /** useLanguage: the provider's value, or the error thrown outside a
      provider. */
  function UseLanguage(context: Option<LanguageProvider>): (r: Result<LanguageProvider, string>)
    ensures context.None? <==> r.Err?
    ensures r.Err? ==> r.error == "useLanguage must be used within a LanguageProvider"
    ensures context.Some? ==> r == Ok(context.value)
  {
    match context
    case None => Err("useLanguage must be used within a LanguageProvider")
    case Some(c) => Ok(c)
  }
}
