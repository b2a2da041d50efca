/** The site's two languages, the lookup `t(key)` with its English and
    key-itself fallbacks, and the provider's `language` state: chosen on
    mount from the browser language and a stored preference, and changed
    by `setLanguage`, which also stores the choice. The translation tables
    are parameters; their entries are not part of this model. */
module LanguageProvider {
  import opened Optional

  datatype Language = En | Nl

  function Code(l: Language): string {
    match l
    case En => "en"
    case Nl => "nl"
  }

  /** The English and the Dutch table. */
  datatype Translations = Translations(en: map<string, string>, nl: map<string, string>)

  function Table(tables: Translations, l: Language): map<string, string> {
    match l
    case En => tables.en
    case Nl => tables.nl
  }

  /** `t(key)`: the entry of the current language, else the English entry,
      else the key itself. */
  function Translate(tables: Translations, l: Language, key: string): (r: string)
    ensures key in Table(tables, l) ==> r == Table(tables, l)[key]
    ensures key !in Table(tables, l) && key in tables.en ==> r == tables.en[key]
    ensures key !in Table(tables, l) && key !in tables.en ==> r == key
  {
    if key in Table(tables, l) then Table(tables, l)[key]
    else if l != En && key in tables.en then tables.en[key]
    else key
  }

  /** The context outside any provider: English, and `t` is the identity. */
  const DefaultLanguage: Language := En

  function DefaultTranslate(key: string): (r: string)
    ensures r == key
  {
    key
  }

  /** `tag.split("-")[0]`: the text before the first dash. */
  function FirstSegment(tag: string): (r: string)
    ensures '-' !in r && |r| <= |tag| && r == tag[..|r|]
    ensures |r| < |tag| ==> tag[|r|] == '-'
  {
    if tag == [] || tag[0] == '-' then []
    else [tag[0]] + FirstSegment(tag[1..])
  }

  /** A stored value counts only when it is exactly "en" or "nl". */
  function StoredLanguage(stored: Option<string>): Option<Language> {
    if stored == Some("en") then Some(En)
    else if stored == Some("nl") then Some(Nl)
    else None
  }

  /** The language after the mount effect: Dutch when the browser's
      language is Dutch, then overridden by a valid stored preference. */
  function MountedLanguage(current: Language, browserTag: string, stored: Option<string>): Language {
    var afterBrowser := if FirstSegment(browserTag) == "nl" then Nl else current;
    match StoredLanguage(stored)
    case Some(l) => l
    case None => afterBrowser
  }

  /** The language a visitor sees once the provider has mounted. */
  function InitialLanguage(browserTag: string, stored: Option<string>): Language {
    MountedLanguage(En, browserTag, stored)
  }

  const StorageKey: string := "language"

  /** The provider's state, with the browser's stored preference under
      the key "language" (None when nothing is stored). */
  class Provider {
    var language: Language
    var stored: Option<string>

    /** The first render, before the mount effect. */
    constructor(storedBefore: Option<string>)
      ensures language == En && stored == storedBefore
    {
      language := En;
      stored := storedBefore;
    }

    /** The mount effect, given the browser's language tag. */
    method Mount(browserTag: string)
      modifies this`language
      ensures language == MountedLanguage(old(language), browserTag, stored)
    {
      var browserLang := FirstSegment(browserTag);
      if browserLang == "nl" {
        language := Nl;
      }
      var storedLang := stored;
      if storedLang.Some? && storedLang.value != "" && (storedLang.value == "en" || storedLang.value == "nl") {
        language := if storedLang.value == "en" then En else Nl;
      }
    }

    /** `handleSetLanguage`: switch and remember the choice. */
    method SetLanguage(l: Language)
      modifies this
      ensures language == l && stored == Some(Code(l))
    {
      language := l;
      stored := Some(Code(l));
    }

    function T(tables: Translations, key: string): string
      reads this
    {
      Translate(tables, language, key)
    }
  }

  // ---- properties ----

  /** English text never comes from a fallback table: in English `t` gives
      the English entry or the key itself. */
  lemma EnglishHasNoFallback(tables: Translations, key: string)
    ensures Translate(tables, En, key) == (if key in tables.en then tables.en[key] else key)
  {
  }

  /** A key `t` cannot find in either table comes back unchanged, whatever
      the language, exactly as outside a provider. */
  lemma MissingKeyIsItself(tables: Translations, l: Language, key: string)
    requires key !in tables.en && key !in tables.nl
    ensures Translate(tables, l, key) == DefaultTranslate(key)
  {
  }

  /** The browser language counts by its first segment, so a regional tag
      such as "nl-BE" selects Dutch, while "nld" or "en-NL" do not. */
  lemma RegionalTags()
    ensures FirstSegment("nl-BE") == "nl"
    ensures FirstSegment("nl") == "nl"
    ensures FirstSegment("en-NL") == "en"
    ensures FirstSegment("nld") == "nld"
  {
    assert "nl-BE"[2] == '-';
    assert FirstSegment("nl-BE") == [('n')] + FirstSegment("l-BE");
    assert FirstSegment("l-BE") == [('l')] + FirstSegment("-BE");
    assert FirstSegment("en-NL") == [('e')] + FirstSegment("n-NL");
    assert FirstSegment("n-NL") == [('n')] + FirstSegment("-NL");
  }

  /** On mount the language is Dutch exactly when "nl" is stored, or when
      the browser's language is Dutch and "en" is not stored; any other
      stored value is ignored. */
  lemma InitialLanguageIff(browserTag: string, stored: Option<string>)
    ensures InitialLanguage(browserTag, stored) == Nl <==>
            stored == Some("nl") || (FirstSegment(browserTag) == "nl" && stored != Some("en"))
    ensures StoredLanguage(stored).None? ==>
            InitialLanguage(browserTag, stored) == (if FirstSegment(browserTag) == "nl" then Nl else En)
  {
  }

  /** A chosen language is stored, so it survives a reload: the next mount
      restores it whatever the browser's language. */
  lemma ChoiceSurvivesReload(l: Language, browserTag: string)
    ensures InitialLanguage(browserTag, Some(Code(l))) == l
  {
    assert Code(En) != Code(Nl) by { assert Code(En)[0] != Code(Nl)[0]; }
  }
}
