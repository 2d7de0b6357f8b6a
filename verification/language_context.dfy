/**
 * The language provider: the selected language with its default, the
 * translation lookup with its fallbacks, and the speech locale of each
 * language.
 */
module LanguageContext {
  import opened Options

  /** The translation tables, by language code and then by key. A missing
      entry and an empty one are both falsy. */
  type Translations = map<string, map<string, string>>

  function Entry(table: Translations, language: string, key: string): (r: string)
    ensures r != [] ==> language in table && key in table[language] && r == table[language][key]
    ensures language in table && key in table[language] ==> r == table[language][key]
    ensures !(language in table && key in table[language]) ==> r == ""
  {
    if language in table && key in table[language] then table[language][key] else ""
  }

  /** `t(key)`: the selected language's text, else the English text, else
      the key itself. The English table is always there. */
  function Translate(table: Translations, language: string, key: string): (r: string)
    requires "en" in table
    ensures Entry(table, language, key) != [] ==> r == Entry(table, language, key)
    ensures Entry(table, language, key) == [] && Entry(table, "en", key) != [] ==> r == Entry(table, "en", key)
    ensures Entry(table, language, key) == [] && Entry(table, "en", key) == [] ==> r == key
  {
    var text := Entry(table, language, key);
    if text == [] then
      var english := Entry(table, "en", key);
      if english != [] then english else key
    else text
  }

  /** A non-empty key never translates to an empty text. */
  lemma TranslateNonEmpty(table: Translations, language: string, key: string)
    requires "en" in table && key != []
    ensures Translate(table, language, key) != []
  {
  }

  /** A language whose table holds a non-empty text for the key reads that
      text; neither English nor the key is consulted. */
  lemma TranslatePresent(table: Translations, language: string, key: string)
    requires "en" in table && language in table && key in table[language]
    requires table[language][key] != []
    ensures Translate(table, language, key) == table[language][key]
  {
  }

  /** A language with no text for a key reads it exactly as English does. */
  lemma MissingFallsBackToEnglish(table: Translations, language: string, key: string)
    requires "en" in table && Entry(table, language, key) == []
    ensures Translate(table, language, key) == Translate(table, "en", key)
  {
  }

  /** The language on start-up: the stored code unless it is missing or
      empty, and 'en' then. */
  function InitialLanguage(stored: Option<string>): (r: string)
    ensures r != []
    ensures stored.Some? && stored.value != [] ==> r == stored.value
    ensures !(stored.Some? && stored.value != []) ==> r == "en"
  {
    if stored.Some? && stored.value != [] then stored.value else "en"
  }

  /** `getVoiceLang`. */
  function VoiceLang(language: string): (r: string)
    ensures language in {"ta", "hi", "mr"} ==> r == language + "-IN"
    ensures language !in {"ta", "hi", "mr"} ==> r == "en-IN"
  {
    if language == "ta" then "ta-IN"
    else if language == "hi" then "hi-IN"
    else if language == "mr" then "mr-IN"
    else "en-IN"
  }
}
