/** The `language` slice of the Redux store: the interface language code. */
module LanguageSlice {

  const DefaultLanguage := "en"

  class LanguageStore {
    var language: string

    constructor ()
      ensures language == DefaultLanguage
    {
      language := DefaultLanguage;
    }

    /** Any payload is stored; nothing restricts it to a supported language. */
    method SetLanguage(payload: string)
      modifies this
      ensures language == payload
    {
      language := payload;
    }
  }
}
