/** The global settings object: the two provider keys, each possibly absent. Loading them
    from the environment (where an empty value counts as unset) is not part of this model;
    the constructor receives the loaded values. */
module AppSettings {
  import opened Common

  /** Python's truthiness of an optional key: `None` and the empty string are both false. */
  predicate Present(key: Option<string>)
  {
    key.Some? && key.value != ""
  }

  class Settings {
    var groqApiKey: Option<string>
    var geminiApiKey: Option<string>

    constructor(groq: Option<string>, gemini: Option<string>)
      ensures groqApiKey == groq && geminiApiKey == gemini
    {
      groqApiKey := groq;
      geminiApiKey := gemini;
    }
  }
}
