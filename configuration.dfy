/**
 * The configuration the submission workflow reads (config.py): the source
 * count and content length limits, and the key of the external fact-check
 * judge. The limits are fields of `Config` so that every operation takes
 * them as a parameter; `Defaults` gives the values the platform ships with.
 */
module Configuration {
  import opened Wrappers

  const MIN_SOURCES_REQUIRED: nat := 2
  const MAX_ARGUMENT_LENGTH: nat := 5000
  const MIN_ARGUMENT_LENGTH: nat := 100

  /** The name under which the judge's key is looked up, in the key file and in the environment. */
  const API_KEY_NAME: string := "OPENAI_API_KEY"

  datatype Config = Config(minSources: nat, minLength: nat, maxLength: nat, apiKey: Option<string>)

  /** The shipped limits: at least 2 sources, and from 100 to 5000 characters of argument. */
  function Defaults(apiKey: Option<string>): (c: Config)
    ensures c.minSources == 2 && c.minLength == 100 && c.maxLength == 5000 && c.apiKey == apiKey
  {
    Config(MIN_SOURCES_REQUIRED, MIN_ARGUMENT_LENGTH, MAX_ARGUMENT_LENGTH, apiKey)
  }

  /** The judge is usable only with a key that is present and not empty (Python truthiness). */
  predicate Configured(apiKey: Option<string>) {
    apiKey.Some? && apiKey.value != ""
  }

  /**
   * The judge's key: the key file's entry when it is not empty, otherwise
   * the environment's value (Python's `a or b`).
   */
  function ApiKey(fileKeys: map<string, string>, env: Option<string>): (key: Option<string>)
    ensures Configured(key) <==> (API_KEY_NAME in fileKeys && fileKeys[API_KEY_NAME] != "") || Configured(env)
    ensures API_KEY_NAME in fileKeys && fileKeys[API_KEY_NAME] != "" ==> key == Some(fileKeys[API_KEY_NAME])
    ensures !(API_KEY_NAME in fileKeys && fileKeys[API_KEY_NAME] != "") ==> key == env
  {
    if API_KEY_NAME in fileKeys && fileKeys[API_KEY_NAME] != "" then Some(fileKeys[API_KEY_NAME]) else env
  }
}
