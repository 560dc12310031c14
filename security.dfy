/**
 * The API key dependency of the carrier demo endpoints: the caller's
 * X-API-Key header must be present, non-empty and equal to the configured
 * key, which is DEMO_API_KEY from the environment or a development default.
 *
 * The environment is a parameter: `env` is DEMO_API_KEY's value, None when
 * the variable is not set.
 */
module Security {
  import opened Wrappers
  import opened Http

  const HeaderName := "X-API-Key"
  const DefaultApiKey := "local-dev-api-key"
  const InvalidKeyMessage := "Invalid or missing API key"

  /** `os.getenv("DEMO_API_KEY", DEFAULT_API_KEY)`: a variable set to "" gives "". */
  function ExpectedKey(env: Option<string>): (key: string)
    ensures env.None? ==> key == DefaultApiKey
    ensures env.Some? ==> key == env.value
  {
    env.GetOr(DefaultApiKey)
  }

  /** verify_api_key: the key itself when accepted, a 401 otherwise. */
  function VerifyApiKey(apiKey: Option<string>, expected: string): Result<string, HttpException> {
    if apiKey.None? || apiKey.value == [] || apiKey.value != expected then
      Err(Raise(401, InvalidKeyMessage))
    else
      Ok(apiKey.value)
  }

  /**
   * A caller is let through exactly when it sent a non-empty key equal to the
   * expected one, and then the key comes back unchanged; every refusal is the
   * same 401.
   */
  lemma VerifyApiKeySpec(apiKey: Option<string>, expected: string)
    ensures VerifyApiKey(apiKey, expected).Ok? <==> apiKey == Some(expected) && expected != []
    ensures VerifyApiKey(apiKey, expected).Ok? ==> VerifyApiKey(apiKey, expected).value == expected
    ensures VerifyApiKey(apiKey, expected).Err? ==>
      VerifyApiKey(apiKey, expected).error == HttpException(401, Json.Str(InvalidKeyMessage))
  {
  }

  /** With DEMO_API_KEY set to "", no caller gets through. */
  lemma EmptyKeyLocksOut(apiKey: Option<string>)
    ensures VerifyApiKey(apiKey, ExpectedKey(Some(""))).Err?
  {
  }

  /** Without DEMO_API_KEY, exactly the development key is accepted. */
  lemma DefaultKeyAccepted(apiKey: Option<string>)
    ensures VerifyApiKey(apiKey, ExpectedKey(None)).Ok? <==> apiKey == Some(DefaultApiKey)
  {
  }
}
