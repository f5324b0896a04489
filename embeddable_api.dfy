/** What the token service and the cache-refresh service share: the API key
    read from the environment, the request headers, the POST they send, the
    outcome the HTTP transport hands back, and the error hash they return. */
module EmbeddableApi {
  import opened RubyValues

  const ApiKeyMissingMessage := "EMBEDDABLE_API_KEY environment variable is required"
  const RequestTimeout := 30

  /** `ENV.fetch("EMBEDDABLE_API_KEY") { raise StandardError, ... }`: any value
      that is set, even the empty string, is the key. */
  function ApiKey(env: Option<string>): (r: Result<string>)
    ensures env.Some? ==> r == Ok(env.value)
    ensures env.None? ==> r == Raise(StandardError(ApiKeyMissingMessage))
  {
    match env
    case Some(key) => Ok(key)
    case None => Raise(StandardError(ApiKeyMissingMessage))
  }

  /** `embeddable_headers`: the key is read first, so a missing key raises
      before anything else is built. */
  function Headers(env: Option<string>): (r: Result<map<string, string>>)
    ensures r.Ok? <==> env.Some?
    ensures r.Raise? ==> r.error == StandardError(ApiKeyMissingMessage)
    ensures r.Ok? ==> r.value.Keys == {"Content-Type", "Accept", "Authorization"}
    ensures r.Ok? ==> r.value["Content-Type"] == "application/json" && r.value["Accept"] == "application/json"
    ensures r.Ok? ==> r.value["Authorization"] == "Bearer " + env.value
  {
    match ApiKey(env)
    case Raise(e) => Raise(e)
    case Ok(key) =>
      Ok(map["Content-Type" := "application/json",
             "Accept" := "application/json",
             "Authorization" := "Bearer " + key])
  }

  /** The provider can read the key back out of the Authorization header. */
  lemma BearerKeyRecoverable(env: Option<string>)
    requires Headers(env).Ok?
    ensures Headers(env).value["Authorization"][|"Bearer "|..] == env.value
  {
    var auth := Headers(env).value["Authorization"];
    assert auth == "Bearer " + env.value;
  }

  /** One HTTParty POST as it leaves the service. */
  datatype Request = Request(url: string, headers: map<string, string>, body: Value, timeout: int)

  /** What `JSON.parse(response.body)` yields: a value, or the parser's message. */
  datatype Parse = Parsed(value: Value) | Malformed(message: string)

  /** What the transport hands back for one POST: a response (status code, raw
      body, and what parsing that body yields), or the exception it raised. */
  datatype PostOutcome =
    | Responded(code: int, body: string, parsed: Parse)
    | PostRaised(error: Exception)

  /** `{status: :unprocessable_entity, errors: {base: [message]}}`. */
  function ErrorResult(message: string): Value {
    Hash(map[Sym("status") := Symbol("unprocessable_entity"),
             Sym("errors") := Hash(map[Sym("base") := List([Text(message)])])])
  }
}
