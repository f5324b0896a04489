/** EmbeddableTokenService: builds the security-token request for one company
    and turns every failure into an `unprocessable_entity` result. */
module EmbeddableTokenService {
  import opened RubyValues
  import opened EmbeddableApi
  import opened Companies

  const TokenUrl := "https://api.us.embeddable.com/api/v1/security-token"
  const DefaultExpiry := 3600

  /** `"company_#{company.id}"`, the user a token is issued to when none is given. */
  function DefaultUser(company: Company): string {
    "company_" + IntToDecimal(company.id)
  }

  /** `build_security_context`: the company's id and name, with the caller's
      context merged on top (`custom || {}`), so the caller's keys win. A
      truthy context that is not a hash makes `merge` raise a TypeError. */
  function BuildSecurityContext(company: Company, custom: Value): (r: Result<map<Key, Value>>)
    ensures r.Ok? <==> custom.Hash? || !Truthy(custom)
    ensures r.Raise? ==> r.error == StandardError("no implicit conversion of " + ClassName(custom) + " into Hash")
    ensures r.Ok? && custom.Hash? ==>
      forall k :: k in custom.entries ==> k in r.value && r.value[k] == custom.entries[k]
    ensures r.Ok? ==> Sym("companyId") in r.value && Sym("companyName") in r.value
    ensures r.Ok? ==> forall k :: k in r.value ==>
      k == Sym("companyId") || k == Sym("companyName") || (custom.Hash? && k in custom.entries)
    ensures r.Ok? && !(custom.Hash? && Sym("companyId") in custom.entries) ==>
      r.value[Sym("companyId")] == Int(company.id)
    ensures r.Ok? && !(custom.Hash? && Sym("companyName") in custom.entries) ==>
      r.value[Sym("companyName")] == company.name
  {
    var base := map[Sym("companyId") := Int(company.id), Sym("companyName") := company.name];
    match Or(custom, Hash(map[]))
    case Hash(entries) => Ok(base + entries)
    case other => Raise(StandardError("no implicit conversion of " + ClassName(other) + " into Hash"))
  }

  /** With no custom context (absent, nil or false) the context is exactly the company's id and name. */
  lemma SecurityContextWithoutCustom(company: Company, custom: Value)
    requires !Truthy(custom)
    ensures BuildSecurityContext(company, custom)
         == Ok(map[Sym("companyId") := Int(company.id), Sym("companyName") := company.name])
  {
    assert Or(custom, Hash(map[])) == Hash(map[]);
    assert map[Sym("companyId") := Int(company.id), Sym("companyName") := company.name] + map[]
        == map[Sym("companyId") := Int(company.id), Sym("companyName") := company.name];
  }

  /** The payload hash before `.compact`. */
  function PayloadFields(company: Company, params: map<Key, Value>, context: map<Key, Value>): (r: map<Key, Value>)
    ensures r.Keys == {Sym("embeddableId"), Sym("expiryInSeconds"), Sym("securityContext"), Sym("user"), Sym("environment")}
    ensures r[Sym("embeddableId")] == Get(params, Sym("embeddable_id"))
    ensures r[Sym("expiryInSeconds")] == Or(Get(params, Sym("expires_in")), Int(DefaultExpiry))
    ensures r[Sym("securityContext")] == Hash(context)
    ensures r[Sym("user")] == Or(Get(params, Sym("user")), Text(DefaultUser(company)))
    ensures r[Sym("environment")] == Or(Get(params, Sym("environment")), Text("default"))
  {
    map[Sym("embeddableId") := Get(params, Sym("embeddable_id")),
        Sym("expiryInSeconds") := Or(Get(params, Sym("expires_in")), Int(DefaultExpiry)),
        Sym("securityContext") := Hash(context),
        Sym("user") := Or(Get(params, Sym("user")), Text(DefaultUser(company))),
        Sym("environment") := Or(Get(params, Sym("environment")), Text("default"))]
  }

  /** `build_embeddable_payload`: defaults by Ruby `||` (only nil and false are
      replaced, an explicit 0 or "" is kept), then `.compact`. The defaulted
      fields and the security context are never nil, so only `embeddableId`
      can be dropped. */
  function BuildEmbeddablePayload(company: Company, params: map<Key, Value>): (r: Result<map<Key, Value>>)
    ensures r.Ok? <==> BuildSecurityContext(company, Get(params, Sym("security_context"))).Ok?
    ensures r.Raise? ==> r.error == BuildSecurityContext(company, Get(params, Sym("security_context"))).error
    ensures r.Ok? ==> forall k :: k in r.value ==> r.value[k] != Nil
    ensures r.Ok? ==> forall k :: k in r.value ==>
      k in {Sym("embeddableId"), Sym("expiryInSeconds"), Sym("securityContext"), Sym("user"), Sym("environment")}
    ensures r.Ok? ==> (Sym("embeddableId") in r.value <==> Get(params, Sym("embeddable_id")) != Nil)
    ensures r.Ok? && Sym("embeddableId") in r.value ==>
      r.value[Sym("embeddableId")] == params[Sym("embeddable_id")]
    ensures r.Ok? ==> (
      && Sym("securityContext") in r.value
      && r.value[Sym("securityContext")] == Hash(BuildSecurityContext(company, Get(params, Sym("security_context"))).value))
    ensures r.Ok? ==> (
      && Sym("expiryInSeconds") in r.value
      && r.value[Sym("expiryInSeconds")]
         == if Truthy(Get(params, Sym("expires_in"))) then params[Sym("expires_in")] else Int(DefaultExpiry))
    ensures r.Ok? ==> (
      && Sym("user") in r.value
      && r.value[Sym("user")] == if Truthy(Get(params, Sym("user"))) then params[Sym("user")] else Text(DefaultUser(company)))
    ensures r.Ok? ==> (
      && Sym("environment") in r.value
      && r.value[Sym("environment")] == if Truthy(Get(params, Sym("environment"))) then params[Sym("environment")] else Text("default"))
  {
    match BuildSecurityContext(company, Get(params, Sym("security_context")))
    case Raise(e) => Raise(e)
    case Ok(context) => Ok(Compact(PayloadFields(company, params, context)))
  }

  /** Tokens for different companies that rely on the default user name are
      issued to different users. */
  lemma DefaultUserIdentifiesCompany(a: Company, b: Company, pa: map<Key, Value>, pb: map<Key, Value>)
    requires !Truthy(Get(pa, Sym("user"))) && !Truthy(Get(pb, Sym("user")))
    requires BuildEmbeddablePayload(a, pa).Ok? && BuildEmbeddablePayload(b, pb).Ok?
    requires BuildEmbeddablePayload(a, pa).value[Sym("user")] == BuildEmbeddablePayload(b, pb).value[Sym("user")]
    ensures a.id == b.id
  {
    assert Text(DefaultUser(a)) == Text(DefaultUser(b));
    PrefixedDecimalInjective("company_", a.id, b.id);
  }

  /** The code's payload for `{embeddable_id: "default-embeddable"}` and a company
      with id 7: the company's own id under `companyId` and user "company_7". */
  lemma MinimalParamsPayload(name: Value)
    ensures BuildEmbeddablePayload(Company(7, Nil, name, Int(123), Nil, Nil, Nil, Nil, true, []),
                                   map[Sym("embeddable_id") := Text("default-embeddable")])
         == Ok(map[Sym("embeddableId") := Text("default-embeddable"),
                   Sym("expiryInSeconds") := Int(3600),
                   Sym("securityContext") := Hash(map[Sym("companyId") := Int(7), Sym("companyName") := name]),
                   Sym("user") := Text("company_7"),
                   Sym("environment") := Text("default")])
  {
    var company := Company(7, Nil, name, Int(123), Nil, Nil, Nil, Nil, true, []);
    var params := map[Sym("embeddable_id") := Text("default-embeddable")];
    SecurityContextWithoutCustom(company, Nil);
    assert DefaultUser(company) == "company_7";
    var context := map[Sym("companyId") := Int(7), Sym("companyName") := name];
    var fields := PayloadFields(company, params, context);
    assert Compact(fields) == fields;
    assert fields == map[Sym("embeddableId") := Text("default-embeddable"),
                         Sym("expiryInSeconds") := Int(3600),
                         Sym("securityContext") := Hash(context),
                         Sym("user") := Text("company_7"),
                         Sym("environment") := Text("default")];
  }

  /** `request_embeddable_token`: headers first (a missing API key raises
      before anything is sent), then the payload, one POST, and the body
      parsed as JSON. `sent` is the POST the transport sees, if any. */
  method RequestEmbeddableToken(company: Company, params: map<Key, Value>, env: Option<string>, post: PostOutcome)
    returns (r: Result<Value>, sent: Option<Request>)
    ensures env.None? ==> sent.None? && r == Raise(StandardError(ApiKeyMissingMessage))
    ensures sent.Some? <==> env.Some? && BuildEmbeddablePayload(company, params).Ok?
    ensures env.Some? && BuildEmbeddablePayload(company, params).Raise? ==>
      r == Raise(BuildEmbeddablePayload(company, params).error)
    ensures sent.Some? ==>
      sent.value == Request(TokenUrl, Headers(env).value, Hash(BuildEmbeddablePayload(company, params).value), RequestTimeout)
    ensures sent.Some? && post.PostRaised? ==> r == Raise(post.error)
    ensures sent.Some? && post.Responded? && post.parsed.Parsed? ==> r == Ok(post.parsed.value)
    ensures sent.Some? && post.Responded? && post.parsed.Malformed? ==> r == Raise(ParserError(post.parsed.message))
  {
    var headers := Headers(env);
    if headers.Raise? {
      return Raise(headers.error), None;
    }
    var payload := BuildEmbeddablePayload(company, params);
    if payload.Raise? {
      return Raise(payload.error), None;
    }
    sent := Some(Request(TokenUrl, headers.value, Hash(payload.value), RequestTimeout));
    match post
    case PostRaised(e) =>
      r := Raise(e);
    case Responded(_, _, Parsed(body)) =>
      r := Ok(body);
    case Responded(_, _, Malformed(message)) =>
      r := Raise(ParserError(message));
  }

  /** `generate_token`: the parsed body on success; a ResponseError becomes
      "Failed to retrieve token from Embeddable: ...", and every other error,
      a JSON parse error and a missing API key included, "Unexpected error: ...". */
  method GenerateToken(company: Company, params: map<Key, Value>, env: Option<string>, post: PostOutcome)
    returns (result: Value, sent: Option<Request>)
    ensures env.None? ==> sent.None? && result == ErrorResult("Unexpected error: " + ApiKeyMissingMessage)
    ensures sent.Some? <==> env.Some? && BuildEmbeddablePayload(company, params).Ok?
    ensures env.Some? && BuildEmbeddablePayload(company, params).Raise? ==>
      result == ErrorResult("Unexpected error: " + BuildEmbeddablePayload(company, params).error.message)
    ensures sent.Some? ==> sent.value.url == TokenUrl && sent.value.timeout == RequestTimeout
    ensures sent.Some? ==> sent.value.headers == Headers(env).value
    ensures sent.Some? ==> sent.value.body == Hash(BuildEmbeddablePayload(company, params).value)
    ensures sent.Some? && post.Responded? && post.parsed.Parsed? ==> result == post.parsed.value
    ensures sent.Some? && post.Responded? && post.parsed.Malformed? ==>
      result == ErrorResult("Unexpected error: " + post.parsed.message)
    ensures sent.Some? && post.PostRaised? && post.error.ResponseError? ==>
      result == ErrorResult("Failed to retrieve token from Embeddable: " + post.error.message)
    ensures sent.Some? && post.PostRaised? && !post.error.ResponseError? ==>
      result == ErrorResult("Unexpected error: " + post.error.message)
  {
    var r;
    r, sent := RequestEmbeddableToken(company, params, env, post);
    match r
    case Ok(body) =>
      result := body;
    case Raise(ResponseError(message)) =>
      result := ErrorResult("Failed to retrieve token from Embeddable: " + message);
    case Raise(e) =>
      result := ErrorResult("Unexpected error: " + e.message);
  }
}
