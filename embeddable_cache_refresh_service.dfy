/** EmbeddableCacheRefreshService: builds the refresh-contexts request from
    ordered lists of dashboards and refresh contexts, sends it, and turns
    every failure into an `unprocessable_entity` result. */
module EmbeddableCacheRefreshService {
  import opened RubyValues
  import opened EmbeddableApi

  const RefreshUrl := "https://api.us.embeddable.com/api/v1/caching/refresh-contexts"
  const CompanyIdKey := Sym("company_id")
  const ContextsKey := Sym("scheduled_refresh_contexts")

  /** What `param.map` raises when `param` is neither blank nor an array: a
      hash yields `[key, value]` arrays, which cannot be indexed by a symbol;
      anything else has no `map`. */
  function NotMappable(param: Value): Exception {
    if param.Hash? then StandardError("no implicit conversion of Symbol into Integer")
    else StandardError("undefined method 'map' for " + ClassName(param))
  }

  // ---------------------------------------------------------------------
  // build_embeddables

  /** The block of `build_embeddables` for one entry. */
  function EmbeddableEntry(entry: Value): (r: Result<Value>)
    ensures r.Ok? <==> entry.Hash?
  {
    match Index(entry, Sym("embeddable_id"))
    case Raise(e) => Raise(e)
    case Ok(id) =>
      Ok(Hash(map[Sym("embeddableId") := id,
                  Sym("savedVersions") := Or(Get(entry.entries, Sym("saved_versions")), List([Text("production")]))]))
  }

  /** `build_embeddables`: `[]` for a blank list; otherwise one entry per
      dashboard, in order, with `embeddableId` copied and `savedVersions`
      defaulting to `["production"]`. */
  function BuildEmbeddables(param: Value): (r: Result<seq<Value>>)
    ensures Blank(param) ==> r == Ok([])
    ensures !Blank(param) && !param.List? ==> r == Raise(NotMappable(param))
    ensures param.List? ==> (r.Ok? <==> forall j :: 0 <= j < |param.items| ==> param.items[j].Hash?)
    ensures r.Ok? && param.List? ==> |r.value| == |param.items|
    ensures r.Ok? && param.List? ==> forall j :: 0 <= j < |param.items| ==>
      r.value[j] == Hash(map[Sym("embeddableId") := Get(param.items[j].entries, Sym("embeddable_id")),
                             Sym("savedVersions") := Or(Get(param.items[j].entries, Sym("saved_versions")),
                                                        List([Text("production")]))])
  {
    if Blank(param) then Ok([])
    else if param.List? then MapOrRaise(EmbeddableEntry, param.items)
    else Raise(NotMappable(param))
  }

  // ---------------------------------------------------------------------
  // build_scheduled_refresh_contexts and build_security_context

  /** `security_context[:company_id] = security_context[:company_id].to_s`,
      done only when the id is truthy. */
  function CoerceCompanyId(sc: map<Key, Value>): (r: map<Key, Value>)
    ensures r.Keys == sc.Keys
    ensures forall k :: k in sc && k != CompanyIdKey ==> r[k] == sc[k]
    ensures Truthy(Get(sc, CompanyIdKey)) ==> r[CompanyIdKey] == Text(ToS(sc[CompanyIdKey]))
    ensures !Truthy(Get(sc, CompanyIdKey)) ==> r == sc
  {
    if Truthy(Get(sc, CompanyIdKey)) then sc[CompanyIdKey := Text(ToS(sc[CompanyIdKey]))] else sc
  }

  /** Coercing an already coerced context changes nothing, so a hash shared
      by several entries yields the same output for each of them. */
  lemma CoerceCompanyIdIdempotent(sc: map<Key, Value>)
    ensures CoerceCompanyId(CoerceCompanyId(sc)) == CoerceCompanyId(sc)
  {
    if Truthy(Get(sc, CompanyIdKey)) {
      var once := CoerceCompanyId(sc);
      assert ToS(once[CompanyIdKey]) == ToS(sc[CompanyIdKey]);
      assert once[CompanyIdKey := Text(ToS(once[CompanyIdKey]))] == once;
    }
  }

  /** The service's `build_security_context(custom_context)`: a base holding
      the stringified `company_id`, with the context merged on top. */
  function RefreshSecurityContext(custom: map<Key, Value>): (r: map<Key, Value>)
    ensures r.Keys == custom.Keys
    ensures forall k :: k in custom ==> r[k] == custom[k]
  {
    var base := if Truthy(Get(custom, CompanyIdKey)) then map[CompanyIdKey := Text(ToS(custom[CompanyIdKey]))] else map[];
    base + custom
  }

  /** The merge always hands back the supplied context itself: the base's
      `company_id` is overwritten by the context's own value. The string form
      in the request comes from the coercion done before the call. */
  lemma RefreshSecurityContextIsSupplied(custom: map<Key, Value>)
    ensures RefreshSecurityContext(custom) == custom
  {
    var r := RefreshSecurityContext(custom);
    assert r.Keys == custom.Keys;
    forall k | k in custom ensures r[k] == custom[k] { }
  }

  /** The security-context hash one entry works on: `context[:security_context] || {}`,
      coerced; or what indexing the entry or its context raises. */
  function WorkingSecurityContext(context: Value): Result<map<Key, Value>> {
    match Index(context, Sym("security_context"))
    case Raise(e) => Raise(e)
    case Ok(given) =>
      var sc := Or(given, Hash(map[]));
      match Index(sc, CompanyIdKey)
      case Raise(e) => Raise(e)
      case Ok(_) => Ok(CoerceCompanyId(sc.entries))
  }

  /** The hash one entry contributes, given its (coerced) security context. */
  function ContextEntry(context: map<Key, Value>, sc: map<Key, Value>): Value {
    Hash(map[Sym("securityContext") := Hash(RefreshSecurityContext(sc)),
             Sym("environment") := Or(Get(context, Sym("environment")), Text("default")),
             Sym("timezones") := Or(Get(context, Sym("timezones")), List([Text("UTC")]))])
  }

  /** The block of `build_scheduled_refresh_contexts` for one entry, as a
      value: it fails exactly when the entry is not a hash or its security
      context is a truthy non-hash. */
  function SentContext(context: Value): (r: Result<Value>)
    ensures r.Ok? <==> (
      && context.Hash?
      && (Get(context.entries, Sym("security_context")).Hash? || !Truthy(Get(context.entries, Sym("security_context")))))
  {
    match WorkingSecurityContext(context)
    case Raise(e) => Raise(e)
    case Ok(sc) => Ok(ContextEntry(context.entries, sc))
  }

  /** What one entry sends: the security context with a truthy `company_id`
      in string form and every other key carried over; `environment`
      defaulting to "default" and `timezones` to `["UTC"]`; nothing else. */
  lemma SentContextFields(context: Value)
    requires SentContext(context).Ok?
    ensures var r := SentContext(context).value;
      r.Hash? && r.entries.Keys == {Sym("securityContext"), Sym("environment"), Sym("timezones")}
    ensures var r := SentContext(context).value;
      var given := Get(context.entries, Sym("security_context"));
      var supplied := if given.Hash? then given.entries else map[];
      && r.entries[Sym("securityContext")] == Hash(CoerceCompanyId(supplied))
      && r.entries[Sym("environment")] == Or(Get(context.entries, Sym("environment")), Text("default"))
      && r.entries[Sym("timezones")] == Or(Get(context.entries, Sym("timezones")), List([Text("UTC")]))
  {
    RefreshSecurityContextIsSupplied(WorkingSecurityContext(context).value);
  }

  /** A supplied context without a truthy `company_id` is sent exactly as
      given, and no `company_id` key is added. */
  lemma ContextWithoutCompanyIdSentAsGiven(context: Value)
    requires SentContext(context).Ok?
    requires Get(context.entries, Sym("security_context")).Hash?
    requires !Truthy(Get(Get(context.entries, Sym("security_context")).entries, CompanyIdKey))
    ensures SentContext(context).value.entries[Sym("securityContext")] == Get(context.entries, Sym("security_context"))
  {
    SentContextFields(context);
  }

  /** The caller's entry after the block ran on it: when the entry holds a
      security-context hash with a truthy `company_id`, the block has replaced
      that id in place by its `to_s`. */
  function CallerContext(context: Value): Value {
    if SentContext(context).Raise? then context
    else
      var given := Get(context.entries, Sym("security_context"));
      if given.Hash? && Truthy(Get(given.entries, CompanyIdKey))
      then Hash(context.entries[Sym("security_context") := Hash(CoerceCompanyId(given.entries))])
      else context
  }

  /** `build_scheduled_refresh_contexts` as a value: `[]` for a blank list,
      otherwise the entries in order, or the first exception raised. */
  function ScheduledContexts(param: Value): (r: Result<seq<Value>>)
    ensures Blank(param) ==> r == Ok([])
    ensures !Blank(param) && !param.List? ==> r == Raise(NotMappable(param))
    ensures param.List? ==> (r.Ok? <==> forall j :: 0 <= j < |param.items| ==> SentContext(param.items[j]).Ok?)
    ensures !Blank(param) && !param.List? ==> r == Raise(NotMappable(param))
    ensures param.List? ==> (r.Ok? <==> forall j :: 0 <= j < |param.items| ==> SentContext(param.items[j]).Ok?)
    ensures r.Ok? && param.List? ==> |r.value| == |param.items|
    ensures r.Ok? && param.List? ==> forall j :: 0 <= j < |param.items| ==>
      SentContext(param.items[j]).Ok? && r.value[j] == SentContext(param.items[j]).value
  {
    if Blank(param) then Ok([])
    else if param.List? then MapOrRaise(SentContext, param.items)
    else Raise(NotMappable(param))
  }

  /** The caller's list after `build_scheduled_refresh_contexts`: the entries
      the block got through are coerced in place, the rest are untouched. */
  function CallerContextsAfter(param: Value): Value {
    if Blank(param) || !param.List? then param
    else
      var n := FirstRaise(SentContext, param.items);
      List(seq(|param.items|, j requires 0 <= j < |param.items| =>
        if j < n then CallerContext(param.items[j]) else param.items[j]))
  }

  /** `build_scheduled_refresh_contexts`: maps the entries in order and, as a
      side effect, rewrites each caller-held `company_id` to its string form. */
  method BuildScheduledRefreshContexts(param: Value) returns (r: Result<seq<Value>>, callerAfter: Value)
    ensures r == ScheduledContexts(param)
    ensures callerAfter == CallerContextsAfter(param)
  {
    if Blank(param) {
      return Ok([]), param;
    }
    if !param.List? {
      return Raise(NotMappable(param)), param;
    }
    var items := param.items;
    var callers := items;
    var built: seq<Value> := [];
    var i := 0;
    while i < |items|
      invariant 0 <= i <= |items|
      invariant i <= FirstRaise(SentContext, items)
      invariant |built| == i
      invariant forall j :: 0 <= j < i ==> built[j] == SentContext(items[j]).value
      invariant |callers| == |items|
      invariant forall j :: 0 <= j < |items| ==> callers[j] == if j < i then CallerContext(items[j]) else items[j]
    {
      var entry, caller := ContextBlock(items[i]);
      if entry.Raise? {
        r, callerAfter := Raise(entry.error), List(callers);
        CallersAfterRaise(param, callers, i);
        return;
      }
      ghost var before := callers;
      callers := callers[i := caller];
      built := built + [entry.value];
      EntryStep(items, before, built, i);
      i := i + 1;
    }
    r, callerAfter := Ok(built), List(callers);
    CallersAfterComplete(param, callers, built);
  }

  /** The block of `build_scheduled_refresh_contexts` run on one entry: the
      entry it builds, and the caller's entry afterwards (its context's
      `company_id` replaced in place when it is truthy). */
  method ContextBlock(context: Value) returns (entry: Result<Value>, caller: Value)
    ensures entry == SentContext(context)
    ensures caller == CallerContext(context)
  {
    // `context[:security_context] || {}`, then its `company_id` coerced in place
    var working := WorkingSecurityContext(context);
    if working.Raise? {
      return Raise(working.error), context;
    }
    EntryGoesThrough(context);
    caller := context;
    var given := Get(context.entries, Sym("security_context"));
    if given.Hash? && Truthy(Get(given.entries, CompanyIdKey)) {
      // the hash belongs to the caller: the update is visible there
      caller := Hash(context.entries[Sym("security_context") := Hash(working.value)]);
    }
    entry := Ok(ContextEntry(context.entries, working.value));
  }

  /** One entry that does not raise: what it contributes and what the caller's entry becomes. */
  lemma EntryGoesThrough(context: Value)
    requires WorkingSecurityContext(context).Ok?
    ensures context.Hash?
    ensures SentContext(context) == Ok(ContextEntry(context.entries, WorkingSecurityContext(context).value))
    ensures var given := Get(context.entries, Sym("security_context"));
      CallerContext(context)
      == if given.Hash? && Truthy(Get(given.entries, CompanyIdKey))
         then Hash(context.entries[Sym("security_context") := Hash(WorkingSecurityContext(context).value)])
         else context
  {
  }

  /** The loop's bookkeeping after entry `i` went through. */
  lemma EntryStep(items: seq<Value>, callers: seq<Value>, built: seq<Value>, i: nat)
    requires i < |items| && i <= FirstRaise(SentContext, items) && SentContext(items[i]).Ok?
    requires |built| == i + 1 && |callers| == |items|
    requires forall j :: 0 <= j < i ==> built[j] == SentContext(items[j]).value
    requires built[i] == SentContext(items[i]).value
    requires forall j :: 0 <= j < |items| ==> callers[j] == if j < i then CallerContext(items[j]) else items[j]
    ensures i + 1 <= FirstRaise(SentContext, items)
    ensures forall j :: 0 <= j < i + 1 ==> built[j] == SentContext(items[j]).value
    ensures forall j :: 0 <= j < |items| ==>
      callers[i := CallerContext(items[i])][j] == if j < i + 1 then CallerContext(items[j]) else items[j]
  {
  }

  /** The list the caller holds when entry `i` raised after the ones before it went through. */
  lemma CallersAfterRaise(param: Value, callers: seq<Value>, i: nat)
    requires !Blank(param) && param.List? && i < |param.items|
    requires i <= FirstRaise(SentContext, param.items) && SentContext(param.items[i]).Raise?
    requires |callers| == |param.items|
    requires forall j :: 0 <= j < |callers| ==> callers[j] == if j < i then CallerContext(param.items[j]) else param.items[j]
    ensures ScheduledContexts(param) == Raise(SentContext(param.items[i]).error)
    ensures List(callers) == CallerContextsAfter(param)
  {
    assert FirstRaise(SentContext, param.items) == i;
  }

  /** The lists produced when every entry went through. */
  lemma CallersAfterComplete(param: Value, callers: seq<Value>, built: seq<Value>)
    requires !Blank(param) && param.List?
    requires FirstRaise(SentContext, param.items) >= |param.items|
    requires |built| == |param.items| && |callers| == |param.items|
    requires forall j :: 0 <= j < |built| ==> built[j] == SentContext(param.items[j]).value
    requires forall j :: 0 <= j < |callers| ==> callers[j] == CallerContext(param.items[j])
    ensures ScheduledContexts(param) == Ok(built)
    ensures List(callers) == CallerContextsAfter(param)
  {
    BuiltComplete(param.items, built);
    var after := CallerContextsAfter(param).items;
    assert |after| == |callers|;
    assert callers == after;
  }

  /** The entries built when every entry went through are the mapped list. */
  lemma BuiltComplete(items: seq<Value>, built: seq<Value>)
    requires FirstRaise(SentContext, items) >= |items|
    requires |built| == |items|
    requires forall j :: 0 <= j < |built| ==> built[j] == SentContext(items[j]).value
    ensures MapOrRaise(SentContext, items) == Ok(built)
  {
    var m := MapOrRaise(SentContext, items);
    assert m.Ok?;
    assert m.value == built;
  }

  // ---------------------------------------------------------------------
  // build_refresh_payload

  /** The payload hash before `.compact`; none of its values is nil. */
  function PayloadFields(interval: Value, embeddables: seq<Value>, contexts: seq<Value>, roles: Value): (r: map<Key, Value>)
    requires interval != Nil && roles != Nil
    ensures r.Keys == {Sym("refreshInterval"), Sym("embeddables"), Sym("scheduledRefreshContexts"), Sym("roles")}
    ensures r[Sym("refreshInterval")] == interval && r[Sym("roles")] == roles
    ensures r[Sym("embeddables")] == List(embeddables) && r[Sym("scheduledRefreshContexts")] == List(contexts)
    ensures Compact(r) == r
  {
    var r := map[
      Sym("refreshInterval") := interval,
      Sym("embeddables") := List(embeddables),
      Sym("scheduledRefreshContexts") := List(contexts),
      Sym("roles") := roles];
    assert Compact(r) == r;
    r
  }

  /** `build_refresh_payload` as a value. */
  function RefreshPayload(params: map<Key, Value>): (r: Result<Value>)
    ensures r.Ok? <==> BuildEmbeddables(Get(params, Sym("embeddables"))).Ok? && ScheduledContexts(Get(params, ContextsKey)).Ok?
    ensures r.Raise? && BuildEmbeddables(Get(params, Sym("embeddables"))).Raise? ==>
      r.error == BuildEmbeddables(Get(params, Sym("embeddables"))).error
    ensures r.Raise? && BuildEmbeddables(Get(params, Sym("embeddables"))).Ok? ==>
      r.error == ScheduledContexts(Get(params, ContextsKey)).error
    ensures r.Ok? ==> (
      && r.value.Hash?
      && r.value.entries.Keys == {Sym("refreshInterval"), Sym("embeddables"), Sym("scheduledRefreshContexts"), Sym("roles")})
    ensures r.Ok? ==> r.value.entries[Sym("refreshInterval")] == Or(Get(params, Sym("refresh_interval")), Text("1 hour"))
    ensures r.Ok? ==> r.value.entries[Sym("roles")] == Or(Get(params, Sym("roles")), List([Text("default")]))
    ensures r.Ok? ==> r.value.entries[Sym("embeddables")] == List(BuildEmbeddables(Get(params, Sym("embeddables"))).value)
    ensures r.Ok? ==> r.value.entries[Sym("scheduledRefreshContexts")] == List(ScheduledContexts(Get(params, ContextsKey)).value)
  {
    match BuildEmbeddables(Get(params, Sym("embeddables")))
    case Raise(e) => Raise(e)
    case Ok(embeddables) =>
      match ScheduledContexts(Get(params, ContextsKey))
      case Raise(e) => Raise(e)
      case Ok(contexts) =>
        Ok(Hash(Compact(PayloadFields(Or(Get(params, Sym("refresh_interval")), Text("1 hour")), embeddables, contexts,
                                      Or(Get(params, Sym("roles")), List([Text("default")]))))))
  }

  /** The caller's params after `build_refresh_payload`: untouched when the
      dashboards raise first, otherwise with the contexts coerced as above. */
  function ParamsAfter(params: map<Key, Value>): map<Key, Value> {
    if BuildEmbeddables(Get(params, Sym("embeddables"))).Raise? || ContextsKey !in params then params
    else params[ContextsKey := CallerContextsAfter(params[ContextsKey])]
  }

  /** `build_refresh_payload`: the four keys in source order; the dashboards
      are built before the contexts, so a raise there leaves the caller's
      contexts alone. */
  method BuildRefreshPayload(params: map<Key, Value>) returns (r: Result<Value>, paramsAfter: map<Key, Value>)
    ensures r == RefreshPayload(params)
    ensures paramsAfter == ParamsAfter(params)
  {
    var interval := Or(Get(params, Sym("refresh_interval")), Text("1 hour"));
    var embeddables := BuildEmbeddables(Get(params, Sym("embeddables")));
    if embeddables.Raise? {
      return Raise(embeddables.error), params;
    }
    var contexts, callerContexts := BuildScheduledRefreshContexts(Get(params, ContextsKey));
    paramsAfter := if ContextsKey in params then params[ContextsKey := callerContexts] else params;
    if contexts.Raise? {
      r := Raise(contexts.error);
      return;
    }
    var roles := Or(Get(params, Sym("roles")), List([Text("default")]));
    r := Ok(Hash(Compact(PayloadFields(interval, embeddables.value, contexts.value, roles))));
  }

  // ---------------------------------------------------------------------
  // request_cache_refresh and refresh_contexts

  /** `{success: true, status: response.code}`, returned for a blank body: it
      carries the response code and is never one of the failure records. */
  function SuccessRecord(code: int): (r: Value)
    ensures r.Hash? && r.entries.Keys == {Sym("success"), Sym("status")}
    ensures Index(r, Sym("success")) == Ok(Bool(true))
    ensures Index(r, Sym("status")) == Ok(Int(code))
    ensures forall m :: r != ErrorResult(m)
  {
    Hash(map[Sym("success") := Bool(true), Sym("status") := Int(code)])
  }

  /** `request_cache_refresh`: headers (a missing API key raises before the
      payload is built or anything is sent), payload, one POST; a blank body
      is a success record, any other body is parsed as JSON. */
  method RequestCacheRefresh(params: map<Key, Value>, env: Option<string>, post: PostOutcome)
    returns (r: Result<Value>, sent: Option<Request>, paramsAfter: map<Key, Value>)
    ensures env.None? ==> sent.None? && paramsAfter == params && r == Raise(StandardError(ApiKeyMissingMessage))
    ensures env.Some? ==> paramsAfter == ParamsAfter(params)
    ensures sent.Some? <==> env.Some? && RefreshPayload(params).Ok?
    ensures env.Some? && RefreshPayload(params).Raise? ==> r == Raise(RefreshPayload(params).error)
    ensures sent.Some? ==> sent.value == Request(RefreshUrl, Headers(env).value, RefreshPayload(params).value, RequestTimeout)
    ensures sent.Some? && post.PostRaised? ==> r == Raise(post.error)
    ensures sent.Some? && post.Responded? && BlankText(post.body) ==> r == Ok(SuccessRecord(post.code))
    ensures sent.Some? && post.Responded? && !BlankText(post.body) ==>
      r == (match post.parsed case Parsed(v) => Ok(v) case Malformed(m) => Raise(ParserError(m)))
  {
    var headers := Headers(env);
    if headers.Raise? {
      return Raise(headers.error), None, params;
    }
    var payload;
    payload, paramsAfter := BuildRefreshPayload(params);
    if payload.Raise? {
      return Raise(payload.error), None, paramsAfter;
    }
    sent := Some(Request(RefreshUrl, headers.value, payload.value, RequestTimeout));
    match post
    case PostRaised(e) =>
      r := Raise(e);
    case Responded(code, body, parsed) =>
      if Blank(Text(body)) {
        r := Ok(SuccessRecord(code));
      } else {
        match parsed
        case Parsed(v) => r := Ok(v);
        case Malformed(m) => r := Raise(ParserError(m));
      }
  }

  /** The rescue clauses of `refresh_contexts`, tried in order. */
  function RefreshErrorPrefix(e: Exception): (r: string)
    ensures e.ResponseError? <==> r == "Failed to refresh cache contexts from Embeddable: "
    ensures e.ParserError? <==> r == "Failed to parse response from Embeddable: "
    ensures e.StandardError? <==> r == "Unexpected error: "
    ensures |r| >= 2 && r[|r| - 2..] == ": "
  {
    match e
    case ResponseError(_) => "Failed to refresh cache contexts from Embeddable: "
    case ParserError(_) => "Failed to parse response from Embeddable: "
    case StandardError(_) => "Unexpected error: "
  }

  /** `refresh_contexts`: never raises. A blank body gives `{success: true,
      status: code}`, any other body is returned as parsed, and every failure
      gives `unprocessable_entity` with the prefix of its kind. */
  method RefreshContexts(params: map<Key, Value>, env: Option<string>, post: PostOutcome)
    returns (result: Value, sent: Option<Request>, paramsAfter: map<Key, Value>)
    ensures env.None? ==>
      sent.None? && paramsAfter == params && result == ErrorResult("Unexpected error: " + ApiKeyMissingMessage)
    ensures env.Some? ==> paramsAfter == ParamsAfter(params)
    ensures sent.Some? <==> env.Some? && RefreshPayload(params).Ok?
    ensures env.Some? && RefreshPayload(params).Raise? ==>
      result == ErrorResult(RefreshErrorPrefix(RefreshPayload(params).error) + RefreshPayload(params).error.message)
    ensures sent.Some? ==> sent.value == Request(RefreshUrl, Headers(env).value, RefreshPayload(params).value, RequestTimeout)
    ensures sent.Some? && post.Responded? && BlankText(post.body) ==> result == SuccessRecord(post.code)
    ensures sent.Some? && post.Responded? && !BlankText(post.body) && post.parsed.Parsed? ==> result == post.parsed.value
    ensures sent.Some? && post.Responded? && !BlankText(post.body) && post.parsed.Malformed? ==>
      result == ErrorResult("Failed to parse response from Embeddable: " + post.parsed.message)
    ensures sent.Some? && post.PostRaised? && post.error.ResponseError? ==>
      result == ErrorResult("Failed to refresh cache contexts from Embeddable: " + post.error.message)
    ensures sent.Some? && post.PostRaised? && post.error.ParserError? ==>
      result == ErrorResult("Failed to parse response from Embeddable: " + post.error.message)
    ensures sent.Some? && post.PostRaised? && post.error.StandardError? ==>
      result == ErrorResult("Unexpected error: " + post.error.message)
  {
    var r;
    r, sent, paramsAfter := RequestCacheRefresh(params, env, post);
    match r
    case Ok(body) =>
      result := body;
    case Raise(e) =>
      result := ErrorResult(RefreshErrorPrefix(e) + e.message);
  }
}
