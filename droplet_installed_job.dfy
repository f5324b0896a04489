/** DropletInstalledJob: provisions a company when the droplet is installed.
    The upsert by `fluid_shop`, the whitelist copy and the save are modelled
    on a store of company records; the callback registrations, the first
    Embeddable's id and the cache-refresh POST are inputs. */
module DropletInstalledJob {
  import opened RubyValues
  import opened EmbeddableApi
  import opened Companies
  import opened EmbeddableCacheRefreshService

  // ---------------------------------------------------------------------
  // The company upsert

  /** `get_payload.fetch("company", {})`: the value under "company", even a nil one. */
  function CompanyAttributes(payload: map<Key, Value>): Value {
    if Str("company") in payload then payload[Str("company")] else Hash(map[])
  }

  /** The key the record is looked up by: `company_attributes["fluid_shop"]`. */
  function ShopOf(payload: map<Key, Value>): Value {
    var attrs := CompanyAttributes(payload);
    if attrs.Hash? then Get(attrs.entries, Str("fluid_shop")) else Nil
  }

  /** The six payload keys `assign_attributes` receives. */
  const Whitelist: set<string> := {"fluid_shop", "name", "fluid_company_id", "authentication_token",
                                   "webhook_verification_token", "droplet_installation_uuid"}

  /** `attrs[key]` when the payload has the key, otherwise the attribute's current value. */
  function Slot(attrs: map<Key, Value>, key: string, current: Value): Value {
    if Str(key) in attrs then attrs[Str(key)] else current
  }

  /** `assign_attributes(company_attributes.slice(...))`: each whitelisted key
      the payload has overwrites its attribute; nothing else is touched. */
  function AssignWhitelisted(c: Company, attrs: map<Key, Value>): (r: Company)
    ensures r.fluidShop == Slot(attrs, "fluid_shop", c.fluidShop)
    ensures r.name == Slot(attrs, "name", c.name)
    ensures r.fluidCompanyId == Slot(attrs, "fluid_company_id", c.fluidCompanyId)
    ensures r.authenticationToken == Slot(attrs, "authentication_token", c.authenticationToken)
    ensures r.webhookVerificationToken == Slot(attrs, "webhook_verification_token", c.webhookVerificationToken)
    ensures r.dropletInstallationUuid == Slot(attrs, "droplet_installation_uuid", c.dropletInstallationUuid)
    ensures r.id == c.id && r.active == c.active
    ensures r.companyDropletUuid == c.companyDropletUuid && r.installedCallbackIds == c.installedCallbackIds
  {
    c.(fluidShop := Slot(attrs, "fluid_shop", c.fluidShop),
       name := Slot(attrs, "name", c.name),
       fluidCompanyId := Slot(attrs, "fluid_company_id", c.fluidCompanyId),
       authenticationToken := Slot(attrs, "authentication_token", c.authenticationToken),
       webhookVerificationToken := Slot(attrs, "webhook_verification_token", c.webhookVerificationToken),
       dropletInstallationUuid := Slot(attrs, "droplet_installation_uuid", c.dropletInstallationUuid))
  }

  /** A payload key outside the whitelist has no effect on the company. */
  lemma AssignIgnoresOtherKeys(c: Company, attrs: map<Key, Value>, k: Key, v: Value)
    requires !(k.Str? && k.text in Whitelist)
    ensures AssignWhitelisted(c, attrs[k := v]) == AssignWhitelisted(c, attrs)
  {
    forall key | key in Whitelist
      ensures Slot(attrs[k := v], key, Value.Nil) == Slot(attrs, key, Value.Nil)
      ensures Str(key) in attrs[k := v] <==> Str(key) in attrs
    {
      assert Str(key) != k;
    }
    assert Str("fluid_shop") != k && Str("name") != k && Str("fluid_company_id") != k;
    assert Str("authentication_token") != k && Str("webhook_verification_token") != k;
    assert Str("droplet_installation_uuid") != k;
  }

  /** Assigning the same attributes a second time changes nothing. */
  lemma AssignWhitelistedIdempotent(c: Company, attrs: map<Key, Value>)
    ensures AssignWhitelisted(AssignWhitelisted(c, attrs), attrs) == AssignWhitelisted(c, attrs)
  {
  }

  /** The record the upsert starts from: the one saved under the shop, or a new one. */
  function FoundOrNew(records: map<Value, Company>, nextId: int, shop: Value): Company {
    if shop in records then records[shop] else NewCompany(nextId)
  }

  /** Lines 17-29: the company as it stands just before `save`, or what
      those lines raise. A company value that is not a hash fails when it is
      indexed or sliced; a missing "droplet_uuid" makes `fetch` raise a
      KeyError. Nothing is stored in either case. */
  function Prepare(records: map<Value, Company>, nextId: int, payload: map<Key, Value>): (r: Result<Company>)
    ensures r.Ok? <==> CompanyAttributes(payload).Hash? && Str("droplet_uuid") in CompanyAttributes(payload).entries
    ensures r.Ok? ==> r.value.active
    ensures r.Ok? ==> r.value.companyDropletUuid == CompanyAttributes(payload).entries[Str("droplet_uuid")]
    ensures r.Ok? && ShopOf(payload) in records ==>
      r.value.id == records[ShopOf(payload)].id
      && r.value.installedCallbackIds == records[ShopOf(payload)].installedCallbackIds
    ensures r.Ok? && ShopOf(payload) !in records ==> r.value.id == nextId && r.value.installedCallbackIds == []
    ensures r.Ok? ==>
      var attrs := CompanyAttributes(payload).entries;
      var start := FoundOrNew(records, nextId, ShopOf(payload));
      && r.value.fluidShop == Slot(attrs, "fluid_shop", start.fluidShop)
      && r.value.name == Slot(attrs, "name", start.name)
      && r.value.fluidCompanyId == Slot(attrs, "fluid_company_id", start.fluidCompanyId)
      && r.value.authenticationToken == Slot(attrs, "authentication_token", start.authenticationToken)
      && r.value.webhookVerificationToken == Slot(attrs, "webhook_verification_token", start.webhookVerificationToken)
      && r.value.dropletInstallationUuid == Slot(attrs, "droplet_installation_uuid", start.dropletInstallationUuid)
  {
    var attrs := CompanyAttributes(payload);
    match Index(attrs, Str("fluid_shop"))
    case Raise(e) => Raise(e)
    case Ok(shop) =>
      if !attrs.Hash? then Raise(StandardError("wrong number of arguments (given 6, expected 1..2)"))
      else
        var company := AssignWhitelisted(FoundOrNew(records, nextId, shop), attrs.entries);
        if Str("droplet_uuid") !in attrs.entries then Raise(StandardError("key not found: \"droplet_uuid\""))
        else Ok(company.(companyDropletUuid := attrs.entries[Str("droplet_uuid")], active := true))
  }

  /** Each record is stored under its own `fluid_shop`. */
  ghost predicate KeyedByShop(records: map<Value, Company>) {
    forall shop :: shop in records ==> records[shop].fluidShop == shop
  }

  /** The store's invariant: records keyed by their shop, ids below the next
      id to hand out and pairwise distinct. */
  ghost predicate StoreInvariant(records: map<Value, Company>, nextId: int) {
    && KeyedByShop(records)
    && (forall shop :: shop in records ==> records[shop].id < nextId)
    && (forall s, t :: s in records && t in records && s != t ==> records[s].id != records[t].id)
  }

  /** In a consistent store, the prepared company carries the shop it was looked up by. */
  lemma PreparedKeepsShop(records: map<Value, Company>, nextId: int, payload: map<Key, Value>)
    requires KeyedByShop(records)
    requires Prepare(records, nextId, payload).Ok?
    ensures Prepare(records, nextId, payload).value.fluidShop == ShopOf(payload)
  {
  }

  // ---------------------------------------------------------------------
  // register_active_callbacks

  /** An active callback definition. */
  datatype Callback = Callback(name: Value, url: Value, timeoutInSeconds: Value)

  /** One active callback and what `callback_registrations.create` did for it:
      returned a response, or raised. */
  datatype Registration = Registration(callback: Callback, response: Result<Value>)

  /** The attributes sent for one callback. */
  function CallbackAttributes(c: Callback): Value {
    Hash(map[Sym("definition_name") := c.name, Sym("url") := c.url,
             Sym("timeout_in_seconds") := c.timeoutInSeconds, Sym("active") := Bool(true)])
  }

  /** The attributes of every callback, in order: each one is attempted. */
  function AttemptedRegistrations(regs: seq<Registration>): (r: seq<Value>)
    ensures |r| == |regs|
    ensures forall j :: 0 <= j < |regs| ==> r[j] == CallbackAttributes(regs[j].callback)
  {
    seq(|regs|, j requires 0 <= j < |regs| => CallbackAttributes(regs[j].callback))
  }

  /** `response["callback_registration"]["uuid"]` when the response is truthy
      and that value is truthy; `None` when it is not, and when the create call
      or either lookup raised (the `rescue` logs and moves on). */
  function ReturnedUuid(response: Result<Value>): (u: Option<Value>)
    ensures u.Some? ==> Truthy(u.value) && response.Ok? && Truthy(response.value)
    ensures u.Some? ==>
      && Index(response.value, Str("callback_registration")).Ok?
      && Index(Index(response.value, Str("callback_registration")).value, Str("uuid")) == Ok(u.value)
    ensures (&& response.Ok? && response.value.Hash?
             && Get(response.value.entries, Str("callback_registration")).Hash?
             && Truthy(Get(Get(response.value.entries, Str("callback_registration")).entries, Str("uuid")))) ==>
      u == Some(Get(Get(response.value.entries, Str("callback_registration")).entries, Str("uuid")))
  {
    match response
    case Raise(_) => None
    case Ok(body) =>
      if !Truthy(body) then None
      else
        match Index(body, Str("callback_registration"))
        case Raise(_) => None
        case Ok(registration) =>
          match Index(registration, Str("uuid"))
          case Raise(_) => None
          case Ok(uuid) => if Truthy(uuid) then Some(uuid) else None
  }

  /** The uuids collected from a run of registrations, in callback order. */
  function CollectedUuids(regs: seq<Registration>): (ids: seq<Value>)
    ensures |ids| <= |regs|
    ensures forall j :: 0 <= j < |ids| ==> Truthy(ids[j])
  {
    if regs == [] then []
    else
      var earlier := CollectedUuids(regs[..|regs| - 1]);
      match ReturnedUuid(regs[|regs| - 1].response)
      case None => earlier
      case Some(uuid) => earlier + [uuid]
  }

  /** Failures are isolated: what a run of callbacks contributes does not
      depend on what happened to the callbacks before it. */
  lemma {:induction false} CollectedUuidsAppend(a: seq<Registration>, b: seq<Registration>)
    ensures CollectedUuids(a + b) == CollectedUuids(a) + CollectedUuids(b)
  {
    if b == [] {
      assert a + b == a;
    } else {
      var last := b[|b| - 1];
      assert (a + b)[..|a + b| - 1] == a + b[..|b| - 1];
      assert (a + b)[|a + b| - 1] == last;
      CollectedUuidsAppend(a, b[..|b| - 1]);
    }
  }

  /** The uuid of a single callback, if it returned one. */
  lemma CollectedUuidsSingle(r: Registration)
    ensures CollectedUuids([r]) == match ReturnedUuid(r.response) case None => [] case Some(u) => [u]
  {
    assert [r][..0] == [];
  }

  /** `installed_callback_ids.any?`. */
  predicate AnyTruthy(ids: seq<Value>) {
    exists j :: 0 <= j < |ids| && Truthy(ids[j])
  }

  /** Every collected uuid is truthy, so `any?` holds exactly when one was collected. */
  lemma AnyMeansCollected(regs: seq<Registration>)
    ensures AnyTruthy(CollectedUuids(regs)) <==> |CollectedUuids(regs)| > 0
  {
    var ids := CollectedUuids(regs);
    if |ids| > 0 {
      assert Truthy(ids[0]);
    }
  }

  /** A registration response with the uuid where the client puts it. */
  function UuidResponse(uuid: string): Result<Value> {
    Ok(Hash(map[Str("callback_registration") := Hash(map[Str("uuid") := Text(uuid)])]))
  }

  /** Three callbacks of which the second raises: the other two uuids are
      collected, in order. */
  lemma SecondCallbackFails(a: Callback, b: Callback, c: Callback, e: Exception)
    ensures CollectedUuids([Registration(a, UuidResponse("u1")), Registration(b, Raise(e)), Registration(c, UuidResponse("u3"))])
         == [Text("u1"), Text("u3")]
  {
    var r1, r2, r3 := Registration(a, UuidResponse("u1")), Registration(b, Raise(e)), Registration(c, UuidResponse("u3"));
    assert ReturnedUuid(r1.response) == Some(Text("u1"));
    assert ReturnedUuid(r3.response) == Some(Text("u3"));
    CollectedUuidsSingle(r1);
    CollectedUuidsSingle(r2);
    CollectedUuidsSingle(r3);
    assert CollectedUuids([r1]) == [Text("u1")] && CollectedUuids([r2]) == [] && CollectedUuids([r3]) == [Text("u3")];
    CollectedUuidsAppend([r1], [r2]);
    CollectedUuidsAppend([r1, r2], [r3]);
    assert [r1] + [r2] == [r1, r2];
    assert [r1, r2] + [r3] == [r1, r2, r3];
  }

  /** Lines 47-71: tries every callback in order and collects the uuids that
      came back. Returns the attributes sent and the uuids collected. */
  method RegisterActiveCallbacks(regs: seq<Registration>) returns (attempted: seq<Value>, installed: seq<Value>)
    ensures attempted == AttemptedRegistrations(regs)
    ensures installed == CollectedUuids(regs)
  {
    attempted, installed := [], [];
    var i := 0;
    while i < |regs|
      invariant 0 <= i <= |regs|
      invariant attempted == AttemptedRegistrations(regs[..i])
      invariant installed == CollectedUuids(regs[..i])
    {
      attempted := attempted + [CallbackAttributes(regs[i].callback)];
      var uuid := ReturnedUuid(regs[i].response);
      if uuid.Some? {
        installed := installed + [uuid.value];
      }
      assert regs[..i + 1][..i] == regs[..i];
      i := i + 1;
    }
    assert regs[..i] == regs;
  }

  /** Lines 73-76: the collected ids replace the company's only when there is one. */
  function WithCallbackIds(c: Company, ids: seq<Value>): (r: Company)
    ensures AnyTruthy(ids) ==> r == c.(installedCallbackIds := ids)
    ensures !AnyTruthy(ids) ==> r == c
  {
    if AnyTruthy(ids) then c.(installedCallbackIds := ids) else c
  }

  // ---------------------------------------------------------------------
  // refresh_embeddable_cache and its two builders

  /** `build_embeddables_for_cache_refresh`, given the first Embeddable's id:
      one entry naming that id and the "production" version, an entry the
      service accepts. */
  function EmbeddablesForCacheRefresh(embeddableId: Value): (r: Value)
    ensures r.List? && |r.items| == 1
    ensures Index(r.items[0], Sym("embeddable_id")) == Ok(embeddableId)
    ensures Index(r.items[0], Sym("saved_versions")) == Ok(List([Text("production")]))
    ensures EmbeddableEntry(r.items[0]).Ok?
  {
    List([Hash(map[Sym("embeddable_id") := embeddableId, Sym("saved_versions") := List([Text("production")])])])
  }

  /** `build_scheduled_refresh_contexts_for_company`: one entry whose security
      context holds only the company's Fluid id, in the "default" environment
      and the UTC time zone, an entry the service's block never fails on. */
  function ContextsForCompany(company: Company): (r: Value)
    ensures r.List? && |r.items| == 1
    ensures Index(r.items[0], Sym("security_context")) == Ok(Hash(map[CompanyIdKey := company.fluidCompanyId]))
    ensures Index(r.items[0], Sym("environment")) == Ok(Text("default"))
    ensures Index(r.items[0], Sym("timezones")) == Ok(List([Text("UTC")]))
    ensures SentContext(r.items[0]).Ok?
  {
    List([Hash(map[Sym("security_context") := Hash(map[CompanyIdKey := company.fluidCompanyId]),
                   Sym("environment") := Text("default"),
                   Sym("timezones") := List([Text("UTC")])])])
  }

  /** The params handed to the cache-refresh service (lines 83-88): exactly
      the four keys the service reads, the interval and roles it would
      otherwise default, and the two lists built above. */
  function CacheRefreshParams(company: Company, embeddableId: Value): (r: map<Key, Value>)
    ensures r.Keys == {Sym("refresh_interval"), Sym("embeddables"), ContextsKey, Sym("roles")}
    ensures Get(r, Sym("refresh_interval")) == Text("1 hour") && Get(r, Sym("roles")) == List([Text("default")])
    ensures Get(r, Sym("embeddables")) == EmbeddablesForCacheRefresh(embeddableId)
    ensures Get(r, ContextsKey) == ContextsForCompany(company)
  {
    map[Sym("refresh_interval") := Text("1 hour"),
        Sym("embeddables") := EmbeddablesForCacheRefresh(embeddableId),
        ContextsKey := ContextsForCompany(company),
        Sym("roles") := List([Text("default")])]
  }

  /** The one dashboard the job asks to refresh. */
  function JobEmbeddable(embeddableId: Value): Value {
    Hash(map[Sym("embeddableId") := embeddableId, Sym("savedVersions") := List([Text("production")])])
  }

  /** The one context the job asks to refresh: the company's Fluid id, in string form when truthy. */
  function JobContext(company: Company): Value {
    Hash(map[Sym("securityContext") := Hash(CoerceCompanyId(map[CompanyIdKey := company.fluidCompanyId])),
             Sym("environment") := Text("default"),
             Sym("timezones") := List([Text("UTC")])])
  }

  lemma JobEmbeddablesBuilt(embeddableId: Value)
    ensures BuildEmbeddables(EmbeddablesForCacheRefresh(embeddableId)) == Ok([JobEmbeddable(embeddableId)])
  {
    var entry := Hash(map[Sym("embeddable_id") := embeddableId, Sym("saved_versions") := List([Text("production")])]);
    assert EmbeddablesForCacheRefresh(embeddableId).items == [entry];
    assert Get(entry.entries, Sym("saved_versions")) == List([Text("production")]);
    assert EmbeddableEntry(entry) == Ok(JobEmbeddable(embeddableId));
    var built := MapOrRaise(EmbeddableEntry, [entry]);
    assert FirstRaise(EmbeddableEntry, [entry]) == 1;
    assert built.value[0] == JobEmbeddable(embeddableId);
    assert built.value == [JobEmbeddable(embeddableId)];
  }

  lemma JobContextsBuilt(company: Company)
    ensures ScheduledContexts(ContextsForCompany(company)) == Ok([JobContext(company)])
  {
    var entry := ContextsForCompany(company).items[0];
    var given := map[CompanyIdKey := company.fluidCompanyId];
    assert ContextsForCompany(company).items == [entry];
    assert Index(entry, Sym("security_context")) == Ok(Hash(given));
    assert Index(Hash(given), CompanyIdKey) == Ok(company.fluidCompanyId);
    assert WorkingSecurityContext(entry) == Ok(CoerceCompanyId(given));
    EntryGoesThrough(entry);
    RefreshSecurityContextIsSupplied(CoerceCompanyId(given));
    assert SentContext(entry) == Ok(JobContext(company));
    var built := MapOrRaise(SentContext, [entry]);
    assert FirstRaise(SentContext, [entry]) == 1;
    assert built.value[0] == JobContext(company);
    assert built.value == [JobContext(company)];
  }

  /** The cache-refresh request of the job: exactly one dashboard with
      `["production"]`, exactly one context carrying the company's Fluid id,
      "default" and `["UTC"]`, interval "1 hour" and roles `["default"]`. */
  lemma CacheRefreshPayloadOfJob(company: Company, embeddableId: Value)
    ensures RefreshPayload(CacheRefreshParams(company, embeddableId))
         == Ok(Hash(map[Sym("refreshInterval") := Text("1 hour"),
                        Sym("embeddables") := List([JobEmbeddable(embeddableId)]),
                        Sym("scheduledRefreshContexts") := List([JobContext(company)]),
                        Sym("roles") := List([Text("default")])]))
  {
    var fields := PayloadFields(Text("1 hour"), [JobEmbeddable(embeddableId)], [JobContext(company)], List([Text("default")]));
    JobPayloadBuilt(company, embeddableId);
    assert fields == map[Sym("refreshInterval") := Text("1 hour"),
                         Sym("embeddables") := List([JobEmbeddable(embeddableId)]),
                         Sym("scheduledRefreshContexts") := List([JobContext(company)]),
                         Sym("roles") := List([Text("default")])];
  }

  /** The service's payload for the job's params, before the fields are spelled out. */
  lemma JobPayloadBuilt(company: Company, embeddableId: Value)
    ensures RefreshPayload(CacheRefreshParams(company, embeddableId))
         == Ok(Hash(PayloadFields(Text("1 hour"), [JobEmbeddable(embeddableId)], [JobContext(company)], List([Text("default")]))))
  {
    var params := CacheRefreshParams(company, embeddableId);
    JobEmbeddablesBuilt(embeddableId);
    JobContextsBuilt(company);
    assert Get(params, Sym("embeddables")) == EmbeddablesForCacheRefresh(embeddableId);
    assert Get(params, ContextsKey) == ContextsForCompany(company);
    assert Get(params, Sym("refresh_interval")) == Text("1 hour");
    assert Get(params, Sym("roles")) == List([Text("default")]);
  }

  /** What the job logs after the refresh: failure (with the error list it
      joins), success, or the error rescued at line 102 when reading the
      result itself raises. */
  datatype CacheRefreshLog = RefreshFailed(errors: seq<Value>) | RefreshSucceeded | RefreshCrashed(message: string)

  /** Lines 93-105: `result[:status] == :unprocessable_entity` picks the failure
      log, which joins `result[:errors][:base]`; any raise on the way is rescued. */
  function CacheLog(result: Value): (log: CacheRefreshLog)
    ensures result.Hash? && Get(result.entries, Sym("status")) != Symbol("unprocessable_entity") ==> log == RefreshSucceeded
    ensures log.RefreshFailed? ==> result.Hash? && Get(result.entries, Sym("status")) == Symbol("unprocessable_entity")
  {
    match Index(result, Sym("status"))
    case Raise(e) => RefreshCrashed(e.message)
    case Ok(status) =>
      if status != Symbol("unprocessable_entity") then RefreshSucceeded
      else
        match Index(result, Sym("errors"))
        case Raise(e) => RefreshCrashed(e.message)
        case Ok(errors) =>
          match Index(errors, Sym("base"))
          case Raise(e) => RefreshCrashed(e.message)
          case Ok(base) =>
            if base.List? then RefreshFailed(base.items)
            else RefreshCrashed("undefined method 'join' for " + ClassName(base))
  }

  /** The service's error results are logged as failures with their one message,
      and its success record as a success. */
  lemma ServiceResultsLogged()
    ensures forall message :: CacheLog(ErrorResult(message)) == RefreshFailed([Text(message)])
    ensures forall code :: CacheLog(SuccessRecord(code)) == RefreshSucceeded
  {
    forall message ensures CacheLog(ErrorResult(message)) == RefreshFailed([Text(message)]) {
      ErrorResultLogged(message);
    }
  }

  /** One error result, logged with its message. */
  lemma ErrorResultLogged(message: string)
    ensures CacheLog(ErrorResult(message)) == RefreshFailed([Text(message)])
  {
    var errors := ErrorResult(message).entries[Sym("errors")];
    assert Index(ErrorResult(message), Sym("errors")) == Ok(errors);
    assert Index(errors, Sym("base")) == Ok(List([Text(message)]));
  }

  /** `refresh_embeddable_cache`: best effort. A missing first Embeddable
      raises NoMethodError before anything is sent; every failure of the
      service comes back as a result and is logged. Nothing escapes. */
  method RefreshEmbeddableCache(company: Company, firstEmbeddable: Option<Value>, env: Option<string>, post: PostOutcome)
    returns (sent: Option<Request>, log: CacheRefreshLog)
    ensures firstEmbeddable.None? ==> sent.None? && log == RefreshCrashed("undefined method 'embeddable_id' for nil")
    ensures sent.Some? <==> firstEmbeddable.Some? && env.Some?
    ensures sent.Some? ==>
      sent.value == Request(RefreshUrl, Headers(env).value,
                            RefreshPayload(CacheRefreshParams(company, firstEmbeddable.value)).value, RequestTimeout)
    ensures firstEmbeddable.Some? && env.None? ==> log == RefreshFailed([Text("Unexpected error: " + ApiKeyMissingMessage)])
    ensures sent.Some? && post.PostRaised? ==>
      log == RefreshFailed([Text(RefreshErrorPrefix(post.error) + post.error.message)])
    ensures sent.Some? && post.Responded? && BlankText(post.body) ==> log == RefreshSucceeded
    ensures sent.Some? && post.Responded? && !BlankText(post.body) && post.parsed.Parsed? ==>
      log == CacheLog(post.parsed.value)
    ensures sent.Some? && post.Responded? && !BlankText(post.body) && post.parsed.Malformed? ==>
      log == RefreshFailed([Text("Failed to parse response from Embeddable: " + post.parsed.message)])
  {
    if firstEmbeddable.None? {
      return None, RefreshCrashed("undefined method 'embeddable_id' for nil");
    }
    var params := CacheRefreshParams(company, firstEmbeddable.value);
    CacheRefreshPayloadOfJob(company, firstEmbeddable.value);
    var result, s, paramsAfter := RefreshContexts(params, env, post);
    sent := s;
    log := CacheLog(result);
    if sent.None? {
      ErrorResultLogged("Unexpected error: " + ApiKeyMissingMessage);
    } else if post.PostRaised? {
      ErrorResultLogged(RefreshErrorPrefix(post.error) + post.error.message);
    } else if post.parsed.Malformed? {
      ErrorResultLogged("Failed to parse response from Embeddable: " + post.parsed.message);
    }
  }

  // ---------------------------------------------------------------------
  // process_webhook on the store

  /** The store's records and next id after one run of the job. Nothing is
      stored when lines 17-29 raise or the save fails; otherwise the prepared
      company goes under its shop, with the collected callback ids when
      there are any. */
  function StoreAfter(records: map<Value, Company>, nextId: int, payload: map<Key, Value>,
                      saveSucceeds: bool, regs: seq<Registration>): (r: (map<Value, Company>, int))
    ensures Prepare(records, nextId, payload).Raise? || !saveSucceeds ==> r == (records, nextId)
    ensures Prepare(records, nextId, payload).Ok? && saveSucceeds ==>
      && r.0.Keys == records.Keys + {ShopOf(payload)}
      && r.0[ShopOf(payload)].active
      && (forall shop :: shop in records && shop != ShopOf(payload) ==> r.0[shop] == records[shop])
      && r.1 == (if ShopOf(payload) in records then nextId else nextId + 1)
    ensures Prepare(records, nextId, payload).Ok? && saveSucceeds ==>
      r.0[ShopOf(payload)] == WithCallbackIds(Prepare(records, nextId, payload).value, CollectedUuids(regs))
    ensures Prepare(records, nextId, payload).Ok? && saveSucceeds && |CollectedUuids(regs)| > 0 ==>
      r.0[ShopOf(payload)].installedCallbackIds == CollectedUuids(regs)
    ensures Prepare(records, nextId, payload).Ok? && saveSucceeds && CollectedUuids(regs) == [] ==>
      r.0[ShopOf(payload)] == Prepare(records, nextId, payload).value
  {
    match Prepare(records, nextId, payload)
    case Raise(_) => (records, nextId)
    case Ok(company) =>
      if !saveSucceeds then (records, nextId)
      else
        AnyMeansCollected(regs);
        var shop := ShopOf(payload);
        (records[shop := WithCallbackIds(company, CollectedUuids(regs))], if shop in records then nextId else nextId + 1)
  }

  /** The store after a successful save, spelled out for the job's method. */
  lemma SavedStore(records: map<Value, Company>, nextId: int, payload: map<Key, Value>,
                   regs: seq<Registration>, company: Company)
    requires Prepare(records, nextId, payload) == Ok(company)
    ensures StoreAfter(records, nextId, payload, true, regs)
         == (records[ShopOf(payload) := WithCallbackIds(company, CollectedUuids(regs))],
             if ShopOf(payload) in records then nextId else nextId + 1)
  {
  }

  /** The job keeps the store consistent. */
  lemma StoreAfterKeepsInvariant(records: map<Value, Company>, nextId: int, payload: map<Key, Value>,
                                 saveSucceeds: bool, regs: seq<Registration>)
    requires StoreInvariant(records, nextId)
    ensures var after := StoreAfter(records, nextId, payload, saveSucceeds, regs);
      StoreInvariant(after.0, after.1)
  {
    if Prepare(records, nextId, payload).Ok? && saveSucceeds {
      PreparedKeepsShop(records, nextId, payload);
    }
  }

  /** Delivering the same webhook twice (with the same save and callback
      outcomes) leaves the store as one delivery did: one record per shop,
      no second id. */
  lemma StoreAfterIdempotent(records: map<Value, Company>, nextId: int, payload: map<Key, Value>,
                             saveSucceeds: bool, regs: seq<Registration>)
    ensures var once := StoreAfter(records, nextId, payload, saveSucceeds, regs);
      StoreAfter(once.0, once.1, payload, saveSucceeds, regs) == once
  {
    var once := StoreAfter(records, nextId, payload, saveSucceeds, regs);
    if Prepare(records, nextId, payload).Ok? && saveSucceeds {
      var shop := ShopOf(payload);
      var first := Prepare(records, nextId, payload).value;
      var attrs := CompanyAttributes(payload).entries;
      assert Index(CompanyAttributes(payload), Str("fluid_shop")) == Ok(shop);
      AnyMeansCollected(regs);
      var stored := WithCallbackIds(first, CollectedUuids(regs));
      assert once.0 == records[shop := stored];
      assert FoundOrNew(once.0, once.1, shop) == stored;
      assert AssignWhitelisted(stored, attrs) == stored;
      var again := Prepare(once.0, once.1, payload);
      assert again == Ok(stored);
      assert WithCallbackIds(stored, CollectedUuids(regs)) == stored;
      assert once.0[shop := stored] == once.0;
    }
  }

  /** A real redelivery may meet other save and callback outcomes. Once the
      first delivery has saved the company, the second still finds it by its
      shop: no record is added and no id is handed out, whatever happens. */
  lemma RedeliveryAddsNoRecord(records: map<Value, Company>, nextId: int, payload: map<Key, Value>,
                               firstSave: bool, firstRegs: seq<Registration>,
                               secondSave: bool, secondRegs: seq<Registration>)
    ensures var once := StoreAfter(records, nextId, payload, firstSave, firstRegs);
      var twice := StoreAfter(once.0, once.1, payload, secondSave, secondRegs);
      Prepare(records, nextId, payload).Ok? && firstSave ==>
        && twice.0.Keys == once.0.Keys && twice.1 == once.1
        && twice.0[ShopOf(payload)].id == once.0[ShopOf(payload)].id
  {
    var once := StoreAfter(records, nextId, payload, firstSave, firstRegs);
    if Prepare(records, nextId, payload).Ok? && firstSave {
      assert ShopOf(payload) in once.0;
    }
  }

  /** Lines 17-29, step by step: look the record up by shop (or start a new
      one), copy the whitelist, take the droplet uuid, set `active`. */
  method PrepareCompany(records: map<Value, Company>, nextId: int, payload: map<Key, Value>)
    returns (r: Result<Company>)
    ensures r == Prepare(records, nextId, payload)
  {
    var attrs := CompanyAttributes(payload);
    var found := Index(attrs, Str("fluid_shop"));
    if found.Raise? {
      return Raise(found.error);
    }
    if !attrs.Hash? {
      return Raise(StandardError("wrong number of arguments (given 6, expected 1..2)"));
    }
    var company := FoundOrNew(records, nextId, found.value);
    company := AssignWhitelisted(company, attrs.entries);
    if Str("droplet_uuid") !in attrs.entries {
      return Raise(StandardError("key not found: \"droplet_uuid\""));
    }
    company := company.(companyDropletUuid := attrs.entries[Str("droplet_uuid")]);
    company := company.(active := true);
    r := Ok(company);
  }

  /** How one delivery of the webhook ended. */
  datatype JobOutcome =
    | JobRaised(error: Exception)
    | SaveFailed
    | Completed(attempted: seq<Value>, installedCallbackIds: seq<Value>, refreshSent: Option<Request>, log: CacheRefreshLog)

  /** The company records, keyed by `fluid_shop`, and the id the next new record gets. */
  class CompanyStore {
    var records: map<Value, Company>
    var nextId: int

    ghost predicate Valid()
      reads this
    {
      StoreInvariant(records, nextId)
    }

    constructor ()
      ensures Valid() && records == map[] && nextId == 1
    {
      records := map[];
      nextId := 1;
    }

    /** Lines 17-36: prepare the company and, when the save succeeds, store
        it under its shop (a new record takes the next id). */
    method Upsert(payload: map<Key, Value>, saveSucceeds: bool) returns (prepared: Result<Company>)
      requires Valid()
      modifies this
      ensures Valid()
      ensures prepared == Prepare(old(records), old(nextId), payload)
      ensures prepared.Raise? || !saveSucceeds ==> records == old(records) && nextId == old(nextId)
      ensures prepared.Ok? && saveSucceeds ==>
        && prepared.value.fluidShop == ShopOf(payload)
        && records == old(records)[ShopOf(payload) := prepared.value]
        && nextId == if ShopOf(payload) in old(records) then old(nextId) else old(nextId) + 1
    {
      prepared := PrepareCompany(records, nextId, payload);
      if prepared.Raise? || !saveSucceeds {
        return;
      }
      var company := prepared.value;
      PreparedKeepsShop(records, nextId, payload);
      StoreAfterKeepsInvariant(records, nextId, payload, saveSucceeds, []);
      SavedStore(records, nextId, payload, [], company);
      if company.fluidShop !in records {
        nextId := nextId + 1;
      }
      records := records[company.fluidShop := company];
    }

    /** Lines 73-76: `company.update(installed_callback_ids: ...)` when any id was collected. */
    method RecordCallbackIds(shop: Value, installed: seq<Value>)
      requires Valid() && shop in records
      modifies this
      ensures Valid()
      ensures records == old(records)[shop := WithCallbackIds(old(records)[shop], installed)]
      ensures nextId == old(nextId)
    {
      if AnyTruthy(installed) {
        records := records[shop := records[shop].(installedCallbackIds := installed)];
      }
    }

    /** `process_webhook`: upsert by shop, whitelist copy, the droplet uuid,
        `active = true`, save or abort; then callback registration and the
        best-effort cache refresh. */
    method ProcessWebhook(payload: map<Key, Value>, saveSucceeds: bool, regs: seq<Registration>,
                          firstEmbeddable: Option<Value>, env: Option<string>, post: PostOutcome)
      returns (outcome: JobOutcome)
      requires Valid()
      modifies this
      ensures Valid()
      ensures (records, nextId) == StoreAfter(old(records), old(nextId), payload, saveSucceeds, regs)
      ensures Prepare(old(records), old(nextId), payload).Raise? ==>
        outcome == JobRaised(Prepare(old(records), old(nextId), payload).error)
      ensures Prepare(old(records), old(nextId), payload).Ok? && !saveSucceeds ==> outcome == SaveFailed
      ensures Prepare(old(records), old(nextId), payload).Ok? && saveSucceeds ==>
        && outcome.Completed?
        && outcome.attempted == AttemptedRegistrations(regs)
        && outcome.installedCallbackIds == CollectedUuids(regs)
        && (outcome.refreshSent.Some? <==> firstEmbeddable.Some? && env.Some?)
        && (outcome.refreshSent.Some? ==>
              outcome.refreshSent.value.body
              == RefreshPayload(CacheRefreshParams(Prepare(old(records), old(nextId), payload).value, firstEmbeddable.value)).value)
    {
      ghost var before, beforeId := records, nextId;
      var prepared := Upsert(payload, saveSucceeds);
      if prepared.Raise? {
        return JobRaised(prepared.error);
      }
      if !saveSucceeds {
        return SaveFailed;
      }
      var company := prepared.value;
      var shop := company.fluidShop;
      var attempted, installed := RegisterActiveCallbacks(regs);
      RecordCallbackIds(shop, installed);
      SavedStore(before, beforeId, payload, regs, company);
      assert records == before[shop := WithCallbackIds(company, installed)];
      assert records[shop].fluidCompanyId == company.fluidCompanyId;
      var sent, log := RefreshEmbeddableCache(records[shop], firstEmbeddable, env, post);
      outcome := Completed(attempted, installed, sent, log);
    }
  }
}
