# droplet-embeddable in Dafny

This project models the part of the droplet-embeddable Rails application that
talks to the Embeddable analytics provider. There are four parts:

- **EmbeddableTokenService** builds the security-token request for a company.
  - The security context is the company's id and name, with the caller's context merged on top.
  - The payload defaults expiry, user and environment with Ruby `||`, then drops nil values.
  - Every failure becomes an `unprocessable_entity` result. There are two message prefixes.
- **EmbeddableCacheRefreshService** builds the cache-refresh request.
  - It takes ordered lists of dashboards and refresh contexts.
  - It rewrites each truthy `company_id` to its string form, inside the caller's own hash.
  - A blank response body becomes a success record.
  - Failures are sorted into three kinds of error result.
- **DropletInstalledJob** provisions a company when the droplet is installed.
  - It upserts the company by `fluid_shop`, copies a whitelist of fields, marks the company active and saves it.
  - It then registers every active callback, isolating failures per callback, and records the uuids that came back.
  - Last, it asks for a best-effort cache refresh.
- **Embeddable** is the dashboard record. It has a get/set pair over its JSON configuration, `to_param`, and the presence validations.

Ruby values are modelled explicitly (`RubyValues`):

- hashes with symbol or string keys;
- truthiness, where only `nil` and `false` are falsy;
- `||`, ActiveSupport's `blank?`, `compact`, `to_s` and `[]`;
- `Array#map` whose block may raise.

Everything effectful is an input:

- the `EMBEDDABLE_API_KEY` environment variable is an `Option<string>`;
- the HTTP POST is a `PostOutcome`: a response with its code, raw body and parse result, or the exception the transport raised;
- the company records are a store of `Company` values keyed by `fluid_shop`, held by the `CompanyStore` class;
- whether `save` succeeds is a boolean;
- each active callback comes paired with the client's response or exception;
- the first Embeddable's id is an `Option<Value>`.

Each service method also returns the request it builds, so the contracts can say what goes over the wire. For the cache-refresh service that is the request `HTTParty.post` receives. For the token service it is the request the code means to send, and the call as written does not send it (see `EmbeddableTokenService.RequestEmbeddableToken` under "Left out").

The repository's token tests expect two things the code does not do:

- `company_id: fluid_company_id` in the security context;
- a user taken from the environment.

The code sends `companyId: company.id`, and `"company_<id>"` as the default user. The model follows the code, and `MinimalParamsPayload` pins down what it sends.

In the cache-refresh service, `build_security_context` always returns the context it is given. Its base `company_id` is overwritten by the merge with the context's own value (`RefreshSecurityContextIsSupplied`). The string form in the request comes only from the in-place rewrite done just before the call.

## Model

| member | source | states |
|---|---|---|
| `RubyValues.IntToDecimalRoundTrip` | app/services/embeddable_token_service.rb:63 | `Integer#to_s` loses nothing: parsing the decimal text gives back the integer |
| `RubyValues.MapOrRaise` | app/services/embeddable_cache_refresh_service.rb:77-82 | `map` keeps length and order, item by item, or gives the exception of the first item whose block raises |
| `EmbeddableApi.ApiKey` | app/services/embeddable_token_service.rb:52-56 | any value set in the environment (even "") is the key; a missing one raises StandardError with the fixed message |
| `EmbeddableApi.Headers` | app/services/embeddable_token_service.rb:44-50 | exactly three headers: two JSON content headers and `Authorization = "Bearer " + key`; a missing key raises the key error |
| `EmbeddableApi.BearerKeyRecoverable` | app/services/embeddable_token_service.rb:48 | the API key can be read back from the Authorization header |
| `EmbeddableTokenService.BuildSecurityContext` | app/services/embeddable_token_service.rb:68-75 | every custom key is kept with its custom value; companyId/companyName are always present and keep the company's values unless the custom context overrides them; no other keys; a truthy non-hash context raises the TypeError of `merge` |
| `EmbeddableTokenService.SecurityContextWithoutCustom` | app/services/embeddable_token_service.rb:69-74 | with a nil/false/absent context the security context is exactly `{companyId: id, companyName: name}` |
| `EmbeddableTokenService.BuildEmbeddablePayload` | app/services/embeddable_token_service.rb:58-66 | no nil values; only `embeddableId` can be missing, and only when `embeddable_id` is nil; expiry, user and environment are the supplied value when truthy (0 and "" kept) and 3600, `"company_<id>"`, "default" otherwise; fails exactly when the security context does |
| `EmbeddableTokenService.DefaultUserIdentifiesCompany` | app/services/embeddable_token_service.rb:63 | two payloads relying on the default user name the same user only for the same company id |
| `EmbeddableTokenService.MinimalParamsPayload` | app/services/embeddable_token_service.rb:58-75 | for `{embeddable_id: ...}` and company 7 the payload carries `companyId: 7` and user "company_7" |
| `EmbeddableTokenService.RequestEmbeddableToken` | app/services/embeddable_token_service.rb:29-42 | headers are built first, so a missing key raises with nothing sent; then the payload; the request meant to be sent carries the token URL, the headers, the payload and the 30-second timeout; the parsed body, or the transport's or parser's exception |
| `EmbeddableTokenService.GenerateToken` | app/services/embeddable_token_service.rb:13-25 | the parsed body verbatim on success; ResponseError gives "Failed to retrieve token from Embeddable: "+msg; every other failure, including a parse error and a missing key (with no POST), gives "Unexpected error: "+msg |
| `EmbeddableCacheRefreshService.EmbeddableEntry` | app/services/embeddable_cache_refresh_service.rb:78-81 | one dashboard entry is built exactly when it is a hash |
| `EmbeddableCacheRefreshService.BuildEmbeddables` | app/services/embeddable_cache_refresh_service.rb:74-83 | `[]` for blank input; for an array, same length and order with `embeddableId` copied and `savedVersions` defaulting to `["production"]`, built exactly when every entry is a hash; other values raise |
| `EmbeddableCacheRefreshService.CoerceCompanyId` | app/services/embeddable_cache_refresh_service.rb:90-92 | a truthy `company_id` becomes its `to_s`; every other key and a falsy id are left as they were |
| `EmbeddableCacheRefreshService.CoerceCompanyIdIdempotent` | app/services/embeddable_cache_refresh_service.rb:89-92 | coercing a second time changes nothing, so a context shared by several entries gives the same output each time |
| `EmbeddableCacheRefreshService.RefreshSecurityContext` | app/services/embeddable_cache_refresh_service.rb:102-110 | the merge has exactly the given context's keys, each with the context's own value: the base's `company_id` exists only when the context already has one, and the context's value wins |
| `EmbeddableCacheRefreshService.RefreshSecurityContextIsSupplied` | app/services/embeddable_cache_refresh_service.rb:102-110 | `build_security_context` returns exactly the context it is given |
| `EmbeddableCacheRefreshService.SentContext` | app/services/embeddable_cache_refresh_service.rb:88-98 | one context entry is built exactly when the entry is a hash whose security context is a hash or falsy |
| `EmbeddableCacheRefreshService.SentContextFields` | app/services/embeddable_cache_refresh_service.rb:88-98 | a built entry has exactly securityContext (the supplied context with a truthy `company_id` in string form and every other key carried over), environment (default "default") and timezones (default `["UTC"]`) |
| `EmbeddableCacheRefreshService.ContextBlock` | app/services/embeddable_cache_refresh_service.rb:88-98 | the block computes that entry and, as a side effect, the caller's entry with its `company_id` rewritten in place |
| `EmbeddableCacheRefreshService.ContextWithoutCompanyIdSentAsGiven` | app/services/embeddable_cache_refresh_service.rb:103-109 | a supplied context without a truthy `company_id` is sent unchanged, with no `company_id` added |
| `EmbeddableCacheRefreshService.ScheduledContexts` | app/services/embeddable_cache_refresh_service.rb:85-100 | `[]` for blank input; a non-blank non-array raises; an array builds exactly when the block succeeds on every entry, and then gives the entries in the same length and order, each the entry built for its context |
| `EmbeddableCacheRefreshService.BuildScheduledRefreshContexts` | app/services/embeddable_cache_refresh_service.rb:85-100 | the loop builds the scheduled contexts, and the caller's list afterwards has each processed entry's `company_id` replaced in place by its string form; entries after a raise are untouched |
| `EmbeddableCacheRefreshService.RefreshPayload` | app/services/embeddable_cache_refresh_service.rb:65-72 | all four keys are always present; refreshInterval defaults to "1 hour", roles to `["default"]`; embeddables and scheduledRefreshContexts are arrays; dashboards fail before contexts |
| `EmbeddableCacheRefreshService.BuildRefreshPayload` | app/services/embeddable_cache_refresh_service.rb:65-72 | builds that payload; the caller's params are changed only through the contexts' in-place rewrite, and not at all when the dashboards raise |
| `EmbeddableCacheRefreshService.RequestCacheRefresh` | app/services/embeddable_cache_refresh_service.rb:33-49 | the key is read before the payload, so a missing key sends nothing and touches no params; a blank body gives `{success: true, status: code}`, any other body is parsed |
| `EmbeddableCacheRefreshService.SuccessRecord` | app/services/embeddable_cache_refresh_service.rb:44-45 | the record for a blank body has exactly the keys `success` (true) and `status` (the response code), and is never one of the failure records |
| `EmbeddableCacheRefreshService.RefreshErrorPrefix` | app/services/embeddable_cache_refresh_service.rb:14-28 | each exception kind gets its own prefix, so the prefix tells the kind; every prefix ends in ": " before the message |
| `EmbeddableCacheRefreshService.RefreshContexts` | app/services/embeddable_cache_refresh_service.rb:12-29 | always returns a result; ResponseError, ParserError and every other error give their own prefix, tried in that order; a missing key is "Unexpected error" |
| `DropletInstalledJob.AssignWhitelisted` | app/jobs/droplet_installed_job.rb:20-27 | each of the six whitelisted fields takes the payload's value when the payload has that key (even a nil one) and keeps its current value otherwise; id, active flag, droplet uuid and callback ids are left as they were |
| `DropletInstalledJob.AssignIgnoresOtherKeys` | app/jobs/droplet_installed_job.rb:20-27 | a payload key outside the six whitelisted ones has no effect on the company |
| `DropletInstalledJob.AssignWhitelistedIdempotent` | app/jobs/droplet_installed_job.rb:20-27 | copying the same attributes twice is copying them once |
| `DropletInstalledJob.Prepare` | app/jobs/droplet_installed_job.rb:17-29 | the company before save exists exactly when the company payload is a hash with `droplet_uuid`; it is active, carries that uuid, and is the stored record of its shop (same id and callback ids) or a new one with the next id; each whitelisted field is the payload's value when the key is present and that starting record's value otherwise |
| `DropletInstalledJob.PreparedKeepsShop` | app/jobs/droplet_installed_job.rb:19-27 | in a consistent store, the prepared company's `fluid_shop` is the shop it was looked up by |
| `DropletInstalledJob.PrepareCompany` | app/jobs/droplet_installed_job.rb:17-29 | the step-by-step assignments compute that company or raise that error |
| `DropletInstalledJob.AttemptedRegistrations` | app/jobs/droplet_installed_job.rb:49-58 | every active callback is attempted in order with its name, url, timeout and `active: true` |
| `DropletInstalledJob.ReturnedUuid` | app/jobs/droplet_installed_job.rb:58-70 | a collected uuid is exactly `response["callback_registration"]["uuid"]` of a truthy response, and is itself truthy; the nested uuid of a well-formed response is collected; a raise is rescued |
| `DropletInstalledJob.CollectedUuids` | app/jobs/droplet_installed_job.rb:47-71 | at most one uuid per callback, all truthy |
| `DropletInstalledJob.CollectedUuidsAppend` | app/jobs/droplet_installed_job.rb:49-71 | what later callbacks contribute does not depend on earlier failures, and uuids come out in callback order |
| `DropletInstalledJob.CollectedUuidsSingle` | app/jobs/droplet_installed_job.rb:59-65 | one callback contributes its uuid or nothing |
| `DropletInstalledJob.AnyMeansCollected` | app/jobs/droplet_installed_job.rb:73 | `any?` on the collected ids holds exactly when one was collected |
| `DropletInstalledJob.SecondCallbackFails` | app/jobs/droplet_installed_job.rb:49-71 | with three callbacks of which the second raises, the first and third uuids are collected in order |
| `DropletInstalledJob.RegisterActiveCallbacks` | app/jobs/droplet_installed_job.rb:44-71 | the loop attempts every callback and collects exactly the collected uuids |
| `DropletInstalledJob.WithCallbackIds` | app/jobs/droplet_installed_job.rb:73-76 | the company's callback ids are replaced only when an id was collected; otherwise it is untouched |
| `DropletInstalledJob.CacheRefreshParams` | app/jobs/droplet_installed_job.rb:83-88 | exactly the four keys the service reads: "1 hour", the dashboard list, the context list and `["default"]` |
| `DropletInstalledJob.EmbeddablesForCacheRefresh` | app/jobs/droplet_installed_job.rb:108-115 | one dashboard entry with the first Embeddable's id and `["production"]`, an entry the service accepts |
| `DropletInstalledJob.ContextsForCompany` | app/jobs/droplet_installed_job.rb:117-127 | one context entry whose security context holds only the company's Fluid id, with "default" and `["UTC"]`; the service's block never raises on it |
| `DropletInstalledJob.JobEmbeddablesBuilt` | app/jobs/droplet_installed_job.rb:108-115 | the job's dashboard list builds to one entry with the first Embeddable's id and `["production"]` |
| `DropletInstalledJob.JobContextsBuilt` | app/jobs/droplet_installed_job.rb:117-127 | the job's context list builds to one context: the company's Fluid id (as a string when truthy), "default", `["UTC"]` |
| `DropletInstalledJob.CacheRefreshPayloadOfJob` | app/jobs/droplet_installed_job.rb:83-88 | the job's refresh payload is exactly one dashboard, one context, "1 hour" and `["default"]` |
| `DropletInstalledJob.CacheLog` | app/jobs/droplet_installed_job.rb:93-105 | a hash result without status `unprocessable_entity` is logged as success; a failure is logged only for that status |
| `DropletInstalledJob.ServiceResultsLogged` | app/jobs/droplet_installed_job.rb:93-101 | for every message and every code, the service's error result is logged as a failure with that message and its success record as a success |
| `DropletInstalledJob.RefreshEmbeddableCache` | app/jobs/droplet_installed_job.rb:79-106 | a missing first Embeddable is rescued with nothing sent; otherwise the job's payload is sent when the key is set; every failure is logged and nothing propagates |
| `DropletInstalledJob.StoreAfter` | app/jobs/droplet_installed_job.rb:14-40 | nothing is stored when the upsert raises or the save fails; otherwise exactly the shop's record changes, to the prepared company with the collected callback ids (stored only when there are some); it is active, and a new shop takes one new id |
| `DropletInstalledJob.StoreAfterKeepsInvariant` | app/jobs/droplet_installed_job.rb:19-31 | records stay keyed by their shop, with distinct ids below the next id |
| `DropletInstalledJob.StoreAfterIdempotent` | app/jobs/droplet_installed_job.rb:19 | delivering the same webhook twice, with the second delivery meeting the same save result and callback responses as the first, leaves the store as one delivery did |
| `DropletInstalledJob.RedeliveryAddsNoRecord` | app/jobs/droplet_installed_job.rb:19-31 | once a delivery has saved the company, a second delivery of the same webhook, whatever its save result and callback responses, adds no record, hands out no new id and keeps the company's id |
| `DropletInstalledJob.CompanyStore.Upsert` | app/jobs/droplet_installed_job.rb:17-36 | stores the prepared company under its shop only when the save succeeds, keeping the store consistent |
| `DropletInstalledJob.CompanyStore.RecordCallbackIds` | app/jobs/droplet_installed_job.rb:73-76 | updates the company's callback ids only when one was collected |
| `DropletInstalledJob.CompanyStore.ProcessWebhook` | app/jobs/droplet_installed_job.rb:14-40 | the store becomes `StoreAfter`; a raise or failed save stops before callbacks and refresh; otherwise every callback is attempted, the collected ids are reported, and the refresh request carries the job's payload |
| `EmbeddableModel.ConfigValueIn` | app/models/embeddable.rb:11-13 | a key whose string form is not in the configuration reads as nil |
| `EmbeddableModel.WithConfigValue` | app/models/embeddable.rb:15-17 | the merge adds the key's string form and keeps every other entry |
| `EmbeddableModel.GetAfterSet` | app/models/embeddable.rb:11-17 | `config_value(k)` after `set_config_value(k, v)` is `v` |
| `EmbeddableModel.SetLeavesOtherKeys` | app/models/embeddable.rb:16 | setting one key leaves every key with another string form unchanged |
| `EmbeddableModel.SymbolAndStringKeysAgree` | app/models/embeddable.rb:11-17 | a symbol and the string of the same name read and write the same entry |
| `EmbeddableModel.SetOverwrites` | app/models/embeddable.rb:16 | setting a key again overwrites it; setting the same pair twice is setting it once |
| `EmbeddableModel.Embeddable.constructor` | db/migrate/20250904143225_create_embeddables.rb:4-7 | a new record has the given id and name and an empty configuration |
| `EmbeddableModel.Embeddable.SetConfigValue` | app/models/embeddable.rb:15-17 | the configuration becomes the merged map; the key reads back the value and every other key reads as before |
| `EmbeddableModel.Embeddable.PassesPresenceValidation` | app/models/embeddable.rb:4-5 | a valid record has both `embeddable_id` and `name` set; nil, `false`, or text that is empty or only whitespace in either fails validation, and two texts with a non-space character pass |
| `EmbeddableModel.Embeddable.ConfigValue` | app/models/embeddable.rb:11-13 | the value stored under the key's string form, nil when there is none |
| `EmbeddableModel.Embeddable.ToParam` | app/models/embeddable.rb:19-21 | the record's param is its `embeddable_id`, which is present whenever the record passes the presence validations |

## Left out

- HTTP transport: `HTTParty.post` is an input outcome.
- `EmbeddableTokenService.RequestEmbeddableToken` and `EmbeddableTokenService.GenerateToken`: `sent` is the request the code means to make, not the one it makes. The call at app/services/embeddable_token_service.rb:33-39 passes only keyword arguments, so HTTParty takes the whole hash as the path. It reads neither `url:` nor `payload:` (its body option is `body:`), so neither the token URL nor the payload reaches the provider as the model's `sent` says. The outcome of that call is still one of the input outcomes the model ranges over.
- `EmbeddableTokenService.BuildSecurityContext`, `EmbeddableTokenService.BuildEmbeddablePayload` and `EmbeddableTokenService.GenerateToken`: the company is always a record. A nil company (the caller's `Company.active.first` finding none) is not modelled. In Ruby, `company.id` raises NoMethodError once the headers are built, and `generate_token` answers "Unexpected error: " with that message.
- JSON: `JSON.parse` is part of the outcome, and `to_json` is not modelled. The request body is the Ruby value before serialisation.
- Hash key order: hashes are maps, so the order of keys in the JSON sent is not modelled.
- `to_s` of arrays and hashes is rendered as "". These only reach the output when a caller passes an array or hash as `company_id` or as a configuration key.
- Ruby error messages are approximations of the real ones. The error kind, and which branch raises, are modelled.
- `validate_payload_keys`, `get_payload`, `get_company`, `FluidClient`, `Callback.active` and the Company model are not part of this model.
  - `get_company` is taken to return the record just saved for the payload's shop.
  - `Callback.active` and the client are the list of callbacks paired with the client's responses.
- ActiveRecord: type casting of attributes, the uniqueness validation, the database's own id sequence and the reasons a save fails are out. The save result is an input, and `Company#update` of the callback ids is taken to succeed.
- `DropletInstalledJob.CompanyStore.ProcessWebhook`: the `return unless company` guard at line 81 is not modelled, because after a successful save the company always exists.
- `DropletInstalledJob.RefreshEmbeddableCache`: the text of the log lines is not modelled, only which log is written (failure with the joined error list, success, or a rescued error).
- `Embeddable.active` and `Embeddable.default` scopes: queries, not logic. `Embeddable.first` is an input.
- Aliasing: a hash shared by several context entries is rewritten once per entry. The model rewrites each entry's value independently. `CoerceCompanyIdIdempotent` shows this gives the same payload and the same rewritten entries up to the point where an entry raises. After a raise the two differ. In Ruby, a later entry that was never processed but shares its security-context hash with an earlier processed entry is already rewritten. `CallerContextsAfter` leaves that later entry as it was.
- Logging, concurrent webhook deliveries, the controllers and routes.
