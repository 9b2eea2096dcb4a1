# IntersectX core: verified model

IntersectX is a platform that connects founders with investors. Its FastAPI
backend answers analysis questions through LLM agents and memoises the
answers of its service methods in a document store. Its React frontend
streams chat replies, signs founders up and shows featured companies.
This project models, in Dafny, the parts of that system that carry real
logic, and proves what they promise.

**Persistent TTL cache**
- The cache fingerprint: `service:method:` followed by the argument pairs, sorted by name and joined with `&`.
- The serialiser that turns a result into a plain stored tree.
- The cache store (`CacheService`) over a map from fingerprints to entries, with get, set, invalidate, clear-all and clear-expired, and their async twins.
- The `@cacheable` decorator: it builds the argument map, bypasses the cache when no cache service is attached, and runs a lookup, a computation and a store.
- The middleware that schedules a sweep of expired entries at most once per interval.

**Chat backend**
- The response validators that collect tool iframe URLs and drop tool messages.
- Citation title defaulting.
- Thread formatting, sorting and paging.

**Chart payloads**
- The `get_plot_data` projections and counts of the customer-sentiment, regulatory-compliance, partnership-network and team response models.

**Frontend**
- The chat provider: thread-list updates, optimistic delete, thread creation, and the guarded, debounced thread switch.
- The API client's `get`, `post` and `delete`, as far as their callers can see: the value a request resolves to, or the error it throws.
- The streamed-reply reader: it cuts `data:` lines out of a growing buffer, in the manner of the Server-Sent Events format of section 9.2 of the WHATWG HTML Living Standard.
- The founder sign-up step machine, its form validators and the consent and document logic of its submit.
- The company carousel's wrap-around paging.

One Dafny module models one source component:

| module (file) | models |
|---|---|
| `CacheKey` (cache_key.dfy) | `_generate_key` |
| `Serializer` (serializer.dfy) | `_serialize_for_mongodb` |
| `CacheStore` (cache_store.dfy) | `CacheService`: index setup and the store operations |
| `CacheDecorator` (cache_decorator.dfy) | `cacheable` and its two wrappers |
| `CacheCleanup` (cache_cleanup.dfy) | `CacheCleanupMiddleware` |
| `ChatResponse` (chat_response.dfy) | the two `set_iframe_url` validators |
| `Citations` (citations.dfy) | `validate_citations` |
| `ChatService` (chat_service.dfy) | thread formatting, `get_threads`, `get_thread`, `delete_thread` |
| `Charts` (charts.dfy) | `ChartData` and the insertion-ordered counting dict |
| `SentimentPlots`, `CompliancePlots`, `PartnershipPlots`, `TeamPlots` | the `get_plot_data` methods |
| `ApiClient` (api_client.dfy) | `apiClient.get`, `apiClient.post`, `apiClient.delete` |
| `ChatProvider` (chat_provider.dfy) | the provider's thread and message state |
| `ChatStream` (chat_stream.dfy) | the line loop of `submitWithStream` |
| `FounderSignup` (founder_signup.dfy) | the sign-up page |
| `Carousel` (carousel.dfy) | `CompanyCarousel` |
| `Text`, `Wrappers` | string helpers, `Option` and `Result` |

The code decides where it and its documentation differ. Sync `get` has no
`try` around the store query (database/mongo.py `query`), so a store
error raises; the model propagates it rather than treating it as a miss.

## Model

| member | source | states |
|---|---|---|
| Text.IndexOf | submissions/intersectx/frontend/src/providers/ChatProvider.tsx:603 | `indexOf` gives -1 exactly when the character is absent, and otherwise its first position |
| Text.TrimStart | submissions/intersectx/frontend/src/providers/ChatProvider.tsx:604 | the result is a suffix of the input; everything cut off is whitespace and the result does not start with whitespace |
| Text.TrimEnd | submissions/intersectx/frontend/src/providers/ChatProvider.tsx:604 | the result is a prefix of the input; everything cut off is whitespace and the result does not end with whitespace |
| Text.TrimEmptyIff | submissions/intersectx/frontend/src/pages/FounderSignup.tsx:267-301 | a trimmed text is empty if and only if every character is whitespace |
| CacheKey.SortItems | submissions/intersectx/backend/backend/services/cache.py:59 | `sorted(args.items())` is a permutation of the items |
| CacheKey.SortItemsSorted | submissions/intersectx/backend/backend/services/cache.py:59 | the sorted items are in strictly increasing name order |
| CacheKey.SortedUnique | submissions/intersectx/backend/backend/services/cache.py:59 | two name-sorted arrangements of the same items are identical |
| CacheKey.KeyIgnoresInsertionOrder | submissions/intersectx/backend/backend/services/cache.py:55-60 | two argument maps holding the same pairs in any insertion order give the same key |
| CacheKey.KeyPrefix | submissions/intersectx/backend/backend/services/cache.py:60 | every key starts with `service:method:` |
| CacheKey.OneMoreItem | submissions/intersectx/backend/backend/services/cache.py:60 | adding an item with a new name to a one-item dict changes the key |
| CacheKey.KeyNotInjective | submissions/intersectx/backend/backend/services/cache.py:59-60 | for names `a` sorting before `b`, the different dicts `{a: "x&b=y"}` and `{a: "x", b: "y"}` give the same key, because `&` and `=` are not escaped |
| Serializer.LeavesStoredDirectly | submissions/intersectx/backend/backend/services/cache.py:64-65 | None stays None, a value with `isoformat` becomes its ISO text, and a primitive is kept |
| Serializer.ListsElementWise | submissions/intersectx/backend/backend/services/cache.py:84-85 | a list is serialised element by element, keeping length and order |
| Serializer.DictsKeepKeys | submissions/intersectx/backend/backend/services/cache.py:87-98 | a dict, or an object's `__dict__`, keeps its keys in order and serialises each value |
| Serializer.ModelFallbacks | submissions/intersectx/backend/backend/services/cache.py:67-81 | a model's `model_dump` result is stored as is; when it raises, `dict(data)` is used, then `str(data)`; nothing raises |
| Serializer.SerializeLift | submissions/intersectx/backend/backend/services/cache.py:62-104 | serialising an already plain tree returns it unchanged |
| CacheStore.EffectiveTtl | submissions/intersectx/backend/backend/services/cache.py:28 | `ttl or DEFAULT_TTL`: a missing or zero ttl means one day; any other ttl is used as given |
| CacheStore.SetupIndexesEffect | submissions/intersectx/backend/backend/services/cache.py:44-53 | with `key_index` present nothing changes; otherwise the unique `key_index` and `expiry_index` are added; setting up twice equals once |
| CacheStore.CacheService.constructor | submissions/intersectx/backend/backend/services/cache.py:30-33 | the service starts over the existing collection with its indexes set up |
| CacheStore.CacheService.SetupIndexes | submissions/intersectx/backend/backend/services/cache.py:35-53 | the indexes become the set-up indexes of the old ones |
| CacheStore.CacheService.Get | submissions/intersectx/backend/backend/services/cache.py:106-122 | a store error raises; otherwise the result is the data of an entry under the key whose expiry is strictly after `now`, else None |
| CacheStore.CacheService.AGet | submissions/intersectx/backend/backend/services/cache.py:170-186 | as `Get`, through `aquery`, whose errors propagate |
| CacheStore.CacheService.Set | submissions/intersectx/backend/backend/services/cache.py:124-146 | without upsert, only an existing entry under the key is replaced, by the serialised data expiring at `now + (ttl or 1 day)`; a store error is swallowed and changes nothing |
| CacheStore.CacheService.ASet | submissions/intersectx/backend/backend/services/cache.py:188-210 | the entry under the key is created or replaced; a store error raises and changes nothing |
| CacheStore.CacheService.Invalidate | submissions/intersectx/backend/backend/services/cache.py:148-154 | the entry under the key is removed; a store error is swallowed |
| CacheStore.CacheService.AInvalidate | submissions/intersectx/backend/backend/services/cache.py:212-218 | as `Invalidate` |
| CacheStore.CacheService.ClearAll | submissions/intersectx/backend/backend/services/cache.py:156-159 | every entry is removed; a store error is swallowed |
| CacheStore.CacheService.AClearAll | submissions/intersectx/backend/backend/services/cache.py:220-223 | as `ClearAll` |
| CacheStore.CacheService.ClearExpired | submissions/intersectx/backend/backend/services/cache.py:161-167 | exactly the entries expiring strictly before `now` are removed |
| CacheStore.CacheService.AClearExpired | submissions/intersectx/backend/backend/services/cache.py:225-231 | as `ClearExpired` |
| CacheStore.TtlExpiry | submissions/intersectx/backend/backend/services/cache.py:113-114 | after an upsert at `t`, a lookup at `q` sees the serialised value if and only if `q < t + (ttl or 1 day)`, and None otherwise |
| CacheStore.UpsertOverwrites | submissions/intersectx/backend/backend/services/cache.py:205-209 | a second upsert under a key replaces the first completely |
| CacheStore.RefreshNeverCreates | submissions/intersectx/backend/backend/services/cache.py:140-145 | sync `set` on a key with no entry leaves the store unchanged, so the next lookup still misses |
| CacheStore.InvalidateIdempotent | submissions/intersectx/backend/backend/services/cache.py:148-154 | invalidation removes that key, keeps every other entry unchanged, and a second call is a no-op |
| CacheStore.SweepSelective | submissions/intersectx/backend/backend/services/cache.py:161-167 | after a sweep, a key remains if and only if its expiry is not before `now`, and what remains is unchanged |
| CacheStore.SweepBoundary | submissions/intersectx/backend/backend/services/cache.py:114 | an entry expiring exactly at `now` survives the sweep yet is already a miss for `get` |
| CacheStore.SweepInvisible | submissions/intersectx/backend/backend/services/cache.py:161-167 | no lookup at or after the sweep time can tell whether the sweep happened |
| CacheDecorator.Assign | submissions/intersectx/backend/backend/utils/cache_decorator.py:57 | `arg_dict[k] = v` sets `k`, leaves every other key alone, and appends a new key at the end |
| CacheDecorator.AddIfAbsent | submissions/intersectx/backend/backend/utils/cache_decorator.py:64-65 | a keyword already in the dict keeps its value; a new one is appended last |
| CacheDecorator.ArgDictLookup | submissions/intersectx/backend/backend/utils/cache_decorator.py:50-65 | each declared name maps to `str` of its positional value when its index is below `len(args)`, else to its keyword value, and is absent otherwise; an undeclared keyword maps to its own value |
| CacheDecorator.BuildArgDict | submissions/intersectx/backend/backend/utils/cache_decorator.py:50-65 | the two loops build exactly that argument map |
| CacheDecorator.PositionalEqualsKeyword | submissions/intersectx/backend/backend/utils/cache_decorator.py:54-60 | passing the declared parameters positionally or by keyword gives the same map and the same key |
| CacheDecorator.OmittedDefaultIsAbsent | submissions/intersectx/backend/backend/utils/cache_decorator.py:54-60 | `f("Acme")` and `f("Acme", year=None)` get different keys |
| CacheDecorator.OmittedCall | submissions/intersectx/backend/backend/utils/cache_decorator.py:54-60 | for a two-parameter signature called with one positional argument, only the first parameter is in the dict |
| CacheDecorator.ExplicitCall | submissions/intersectx/backend/backend/utils/cache_decorator.py:54-65 | with the second parameter also passed by keyword, the dict holds both, in declaration order |
| CacheDecorator.HitSkipsCall | submissions/intersectx/backend/backend/utils/cache_decorator.py:68-72 | on a live, non-None entry both wrappers return the stored form, do not call the function and store nothing |
| CacheDecorator.FuncErrorStoresNothing | submissions/intersectx/backend/backend/utils/cache_decorator.py:75-78 | on a miss, an exception from the function propagates and the store is unchanged |
| CacheDecorator.AsyncMemoises | submissions/intersectx/backend/backend/utils/cache_decorator.py:67-80 | after an async miss stores `v`, a call before expiry returns the serialised `v` without calling the function, unless `v` serialises to None |
| CacheDecorator.SyncNeverWarms | submissions/intersectx/backend/backend/utils/cache_decorator.py:118-129 | for a key with no entry, the sync wrapper calls the function every time and never creates the entry |
| CacheDecorator.Memoized.constructor | submissions/intersectx/backend/backend/utils/cache_decorator.py:28-29 | the decorated function starts with no calls made |
| CacheDecorator.Memoized.Call | submissions/intersectx/backend/backend/utils/cache_decorator.py:131-134 | a coroutine function goes through the async wrapper, any other through the sync wrapper |
| CacheDecorator.Memoized.AsyncWrapper | submissions/intersectx/backend/backend/utils/cache_decorator.py:32-80 | with no cache service the function runs once, directly; otherwise the outcome, the store and the call count are those of one async lookup-compute-store step under the key of class name, function name and argument map |
| CacheDecorator.Memoized.SyncWrapper | submissions/intersectx/backend/backend/utils/cache_decorator.py:83-129 | the same for the sync wrapper, whose store errors on `set` are swallowed |
| CacheCleanup.SpacedPairwise | submissions/intersectx/backend/backend/middlewares/cache_cleanup.py:37-41 | any two scheduled sweeps, and the first sweep and the start, are more than one interval apart |
| CacheCleanup.Scheduled | submissions/intersectx/backend/backend/middlewares/cache_cleanup.py:37-41 | the sweeps a sequence of request times schedules are among those times |
| CacheCleanup.ScheduledSpaced | submissions/intersectx/backend/backend/middlewares/cache_cleanup.py:37-41 | the sweeps any sequence of request times schedules are spaced more than one interval apart |
| CacheCleanup.ScheduledStep | submissions/intersectx/backend/backend/middlewares/cache_cleanup.py:38-41 | one request schedules at most one sweep and moves `last_cleanup` to it |
| CacheCleanup.CleanupMiddleware.constructor | submissions/intersectx/backend/backend/middlewares/cache_cleanup.py:21-33 | `last_cleanup` starts at construction time, with no sweep yet |
| CacheCleanup.CleanupMiddleware.Dispatch | submissions/intersectx/backend/backend/middlewares/cache_cleanup.py:35-44 | a sweep is scheduled if and only if `now - last_cleanup > interval`; `last_cleanup` becomes `now` in the same step, else stays; the request is always forwarded |
| CacheCleanup.CleanupMiddleware.CleanupExpiredCache | submissions/intersectx/backend/backend/middlewares/cache_cleanup.py:46-55 | the sweep removes the expired entries; a store error is caught and changes nothing |
| CacheCleanup.SetupCacheCleanupMiddleware | submissions/intersectx/backend/backend/middlewares/cache_cleanup.py:58-67 | the installed middleware sweeps at most once an hour |
| ChatResponse.Get | submissions/intersectx/backend/backend/models/response/chat.py:54 | `d.get(k)` is a value stored under `k`, or None |
| ChatResponse.ToolUrl | submissions/intersectx/backend/backend/models/response/chat.py:54-61 | a tool result contributes a URL only when it is truthy |
| ChatResponse.SetMessageIframeUrl | submissions/intersectx/backend/backend/models/response/chat.py:48-63 | `iframe_url` becomes the URLs of the metadata tools, in order, or None when there are none |
| ChatResponse.ToolsUrlsAppend | submissions/intersectx/backend/backend/models/response/chat.py:53-61 | the URLs of two tool lists in a row are the URLs of the first followed by those of the second |
| ChatResponse.ToolsUrlsSound | submissions/intersectx/backend/backend/models/response/chat.py:53-61 | there are at most as many URLs as tools; each is truthy and comes from a tool's parsed result |
| ChatResponse.SkipUnparseable | submissions/intersectx/backend/backend/models/response/chat.py:55-59 | a tool whose string result does not parse is skipped without error |
| ChatResponse.SetThreadIframeUrl | submissions/intersectx/backend/backend/models/response/chat.py:69-93 | the messages become the attached non-tool messages; a thread with no message list raises |
| ChatResponse.ToolMessageUrl | submissions/intersectx/backend/backend/models/response/chat.py:79-86 | a tool message contributes exactly the URL `ToolUrl` gives for its content: nothing when a non-empty string does not decode, and otherwise the truthy `iframe_url` of a dict |
| ChatResponse.AttachedShape | submissions/intersectx/backend/backend/models/response/chat.py:77-92 | no tool message remains; the count is the input count minus the tool count; order is kept; only assistant messages' `iframe_url` can change |
| ChatResponse.PendingSinceAssistant | submissions/intersectx/backend/backend/models/response/chat.py:85-90 | after an assistant message, the pending URLs are those of the tool messages since then |
| ChatResponse.AssistantTakesPending | submissions/intersectx/backend/backend/models/response/chat.py:88-90 | an assistant message takes a copy of the pending URLs when there are any, and otherwise keeps its own `iframe_url` |
| ChatResponse.TrailingToolsDropped | submissions/intersectx/backend/backend/models/response/chat.py:88-92 | URLs pending after the last assistant message are dropped |
| Citations.HostTitle | submissions/intersectx/backend/backend/models/response/base.py:24-35 | the default title fails only when a bytes `netloc` does not decode as UTF-8 |
| Citations.ValidateCitations | submissions/intersectx/backend/backend/models/response/base.py:17-40 | the citations keep their number, order and URLs, each with its processed title; a decode failure raises |
| Citations.ProcessedTitle | submissions/intersectx/backend/backend/models/response/base.py:22-37 | a present title, even an empty one, is kept; a missing one becomes the host |
| Citations.StripsOneWww | submissions/intersectx/backend/backend/models/response/base.py:32-33 | exactly one leading `www.` is removed, so `www.www.x` becomes `www.x` |
| Citations.BytesDecodedFirst | submissions/intersectx/backend/backend/models/response/base.py:28-33 | a bytes host is decoded before the prefix is removed |
| Citations.ProcessedIdempotent | submissions/intersectx/backend/backend/models/response/base.py:19-39 | validating an already validated citation changes nothing |
| ChatService.FilterKept | submissions/intersectx/backend/backend/services/chat.py:160-162 | every kept message has a role that is not a substring of `"system"` and truthy content |
| ChatService.FilterKeptMembers | submissions/intersectx/backend/backend/services/chat.py:181-183 | a message is kept if and only if it is in the session and passes the filter |
| ChatService.RoleFilter | submissions/intersectx/backend/backend/services/chat.py:161 | `("system")` is a string: "user", "assistant" and "tool" pass, while "system", "" and "tem" are dropped |
| ChatService.ParseSender | submissions/intersectx/backend/backend/services/chat.py:170 | a sender is accepted if and only if it is "user", "assistant" or "tool" |
| ChatService.ToMessages | submissions/intersectx/backend/backend/services/chat.py:167-176 | every kept message becomes a response message, in order, or the first validation error is raised |
| ChatService.SummaryMatchesThread | submissions/intersectx/backend/backend/services/chat.py:186-203 | `message_count` is the number of kept messages; `last_message` is the last kept one, or None when none is kept |
| ChatService.RoleRequired | submissions/intersectx/backend/backend/services/chat.py:161 | a message without a role makes both formatters raise, because `None in "system"` is a TypeError |
| ChatService.SortFieldOf | submissions/intersectx/backend/backend/services/chat.py:219-221 | the sort field is `created_at` exactly when asked for, and `updated_at` otherwise |
| ChatService.SortThreads | submissions/intersectx/backend/backend/services/chat.py:225-227 | `sorted` returns a permutation of the threads |
| ChatService.SortThreadsCorrect | submissions/intersectx/backend/backend/services/chat.py:224-227 | the threads are ordered by the field, with a missing field as `datetime.min`, in the requested direction |
| ChatService.PageLength | submissions/intersectx/backend/backend/services/chat.py:230 | `s[offset:offset+limit]` holds `min(limit, max(0, n - offset))` items, starting at `offset` |
| ChatService.QueryThreads | submissions/intersectx/backend/backend/services/chat.py:213-216 | with no user id or an empty one, the whole store unchanged; with one, exactly the stored threads of that user (each result is stored and has that user, and every stored thread of that user is in the result) |
| ChatService.Summaries | submissions/intersectx/backend/backend/services/chat.py:232 | a list exactly when every paged thread formats, holding their summaries in order; otherwise the error of the first thread that fails to format |
| ChatService.GetThreadsPage | submissions/intersectx/backend/backend/services/chat.py:213-232 | a page is ordered by the chosen field, draws only on the queried threads, and is `limit` long unless it runs out |
| ChatService.UserSessions | submissions/intersectx/backend/backend/services/chat.py:235-237 | exactly the stored sessions with both the thread id and the user id |
| ChatService.UserSessionsFirst | submissions/intersectx/backend/backend/services/chat.py:235-241 | the first stored session matching both ids heads the query result |
| ChatService.GetThreadMissing | submissions/intersectx/backend/backend/services/chat.py:234-240 | when the user has no session with that id (whoever else has one), the result is a thread with the requested id and no messages |
| ChatService.GetThreadFound | submissions/intersectx/backend/backend/services/chat.py:234-241 | when the user has sessions with that id, the result is the first of them in store order, formatted |
| ChatService.DeleteThread | submissions/intersectx/backend/backend/services/chat.py:243-247 | the result is always True; the sessions of that id and user are removed unless the store fails |
| Charts.RealOrZero | submissions/intersectx/backend/backend/models/response/regulatory_compliance.py:96 | `x or 0`: 0 for None and 0.0, the value otherwise |
| Charts.BumpCounts | submissions/intersectx/backend/backend/models/response/regulatory_compliance.py:65 | `d[k] = d.get(k, 0) + 1` adds one to `k` only, and one to the total |
| Charts.TallyCorrect | submissions/intersectx/backend/backend/models/response/regulatory_compliance.py:62-66 | the counting dict has each key once, in first-occurrence order; each count is the number of occurrences; the counts sum to the number of items |
| SentimentPlots.SentimentSummaryPlot | submissions/intersectx/backend/backend/models/response/customer_sentiment.py:36-48 | one `line` point per timeseries entry, in order, with `period_start` and `sentiment_score` |
| SentimentPlots.FeedbackPlot | submissions/intersectx/backend/backend/models/response/customer_sentiment.py:73-86 | exactly three `pie` entries, positive, negative and neutral, each counting the items with exactly that sentiment |
| SentimentPlots.FeedbackCountsPartition | submissions/intersectx/backend/backend/models/response/customer_sentiment.py:75-79 | the three counts plus the unrecognised items make up all items; nothing is unrecognised if and only if every sentiment is one of the three |
| SentimentPlots.BrandReputationPlot | submissions/intersectx/backend/backend/models/response/customer_sentiment.py:110-122 | one `line` point per timeseries entry, in order |
| SentimentPlots.SentimentComparisonPlot | submissions/intersectx/backend/backend/models/response/customer_sentiment.py:147-164 | `1 + len(competitors)` `bar` entries: the target company with its score first, then the competitors in order |
| CompliancePlots.ApplicableCount | submissions/intersectx/backend/backend/models/response/regulatory_compliance.py:26 | the applicable count is at most the number of regulations |
| CompliancePlots.ComplianceOverviewPlot | submissions/intersectx/backend/backend/models/response/regulatory_compliance.py:25-38 | two `pie` entries, Applicable and Not Applicable, with those counts |
| CompliancePlots.OverviewPartition | submissions/intersectx/backend/backend/models/response/regulatory_compliance.py:26-31 | the two counts sum to the number of regulations |
| CompliancePlots.SeverityKey | submissions/intersectx/backend/backend/models/response/regulatory_compliance.py:64 | an empty severity is counted as "Unknown", any other under itself |
| CompliancePlots.ViolationHistoryPlot | submissions/intersectx/backend/backend/models/response/regulatory_compliance.py:61-73 | the loop's rows are the tally of the severity keys |
| CompliancePlots.ViolationCounts | submissions/intersectx/backend/backend/models/response/regulatory_compliance.py:62-66 | severities appear once each, in first-occurrence order; every count is at least 1 and equals the occurrences; the counts sum to the number of violations |
| CompliancePlots.ComplianceRiskPlot | submissions/intersectx/backend/backend/models/response/regulatory_compliance.py:94-105 | one `bar` entry per risk, in order, with a None or 0.0 confidence reported as 0 |
| CompliancePlots.RegionalCompliancePlot | submissions/intersectx/backend/backend/models/response/regulatory_compliance.py:124-135 | one `bar` entry per region, with a missing score reported as 0 |
| PartnershipPlots.IsoFormat | submissions/intersectx/backend/backend/models/response/partnership_network.py:119 | `date.isoformat()` is ten characters with dashes at positions 4 and 7 |
| PartnershipPlots.IsoFormatRoundTrip | submissions/intersectx/backend/backend/models/response/partnership_network.py:119 | reading the ISO text back gives the date |
| PartnershipPlots.IsoFormatInjective | submissions/intersectx/backend/backend/models/response/partnership_network.py:119 | different dates have different ISO texts |
| PartnershipPlots.TypeKey | submissions/intersectx/backend/backend/models/response/partnership_network.py:28 | a missing or empty partnership type is grouped as "Unknown" |
| PartnershipPlots.PartnerListPlot | submissions/intersectx/backend/backend/models/response/partnership_network.py:25-37 | the loop's rows are the tally of the type keys |
| PartnershipPlots.PartnerCounts | submissions/intersectx/backend/backend/models/response/partnership_network.py:26-30 | types appear once each, in first-occurrence order; every count is at least 1 and equals the occurrences; the counts sum to the number of partners |
| PartnershipPlots.StrategicAlliancesPlot | submissions/intersectx/backend/backend/models/response/partnership_network.py:57-68 | one `bar` entry per alliance, in order, with its partner and impact score |
| PartnershipPlots.NetworkStrengthPlot | submissions/intersectx/backend/backend/models/response/partnership_network.py:87-95 | one `bar` entry per metric, in order |
| PartnershipPlots.PartnershipTrendsPlot | submissions/intersectx/backend/backend/models/response/partnership_network.py:117-128 | one `line` entry per point, with the ISO date and the net growth |
| TeamPlots.TeamOverviewPlot | submissions/intersectx/backend/backend/models/response/team.py:55-70 | one `pie` entry per role, in order |
| TeamPlots.FormatOptional | submissions/intersectx/backend/backend/models/response/team.py:161 | an f-string shows a missing name as "None" |
| TeamPlots.IndividualPerformancePlot | submissions/intersectx/backend/backend/models/response/team.py:155-165 | one `bar` entry per metric, in order; the title reads "Performance Metrics for None" without a name |
| TeamPlots.OrgStructurePlot | submissions/intersectx/backend/backend/models/response/team.py:238-252 | with departments, one entry each, with `employee_count` defaulting to 0; otherwise no data, the title "No department data" and kind `bar` |
| TeamPlots.TeamGrowthPlot | submissions/intersectx/backend/backend/models/response/team.py:368-379 | one `area` entry per timeseries point, in order |
| ChatProvider.Prefix | submissions/intersectx/frontend/src/providers/ChatProvider.tsx:626 | `substring(0, n)` is the whole text when it is short, and its first `n` characters otherwise |
| ChatProvider.PreviewShape | submissions/intersectx/frontend/src/providers/ChatProvider.tsx:626 | the preview is the text itself up to 50 characters; it ends with an appended "..." if and only if the text is longer; it is at most 53 characters |
| ChatProvider.UpdateThread | submissions/intersectx/frontend/src/providers/ChatProvider.tsx:619-633 | `threads.map` updates the thread with that id and keeps every other one in place |
| ChatProvider.RecordExchangeEffect | submissions/intersectx/frontend/src/providers/ChatProvider.tsx:619-633 | recording a reply keeps the list's order and ids, adds 2 to that thread's `messageCount` and sets its preview |
| ChatProvider.Without | submissions/intersectx/frontend/src/providers/ChatProvider.tsx:221 | the filter keeps exactly the threads with another id |
| ChatProvider.WithoutAbsent | submissions/intersectx/frontend/src/providers/ChatProvider.tsx:221 | removing an id that is not in the list changes nothing |
| ChatProvider.WithoutIdempotent | submissions/intersectx/frontend/src/providers/ChatProvider.tsx:221 | removing twice is removing once |
| ChatProvider.CreateThenDelete | submissions/intersectx/frontend/src/providers/ChatProvider.tsx:197 | deleting a just-created thread gives the old list back |
| ChatProvider.OrElse | submissions/intersectx/frontend/src/providers/ChatProvider.tsx:341 | `a \|\| b` on strings: `a` when non-empty, `b` otherwise |
| ChatProvider.FormatMessages | submissions/intersectx/frontend/src/providers/ChatProvider.tsx:324-333 | one message per API message, in order: its kind from the sender, its `iframe_url` as sent, and its id, content and timestamp, each replaced when missing or empty by a fresh id, "" and the current time respectively |
| ChatProvider.SenderKinds | submissions/intersectx/frontend/src/providers/ChatProvider.tsx:326 | a message is human if and only if sent by "user", and AI if and only if sent by "assistant" |
| ChatProvider.DebounceWindow | submissions/intersectx/frontend/src/providers/ChatProvider.tsx:274-282 | within 1000 ms of a load, the same thread is not loaded again |
| ChatProvider.SwitchGuards | submissions/intersectx/frontend/src/providers/ChatProvider.tsx:259-278 | the already-loaded, load-in-progress and debounce guards each turn a switch away on their own |
| ChatProvider.LoadErrorText | submissions/intersectx/frontend/src/providers/ChatProvider.tsx:317 | the error text is "Error loading thread: " followed by the thrown `Error`'s message, or by "Unknown error" when the message is empty or the value is not an `Error` |
| ChatProvider.NotFoundShowsError | submissions/intersectx/frontend/src/providers/ChatProvider.tsx:301-318 | a 404 answer reaches `switchThread` as a plain error with no status, so it never takes the 404 branch; with a JSON body the error is "API error: 404 - " and the body, shown as "Error loading thread: " and that message; with another body it is the second body read's error |
| ApiClient.Get | submissions/intersectx/frontend/src/lib/api-client.ts:13-52 | a 2xx answer with a parsable body resolves to that body; a failed answer with a JSON body throws an `Error` "API error: <status> - <json>" without a status; a failed answer whose body is not JSON throws the error of the second body read; a failed `fetch` or 2xx body parse is rethrown |
| ApiClient.GetNeverCarriesStatus | submissions/intersectx/frontend/src/lib/api-client.ts:42 | nothing `apiClient.get` throws carries a status, so a caller's `err.status === 404` test is never true |
| ApiClient.GetNotFound | submissions/intersectx/frontend/src/lib/api-client.ts:30-42 | a 404 answer with a JSON body throws exactly "API error: 404 - " followed by the stringified body |
| ApiClient.GetWithStatus | submissions/intersectx/frontend/src/lib/api-client.ts:13-52 | the corrected client behaves as `apiClient.get` on success and on a failed `fetch`; every failed answer throws "API error: <status> - <details>" with its status attached, the details being the JSON or else the body text |
| ApiClient.GetWithStatusNotFound | submissions/intersectx/frontend/src/lib/api-client.ts:42 | with the corrected client, a caller's 404 test holds exactly for a 404 answer |
| ApiClient.GetPlainBodyLost | submissions/intersectx/frontend/src/lib/api-client.ts:33-39 | a failed answer whose body is not JSON throws the second read's error, the same whatever the body's text |
| ApiClient.GetWithStatusKeepsText | submissions/intersectx/frontend/src/lib/api-client.ts:36-42 | with the corrected client, failed answers with different non-JSON texts throw different messages |
| ApiClient.Send | submissions/intersectx/frontend/src/lib/api-client.ts:57-98 | `post` and `delete` resolve to the parsed body of a 2xx answer; any other status throws an `Error` "API error: <status>"; a failed `fetch` or body parse is rethrown |
| ApiClient.SendThrowsErrors | submissions/intersectx/frontend/src/lib/api-client.ts:71-98 | what `post` and `delete` throw is always an `Error` |
| ChatProvider.Provider.constructor | submissions/intersectx/frontend/src/providers/ChatProvider.tsx:104-108 | the provider starts with no threads, no messages and no current thread |
| ChatProvider.Provider.CreateNewThread | submissions/intersectx/frontend/src/providers/ChatProvider.tsx:169-212 | with a returned non-empty id, the new thread is put first, made current and the messages are cleared; a missing or empty id sets the error "Failed to create thread - no ID returned"; a thrown `Error` sets its own message as the error, any other thrown value "Failed to create new thread"; on failure list, current thread and messages stay; loading ends either way |
| ChatProvider.Provider.DeleteThread | submissions/intersectx/frontend/src/providers/ChatProvider.tsx:215-247 | the thread is removed at once; the current thread and messages are cleared if it was current; `success=false` restores the list; an exception keeps it removed and sets the error to the thrown `Error`'s message (to "Failed to delete thread" for any other thrown value) |
| ChatProvider.Provider.SwitchThread | submissions/intersectx/frontend/src/providers/ChatProvider.tsx:259-367 | a turned-away switch changes nothing; otherwise the load time is recorded and the thread made current; a thrown value carrying `status` 404 shows no messages and marks the thread loaded, any other thrown value sets "Error loading thread: " and its message, and a fetched thread shows its messages; both loading flags are clear at the end. The 404 branch is as written, but `apiClient.get` never throws a value with a status (see ChatProvider.NotFoundShowsError) |
| ChatStream.ChunkText | submissions/intersectx/frontend/src/providers/ChatProvider.tsx:639-642 | a payload that does not parse, or whose `content` is null, appends nothing |
| ChatStream.UpdatePlaceholder | submissions/intersectx/frontend/src/providers/ChatProvider.tsx:645-658 | only the placeholder message changes, to the streamed text and any truthy `iframe_url` |
| ChatStream.Classify | submissions/intersectx/frontend/src/providers/ChatProvider.tsx:604-613 | a line is blank if and only if it trims to empty; it is `[DONE]` if and only if it trims to `data: [DONE]`; any other data line carries the text after `data: ` |
| ChatStream.NextLine | submissions/intersectx/frontend/src/providers/ChatProvider.tsx:603-605 | a complete line is cut off if and only if the buffer holds a `\n`, and the buffer is that line, the `\n` and the rest |
| ChatStream.Step | submissions/intersectx/frontend/src/providers/ChatProvider.tsx:607-662 | handling a line keeps the buffer; it stops exactly on `[DONE]`, and a stop clears loading; the streamed text only grows; no message is added or removed, ids and kinds stay, and only the placeholder may change |
| ChatStream.DrainLeavesTail | submissions/intersectx/frontend/src/providers/ChatProvider.tsx:599-605 | after the line loop, the buffer is what follows some complete lines; unless `[DONE]` stopped it, it holds no `\n`; a stop clears loading |
| ChatStream.DrainTouchesOnlyPlaceholder | submissions/intersectx/frontend/src/providers/ChatProvider.tsx:639-658 | the line loop keeps the messages' number and ids, and only the placeholder's content changes |
| ChatStream.NextLineOf | submissions/intersectx/frontend/src/providers/ChatProvider.tsx:603-605 | the first line of `line + "\n" + rest` is `line` |
| ChatStream.ClassifyDone | submissions/intersectx/frontend/src/providers/ChatProvider.tsx:610-613 | the server's `data: [DONE]` line holds no line break and is classified as the end marker |
| ChatStream.SkippedLine | submissions/intersectx/frontend/src/providers/ChatProvider.tsx:607-610 | a blank line or a line that is not a `data:` line is consumed and ignored |
| ChatStream.DoneKeepsRest | submissions/intersectx/frontend/src/providers/ChatProvider.tsx:613-635 | any line classified as the end marker ends loading, records the exchange and stops the line loop, leaving the later lines in the buffer |
| ChatStream.StringContentAppends | submissions/intersectx/frontend/src/providers/ChatProvider.tsx:640-642 | a string `content` appends exactly that string |
| ChatStream.StreamReader.constructor | submissions/intersectx/frontend/src/providers/ChatProvider.tsx:581-582 | the buffer and the streamed text start empty |
| ChatStream.StreamReader.ProcessChunk | submissions/intersectx/frontend/src/providers/ChatProvider.tsx:599-664 | appending the chunk and running the line loop gives exactly the drained state |
| ChatStream.StreamReader.TakeLine | submissions/intersectx/frontend/src/providers/ChatProvider.tsx:603-605 | cutting the first line off the buffer and handling it is one step of the line loop: the buffer shrinks and, unless the line stopped the loop, what the loop goes on to produce is unchanged |
| ChatStream.StreamReader.HandleOne | submissions/intersectx/frontend/src/providers/ChatProvider.tsx:607-662 | one cut-off, classified line is handled as `Step` says |
| ChatStream.StreamReader.ReadStream | submissions/intersectx/frontend/src/providers/ChatProvider.tsx:589-665 | reading the whole stream gives the state of draining after every chunk |
| FounderSignup.StepNavigation | submissions/intersectx/frontend/src/pages/FounderSignup.tsx:148-160 | next advances one step and stays on documents; prev goes back one and stays on founderInfo; prev undoes next except on documents, and next undoes prev except on founderInfo |
| FounderSignup.FilledIff | submissions/intersectx/frontend/src/pages/FounderSignup.tsx:267-301 | a field counts as filled if and only if it has a non-whitespace character |
| FounderSignup.ValidatorsNeedEveryField | submissions/intersectx/frontend/src/pages/FounderSignup.tsx:267-301 | each step validator passes exactly when every field it reads (all seven founder fields, all five company fields, all three funding fields, and the status description) holds a non-whitespace character; the status validator ignores the website and the incorporation flag |
| FounderSignup.ChosenExact | submissions/intersectx/frontend/src/pages/FounderSignup.tsx:186-190 | a document is uploaded if and only if it was chosen, with its own file |
| FounderSignup.ChosenOnce | submissions/intersectx/frontend/src/pages/FounderSignup.tsx:180-190 | each document kind is uploaded at most once |
| FounderSignup.UrlsExact | submissions/intersectx/frontend/src/pages/FounderSignup.tsx:191-201 | each chosen document whose upload succeeded has its URL under its own key, and every stored URL comes from such an upload |
| FounderSignup.UrlKeyInjective | submissions/intersectx/frontend/src/pages/FounderSignup.tsx:193 | different document kinds use different keys |
| FounderSignup.FirstFailure | submissions/intersectx/frontend/src/pages/FounderSignup.tsx:196-203 | the uploads fail as a whole if and only if some chosen document's upload fails |
| FounderSignup.BuildPayload | submissions/intersectx/frontend/src/pages/FounderSignup.tsx:232 | `documents` is omitted if and only if no URL was obtained, and otherwise holds the URLs |
| FounderSignup.SignupPage.constructor | submissions/intersectx/frontend/src/pages/FounderSignup.tsx:48-52 | the page starts with no error, no loading and nothing sent |
| FounderSignup.SignupPage.UploadDocuments | submissions/intersectx/frontend/src/pages/FounderSignup.tsx:186-203 | the loop uploads the chosen documents in `docTypes` order, collecting the URLs and the first failure |
| FounderSignup.SignupPage.HandleSubmit | submissions/intersectx/frontend/src/pages/FounderSignup.tsx:163-257 | without consent an error is set before any upload or request; otherwise the uploads run, an upload failure stops the submit with its message; otherwise the payload is posted, and a successful sign-up logs in and navigates to the auth page while a failed one sets its message as the error |
| Carousel.TotalPages | submissions/intersectx/frontend/src/components/homepage/CompanyCarousel.tsx:15-16 | `Math.ceil(n / 3)`: the pages hold all items and the last page is not empty |
| Carousel.ScrollWraps | submissions/intersectx/frontend/src/components/homepage/CompanyCarousel.tsx:24-28 | with at least one page, the arrows stay on the pages and each undoes the other; right from the last page wraps to 0 |
| Carousel.EmptyCarouselLeft | submissions/intersectx/frontend/src/components/homepage/CompanyCarousel.tsx:25 | with no companies, left from page 0 gives page -1 |
| Carousel.JsSlice | submissions/intersectx/frontend/src/components/homepage/CompanyCarousel.tsx:38 | `slice` never returns more than the array |
| Carousel.VisibleShape | submissions/intersectx/frontend/src/components/homepage/CompanyCarousel.tsx:35-39 | an existing page shows one to three companies, starting at `page * 3` |
| Carousel.PagesPartition | submissions/intersectx/frontend/src/components/homepage/CompanyCarousel.tsx:35-39 | the pages, read in order, show every company exactly once |
| Carousel.CompanyCarousel.constructor | submissions/intersectx/frontend/src/components/homepage/CompanyCarousel.tsx:10-11 | the carousel starts on page 0, not scrolling |
| Carousel.CompanyCarousel.Scroll | submissions/intersectx/frontend/src/components/homepage/CompanyCarousel.tsx:18-32 | ignored while scrolling; otherwise scrolling is set and the page moves, with wrap-around; a page in range stays in range |
| Carousel.CompanyCarousel.ScrollEnded | submissions/intersectx/frontend/src/components/homepage/CompanyCarousel.tsx:31 | the timer clears the scrolling flag and nothing else |
| Carousel.CompanyCarousel.DotClicked | submissions/intersectx/frontend/src/components/homepage/CompanyCarousel.tsx:78-85 | ignored while scrolling; otherwise the page becomes the dot's |
| Carousel.CompanyCarousel.VisibleCompanies | submissions/intersectx/frontend/src/components/homepage/CompanyCarousel.tsx:35-39 | at most three companies, and with companies, a non-empty run starting at `page * 3` |

## Left out

- Concurrency.
  - The sweep task, concurrent cache misses on one key, React's batched state updates and `Promise.all` are sequential calls in the model.
  - A failing `Promise.all` is taken as the first failing upload in `docTypes` order.
- Clocks, uuids and the 500 ms timer are parameters (`now`, `nowIso`, `genId`) or a separate method (`ScrollEnded`).
- Foreign parsing is a function parameter: `json.loads`/`JSON.parse`, `urlparse`'s `netloc`, UTF-8 decoding, `str()` of a Python value, and `TextDecoder`.
- Floating-point fields are `real`, with no rounding or formatting.
- Pydantic validators are modelled on values: a validator returns the new record instead of updating itself in place.
- The document store is a map, or a sequence of sessions.
  - Its driver, its indexes beyond their names, and its error messages are left out.
  - The cache store's calls and `delete_thread` take a `fault` flag for a store failure.
- Serializer.Serialize: the `__dict__` branch's own exception handler (the `str(data)` fallback) is not modelled, since the model's attribute maps cannot fail.
- ChatService.FormatThreadSummary: a key that is present with the value None is treated like a missing key.
- ChatService.SortKey: a sort field that is present with the value None is read as `datetime.min`. In the source `t.get(sort_field, datetime.min)` gives None there, and `sorted` raises TypeError as soon as it compares that None with another key; the model's threads cannot hold a present-but-None field apart from a missing one.
- ChatService.SortThreads: sorts a present-but-None field as `datetime.min` (see SortKey) where the source raises TypeError.
- ChatService.GetThreadsPage: a store error raised by the `aquery` of `get_threads` propagates to the caller in the source; the model's query cannot fail.
- ChatService.GetThread: a store error raised by the `aquery` of `get_thread` propagates to the caller in the source; the model's query cannot fail.
- ChatService.SortThreads: only sortedness and permutation are proved; the stability of Python's `sorted` holds by construction of the insertion sort but is not stated.
- JavaScript strings are sequences of characters.
  - UTF-16 code units in `substring` and `length`, and Unicode case mapping in `toLowerCase`, are not modelled; `lower()` is ASCII lower-casing.
  - Whitespace for `trim` is the JavaScript set of common whitespace characters.
- Timestamps that only display (`updatedAt`, `createdAt`, `toISOString`) come in as the text parameter `nowIso`.
- ChatStream.StreamReader.ReadStream: aborting through `AbortController`, the reader's error path and the error message put into the placeholder are not modelled.
- `fetchThreads`, `submit` and `submitSuggestion` of the chat provider are left out: they are network calls, and only the thread-list update they share (`RecordExchange`) is modelled.
- FounderSignup.SignupPage.HandleSubmit: the sign-up request's fields other than `documents` are copied through without checking, and the progress bar is not modelled.
- ChatProvider.FormatMessages: the `metadata`, `user_id` and `user_name` fields copied into each message are not modelled: the model's messages have no such fields.
- ApiClient.Thrown: a thrown value that is not an `Error` carries no `status` in the model; `fetch`, JSON parsing and the client itself throw only `Error` objects.
- The plot records keep only the fields their `get_plot_data` reads.
- LLM agents, plotting and uploading of charts, authentication, file handling and the route wiring are outside the modelled core.

## Findings

| source | as written | input that shows it | evidently intended | confidence | as-written member | corrected member |
|---|---|---|---|---|---|---|
| submissions/intersectx/frontend/src/providers/ChatProvider.tsx:306 | `switchThread` treats a thrown value with `status === 404` as a thread the server does not have yet, but `apiClient.get` (submissions/intersectx/frontend/src/lib/api-client.ts:42) throws `new Error(...)` without a `status` property | the server answers the thread request with 404 | a 404 shows an empty, loaded thread instead of an error, so the error thrown for a non-2xx answer should carry the status | not executed | ApiClient.GetNeverCarriesStatus, ChatProvider.NotFoundShowsError | ApiClient.GetWithStatusNotFound |
| submissions/intersectx/frontend/src/lib/api-client.ts:33-39 | a failed answer's body is read with `response.json()`, and when that fails `response.text()` reads the same, already consumed body, which rejects, so the "API error" is never built | a 500 answer with the plain-text body "Internal Server Error", or an HTML error page from a proxy | a body that is not JSON is reported by its text in "API error: <status> - <text>" | not executed | ApiClient.GetPlainBodyLost | ApiClient.GetWithStatusKeepsText |

`Provider.SwitchThread` takes the awaited request's outcome as a parameter, so it is proved for the outcomes of both `ApiClient.Get` and `ApiClient.GetWithStatus`; `ApiClient.GetWithStatusNotFound` shows that only the latter lets a 404 reach its empty-thread branch, and `ApiClient.GetWithStatusKeepsText` that only the latter reports a non-JSON error body.
