# chaser-oxide-server, modelled in Dafny

chaser-oxide-server is a gRPC server that drives Chromium browsers through the
DevTools protocol (CDP). It offers sessions (browsers and their pages), page,
element, profile and event services, and a stealth layer that hides
automation by injecting fingerprint overrides. It ships an example client
that crawls Google search results through a proxy. This project models, in
Dafny:

- **The search crawler** of the example client, in its Python and Go forms
  (`search_client.dfy`, `search_crawl.dfy`, `search_page.dfy`, `search_export.dfy`,
  `proxy_config.dfy`, `percent_codec.dfy`, `decimal.dfy`). It covers:
  - the submission fallback chain;
  - the six-pattern selector cascade and the record extractor, with
    `/url?q=` redirects unwrapped by `decodeURIComponent`;
  - the pagination loop with its ranks and its stop rules;
  - the CSV export;
  - the proxy settings read from the environment.

  The page DOM is abstract: a page is a sequence of containers, each seen
  through the six patterns. Whether a next page exists and whether its
  control can be clicked are inputs. The crawl ends because the page
  sequence is finite; the model adds no stop rule of its own.
- **The server's registries as classes with `map`/`seq` fields:**
  - the event subscription table;
  - the injected-script tracker and the applied-feature tracker of the
    stealth engine;
  - the profile store;
  - the session manager, its browsers and their pages, with active flags,
    cascading close and cleanup;
  - the CDP connection's pending-command table, subscriber list, id counter
    and per-method timeouts.

  Each method states its whole new state, so that "removes exactly X,
  nothing else changes" is part of its contract.
- **The translation layer as functions with round-trip and table lemmas:**
  - the error type and its tables into application error codes and gRPC
    status codes;
  - the proto↔internal conversions of the page, browser, profile and event
    services;
  - option clamping;
  - JavaScript string escaping and the selector-type dispatch;
  - attribute pairing, key-combination parsing and inner-HTML stripping;
  - the fingerprint tables and the randomisation, with every random draw an
    explicit input;
  - the configuration defaults.

Remote calls are modelled in one of two ways. Either the answer a call
receives is a parameter, or the operation records the calls it makes in a
log, so that contracts can say which calls were made, in which order, and
what was made of the answers. Fixed-width integers are unbounded in Dafny.
Where the source casts or wraps them, the model writes the cast out:
`as i32`, `as u8`, and the u32 subtraction.

## Model

| member | source | states |
|---|---|---|
| ProxyConfig.FirstNonEmptyIsFirst | examples/google_search_with_proxy/config.go:51-58 | the first-non-empty rule yields "" exactly when every value is empty, and otherwise the value at the least index holding a non-empty string |
| ProxyConfig.GetEnv | examples/google_search_with_proxy/config.go:51-58 | the loop over the keys in argument order returns the first non-empty value among them, or "" |
| ProxyConfig.PyFieldFromEnv | examples/google_search_with_proxy/config.py:31-44 | a field read by from_env is truthy iff the upper- or lower-case variable is non-empty, and its text is the upper-case value when that is non-empty, else the lower-case one |
| ProxyConfig.GoFieldFromEnv | examples/google_search_with_proxy/config.go:33-40 | each field is the upper-case variable when it is non-empty, else the lower-case variable |
| ProxyConfig.GoProxyPriority | examples/google_search_with_proxy/config.go:71-89 | ToChaserProxy of an environment-read configuration is the first non-empty value in the order ALL_PROXY, all_proxy, SOCKS_PROXY, HTTPS_PROXY, HTTP_PROXY |
| ProxyConfig.PyProxyPriority | examples/google_search_with_proxy/config.py:46-72 | to_chaser_proxy picks the same first non-empty value in the same order |
| ProxyConfig.ClientsAgreeOnProxy | examples/google_search_with_proxy/config.py:46-108 | for every environment the Python and Go configurations report the same proxy, bypass list, activity and description |
| ProxyConfig.ActiveIffSomeProxySet | examples/google_search_with_proxy/config.go:107-109 | IsActive holds iff some proxy variable is set to a non-empty value |
| ProxyConfig.DescribeShape | examples/google_search_with_proxy/config.go:115-128 | the description is the no-proxy text exactly when the configuration is inactive; otherwise it starts with the proxy label and the proxy, with the bypass suffix only for a non-empty bypass list |
| PercentCodec.EncodeComponent | examples/google_search_with_proxy/google_search.py:200 | encodeURIComponent never emits '&', '#' or '?', so an encoded query cannot end the q parameter early |
| PercentCodec.DecodeEncode | examples/google_search_with_proxy/google_search.py:325 | decodeURIComponent undoes encodeURIComponent for every string (RFC 3986 section 2.1, UTF-8 per RFC 3629) |
| PercentCodec.DecodePlain | examples/google_search_with_proxy/google_search.py:325 | text without '%' decodes to itself |
| PercentCodec.BadEscapeThrows | examples/google_search_with_proxy/google_search.py:322-327 | decodeURIComponent throws (modelled as None) on any text whose first escape is bad, after any plain text and whatever follows: '%' without two hex digits after it, or escapes whose octets are not a well-formed UTF-8 sequence |
| PercentCodec.TruncatedEscapes | examples/google_search_with_proxy/google_search.py:322-327 | "%" and "ab%4" throw |
| PercentCodec.NonHexEscapes | examples/google_search_with_proxy/google_search.py:322-327 | "%zz" and "%4g" throw |
| PercentCodec.InvalidUtf8Escapes | examples/google_search_with_proxy/google_search.py:322-327 | a stray continuation byte "%80" and a broken two-byte sequence "%C3%28" throw |
| PercentCodec.SurrogateEscape | examples/google_search_with_proxy/google_search.py:322-327 | the UTF-8 bytes of a surrogate, "%ED%A0%80", throw |
| SearchPage.TrimIsSlice | examples/google_search_with_proxy/google_search.py:329 | String.prototype.trim returns a slice of its input with only whitespace cut from either end, and starts and ends with a non-space |
| SearchPage.TrimIdempotent | examples/google_search_with_proxy/google_search.py:329 | trimming a trimmed title changes nothing |
| SearchPage.FirstQueryMatch | examples/google_search_with_proxy/google_search.py:323 | the regular expression /[?&]q=([^&]+)/ matches first at the least position at or after the start where it matches, and nowhere before |
| SearchPage.RunWithoutAmp | examples/google_search_with_proxy/google_search.py:323 | the greedy [^&]+ capture runs up to the first '&' or the end |
| SearchPage.RedirectYieldsTarget | examples/google_search_with_proxy/google_search.py:318-327 | a Google redirect link carrying an encoded destination in its q parameter yields exactly that destination as the result URL |
| SearchPage.ContainerItem | examples/google_search_with_proxy/google_search.py:300-341 | a container yields at most one record, and a record's title is non-empty and already trimmed |
| SearchPage.ItemsOf | examples/google_search_with_proxy/google_search.py:300-341 | the records of a pattern's containers, in document order, never more than the containers, every title non-empty and trimmed |
| SearchPage.CascadeBarren | examples/google_search_with_proxy/google_search.py:294-348 | when no remaining pattern yields a record, the cascade reports no results and probes every remaining pattern |
| SearchPage.CascadeFirstProductive | examples/google_search_with_proxy/google_search.py:294-348 | the cascade reports exactly the records of the first pattern that yields one, found_elements is their count, and it probes the patterns up to and including that one |
| SearchPage.CascadeProbes | examples/google_search_with_proxy/google_search.py:294-296 | the probes recorded are the patterns in order, each with its container count |
| SearchPage.CascadeResultsFromAttempt | examples/google_search_with_proxy/google_search.py:343-346 | all reported records come from a single pattern |
| SearchPage.ExtractionTitles | examples/google_search_with_proxy/google_search.py:329-336 | every reported title is non-empty and trimmed |
| SearchPage.CollectItems | examples/google_search_with_proxy/google_search.py:300-341 | the forEach loop over one pattern's containers collects exactly ItemsOf those containers |
| SearchPage.RunExtraction | examples/google_search_with_proxy/google_search.py:279-352 | the script's loop over the six patterns, stopping at the first that yields, produces the report of the Extraction specification |
| SearchPage.HasNextScript | examples/google_search_with_proxy/google_search.py:398-404 | the next-page probe is true exactly when one of the three next-page markers exists |
| SearchPage.SubmitScript | examples/google_search_with_proxy/google_search.py:181-207 | the submission chain uses the form if there is one, else the submit button, else a constructed search URL when the box holds text; success holds iff some method applied |
| SearchPage.DirectNavigationCarriesQuery | examples/google_search_with_proxy/google_search.py:198-203 | the constructed URL is the search prefix followed by the encoded query, which decodes back to the typed query |
| SearchPage.ParsePayload | examples/google_search_with_proxy/google_search.py:367-390 | an object with results gives those results, a bare list is taken as-is, any other payload gives [] |
| SearchClient.Extract | examples/google_search_with_proxy/google_search.py:361-365 | an evaluate error gives [] and a clean reply the page's records; only the Python client raises, on a transport failure |
| SearchClient.HasNext | examples/google_search_with_proxy/google_search.py:412-417 | the probe answers true only for a clean reply on a page with a next marker; an evaluate error reads as false |
| SearchClient.ClickNextPage | examples/google_search_with_proxy/google_search.py:419-455 | the click succeeds at the first selector that is found and clicks, none before it did, and fails iff no selector can advance |
| SearchClient.Ranked | examples/google_search_with_proxy/google_search.py:248-249 | the page's records ranked first, first+1, ... in extraction order, otherwise unchanged |
| SearchClient.SetUp | examples/google_search_with_proxy/google_search.py:130-233 | set-up fails with the first failing step; the Enter-key fallback runs only when the submit evaluation itself errors, and a failed key press raises |
| SearchClient.PythonPrefix | examples/google_search_with_proxy/google_search.py:271 | all_results[:max_results] under Python's slice rules, a negative bound counting from the end |
| SearchClient.GoCap | examples/google_search_with_proxy/google_search.go:341-343 | the cap as intended: a prefix of at most maxResults results, none for a negative maxResults |
| SearchClient.PythonSearch | examples/google_search_with_proxy/google_search.py:240-271 | the Python crawl loop returns the outcome of the Crawl specification |
| SearchClient.GoSearch | examples/google_search_with_proxy/google_search.go:305-345 | the Go crawl loop, with the corrected cap, returns the same specification's outcome for the Go client |
| SearchCrawl.CrawlRanks | examples/google_search_with_proxy/google_search.py:243-251 | the accumulated list always carries ranks exactly 1..n and extends what was collected before |
| SearchCrawl.CrawlTakesPagesInOrder | examples/google_search_with_proxy/google_search.py:243-271 | the records returned are a prefix of the pages' records taken in page order |
| SearchCrawl.CrawlStopPage | examples/google_search_with_proxy/google_search.py:243-268 | a crawl already at max_results reads no page; otherwise it stops at one page m: it moved on from every earlier page (results, a next indicator, a click that worked) while under max_results, and at m the extraction or probe raised, or it returns everything up to and including page m because max_results was reached, no next indicator was found or no next control clicked |
| SearchCrawl.SearchStopPage | examples/google_search_with_proxy/google_search.py:240-271 | a successful search has a stop page m, never past the last listed page: with max_results <= 0 no page is read and no record returned; otherwise it moved on from every page before m (results, a next indicator, a click that worked) while under max_results, extracted page m, and stopped there because max_results was reached, no next indicator was found or no next control clicked; it returns exactly min(max(max_results, 0), n) records, the items of pages 0..m ranked from 1 |
| SearchCrawl.SearchStopsUnique | examples/google_search_with_proxy/google_search.py:240-271 | that stop page and those records are unique: two stop pages for the same pages and max_results are the same page with the same records |
| SearchCrawl.EmptyPageContinues | examples/google_search_with_proxy/google_search.py:243-268 | a page with no results but a next link and a working next button hands the crawl on unchanged (no stop for empty pages) |
| SearchCrawl.SearchResultsBounded | examples/google_search_with_proxy/google_search.py:243-271 | a search returns at most max(max_results, 0) records, ranked 1..n, a prefix of the pages' records in order |
| SearchCrawl.ClientsAgree | examples/google_search_with_proxy/google_search.go:177-346 | while every RPC gets through, the Go and Python clients return the same results |
| SearchCrawl.TransportFailureOnFirstPage | examples/google_search_with_proxy/google_search.py:361-365 | a transport failure on the first results page raises in Python while Go reads it as an empty page |
| SearchCrawl.GoNeverFailsAfterSetUp | examples/google_search_with_proxy/google_search.go:305-345 | once set-up succeeds the Go client always returns results; page-level failures only shorten the crawl |
| SearchCrawl.GoCapPanicsOnNegativeMax | examples/google_search_with_proxy/google_search.go:341-343 | with a negative maxResults the crawl collects nothing and the cap as written slices with a negative bound, which panics |
| SearchCrawl.GoCapMatchesAsWritten | examples/google_search_with_proxy/google_search.go:341-343 | for a non-negative maxResults the corrected cap equals the cap as written |
| SearchExport.SaveToCsvPython | examples/google_search_with_proxy/google_search.py:457-482 | no file is written for no results; a file that cannot be opened is the exception open raises; otherwise the file is the BOM, the header and one CRLF row per result under Python's quoting |
| SearchExport.SaveToCsvGo | examples/google_search_with_proxy/google_search.go:535-575 | no results: no file; a failed create: an error; otherwise the BOM, header and one LF row per result under Go's quoting |
| SearchExport.ReadWrittenField | examples/google_search_with_proxy/google_search.py:470-480 | every field either writer emits, quoted or not, reads back as itself |
| SearchExport.ReadWrittenRows | examples/google_search_with_proxy/google_search.py:474-480 | the rows written for a list of results read back as the results' four fields each |
| SearchExport.ReadSavedFile | examples/google_search_with_proxy/google_search.py:468-480 | the whole saved file reads back as the header followed by every result's fields, for both dialects |
| SearchExport.RankField | examples/google_search_with_proxy/google_search.py:476 | a rank is written as plain digits, never quoted, and reads back as the rank |
| Decimal.ParseNatText | examples/google_search_with_proxy/google_search.py:476 | reading the decimal digits of a rank back gives the rank |
| Errors.Prefix | src/error.rs:11-71 | each variant's display text starts with a fixed prefix whose first three characters are the variant's tag |
| Errors.PrefixTagsDistinct | src/error.rs:11-71 | different variants have different prefixes, already in their first three characters |
| Errors.ParseDisplay | src/error.rs:11-71 | the inverse of Display: a parsed text is the prefix of the variant found followed by the rest |
| Errors.ParseDisplayOfDisplay | src/error.rs:11-71 | reading a displayed error back gives its variant and the text after the prefix: the message, or for I/O, address, JSON and gRPC errors the wrapped value's own display text |
| Errors.DisplayInjective | src/error.rs:11-71 | two errors with the same display text are the same variant with the same text after the prefix |
| Errors.ToStatus | src/error.rs:131-146 | a gRPC error passes its status through unchanged; every other error keeps its display text as the status message |
| Errors.StatusCodeGroups | src/error.rs:131-146 | each gRPC code comes from exactly its group of variants: NotFound from the three not-found variants, DeadlineExceeded from Timeout, Aborted from navigation and script failures, InvalidArgument from Configuration, Internal from the rest |
| ServerConfig.ParseUnsigned | src/config.rs:8-28 | str::parse for an unsigned type accepts an optional '+' and decimal digits, never a value above the type's maximum |
| ServerConfig.ParseBool | src/config.rs:8-28 | str::parse::<bool> accepts exactly "true" and "false" |
| ServerConfig.ParseUnsignedText | src/config.rs:8-28 | the decimal text of a value parses back to it when it fits the type, and is refused when it does not |
| ServerConfig.FirstInvalidIsFirst | src/config.rs:83-99 | the variable reported names the first refused setting in from_env's order, all earlier ones accepted; none means every setting is accepted |
| ServerConfig.ParseNumberVar | src/config.rs:8-28 | the numeric arm of parse_env_var!: an unset variable keeps the current value, a set one must parse, and a refused one gives Configuration("Invalid " + name) |
| ServerConfig.ParseBoolVar | src/config.rs:8-28 | the boolean arm: the same, with "true"/"false" parsing |
| ServerConfig.FromEnv | src/config.rs:83-99 | from_env fails exactly when some setting is refused, with the error of the first one; otherwise it returns the defaults overwritten by every set variable |
| ServerConfig.EmptyEnvironmentGivesDefaults | src/config.rs:64-79 | with no variable set, loading gives the defaults: 127.0.0.1, port 50051, 10 browsers, 20 pages, 3600 s session timeout, 30000 ms default timeout, stealth on, log level "info" |
| ServerConfig.PortTextAccepted | src/config.rs:83-99 | a port variable holding a number up to 65535 is taken as the port; a larger number is refused |
| EventDispatch.MatchesOnlyDispatchedTypes | src/services/event/dispatcher.rs:104-118 | a non-empty filter can only ever match the three event types that dispatched events carry |
| EventDispatch.FirstDeliverable | src/services/event/dispatcher.rs:56-74 | the item recv stops at is the first matching event or channel error; every earlier item is an event of another type |
| EventDispatch.FilteredReceiver.Recv | src/services/event/dispatcher.rs:56-74 | recv consumes the skipped events and returns the first matching event or channel error; with none it is still waiting and every pending item is consumed |
| EventDispatch.FilteredReceiver.TryRecv | src/services/event/dispatcher.rs:77-101 | try_recv does the same but reports an exhausted inbox as Internal("No events available") |
| EventDispatch.EventDispatcher.Subscribe | src/services/event/dispatcher.rs:189-252 | subscribe inserts exactly one entry under the new id holding page, browser and event types, other entries unchanged, and opens one fresh receiver filtered by those types |
| EventDispatch.EventDispatcher.Unsubscribe | src/services/event/dispatcher.rs:256-269 | unsubscribe succeeds iff the id was present, removes exactly that entry, and otherwise fails with "Subscription not found: " + id |
| EventDispatch.EventDispatcher.ListSubscriptions | src/services/event/dispatcher.rs:273-279 | exactly one (id, page id, browser id) triple per stored subscription |
| EventDispatch.EventDispatcher.Dispatch | src/services/event/dispatcher.rs:283-321 | a dispatch fails iff no receiver is alive; otherwise every live receiver gets the event appended |
| EventDispatch.EventDispatcher.TryDispatchPage | src/services/event/dispatcher.rs:348-361 | the same send, failing with "No receivers: channel closed" |
| EventDispatch.EventDispatcher.CleanupInactive | src/services/event/dispatcher.rs:365-374 | with no live receiver the table is cleared; otherwise nothing changes |
| EventDispatch.EventDispatcher.SubscriptionCount | src/services/event/dispatcher.rs:377-379 | the count equals the number of stored subscriptions |
| EventDispatch.RemoveReceiver | src/services/event/dispatcher.rs:17-35 | dropping a receiver leaves exactly the other receivers |
| EventService.EventTypeTablesInverse | src/services/event/service.rs:19-44 | EVENT_TYPE_MAP and event_type_to_i32 are inverse to each other, and the map holds exactly the nine codes |
| EventService.ConvertEventType | src/services/event/service.rs:74-79 | convert_event_type succeeds exactly for 1, 2, 3, 11, 15, 17, 18, 21 and 24, to the type with that number, and fails with "Invalid event type: n" otherwise |
| EventService.ConvertEventTypeRoundTrip | src/services/event/service.rs:32-79 | converting an event type to its number and back gives it again |
| EventService.ConvertEventTypes | src/services/event/service.rs:165-173 | all of a request's types convert, in order, or the error of the first number outside the table is returned |
| EventService.TargetIds | src/services/event/service.rs:175-182 | the page id is set iff the target names a page, the browser id iff it names a browser, each carrying the target's id |
| EventService.ConvertConsoleEvent | src/services/event/service.rs:95-110 | the level is converted and the arguments kept; url, line, column and stack trace are empty |
| EventService.ConvertLevelInjective | src/services/event/service.rs:97-103 | the level conversion loses nothing |
| EventService.ConvertNetworkEvent | src/services/event/service.rs:113-128 | always a request-sent event carrying the URL, method and status code, never from cache |
| EventService.Forwarded | src/services/event/service.rs:201-258 | the forwarded event carries the subscription id and the payload of the same kind as the dispatched event |
| EventService.ForwardedTypeIsFilterType | src/services/event/service.rs:201-258 | a forwarded event's type number converts back to exactly the type it was dispatched under |
| EventService.ReplyEvent | src/services/event/service.rs:309-350 | every control reply and listing is sent with type number 1 and no payload |
| EventService.Requested | src/services/event/service.rs:163-195 | a subscribe action creates a subscription iff the request has one whose event types all convert |
| EventService.HandleRequest | src/services/event/service.rs:158-355 | one request of the stream: subscribe stores exactly one subscription and remembers its id, unsubscribe removes the named one and forgets it on success, the other actions change no subscription |
| EventService.ServeStream | src/services/event/service.rs:150-375 | the requests are applied in order as the fold of the per-request steps describes: the replies sent are exactly the fold's owed replies (same control ids, listings of exactly the table at that point), the remembered id is the fold's, and the final table is the fold's table less the remembered subscription, which the stream's end unsubscribes |
| EventService.RememberedIsLive | src/services/event/service.rs:191-194 | after any run of requests the remembered id, when there is one, names a subscription still in the table, so the stream's end always removes exactly one subscription when it remembers one |
| EventService.UnsubscribeOtherForgets | src/services/event/service.rs:294-306 | unsubscribing any existing subscription, even one other than the remembered one, clears the remembered id, so the subscription created before it is never cleaned up at the stream's end |
| ScriptInjection.Tracked | src/stealth/injector.rs:37-49 | after tracking, the page's list is the old list (empty if none) with the script appended, and every other page's list is unchanged |
| ScriptInjection.Retained | src/stealth/injector.rs:151-159 | retain keeps exactly the scripts with another id, never adding any |
| ScriptInjection.RetainedUnknownId | src/stealth/injector.rs:151-159 | removing an id no script carries changes nothing |
| ScriptInjection.RetainedIdempotent | src/stealth/injector.rs:151-159 | removing an id twice is removing it once |
| ScriptInjection.RetainedAppend | src/stealth/injector.rs:151-159 | retaining splits over a concatenation of lists, order kept |
| ScriptInjection.EscapeCss | src/stealth/injector.rs:115-129 | the chained replaces double backslashes and then escape single quotes, which is the one-pass escape of those two characters |
| ScriptInjection.EscapeCssReadsBack | src/stealth/injector.rs:115-129 | the escaped CSS between single quotes reads back as the CSS, whatever follows the closing quote |
| ScriptInjection.Evaluate | src/stealth/injector.rs:96-112 | a lookup failure or an evaluation failure passes on; a result without a value is a script failure; otherwise the value's JSON text |
| ScriptInjection.SetUserAgent | src/stealth/injector.rs:132-139 | succeeds iff the lookup, Network.enable and the override all succeed, and otherwise fails with the first failure |
| ScriptInjection.ScriptInjector.TrackScript | src/stealth/injector.rs:37-49 | the record becomes Tracked of the old record with the new script |
| ScriptInjection.ScriptInjector.GetInjectedScripts | src/stealth/injector.rs:142-148 | the page's list iff the page has one, else PageNotFound |
| ScriptInjection.ScriptInjector.RemoveScript | src/stealth/injector.rs:151-159 | always succeeds; a known page's list keeps the scripts with another id, and nothing else changes |
| ScriptInjection.ScriptInjector.ClearAll | src/stealth/injector.rs:162-167 | always succeeds and deletes exactly the page's entry |
| ScriptInjection.ScriptInjector.InjectInitScript | src/stealth/injector.rs:61-93 | the script is recorded as an init script under the returned identifier only when adding it and running it both succeed; a failure passes on and records nothing |
| ScriptInjection.ScriptInjector.InjectStyle | src/stealth/injector.rs:115-129 | the original CSS is recorded as a style only when the evaluation succeeds; the outcome is the evaluation's |
| ScriptInjection.TrackThenList | src/stealth/injector.rs:37-49 | a tracked script is found at the end of its page's list after the old list, and no other page's list changes |
| ScriptInjection.TrackThenRemove | src/stealth/injector.rs:37-159 | removing a freshly tracked script by its id restores the page's list |
| Stealth.ShortScreenWraps | src/stealth/engine.rs:146-152 | as written, a 30-pixel-high screen gets an available height of 4294967286, more than its height |
| Stealth.AvailHeight | src/stealth/engine.rs:146-152 | available height as intended: 40 pixels less than the height, never more than the height |
| Stealth.InjectResult | src/stealth/injector.rs:61-93 | what inject_init_script returns: Ok iff the lookup and Page.addScriptToEvaluateOnNewDocument succeed, else the first error |
| Stealth.RunSucceeds | src/stealth/engine.rs:42-90 | the feature run succeeds iff every enabled feature's injection does, and then lists exactly the enabled features in order after those already applied |
| Stealth.RunFailsAtFirst | src/stealth/engine.rs:42-90 | a failed run reports the error of the first enabled feature that failed |
| Stealth.EnabledNamesListed | src/stealth/engine.rs:52-85 | a feature's name is listed iff its flag is set; "user_agent" is never among them |
| Stealth.ApplyOutcomeFeatures | src/stealth/engine.rs:42-90 | apply_profile's list is "user_agent" first, then exactly the enabled features in the fixed order navigator, screen, webgl, canvas, audio; it succeeds iff the user agent and every enabled injection succeed |
| Stealth.FeatureCounts | src/stealth/engine.rs:42-90 | with every flag set and every call succeeding the list has six names; with none set it is "user_agent" alone |
| Stealth.StealthEngine.ApplyFeature | src/stealth/engine.rs:52-85 | one step of apply_profile: when enabled, the feature's override is injected and on success its name appended, matching one step of the Run specification |
| Stealth.StealthEngine.ApplyProfile | src/stealth/engine.rs:42-90 | the outcome is the ApplyOutcome specification's; on success the page's entry becomes the returned list, on failure the applied map is unchanged |
| Stealth.StealthEngine.GetAppliedFeatures | src/stealth/engine.rs:245-251 | the page's list iff the page was applied to, else PageNotFound |
| Stealth.StealthEngine.RemoveAll | src/stealth/engine.rs:254-261 | always succeeds; the injector's record for the page and the page's entry are both removed, nothing else changes |
| Fingerprints.UserAgentTable | src/stealth/fingerprint.rs:12-38 | every platform's user-agent table has at least two entries |
| Fingerprints.Pick | src/stealth/fingerprint.rs:97-117 | a draw with any random number lands in its table |
| Fingerprints.HardwareConcurrency | src/stealth/fingerprint.rs:85-88 | the drawn concurrency is one of 4, 6, 8, 12, 16, 24, 32 |
| Fingerprints.DeviceMemory | src/stealth/fingerprint.rs:91-94 | the drawn memory is present and one of 4, 8, 16, 32 |
| Fingerprints.RandomUserAgent | src/stealth/fingerprint.rs:97-107 | the drawn user agent comes from the platform's table |
| Fingerprints.ScreenResolution | src/stealth/fingerprint.rs:155-178 | the drawn resolution comes from the platform's table |
| Fingerprints.CreateBaseFingerprint | src/stealth/fingerprint.rs:120-152 | the configuration's values in place, 24-bit colour and pixel depth, the locale as language and first in Accept-Language, every override on |
| Fingerprints.Generate | src/stealth/fingerprint.rs:213-305 | every drawn value comes from its platform's table, mobile platforms fix their hardware, and every override is on |
| Fingerprints.GenerateCustom | src/stealth/fingerprint.rs:308-355 | the caller's user agent, platform and viewport, each defaulting to the first Windows user agent, Win32 and 1920x1080; the rest fixed |
| Fingerprints.WrapI32 | src/stealth/fingerprint.rs:378-379 | an i32 value wrapped into the i32 range, unchanged when it already fits |
| Fingerprints.JitterAsWritten | src/stealth/fingerprint.rs:378-379 | one screen dimension after randomize as written is never below its floor |
| Fingerprints.MobileWidthClamped | src/stealth/fingerprint.rs:378-379 | as written, a 360-pixel mobile width becomes 1024 whatever the variation |
| Fingerprints.Jitter | src/stealth/fingerprint.rs:371-379 | as intended, a dimension moves by at most 5 pixels, by exactly the variation when the result fits a u32 |
| Fingerprints.RandomizeAsWritten | src/stealth/fingerprint.rs:358-381 | as written: fresh concurrency and memory, width and height varied and raised to at least 1024 and 768, nothing else changed |
| Fingerprints.Randomize | src/stealth/fingerprint.rs:358-381 | corrected: fresh concurrency and memory from their tables, width and height within 5 pixels of the old ones, every other field unchanged |
| Fingerprints.RandomizeMayKeepHardware | src/stealth/fingerprint.rs:364-368 | randomize need not change the hardware: a draw can land on the values already there |
| ProfileStore.PresetTypes | src/services/profile/manager.rs:111-139 | get_presets gives five presets, one per platform type other than Custom, in the order Windows, MacOS, Linux, Android, IOS |
| ProfileStore.ProfileManager.CreateProfile | src/services/profile/manager.rs:41-69 | a Custom type is refused and nothing stored; any other type gets a generated fingerprint and is stored under the fresh id, other entries unchanged |
| ProfileStore.ProfileManager.GetProfile | src/services/profile/manager.rs:72-78 | the stored profile iff the id is present, else the not-found error |
| ProfileStore.ProfileManager.ListProfiles | src/services/profile/manager.rs:81-84 | a profile is listed iff it is the one stored under its id |
| ProfileStore.ProfileManager.DeleteProfile | src/services/profile/manager.rs:87-93 | removes exactly an existing profile; an unknown id fails and changes nothing |
| ProfileStore.ProfileManager.UpdateProfile | src/services/profile/manager.rs:96-108 | replaces the fingerprint of an existing profile, keeping its id and type; an unknown id fails and changes nothing |
| ProfileServices.CustomProfile | src/services/profile/service.rs:114-128 | an unstored Custom profile under the fresh id whose fingerprint is built from the custom options alone |
| ProfileServices.CustomIgnoresTemplate | src/services/profile/service.rs:114-128 | the template type and the requested inject flags play no part: equal custom options give equal profiles, all flags set |
| ProfileServices.Regenerate | src/services/profile/service.rs:131-163 | the regenerated fingerprint's user agent comes from the type's table and every override is on |
| ProfileServices.ProfileService.ApplyProfile | src/services/profile/service.rs:76-96 | an unknown profile fails with the page untouched; otherwise the engine's outcome and feature list are returned |
| ProfileServices.ProfileService.GetActiveProfile | src/services/profile/service.rs:104-111 | no profile is ever reported active |
| ProfileServices.ProfileService.RandomizeProfile | src/services/profile/service.rs:131-163 | an unknown id fails; otherwise a new, unstored profile under the fresh id with the stored profile's type and a regenerated fingerprint |
| ProfileGrpc.ProfileTypeCode | src/services/profile/grpc.rs:94-110 | a profile type is sent as a code between 1 and 6 |
| ProfileGrpc.ProfileTypeCodes | src/services/profile/grpc.rs:81-91 | proto_to_profile_type and the type's code are inverse on 1..6, and every code outside that range reads as Windows |
| ProfileGrpc.ToI32 | src/services/profile/grpc.rs:113-189 | a u32 sent as an int32: unchanged below 2^31, wrapped to a negative number above |
| ProfileGrpc.FingerprintToProto | src/services/profile/grpc.rs:113-189 | the available size is the full size, hardware_concurrency is whether the count is positive, a missing device memory is sent as 8, and the other fields are copied |
| ProfileGrpc.GeneratedFingerprintMessage | src/services/profile/grpc.rs:113-189 | a generated fingerprint's numbers all fit an int32, so its message carries them unchanged and reports concurrency as present |
| ProfileGrpc.ReportedAvailHeightDiffers | src/services/profile/grpc.rs:113-189 | the message reports the full height as available while the injected screen override reports 40 pixels less |
| ProfileGrpc.OptionsToProto | src/services/profile/grpc.rs:192-204 | the five inject flags are copied and the four the internal options lack are false |
| ProfileGrpc.ProfileToProto | src/services/profile/grpc.rs:94-110 | the id is kept, the type sent as its code reads back as the type, both sub-messages are present and there is no creation time |
| ProfileGrpc.ToU32 | src/services/profile/grpc.rs:207-232 | an int32 read as a u32: a negative size wraps around |
| ProfileGrpc.CustomOptionsFromProto | src/services/profile/grpc.rs:207-232 | an empty user agent or platform is absent, the viewport is absent iff both sizes are 0, and every inject flag is set whatever was asked |
| ProfileGrpc.Slug | src/services/profile/grpc.rs:306-368 | the preset name lower-cased with every space replaced by '-', character by character |
| ProfileGrpc.PresetIdShape | src/services/profile/grpc.rs:306-368 | a preset id starts with "preset-" and has no space and no ASCII capital after it |
| ProfileGrpc.PresetIdOfTwoWords | src/services/profile/grpc.rs:306-368 | the space between two words of a preset name becomes a hyphen in its id |
| ProfileGrpc.RandomizeFields | src/services/profile/grpc.rs:445-537 | the screen changes only under the screen switch, WebGL only under its switch, the language only under the language switch, and id, type and every other field are kept |
| ProfileGrpc.LanguageSwitchSplitsHeader | src/services/profile/grpc.rs:445-537 | with the language switch on, the navigator language can differ from the Accept-Language header, which is not updated |
| ProfileGrpc.ErrorReply | src/services/profile/grpc.rs:290-300 | every failure is answered inside the reply with the Internal code and the error's display text, whatever the variant |
| ProfileGrpc.ActiveProfileReply | src/services/profile/grpc.rs:371-408 | no active profile gives NotFound "No active profile found"; a profile is sent converted; a failure is the error reply |
| ProfileGrpc.CreateCustomProfileReply | src/services/profile/grpc.rs:411-442 | an absent options message counts as all defaults; the reply is always a Custom profile with every inject flag set |
| ProfileGrpc.PresetMessage | src/services/profile/grpc.rs:306-368 | the message sent for preset i is the profile the store generated for it, under the preset id |
| ProfileGrpc.ProfileRpc.CreateProfile | src/services/profile/grpc.rs:238-267 | the type code is read with Windows as the default; a Custom code is answered with the Configuration error and stores nothing |
| ProfileGrpc.ProfileRpc.ApplyProfile | src/services/profile/grpc.rs:270-303 | an unknown profile is answered with the error reply; otherwise the engine's feature list with success set |
| ProfileGrpc.ProfileRpc.PresetProfile | src/services/profile/grpc.rs:306-368 | one preset: a profile of its type is created in the store under a fresh id and sent under the preset id |
| ProfileGrpc.ProfileRpc.GetPresets | src/services/profile/grpc.rs:306-368 | five messages, one generated profile per preset in preset order, each under its preset id, each also stored under a fresh id |
| ProfileGrpc.ProfileRpc.GetActiveProfile | src/services/profile/grpc.rs:371-408 | the reply is always NotFound, since the service never reports an active profile |
| ProfileGrpc.ProfileRpc.RandomizeProfile | src/services/profile/grpc.rs:445-537 | a new profile of the requested type is created and stored, and the reply is that profile randomised as the switches ask, the stored copy left as generated |
| CdpClient.ParseRemoteObject | src/cdp/client.rs:31-74 | never fails; the type name decides the variant and a value of the wrong kind falls back to the variant's default |
| CdpClient.ParseDescribe | src/cdp/client.rs:31-74 | every evaluation result survives the trip through a RemoteObject unchanged |
| CdpClient.ParseDefaults | src/cdp/client.rs:31-74 | an unknown type name, and a missing value of a known scalar type, give the defaults |
| CdpClient.DecodeRemoteObject | src/cdp/client.rs:148-185 | a missing result field gives the default RemoteObject and a field of the wrong shape fails |
| CdpClient.EvaluateReply | src/cdp/client.rs:148-185 | a call failure passes on; a reply with exceptionDetails fails with the exception's description; otherwise the result is decoded and parsed |
| CdpClient.EvaluateDescribed | src/cdp/client.rs:148-185 | a reply describing a value, with no exception, evaluates to that value |
| CdpClient.CallMethod | src/cdp/client.rs:268-274 | the response's result, or a Cdp error "No result in response" when it has none; a send failure passes on |
| CdpClient.GetContent | src/cdp/client.rs:219-228 | the evaluated outerHTML when it is a string, otherwise ""; evaluation errors pass on |
| CdpClient.EnableMethod | src/cdp/client.rs:256-265 | enable_domain calls the domain followed by ".enable" |
| CdpClient.ScreenshotParams | src/cdp/client.rs:188-216 | the format name always, and a quality exactly for the lossy formats |
| CdpClient.ScreenshotReply | src/cdp/client.rs:188-216 | the base64 data field decoded; a missing field or undecodable text fails with a Cdp error |
| CdpClient.Navigate | src/cdp/client.rs:85-145 | Page.navigate, then at most fifty readyState polls stopping at the first "complete"; polling never fails the navigation |
| CdpClient.PollCounts | src/cdp/client.rs:85-145 | a page complete at once is polled exactly once; one never complete is polled fifty times |
| CdpClient.Forwarded | src/cdp/client.rs:277-298 | the events a subscription passes on are among those received, in order, and each passes the filter |
| CdpClient.StarForwardsAll | src/cdp/client.rs:277-298 | the filter "*" passes every event, in order |
| CdpClient.ExactFilterCounts | src/cdp/client.rs:277-298 | any other filter passes exactly the events of that method, as many as arrived |
| Connection.TimeoutTiers | src/cdp/connection.rs:42-70 | 90 s for a method mentioning "screenshot" or "capture" in any case, else 60 s for "navigate" or "reload", else 30 s |
| Connection.Request | src/cdp/connection.rs:555-625 | the request carries no params exactly when they are JSON null, and otherwise the params given |
| Connection.ParseIncoming | src/cdp/connection.rs:398-413 | a message with a numeric id is a response, else one with a string method is an event, else it is ignored |
| Connection.DeadFacts | src/cdp/connection.rs:505-530 | the positions collected are exactly those whose subscriber is gone, in increasing order |
| Connection.RegisterThenRemove | src/cdp/connection.rs:478-501 | registering a fresh id and removing it again leaves the pending table as it was |
| Connection.CdpWebSocketConnection.Connect | src/cdp/connection.rs:139-196 | allowed only from Disconnected; success ends Connected and active with a stream, failure returns to Disconnected |
| Connection.CdpWebSocketConnection.HandleResponse | src/cdp/connection.rs:478-501 | the pending entry for the response's id is removed and the response delivered; an unknown id changes nothing |
| Connection.CdpWebSocketConnection.HandleNotification | src/cdp/connection.rs:505-530 | every subscriber gets the event; those whose send fails are removed, the rest kept in order |
| Connection.CdpWebSocketConnection.SendCommand | src/cdp/connection.rs:555-625 | an inactive connection fails before taking an id; otherwise the next id is taken and registered, the request written, and the response awaited within the method's timeout, the entry removed afterwards |
| Connection.CdpWebSocketConnection.ListenEvents | src/cdp/connection.rs:628-648 | one more subscriber, at the end; nothing else changes |
| Connection.CdpWebSocketConnection.Close | src/cdp/connection.rs:651-668 | the connection goes inactive first; a failing stream close is reported and leaves the state, otherwise the state becomes Closed |
| Connection.CdpWebSocketConnection.IsActive | src/cdp/connection.rs:671-673 | the active flag |
| Connection.Awaited | src/cdp/connection.rs:590-625 | the response if it arrives within the method's timeout; a Cdp error with the error's rendered text if it carries one; otherwise Timeout "Command <id> timed out", or Timeout "Command <id> response channel closed" when the channel is dropped |
| Connection.ConnectionResponsesHaveResults | src/cdp/client.rs:268-274 | a response from this connection always carries a result, so call_method's "No result in response" branch is never taken on it |
| JsText.ReplaceBackslash | src/services/element/js_utils.rs:47-51 | doubling the backslashes is the one-pass escape of the backslash alone |
| JsText.ReplaceAfterEscape | src/services/element/js_utils.rs:47-51 | a further replace after a one-pass escape leaves the inserted backslashes alone, so a replace chain that starts with the backslash stays a one-pass escape |
| JsText.ReadEscaped | src/services/element/js_utils.rs:47-51 | a one-pass escape covering the backslash and the quote reads back exactly as a JavaScript string literal, whatever follows the closing quote |
| JsBuilder.EscapeJsStr | src/services/element/js_utils.rs:47-51 | escape_js_str's chain is the one-pass escape of backslash, single quote and double quote |
| JsBuilder.EscapeJsStrReadsBack | src/services/element/js_utils.rs:47-51 | whichever quote the script uses, a literal made by escape_js_str reads back as the original single-line string |
| JsBuilder.Embed | src/services/element/js_utils.rs:182-187 | a builder script is fixed code, then the caller string as a literal, then more code; read from after the code the literal gives back the string and the rest of the script |
| JsBuilder.ElementQuery | src/services/element/js_utils.rs:63-101 | querySelector, an XPath evaluation or a text-node walk for selector types 1, 2, 3; any other type is refused with "Invalid selector type" |
| JsBuilder.ExecuteOnElement | src/services/element/js_utils.rs:123-129 | the code runs after the null guard inside an immediately invoked function; a refused selector type passes on |
| JsBuilder.HtmlPropertyChoice | src/services/element/js_utils.rs:170-173 | get_html_script reads outerHTML iff outer is asked for |
| JsBuilder.ClearChoice | src/services/element/js_utils.rs:305-319 | the fill script clears the element right after focusing it, iff clear_first |
| JsBuilder.ScriptReadsBack | src/services/element/js_utils.rs:123-129 | on an accepted selector, a script built on execute_on_element around code that embeds a caller string reads that string back from just after the guard and the code before it |
| JsBuilder.GetAttributeReadsBack | src/services/element/js_utils.rs:182-187 | get_attribute_script succeeds for an accepted selector, and the attribute name reads back from the getAttribute call |
| JsBuilder.TypeTextReadsBack | src/services/element/js_utils.rs:288-296 | type_text_script succeeds for an accepted selector, and the text reads back as the value assigned before the input and change events |
| JsBuilder.FillReadsBack | src/services/element/js_utils.rs:305-321 | fill_script succeeds for an accepted selector, and the value reads back after the focus and the optional clear call |
| JsBuilder.SelectOptionReadsBack | src/services/element/js_utils.rs:327-332 | select_option_script succeeds for an accepted selector, and the option value reads back as the value assigned before the change event |
| JsBuilder.ScrollBlockChoice | src/services/element/js_utils.rs:340-346 | scroll_into_view_script aligns to "start" iff align_to_top, otherwise to "end" |
| JsBuilder.PressKeyReadsBack | src/services/element/js_utils.rs:354-364 | press_key_script succeeds for an accepted selector, and the key reads back three times, as the key of keydown, keypress and keyup in that order |
| ElementFinder.CssMethod | src/services/element/finder.rs:124 | both methods are querySelector, with the All form iff several elements are wanted |
| ElementFinder.CssBackslashNotCarried | src/services/element/finder.rs:122-123 | as written, the CSS script cannot carry a selector of one backslash: it escapes the closing quote |
| ElementFinder.XPathQuoteNotCarried | src/services/element/finder.rs:166-167 | as written, an XPath or text selector holding a single quote ends the literal early, and the rest of the selector runs as script |
| ElementFinder.SelectorScript | src/services/element/finder.rs:122-277 | corrected: the selector embedded by the general escape reads back as itself for every single-line selector, and the literal ends where the template resumes |
| ElementFinder.FindElementAsWritten | src/services/element/finder.rs:26-50 | as written, a missing element (null) is reported as Internal("Invalid element result") |
| ElementFinder.FindElement | src/services/element/finder.rs:26-50 | corrected: success iff the answer is a string that parses; null means ElementNotFound for the selector; other answers are invalid results |
| ElementFinder.FindElements | src/services/element/finder.rs:54-86 | the JSON array parsed, and cut to the limit when one is given |
| ElementFinder.WaitFrom | src/services/element/finder.rs:90-119 | the wait ends at the first attempt that finds the element or fails otherwise than with ElementNotFound, or with a Timeout once the clock passes the deadline |
| ElementFinder.WaitForElement | src/services/element/finder.rs:90-119 | the polling loop returns the outcome of the WaitFrom specification over the attempts' outcomes, each attempt being the corrected FindElement (a missing element is ElementNotFound and is polled again), not the code as written |
| ElementFinder.WaitAsWrittenGivesUp | src/services/element/finder.rs:90-119 | as written, a first attempt that finds no element yet ends the wait at once with the invalid-result error, whatever later attempts would find |
| ElementFinder.WaitPollsMissingElement | src/services/element/finder.rs:90-119 | as intended, a missing element is polled for: the wait goes on to the next attempt |
| ElementFinder.ElementAppearsLate | src/services/element/finder.rs:90-119 | an element appearing on the second poll within the timeout is found as intended, while the wait as written has already failed |
| JsText.QuotedReadsBack | src/services/element/js_utils.rs:182-187 | a script of the form code, quoted value, code gives the value back when read from just after the opening quote |
| SessionPage.ConvertScreenshotFormat | src/session/page.rs:43-49 | the format is kept; JPEG and WebP get quality 100 |
| SessionPage.FromClient | src/session/page.rs:151-169 | evaluate's translation maps each client result variant to the same-named session variant, inverse to the reverse translation |
| SessionPage.EvaluationRoundTrip | src/session/page.rs:151-169 | the evaluation translation loses nothing in either direction and keeps the variant |
| SessionPage.HistoryCall | src/session/page.rs:119-149 | go_back and go_forward navigate to the history.back or history.forward script, never a Page.close |
| SessionPage.ViewportCall | src/session/page.rs:181-201 | the device-metrics override carries the width, height, scale and mobile flag given |
| SessionPage.NoCloseCounts | src/session/page.rs:203-237 | a call log in which no call is Page.close holds no Page.close |
| SessionPage.CloseSentOnce | src/session/page.rs:203-237 | a valid page has sent Page.close exactly once, as its last call, if it is inactive, and never if it is active |
| SessionPage.PageContext.constructor | src/session/page.rs:28-40 | a new page is active and its client has received only the setup calls |
| SessionPage.PageContext.Navigate | src/session/page.rs:62-90 | refused with PageNotFound once inactive; otherwise one navigate call, and success is status 200, loaded, at the URL reached |
| SessionPage.PageContext.GetContent | src/session/page.rs:92-99 | refused once inactive; otherwise one call and the client's answer |
| SessionPage.PageContext.SetContent | src/session/page.rs:101-108 | refused once inactive; otherwise one call with the HTML and the client's answer |
| SessionPage.PageContext.Reload | src/session/page.rs:110-117 | refused once inactive; otherwise one reload call with the cache flag and the client's answer |
| SessionPage.PageContext.GoHistory | src/session/page.rs:119-149 | refused once inactive; otherwise one history navigation whose reply is dropped except for an error |
| SessionPage.PageContext.Evaluate | src/session/page.rs:151-169 | refused once inactive; otherwise one evaluate call and its result translated variant for variant |
| SessionPage.PageContext.Screenshot | src/session/page.rs:171-179 | refused once inactive; otherwise only the converted format reaches the client; quality, full page and clip are dropped |
| SessionPage.PageContext.SetViewport | src/session/page.rs:181-201 | refused once inactive; otherwise one override with the page's own mobile flag, and only an error reply passes on |
| SessionPage.PageContext.Close | src/session/page.rs:203-237 | always Ok; an active page sends Page.close once and goes inactive whatever the answer; an inactive one sends nothing |
| SessionPage.PageContext.IsActive | src/session/page.rs:239-246 | the active flag, read as false while a writer holds the lock |
| SessionBrowser.LastSegmentShape | src/session/browser.rs:84-90 | the page key is the longest suffix of the target URL without a slash |
| SessionBrowser.LastSegmentOfTarget | src/session/browser.rs:84-90 | a page opened on target id under any URL prefix is keyed by the target id |
| SessionBrowser.SetupCalls | src/session/browser.rs:69-82 | Network.enable then the user-agent override, and only for a user agent that is given and not empty |
| SessionBrowser.CloseEach | src/session/browser.rs:134-136 | every drained page ends closed, whatever its close answers |
| SessionBrowser.BrowserContext.constructor | src/session/browser.rs:26-34 | a new browser is active with no pages |
| SessionBrowser.BrowserContext.CreatePage | src/session/browser.rs:48-105 | refused with BrowserNotFound and nothing changed once inactive; otherwise a target at the default URL (about:blank when none) and the setup calls, each failure passed on in that order with no page stored, and a new active page stored under its key exactly when every step succeeds |
| SessionBrowser.BrowserContext.GetPages | src/session/browser.rs:107-121 | the open pages, or BrowserNotFound once inactive |
| SessionBrowser.BrowserContext.Close | src/session/browser.rs:123-145 | always Ok: the page map drained, each drained page closed, the browser inactive |
| SessionBrowser.BrowserContext.IsActive | src/session/browser.rs:147-152 | the active flag, read as false when the lock is poisoned |
| SessionRegistry.FindPage | src/session/manager.rs:110-133 | a page with the id from the list when there is one, and none only when no page in the list has the id |
| SessionRegistry.SessionManager.constructor | src/session/manager.rs:23-31 | a new manager holds no browsers |
| SessionRegistry.SessionManager.CreateBrowser | src/session/manager.rs:48-66 | a factory failure stores nothing; otherwise the new active browser is stored under its id and nothing else changes |
| SessionRegistry.SessionManager.GetBrowser | src/session/manager.rs:68-75 | the stored browser iff the id is known, else BrowserNotFound |
| SessionRegistry.SessionManager.CloseBrowser | src/session/manager.rs:77-91 | Ok iff the id is known; the browser is closed (inactive, its pages drained and each one closed) and then removed, and every other browser and every page it did not hold is unchanged; an unknown id is BrowserNotFound and changes no browser and no page |
| SessionRegistry.SessionManager.ListBrowsers | src/session/manager.rs:93-99 | exactly the ids of the stored browsers |
| SessionRegistry.SessionManager.CreatePage | src/session/manager.rs:101-108 | BrowserNotFound for an unknown browser; otherwise the browser's own create_page: BrowserNotFound with nothing changed when it is inactive, else the target request recorded, the first failing step's error (target, client, Network.enable, user-agent override) with no page stored, and success exactly when every step succeeds, storing a fresh active page with the setup calls under the target id; every other browser is unchanged |
| SessionRegistry.SessionManager.GetPage | src/session/manager.rs:110-133 | found iff some active browser lists a page with the id, and then such a page; else PageNotFound |
| SessionRegistry.SessionManager.ClosePage | src/session/manager.rs:135-138 | Ok iff the page is listed; it is closed and stays listed, inactive, and no other page changes; on PageNotFound no page changes |
| SessionRegistry.SessionManager.Cleanup | src/session/manager.rs:140-170 | exactly the inactive browsers are removed and every active one stays |
| SessionRegistry.SessionManager.SessionCount | src/session/manager.rs:172-177 | the number of stored browsers |
| SessionElement.NodeCall | src/session/element.rs:38-42 | a DOM command names the node by its backend node id |
| SessionElement.CharEvent | src/session/element.rs:157-175 | each character is sent as an Input.dispatchKeyEvent of type char carrying that character |
| SessionElement.StringReply | src/session/element.rs:55-87 | the reply's string field, ScriptExecutionFailed when it has none, and a failed command's error passed on |
| SessionElement.GetText | src/session/element.rs:55-70 | success iff the reply is Ok and has a "text" string; its absence is "Failed to get element text" |
| SessionElement.GetHtml | src/session/element.rs:72-87 | success iff the reply is Ok and has an "outerHtml" string; its absence is "Failed to get element HTML" |
| SessionElement.PairLookupFirst | src/session/element.rs:89-114 | the pair lookup finds nothing iff no name position from the start matches, and otherwise gives the first match's value |
| SessionElement.ScanAttributes | src/session/element.rs:98-111 | the loop over even positions returns the pair lookup |
| SessionElement.GetAttribute | src/session/element.rs:89-114 | one DOM.getAttributes call; no array gives None; otherwise the first matching name's value; an error passes on |
| SessionElement.AttributeValue | src/session/element.rs:89-114 | a reply without an "attributes" array gives no value |
| SessionElement.OnlyNamePositions | src/session/element.rs:98-111 | a value equal to the name, or an odd trailing name, is never taken for a match |
| SessionElement.Enabled | src/session/element.rs:240-247 | enabled when there is no disabled attribute, and otherwise iff its value is neither empty nor "true" |
| SessionElement.IsEnabled | src/session/element.rs:240-247 | the disabled attribute read through get_attribute, its error passed on |
| SessionElement.IsVisible | src/session/element.rs:224-238 | always Ok, true iff DOM.getBoxModel succeeds |
| SessionElement.CharEvents | src/session/element.rs:162-172 | one key event per character, in order |
| SessionElement.TypeText | src/session/element.rs:157-175 | a failed focus stops everything; otherwise the key events up to and including the first failing one, whose error is the result |
| Interactor.CharCalls | src/services/element/interactor.rs:32-52 | one type_text call per character, in order |
| Interactor.TypedCharCalls | src/services/element/interactor.rs:32-52 | typing character by character enters exactly the text |
| Interactor.TypeText | src/services/element/interactor.rs:32-52 | the calls are the characters' calls up to and including the first failing one, whose error is the result; Ok when none fails |
| Interactor.Fill | src/services/element/interactor.rs:56-75 | with clear_first the value is read (a failed read ignored) and a present value is cleared after a focus whose failure stops fill; then the text is typed |
| Interactor.CollectedMembers | src/services/element/interactor.rs:86-101 | a pair is collected iff one of the names read has exactly that value present |
| Interactor.AttributeCalls | src/services/element/interactor.rs:86-101 | one get_attribute call per name, in order |
| Interactor.GetAttributes | src/services/element/interactor.rs:86-101 | present values kept with their names in order, absent ones skipped, and the first failure ends the call with its error |
| Interactor.TrimEmptyIffBlank | src/services/element/interactor.rs:105-131 | trimming leaves nothing exactly when the text is all white space |
| Interactor.GetText | src/services/element/interactor.rs:105-131 | the element's text; without hidden text, all-white text gives "" at once, and otherwise a hidden element gives "", while a visible element, or one whose visibility check fails, gives its text |
| Interactor.FindFirst | src/services/element/interactor.rs:144-154 | str::find for a character: none iff absent, else the first index holding it |
| Interactor.FindLast | src/services/element/interactor.rs:144-154 | str::rfind for a character: none iff absent, else the last index holding it |
| Interactor.StripOuterAsWritten | src/services/element/interactor.rs:144-154 | as written, the slice between the first '>' and the last '<' panics exactly when the last '<' comes before the first '>' |
| Interactor.VoidElementPanics | src/services/element/interactor.rs:144-154 | as written, every element serialised without a closing tag, such as a void element, makes the strip panic |
| Interactor.StripOuter | src/services/element/interactor.rs:144-154 | corrected: the strip as written wherever it does not panic, and empty inner HTML where it does |
| Interactor.StripWrapped | src/services/element/interactor.rs:144-154 | the strip gives back exactly the content between an opening tag and a closing tag |
| Interactor.GetHtml | src/services/element/interactor.rs:135-155 | one get_html call; the outer HTML when asked for, else the inner HTML as the corrected StripOuter computes it (empty for an element with no closing tag, where the code as written panics); an error passes on |
| Interactor.UploadFile | src/services/element/interactor.rs:206-245 | an empty path list and an empty path are refused with their messages; Ok iff the list is non-empty and holds no empty path; nothing is uploaded |
| Interactor.PropertyText | src/services/element/interactor.rs:282-315 | a property's report: its value, "" when absent, or "Error: " followed by the failure's text |
| Interactor.PropertyTextAmbiguous | src/services/element/interactor.rs:282-315 | a present value that reads like a failure report cannot be told from that failure |
| Interactor.GetProperties | src/services/element/interactor.rs:282-315 | one entry per requested name, in order, whatever the answers; it never fails |
| Interactor.Split | src/services/element/interactor.rs:319-372 | str::split on '+': at least one part and no part holds the separator |
| Interactor.SplitJoin | src/services/element/interactor.rs:319-372 | joining the parts of a split gives the string back |
| Interactor.JoinSplit | src/services/element/interactor.rs:319-372 | splitting the join of separator-free parts gives the parts back |
| Interactor.Modifiers | src/services/element/interactor.rs:319-372 | the modifier parts of a key combination are all parts but the last |
| Interactor.KeyOfCombination | src/services/element/interactor.rs:319-372 | a combination written out from modifiers and a main key reads back as that main key, each flag set iff some modifier names it |
| Interactor.ParseKey | src/services/element/interactor.rs:319-372 | the parsing loop computes the combination's reading |
| Interactor.PressKey | src/services/element/interactor.rs:319-372 | a failed focus stops the call; otherwise the combination is parsed and Ok is returned with no key dispatched |
| ElementService.ConvertSelectorType | src/services/element/service.rs:119-129 | codes 1, 2 and 3 give CSS, XPath and text and are the only ones accepted; any other code is "Invalid selector type: " with the code |
| ElementService.SelectorCodeRoundTrip | src/services/element/service.rs:119-129 | every selector type comes back from its code |
| ElementService.ScriptText | src/services/element/service.rs:132-140 | a string result as itself, a number and a boolean as display text, anything else as "" |
| ElementService.ScriptTextConflates | src/services/element/service.rs:132-140 | the rendering cannot tell a missing result from "", nor a boolean from its spelling |
| ElementService.PageLookupError | src/services/element/service.rs:108-116 | a PageNotFound is restated with the requested id; any other error passes unchanged |
| ElementService.SimpleOp | src/services/element/service.rs:66-88 | success iff the operation succeeded; a failure is an ElementNotFound error with the error's text |
| ElementService.SimpleOpKeepsCause | src/services/element/service.rs:66-88 | the reply code says nothing of the cause, but the message still reads back as the cause's kind and detail |
| ElementService.PairAttributes | src/services/element/service.rs:405-419 | the flat list read as consecutive name-value pairs, an odd trailing entry dropped |
| ElementService.PairFlatten | src/services/element/service.rs:405-419 | pairing undoes flattening |
| ElementService.FlattenPair | src/services/element/service.rs:405-419 | flattening the pairs gives the flat list back, short of an odd trailing entry |
| ElementService.AttributesReply | src/services/element/service.rs:365-428 | a failed script is an ElementNotFound reply; otherwise the text read as a string list (nothing if it does not read) and paired |
| ElementService.FindLimit | src/services/element/service.rs:226 | the limit is passed on iff it is positive |
| ElementService.NumberRefs | src/services/element/service.rs:215-261 | references numbered 0 to n - 1 in order, each carrying the request's page, selector code and selector |
| ElementService.FindElements | src/services/element/service.rs:215-261 | a failed page lookup is its status (PageNotFound restated with the requested id), checked before the selector code; then an unknown selector code is the conversion error's status; a failed script, a non-string answer or unparsable text is an ElementNotFound reply carrying the finder error's display text; otherwise the parsed elements, cut to a positive limit, numbered 0..n-1 in order under the request's page, selector code and selector |
| ElementService.WaitTimeout | src/services/element/service.rs:844 | the requested timeout when positive, else 30000 ms: never zero |
| ElementService.SelectOptionValue | src/services/element/service.rs:569-596 | refused iff no value is given; otherwise only the first value is used |
| ElementService.PressKeyReply | src/services/element/service.rs:968-1010 | an empty key is refused first; then a failed focus script ends the call; only then does the key script run |
| ElementService.UploadReply | src/services/element/service.rs:599-656 | refused when no path is given; otherwise Ok iff the element is found, with nothing uploaded |
| ElementService.BoolField | src/services/element/service.rs:776 | a field's value iff it is present and a boolean |
| ElementService.VisibilityReply | src/services/element/service.rs:733-780 | text that is not JSON, or a missing or non-boolean "visible" field, counts as not visible |
| ElementService.EnabledReply | src/services/element/service.rs:783-830 | text that is not JSON counts as not enabled, but a missing or non-boolean "enabled" field counts as enabled |
| ElementService.MissingFieldDefaults | src/services/element/service.rs:776-826 | the two readings default in opposite directions on an answer without its field |
| ElementService.PropertiesReply | src/services/element/service.rs:936-957 | every field of a JSON object with its string value or ""; anything else gives no properties |
| ElementService.PropertiesCall | src/services/element/service.rs:874-965 | refused when no name is given; a failed script is an ElementNotFound reply |
| PageResponse.ErrorToProto | src/services/page/response.rs:15-30 | the message is the error's display text and there are no details |
| PageResponse.ErrorToProtoCodes | src/services/page/response.rs:15-30 | PageNotFound, Timeout, NavigationFailed, ScriptExecutionFailed and Configuration get PageClosed, Timeout, NavigationFailed, EvaluationFailed and InvalidArgument, each iff; every other variant is Internal |
| PageResponse.ErrorToStatus | src/services/page/response.rs:33-45 | the status carries the error's display text |
| PageResponse.ErrorToStatusCodes | src/services/page/response.rs:33-45 | NotFound iff PageNotFound, DeadlineExceeded iff Timeout, Aborted iff NavigationFailed, InvalidArgument iff Configuration, else Internal |
| PageResponse.StatusTablesDisagree | src/services/page/response.rs:33-45 | this table and the crate-wide conversion agree on every variant except SessionNotFound, BrowserNotFound and ScriptExecutionFailed |
| PageResponse.SuccessEmpty | src/services/page/response.rs:52-60 | the placeholder always answers Unimplemented |
| PageResponse.FromError | src/services/page/response.rs:76-82 | the error travels converted inside a successful reply |
| PageResponse.ToResponse | src/services/page/response.rs:114-131 | every outcome becomes a successful reply; a missing page is PageClosed with the page-not-found text |
| PageConversions.NonNegative | src/services/page/conversions.rs:27-40 | max(0): a non-negative value kept, a negative one raised to 0 |
| PageConversions.ToNavigationOptions | src/services/page/conversions.rs:27-40 | a negative timeout becomes 0, and Load is chosen iff the state is Load or unspecified |
| PageConversions.NavigationRoundTrip | src/services/page/conversions.rs:27-40 | navigation options whose timeout fits the protocol come back from it, and the other load states are told apart |
| PageConversions.LowByte | src/services/page/conversions.rs:43-66 | the u8 cast keeps a quality below 256 |
| PageConversions.ToScreenshotOptions | src/services/page/conversions.rs:43-66 | PNG iff PNG or unspecified; a quality iff positive, as its low byte; a clip gets scale 1; full page copied |
| PageConversions.ScreenshotRoundTrip | src/services/page/conversions.rs:43-66 | options whose quality is not 0 and whose clip has scale 1 come back from the protocol |
| PageConversions.QualityWraps | src/services/page/conversions.rs:43-66 | quality 256 asks for 0 and 300 for 44 |
| PageConversions.FromSession | src/services/page/conversions.rs:143-151 | each session result variant becomes the same-named one, inverse to the reverse translation |
| PageConversions.SessionRoundTrip | src/services/page/conversions.rs:143-151 | the translation loses nothing |
| PageConversions.EvaluationToProto | src/services/page/conversions.rs:86-140 | each variant tagged with its JavaScript type name and an empty class name; an object travels as its JSON text |
| PageConversions.EvaluationProtoRoundTrip | src/services/page/conversions.rs:86-140 | any reader that undoes the JSON printing recovers every result from its message |
| PageConversions.TypeNamesDistinct | src/services/page/conversions.rs:86-140 | two results share a type name iff they are the same variant |
| PageConversions.ScreenshotToProto | src/services/page/conversions.rs:154-165 | the data unchanged, the format named so that it reads back, and a fixed 1920×1080 size |
| PageConversions.NavigationToProto | src/services/page/conversions.rs:168-178 | the URL, status code and loaded flag copied |
| PageConversions.NavigationToProtoInjective | src/services/page/conversions.rs:168-178 | different navigation results give different messages |
| PageConversions.RepliesAgree | src/services/page/response.rs:15-45 | the status style and the in-reply style fail on the same outcomes, with the same message |
| PageConversions.Screenshot | src/services/page/service.rs:428-463 | a failed lookup or capture passes on; otherwise the capture of the converted format, always labelled PNG at 1920×1080 |
| PageConversions.ScreenshotReplyMislabels | src/services/page/service.rs:428-463 | a JPEG capture is labelled PNG, where screenshot_to_proto would name it correctly |
| Emulation.FromDeviceType | src/services/page/handlers/emulation.rs:33-108 | device types 1 to 7 name the presets in table order, and no other type names one |
| Emulation.DeviceTypeRoundTrip | src/services/page/handlers/emulation.rs:97-108 | every device type comes back from its preset's name |
| Emulation.DesktopAlone | src/services/page/handlers/emulation.rs:33-94 | Desktop is the only preset that is not mobile and the only one without a user agent |
| Emulation.Choose | src/services/page/handlers/emulation.rs:121-166 | a known type gives its preset; an unknown type or no device gives the desktop size without an agent; a viewport has negative sizes raised to 0 and no agent |
| Emulation.InlineTableAgrees | src/services/page/service.rs:753-831 | the inline copy of the preset table makes the same choice for every request |
| Emulation.EmulationCalls | src/services/page/handlers/emulation.rs:121-166 | the override with the page's own mobile flag first, then the agent script iff the viewport was set and an agent was chosen |
| Emulation.EmulateDevice | src/services/page/handlers/emulation.rs:121-166 | a failed lookup passes on; an inactive page is PageNotFound with nothing sent; otherwise Ok iff the viewport reply is, with exactly those calls |
| Emulation.SetViewport | src/services/page/handlers/emulation.rs:169-190 | a failed lookup passes on; otherwise one override of the requested size, negative sizes raised to 0, a missing viewport read as zeros |
| Emulation.PresetMobileDropped | src/services/page/handlers/emulation.rs:121-166 | emulating a phone on a desktop page sends mobile false |
| Cookies.AsI64 | src/services/page/handlers/cookies.rs:45-46 | as_i64: a value iff the JSON is a whole number within the i64 range, and then that number |
| Cookies.CookieRoundTrip | src/services/page/handlers/cookies.rs:40-51 | every cookie is read back from the entry that reports it |
| Cookies.CookieDefaults | src/services/page/handlers/cookies.rs:40-51 | an empty entry, or one with wrongly typed fields, gives the default cookie with same_site "Lax" |
| Cookies.SizeWrapsAndFractionDefaults | src/services/page/handlers/cookies.rs:45-46 | a size of 2^31 wraps to a negative i32, and a fractional expiry reads as 0 |
| Cookies.ObjectCookiesAppend | src/services/page/handlers/cookies.rs:39-52 | the reading of entries splits over a concatenation |
| Cookies.NonObjectDropped | src/services/page/handlers/cookies.rs:39-52 | an entry that is not an object is dropped wherever it stands |
| Cookies.EntriesRoundTrip | src/services/page/handlers/cookies.rs:39-52 | every list of cookies is read back from the array reporting it |
| Cookies.CookiesFrom | src/services/page/handlers/cookies.rs:36-67 | an object result holding an array gives its object entries' cookies; any other result gives none |
| Cookies.GetCookies | src/services/page/handlers/cookies.rs:31-73 | a failed lookup or evaluation passes on; otherwise the result read as cookies |
| Cookies.CookieCalls | src/services/page/handlers/cookies.rs:82-94 | one assignment per cookie, in order |
| Cookies.SetCookies | src/services/page/handlers/cookies.rs:76-102 | a failed lookup passes on; cookies are assigned in order up to and including the first failure, whose error is the result; Ok when none fails |
| Cookies.AssignEach | src/services/page/handlers/cookies.rs:82-98 | the loop on the found page: the calls sent and the outcome as SetCookies states them |
| Cookies.AssignActive | src/services/page/handlers/cookies.rs:82-98 | on an active page, the first k assignments and one more when assignment k fails, with that failure as the result |
| Cookies.AssignOne | src/services/page/handlers/cookies.rs:83-93 | one cookie's assignment script evaluated on the page; refused with nothing sent once the page is inactive |
| BrowserService.ErrorToProto | src/services/browser/service.rs:54-67 | the message is the error's display text and there are no details |
| BrowserService.ErrorToProtoCodes | src/services/browser/service.rs:54-67 | NotFound iff BrowserNotFound, InvalidArgument iff Configuration, Timeout iff Timeout, else Internal |
| BrowserService.ServicesDisagree | src/services/browser/service.rs:54-67 | the browser and page tables agree except on BrowserNotFound, PageNotFound, NavigationFailed and ScriptExecutionFailed |
| BrowserService.ToBrowserOptions | src/services/browser/service.rs:70-82 | negative window sizes raised to 0, empty texts read as absent, headless and args copied, the DevTools endpoint taken from the environment |
| BrowserService.OptionsRoundTrip | src/services/browser/service.rs:70-82 | options whose sizes fit an i32 and whose present texts are not empty come back from their request |
| BrowserService.RequestRoundTrip | src/services/browser/service.rs:70-82 | a request with no negative size comes back from its options; a negative width or height comes back as 0 |
| BrowserService.StatusToProto | src/services/browser/service.rs:120-129 | the running flag copied, a page count that fits kept, and the id, memory and active pages left empty |
| BrowserService.UptimeWholeSeconds | src/services/browser/service.rs:120-129 | the reported uptime is the whole seconds elapsed |
| BrowserService.PageCountWraps | src/services/browser/service.rs:120-129 | a page count of 2^31 is reported as a negative count and 2^32 as 0 |
| BrowserService.ConnectTo | src/services/browser/service.rs:280-288 | every request is answered with an Internal error saying connect is not implemented |
| Fingerprints.RandomWebGlVendor | src/stealth/fingerprint.rs:109-111 | the drawn WebGL vendor is one of the table's vendors, whatever the random number |
| Fingerprints.RandomWebGlRenderer | src/stealth/fingerprint.rs:114-116 | the drawn WebGL renderer is one of the table's renderers, whatever the random number |
| Fingerprints.RandomLocale | src/stealth/fingerprint.rs:182-186 | the drawn locale is one of the seven listed locales, whatever the random number |
| EventDispatch.EventDispatcher.constructor | src/services/event/dispatcher.rs:177-185 | a new dispatcher has no subscriptions and no live receiver |
| ProfileStore.ProfileManager.constructor | src/services/profile/manager.rs:25-30 | a new store holds no profiles |
| ScriptInjection.ScriptInjector.constructor | src/stealth/injector.rs:24-29 | a new injector tracks no scripts |
| Stealth.StealthEngine.constructor | src/stealth/engine.rs:27-36 | a new engine tracks no applied features, and injects for each feature the override script its inject method builds, with the corrected availHeight in the screen script |
| Connection.CdpWebSocketConnection.constructor | src/cdp/connection.rs:117-136 | a new connection is disconnected and inactive, with nothing pending, no subscribers and ids from 1 |

## Left out

- Text.Lower: lower-cases ASCII letters only, where Rust's to_lowercase and JavaScript's toLowerCase cover Unicode. The results agree on every text the model lower-cases. The preset names are fixed ASCII text. The CDP method names and key-modifier names are only compared with ASCII words, and no non-ASCII character lower-cases to text that completes one of those words.
- Sleeps, waits and timeouts measured on a clock are left out: the fixed pauses of the crawler, the delays between keystrokes, and the load waits after a navigation. Where a clock decides an outcome (the CDP response timeout, the wait for an element), the clock readings are inputs.
- Networking, the WebSocket, gRPC streaming and the `tokio` locks are left out. Each operation runs as one sequential step. A poisoned or contended lock is an input flag where the source reads it (`is_active`).
- Random numbers and UUIDs are explicit inputs: the fingerprint draws, the profile, subscription, page and browser ids, and the script ids.
- Floating point is left out. JSON numbers, device scale factors and viewport scales are `real`, and the decimal display of a float is a parameter wherever the source prints one.
- Parsing and printing JSON text are parameters or left out. The model works on JSON values. The protocol's numeric enum values come from a protocol definition that is not part of this model, so protocol enums are kept by name, except where the source itself fixes the numbers (event types, selector types, device types, profile types).
- Script texts whose content the server never inspects are parameters or left out. This covers the stealth override scripts and the cookie-reading script. It also covers the builders in src/services/element/js_utils.rs that take no caller string and no choice: click_script, focus_script, hover_script, get_text_script, get_bounding_box_script, is_visible_script and is_enabled_script. Each passes fixed code to execute_on_element, which is modelled.
- `Config::from_file` reads a file, and is left out.
- `message_loop`, `message_loop_with_arcs`, `send_message` and the `*_with_arcs` handlers in src/cdp/connection.rs are the socket plumbing, and are left out. The handlers they call are modelled, and `SendCommand` calls them when the response arrives.
- The element interactor's click, get_attribute, hover, focus, select_option, scroll_into_view, get_bounding_box, is_visible, is_enabled, drag_and_drop and clear_value are left out. Each only hands a built script or a single call to the element or page.
- The element service's find_element, get_attribute, get_text, get_html, get_bounding_box, drag_and_drop and verify_element_exists handlers are left out beyond the shared pieces modelled in `ElementService`: the selector code, the page lookup, the simple-operation reply, the script rendering and the timeout default.
- In src/services/page/service.rs, only these are modelled: the private conversion helpers (identical to those in conversions.rs and response.rs), the screenshot reply, the emulate_device table and the cookie handling. The other page handlers are not part of this model.
- clear_cookies (handler and service copy) is not modelled: one script evaluated on the page, with its error passed on.
- set_geolocation and bring_to_front of src/services/page/handlers/emulation.rs are left out, as single CDP calls.
- browser_info_to_proto, page_info_to_proto and browser_version_to_proto of src/services/browser/service.rs, and page_info_to_proto of src/services/page/conversions.rs, are left out. They are field-by-field copies.
- In src/cdp/client.rs, set_content, reload and get_cdp_client are left out. Each is a single call whose reply is dropped or passed on.
- The event dispatcher's bounded broadcast buffer is not modelled. Each event reaches every receiver before the next is published, so a receiver never lags, and the `Lagged` error at src/services/event/dispatcher.rs:89-94 never arises. The capacity the dispatcher is created with is recorded but bounds nothing in the model.
- src/session/element.rs: click, hover, focus, scroll_into_view and get_bounding_box are left out. focus and scroll_into_view each send one DOM command and pass its error on. click and hover scroll the element into view, read its bounding box and send mouse events at its centre, which is computed in floating point, as is the box itself. get_bounding_box also reads entries 0, 1, 4 and 5 of the content quad without checking its length. The operations of this file that read a string, an attribute or a flag from a reply are modelled in `SessionElement`.
- The dispatcher accessors is_at_capacity, capacity, len and is_empty are left out: they are plain reads of the channel.
- error_to_status of src/services/profile/service.rs is dead code (never called) and is left out.
- The profile service's create_profile and get_presets delegate unchanged to the profile store, which is modelled.
- ParseDisplayOfDisplay: for a gRPC error, the text after "gRPC error: " is tonic's display of the status (code, message, details and metadata). That format is not modelled: the error carries the text as given, so the lemma recovers that text and not the status's fields.
- Cookies.AsI64: a whole JSON number stored as a float (such as `3.0`) reads as 3 here. serde_json's `as_i64` gives None for any number parsed as a float. The model keeps JSON numbers as reals and cannot tell `3` from `3.0`.
- Stealth.AvailHeightAsWritten: the u32 subtraction `height - 40` is modelled as it runs in a release build, wrapping modulo 2^32. A debug build panics instead.
- Stealth.StealthEngine.constructor: the screen script the engine injects uses the corrected `AvailHeight` (0 below 40 pixels), not the as-written u32 `height - 40` of src/stealth/engine.rs:146-152. For screens of 40 pixels or more the two agree; for a shorter screen the source's script reports the wrapped value (or the build panics), which the model records only in `AvailHeightAsWritten` and `ShortScreenWraps`.
- ElementService.ScriptText: the text of a number is a parameter, as Rust's float `to_string` is not modelled.
- The unbounded polling of `wait_for_element` is bounded by the finite sequence of page answers given as input. A page that answers ElementNotFound forever ends with the Timeout, once the clock inputs pass the deadline.

## Findings

| source | as written | input that shows it | evidently intended | confidence | as-written member | corrected member |
|---|---|---|---|---|---|---|
| examples/google_search_with_proxy/google_search.go:341-343 | the cap slices `allResults[:maxResults]` whenever the length exceeds maxResults | maxResults = -1: no page is crawled, and `0 > -1` leads to slicing with bound -1, which panics | return no results for a negative maximum, as the Python client does | not executed; high | SearchClient.GoCapAsWritten, SearchCrawl.GoCapPanicsOnNegativeMax | SearchClient.GoCap |
| src/services/element/finder.rs:122-123, 166-167, 210-211 | the CSS script escapes only `'`; the XPath and text scripts escape `\` and `"` but embed the selector between single quotes | CSS selector `\` (one backslash): the literal swallows its closing quote; XPath `//a[@title='x']`: the first `'` ends the literal and the rest runs as script | each selector reads back as itself inside its literal | not executed; high | ElementFinder.CssBackslashNotCarried, ElementFinder.XPathQuoteNotCarried | ElementFinder.SelectorScript |
| src/services/element/finder.rs:26-50, 90-119 | find_element reports a null answer (no element) as Internal "Invalid element result", but wait_for_element only retries ElementNotFound | an element that appears on the second poll, within the timeout: the first poll's null answer ends the wait at once with the Internal error | a missing element is ElementNotFound, so the wait polls until the element appears or the timeout passes | not executed; high | ElementFinder.FindElementAsWritten, ElementFinder.WaitAsWrittenGivesUp, ElementFinder.ElementAppearsLate | ElementFinder.FindElement, ElementFinder.WaitPollsMissingElement |
| src/stealth/fingerprint.rs:378-379 | randomize raises the varied width to at least 1024 and the height to at least 768 | an Android fingerprint 360 pixels wide: every randomisation reports a 1024-wide screen | vary each dimension by at most 5 pixels, keeping a mobile screen mobile | not executed; medium | Fingerprints.RandomizeAsWritten, Fingerprints.JitterAsWritten, Fingerprints.MobileWidthClamped | Fingerprints.Randomize, Fingerprints.Jitter |
| src/stealth/engine.rs:146-152 | availHeight is the u32 `height - 40` | a screen 30 pixels high: the subtraction underflows, panicking in a debug build and reporting 4294967286 in a release build | an available height that never exceeds the height (0 for screens under 40 pixels) | not executed; medium | Stealth.AvailHeightAsWritten, Stealth.ShortScreenWraps | Stealth.AvailHeight |
| src/services/element/interactor.rs:144-154 | the inner HTML is `html[first '>' + 1 .. last '<']` | `<br>`: the first `>` is at 3 and the last `<` at 0, so the range 4..0 panics | an element with no closing tag has empty inner HTML | not executed; high | Interactor.StripOuterAsWritten, Interactor.VoidElementPanics | Interactor.StripOuter, Interactor.StripWrapped |
