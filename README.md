# shush, modelled in Dafny

shush is a command-line tool that silences, clears and lists silences on a Sensu
monitoring server. The user names the targets in one of three ways:

- AWS instance ids, which are resolved to Sensu client names through the `/clients`
  listing;
- Sensu client ids;
- subscriptions.

The user can also name checks and an expiry such as `1d10m1s`, `none` or the
default `2h`. shush then POSTs one silence per (target, check) pair to `/silenced`,
or one clear per pair to `/silenced/clear`. The API base URL comes from an INI
file whose `api` value may contain `${VAR}` references to environment variables.

This project models the current client and the parts it is built from. Each Rust
file has its own module:

| Module | Rust file | What it holds |
|---|---|---|
| `Common` | — | shared decimal, split and join helpers |
| `Json` | `src/json.rs` | dotted-path lookups |
| `Resources` | `src/resources.rs` | resource lists, their display and their iterator |
| `Expiry` | `src/sensu/expire.rs` | the expiry and its display |
| `Resource` | `src/sensu/resource.rs` | a client or subscription, its display, borrow and hash |
| `Endpoint` | `src/sensu/endpoint.rs` | the endpoint paths |
| `Payload` | `src/sensu/payload.rs` | the JSON body of a silence or clear |
| `Opts` | `src/opts.rs` | expiry parsing and flag dispatch |
| `Config` | `src/config.rs` | variable substitution and the configuration |
| `SensuApi` | `src/sensu/client.rs` | the client |

It also models the two older clients that are still in the repository:

| Module | Rust file |
|---|---|
| `LegacySensu` | `src/sensu.rs` |
| `LegacySensuClient` | `src/sensu_client.rs` |

The HTTP exchange is an oracle, `Server = (seq<Request>, Request) -> Response`. It
gives the response to a request after a given history of requests. So a client
object holds that server and the log of requests it has sent. Each operation that
talks to the server is a method of the class (`SensuApi.SensuClient`,
`LegacySensu.LegacyClient`). The method is proved equal to a specification
function that returns the result together with the new log. The properties are
then lemmas about those functions, for every server.

## Model

| member | source | states |
|---|---|---|
| Common.NatToString | src/sensu/expire.rs:17-18 | the decimal text of a number (`{}` of a usize) is non-empty, all digits, has no leading zero and reads back as the number |
| Common.DigitRunOfNumber | src/sensu/expire.rs:17-18 | the digit run at the head of a number's text followed by non-digit text is exactly that number's text |
| Common.NumberThenText | src/sensu/expire.rs:17-18 | a number's text followed by non-digit text determines both the number and the text |
| Common.Split | src/opts.rs:213-215 | splitting on a separator gives at least one part and no part contains the separator |
| Common.JoinSplit | src/opts.rs:213-215 | joining the parts of a split with the separator gives back the original string |
| Common.SplitJoin | src/json.rs:10-14 | splitting a join of separator-free parts (at least one) gives back the parts |
| Common.SubsequenceElements | src/sensu/client.rs:188-195 | every element of a subsequence is an element of the sequence it was filtered from |
| Json.GetFoldAsStr | src/json.rs:21-29 | the result is present exactly when the dotted lookup finds a string, and is that string |
| Json.GetFoldAsBool | src/json.rs:36-44 | the result is present exactly when the dotted lookup finds a boolean, and is that boolean |
| Json.GetFoldAsI64 | src/json.rs:51-59 | the result is present exactly when the lookup finds an integer within the signed 64-bit range, and is that integer |
| Json.GetFoldAsStrDef | src/json.rs:16-19 | the default when the typed lookup is missing, the found string otherwise |
| Json.GetFoldAsBoolDef | src/json.rs:31-34 | the default when the typed lookup is missing, the found boolean otherwise |
| Json.GetFoldAsI64Def | src/json.rs:46-49 | the default when the typed lookup is missing, the found integer otherwise |
| Json.GetAsVec | src/json.rs:61-68 | present exactly for an array, and then its elements in order |
| Json.GetPathAppend | src/json.rs:10-14 | following `p + q` is following `p`, then `q` from where `p` ended; a miss stays a miss |
| Json.MissingSegment | src/json.rs:11-13 | once a segment is missing, any longer path is missing too |
| Json.DottedKey | src/json.rs:10-14 | a key made by joining dot-free segments with "." looks up exactly those segments in order |
| Json.PlainKey | src/json.rs:10-14 | a key without a dot is a single member lookup |
| Json.FoldExampleNested | src/json.rs:77-86 | "this.is.not.a" finds "test" in the test document |
| Json.FoldExampleLeaf | src/json.rs:77-87 | "this.is.a" finds "tested thing" in the test document |
| Json.FoldExampleMissing | src/json.rs:88-103 | "this.is.could.be.a" is missing, and the string lookup with default "success" gives "success" |
| Resources.Display | src/resources.rs:31-44 | fails exactly on an empty list; on success the text starts with the prefix for the resource type |
| Resources.JoinInjective | src/resources.rs:38-39 | joining with ", " is injective on non-empty lists of comma-free names |
| Resources.DisplayInjective | src/resources.rs:31-44 | two lists with equal successful display text and comma-free names are the same list of the same type |
| Resources.ShushResourceIterator.constructor | src/resources.rs:26-28 | the iterator starts with nothing yielded and every resource still to come, in order |
| Resources.ShushResourceIterator.Next | src/resources.rs:51-53 | yields the next resource in order and removes it from those still to come; `None` and no change once exhausted |
| Expiry.Display | src/sensu/expire.rs:12-21 | a timed expiry reads "expire in …"; no expiry starts with "n" |
| Expiry.DisplayInjective | src/sensu/expire.rs:12-21 | different expiries display differently (the four phrasings and the seconds are recoverable) |
| Expiry.TimedDisplayInjective | src/sensu/expire.rs:17-18 | two timed expiries with the same text have the same seconds and the same expire-on-resolve flag |
| Resource.Display | src/sensu/resource.rs:12-19 | a client displays as "client:" + name; a subscription displays as its name; the text always ends with the borrowed name |
| Resource.HashAgreesWithBorrow | src/sensu/resource.rs:21-36 | resources that borrow the same string hash the same, as the `Borrow`/`Hash` contract requires |
| Resource.KindNotInBorrow | src/sensu/resource.rs:21-36 | a client and a subscription of the same name are different values but borrow and hash alike |
| Resource.DisplayCollision | src/sensu/resource.rs:15-16 | client `s` and subscription `"client:" + s` display identically |
| Resource.DisplayInjectiveWithinKind | src/sensu/resource.rs:15-16 | two resources of the same kind with equal display are equal |
| Endpoint.Path | src/sensu/endpoint.rs:23-32 | every path is absolute; a single client's path is "/clients/" + its name |
| Endpoint.PathInjective | src/sensu/endpoint.rs:24-31 | different endpoints have different paths |
| Payload.IntoMap | src/sensu/payload.rs:19-50 | creator is always present (USER or "shush"); subscription, check and expire appear exactly when given; expire_on_resolve exactly when the flag is set; no other keys |
| Opts.ParseUsize | src/opts.rs:43 | a digit run below 2^64 parses to its decimal value; a larger one gives 0 (`unwrap_or(0)`) |
| Opts.GetExpiration | src/opts.rs:34-55 | the result keeps the expire-on-resolve flag; "none" gives no expiration, anything else the summed seconds |
| Opts.TotalSecondsAppend | src/opts.rs:42-53 | the fold's sum over two runs of captures is the sum of the two |
| Opts.CapturesAppend | src/opts.rs:38-42 | splitting the input after a non-digit splits the regex matches the same way |
| Opts.CapturesWellFormed | src/opts.rs:38 | every match has a non-empty all-digit number and, when present, a unit among d, h, m and s |
| Opts.SecondsAppend | src/opts.rs:42-53 | the seconds of a concatenation split after a non-digit are the sum of the parts' seconds |
| Opts.NoDigitsNoSeconds | src/opts.rs:42-53 | input without digits has no matches and gives zero seconds |
| Opts.UnitGroup | src/opts.rs:45-49 | a number followed by a unit adds the number times that unit's multiplier |
| Opts.BareGroup | src/opts.rs:50 | a number without a unit adds the number itself |
| Opts.NumberWithUnit | src/opts.rs:45-49 | `<n><unit>` gives n times 86400, 3600, 60 or 1 |
| Opts.OversizedNumber | src/opts.rs:43 | a number too large for usize counts as zero |
| Opts.OneSecond | src/opts.rs:49 | "1s" is 1 second |
| Opts.TenMinutesOneSecond | src/opts.rs:42-53 | "10m1s" is 601 seconds |
| Opts.OneDayTenMinutesOneSecond | src/opts.rs:42-53 | "1d10m1s" is 87001 seconds |
| Opts.ColonOne | src/opts.rs:50 | ":1" is 1 second (the colon is skipped) |
| Opts.ColonTenColonOne | src/opts.rs:50 | ":10:1" is 11 seconds |
| Opts.ClockLikeInput | src/opts.rs:50 | "10:10:1" is 21 seconds; no clock format is parsed |
| Opts.UnknownUnit | src/opts.rs:38-50 | "200b" is 200 seconds: "b" is not a unit, so the number counts as seconds |
| Opts.EmptyDuration | src/opts.rs:42-54 | an empty expiry gives a timed expiry of 0 seconds |
| Opts.TwoHours | src/opts.rs:144-148 | the default "2h" is 7200 seconds |
| Opts.GetMatchAsVec | src/opts.rs:213-215 | present exactly when the flag is, then a non-empty list of comma-free parts |
| Opts.ActionPriority | src/opts.rs:162-205 | remove wins over list, and silence is the default action |
| Opts.ResourcePriority | src/opts.rs:162-205 | the first of nodes, ids and subscriptions that is present gives the resource type and the comma-split names; a listing keeps that flag's raw value and the raw checks value |
| Opts.ChecksFromFlag | src/opts.rs:132-133 | the checks of a silence or clear are present and join back with "," to the checks flag's value |
| Opts.DefaultSilence | src/opts.rs:144-148 | without an expire flag a silence expires in 7200 seconds |
| Opts.NoneMeansNoExpiration | src/opts.rs:34-37 | "none" gives no expiration, keeping the expire-on-resolve flag |
| Config.IndexOf | src/config.rs:37-39 | the result is the first occurrence of the pattern; nothing means no occurrence |
| Config.GetEnvVar | src/config.rs:36-53 | on success the rest of the input is a proper suffix of it |
| Config.SubOrRest | src/config.rs:55-63 | input without "${" is consumed whole and unchanged; any other success consumes something |
| Config.SubstituteVars | src/config.rs:65-73 | the loop's result is the substitution of the whole input |
| Config.StepOnSegment | src/config.rs:36-53 | one step over `lit${name}rest` gives `lit` + the variable's value, or fails on a missing variable |
| Config.SubstitutionRenders | src/config.rs:65-73 | substituting a well-formed printed template renders each reference from the environment, in order |
| Config.NoReferenceUnchanged | src/config.rs:55-63 | text without "${" is returned unchanged |
| Config.MissingVariable | src/config.rs:41-46 | a reference to an unset variable fails naming it |
| Config.Unterminated | src/config.rs:39 | "${" without a closing brace fails as incomplete |
| Config.TwoReferences | src/config.rs:65-73 | two references are both replaced, the text between them kept |
| Config.HostAndPathExample | src/config.rs:135-136 | "https://${EXAMPLE_HOST}/${ARG}" becomes "https://something.host.net/path" |
| Config.NotPresentExample | src/config.rs:143-147 | a reference to NOT_PRESENT fails |
| Config.ApiOnlyRetains | src/config.rs:88-92 | only the "api" key is kept, present exactly when some property has it, with the value of the last one |
| Config.ShushConfig.constructor | src/config.rs:81-95 | the stored entries are the "api" properties of the loaded file |
| Config.ShushConfig.Get | src/config.rs:115-124 | a missing key gives nothing; a present one gives its substituted value or the substitution error |
| SensuApi.EntryOf | src/sensu/client.rs:84-99 | an item gives a (instance id, name) pair exactly when it is an object with string "instance_id" and "name" members |
| SensuApi.ClientMapEntries | src/sensu/client.rs:79-104 | an instance id is in the client map exactly when some item carries it, mapped to the name of the last such item |
| SensuApi.ClientKept | src/sensu/client.rs:142-149 | a client is rejected exactly when its lookup answers 404 |
| SensuApi.ValidateClientsShape | src/sensu/client.rs:130-137 | one GET /clients/<name> per name, in order; the survivors are a subsequence of the requested clients |
| SensuApi.NoNotFoundKeepsAll | src/sensu/client.rs:130-137 | when no lookup answers 404 every client is kept, in order |
| SensuApi.AllNotFoundKeepsNone | src/sensu/client.rs:130-137 | when every lookup answers 404 no client is kept |
| SensuApi.ResolveNodesIsDrainThenValidate | src/sensu/client.rs:111-125 | resolving instance ids is draining them through the client map and then validating the names found |
| SensuApi.DrainSnoc | src/sensu/client.rs:112 | appending an id adds its client only when it is mapped and was not already drained (`remove`) |
| SensuApi.StringsOf | src/sensu/client.rs:175-176 | exactly the string elements of an array |
| SensuApi.SubscriptionsOf | src/sensu/client.rs:172-179 | exactly the strings in an object's "subscriptions" array |
| SensuApi.KnownSubscriptionsUnion | src/sensu/client.rs:170-182 | a subscription is known exactly when some listed client declares it |
| SensuApi.KeepKnownSpec | src/sensu/client.rs:188-195 | the kept subscriptions are a subsequence holding exactly those whose name is known, every copy of a repeated known one kept and none of an unknown one |
| SensuApi.SubscriptionsFailOpen | src/sensu/client.rs:157-168 | when the listing fails or is not an array, every subscription is kept unvalidated |
| SensuApi.SubscriptionsFiltered | src/sensu/client.rs:151-196 | with an array listing, a subscription survives exactly when some client declares it, with all its copies, order kept |
| SensuApi.ValidateClientsOnlyGets | src/sensu/client.rs:142-149 | client validation extends the log with GETs only |
| SensuApi.ResolveOnlyGets | src/sensu/client.rs:106-140 | resolution first GETs the client listing and then sends only GETs |
| SensuApi.ListingFailureStopsResolution | src/sensu/client.rs:109 | a failed listing ends resolution with that error after one request |
| SensuApi.ProductLength | src/sensu/client.rs:207 | the cartesian product has one payload per (resource, check) pair |
| SensuApi.ProductShape | src/sensu/client.rs:207-212 | the payload at index i times the number of checks plus j addresses resource i and check j, in `iproduct!` order |
| SensuApi.ProductExpiry | src/sensu/client.rs:207-212 | every payload of the product carries the given expiry |
| SensuApi.Plan | src/sensu/client.rs:206-244 | there is nothing to send exactly when neither resources nor checks were given |
| SensuApi.PlanExpiry | src/sensu/client.rs:206-239 | every planned payload carries the given expiry |
| SensuApi.PostAllSucceeds | src/sensu/client.rs:207-217 | when every POST succeeds, all payloads are posted in order and the result is success |
| SensuApi.PostAllStopsAtFirstFailure | src/sensu/client.rs:213-216 | the first failing POST stops the batch with its error; nothing after it is sent |
| SensuApi.PostAllPrefix | src/sensu/client.rs:207-239 | the POSTs sent are always a prefix of the planned ones |
| SensuApi.BatchPostsOnlyTo | src/sensu/client.rs:198-246 | every POST of a batch goes to its endpoint with its expiry; everything else sent is a GET |
| SensuApi.ClearPostsOnlyToClear | src/sensu/client.rs:248-295 | every POST of a clear goes to /silenced/clear and carries no expiry |
| SensuApi.SilencePostsOnlyToSilenced | src/sensu/client.rs:198-246 | every POST of a silence goes to /silenced and carries the requested expiry |
| SensuApi.NoTargetsSendsNothing | src/sensu/client.rs:240-243 | with neither resources nor checks nothing is sent and the run ends with "no targets" |
| SensuApi.ListingFailureNoPost | src/sensu/client.rs:199-203 | a failed resolution sends no POST and returns the error |
| SensuApi.SilenceIssuesProduct | src/sensu/client.rs:198-217 | with resources and checks, a silence posts the full product of resolved targets and checks |
| SensuApi.BatchNoTargets | src/sensu/client.rs:240-243 | a silence or clear with neither resources nor checks sends nothing and ends with "no targets" |
| SensuApi.BatchListingFailure | src/sensu/client.rs:199-203 | a silence or clear with resources whose client listing fails sends no POST and returns the error |
| SensuApi.BatchIssuesProduct | src/sensu/client.rs:206-217 | when resolution and every POST succeed, one payload per (resource, check) pair is posted, resource-major, as many as resources times checks |
| SensuApi.ClearNoTargetsSendsNothing | src/sensu/client.rs:289-292 | with neither resources nor checks a clear sends nothing and ends with "no targets" |
| SensuApi.ClearListingFailureNoPost | src/sensu/client.rs:249-253 | a clear with resources whose client listing fails sends no POST and returns the error |
| SensuApi.ClearIssuesProduct | src/sensu/client.rs:255-266 | with resources and checks, a clear posts one clear per (resource, check) pair to /silenced/clear, resource-major, as many as resources times checks |
| SensuApi.EntryLines | src/sensu/client.rs:301-317 | six lines, the last empty; subscription, check and creator print their string value, or "all"/"unknown" when missing or not a string; expiration prints an integer in [0, 2^64) and "never" otherwise; expire on resolve prints "true" only for the boolean true |
| SensuApi.ListDefaults | src/sensu/client.rs:302-307 | missing fields print as "all", "never", "false" and "unknown" |
| SensuApi.ListingLength | src/sensu/client.rs:299-320 | six lines per object in the listing; non-objects print nothing |
| SensuApi.ListOnlyReads | src/sensu/client.rs:297-298 | listing sends exactly one GET /silenced |
| SensuApi.ClientMapFromListing | src/sensu/client.rs:82-101 | the loop builds the client map of the listing |
| SensuApi.CollectSubscriptions | src/sensu/client.rs:170-182 | the loop collects exactly the known subscriptions |
| SensuApi.SensuClient.constructor | src/sensu/client.rs:23-26 | a new client has the given server and an empty log |
| SensuApi.SensuClient.Send | src/sensu/client.rs:28-77 | the response is the server's answer after the current log, and the request is logged |
| SensuApi.SensuClient.GetNodeToClientMap | src/sensu/client.rs:79-104 | one GET /clients; an error is passed on, otherwise the client map of the listing |
| SensuApi.SensuClient.ValidateClient | src/sensu/client.rs:142-149 | one GET /clients/<name>; kept exactly unless the answer is 404 |
| SensuApi.SensuClient.ValidateSubscriptions | src/sensu/client.rs:151-196 | result and log are those of the subscription check specification |
| SensuApi.SensuClient.MapToSensuResources | src/sensu/client.rs:106-140 | result and log are those of the resolution specification |
| SensuApi.SensuClient.ResolveNodes | src/sensu/client.rs:111-125 | result and log are those of node resolution (drain, then validate) |
| SensuApi.SensuClient.ValidateClients | src/sensu/client.rs:130-137 | result and log are those of client validation |
| SensuApi.SensuClient.PostAll | src/sensu/client.rs:207-239 | result and log are those of posting the payloads in order, stopping at the first failure |
| SensuApi.SensuClient.Silence | src/sensu/client.rs:198-246 | result and log are those of the silence specification |
| SensuApi.SensuClient.Clear | src/sensu/client.rs:248-295 | result and log are those of the clear specification |
| SensuApi.SensuClient.List | src/sensu/client.rs:297-322 | result and log are those of the listing specification |
| LegacySensu.ValidationNarrowsResolution | src/sensu.rs:102-124 | the current resolution keeps a subsequence of what the legacy one keeps, and the same when no lookup answers 404 and no subscriptions are involved |
| LegacySensu.SilenceIgnoresPostResponses | src/sensu.rs:138-164 | the legacy silence's outcome and log do not depend on how its POSTs are answered |
| LegacySensu.ClearIgnoresPostResponses | src/sensu.rs:181-207 | the legacy clear's outcome and log do not depend on how its POSTs are answered |
| LegacySensu.ResolutionFailureSilencesChecks | src/sensu.rs:127-164 | when resolution fails but checks were given, the legacy silence silences those checks on all resources |
| LegacySensu.ClearWithoutChecksPostsToSilenced | src/sensu.rs:190-198 | as written, a legacy clear of resources without checks POSTs to /silenced |
| LegacySensu.ClearOfOneClient | src/sensu.rs:190-198 | as written, clearing client "web" without checks after any successful listing POSTs a silence for "client:web" to /silenced |
| LegacySensu.UnreachableIsReached | src/sensu.rs:127-165 | as written, a silence of resources without checks whose resolution fails reaches `unreachable!()` |
| LegacySensu.DrainNodes | src/sensu.rs:107-117 | the fold collects the drained client names |
| LegacySensu.LegacyClient.constructor | src/sensu.rs:75-76 | a new client has the given server and an empty log |
| LegacySensu.LegacyClient.Send | src/sensu.rs:60-72 | the response is the server's answer after the current log, and the request is logged |
| LegacySensu.LegacyClient.MapToSensuResources | src/sensu.rs:102-124 | result and log are those of the legacy resolution specification |
| LegacySensu.LegacyClient.PostEach | src/sensu.rs:138-146 | every payload is posted in order, whatever the answers |
| LegacySensu.LegacyClient.Targets | src/sensu.rs:127-134 | result and log are those of the legacy target resolution (failure becomes no targets) |
| LegacySensu.LegacyClient.Silence | src/sensu.rs:126-168 | outcome and log are those of the legacy silence specification |
| LegacySensu.LegacyClient.Clear | src/sensu.rs:170-211 | outcome and log are those of the legacy clear specification |
| LegacySensuClient.EndpointPath | src/sensu_client.rs:30-38 | every path is absolute |
| LegacySensuClient.EndpointPathsAgree | src/sensu_client.rs:30-38 | the three legacy paths are the current client's paths |
| LegacySensuClient.EndpointPathInjective | src/sensu_client.rs:30-38 | different endpoints have different paths |
| LegacySensuClient.ResourceText | src/sensu_client.rs:89-96 | the text ends with the resource's name |
| LegacySensuClient.ResourceTextAgrees | src/sensu_client.rs:89-96 | the legacy resource text is the current resource display |
| LegacySensuClient.ExpireText | src/sensu_client.rs:109-117 | every phrase ends with a newline; the eighth character tells the three kinds apart |
| LegacySensuClient.ExpireTextInjective | src/sensu_client.rs:109-117 | different expiries display differently |
| LegacySensuClient.KeyOrderSorted | src/sensu_client.rs:76 | the payload's member names are listed in strictly increasing byte order, the order the serialised object uses |
| LegacySensuClient.LexLessTransitive | src/sensu_client.rs:76 | the byte order on names is transitive |
| LegacySensuClient.PayloadFieldsSpec | src/sensu_client.rs:48-74 | creator always (USER or "shush"); subscription exactly with a resource, as its text; check exactly with a check; expire exactly for a timed expiry; expire_on_resolve exactly for expire-on-resolve |
| LegacySensuClient.PlainUnescaped | src/sensu_client.rs:76 | a string without quotes, backslashes or control characters is written unescaped |
| LegacySensuClient.EscapedIsPrintable | src/sensu_client.rs:76 | escaped text contains no control characters |
| LegacySensuClient.PresentKeysPresent | src/sensu_client.rs:76 | only members present in the object are written |
| LegacySensuClient.KeysOfPayload | src/sensu_client.rs:48-76 | the members written are the payload's present keys, in sorted order |
| LegacySensuClient.IntoString | src/sensu_client.rs:48-77 | the serialisation built step by step is the payload text |
| LegacySensuClient.CheckOnlyShape | src/sensu_client.rs:224-231 | a check-only payload without expiry serialises as {"check":…,"creator":…} |
| LegacySensuClient.ClientAndCheckShape | src/sensu_client.rs:232-237 | a client-and-check payload adds "subscription":"client:…" last |
| LegacySensuClient.ExpiringShape | src/sensu_client.rs:238-243 | a timed payload writes check, creator, expire and subscription in that order |
| LegacySensuClient.ExpireOnResolveShape | src/sensu_client.rs:244-249 | an expire-on-resolve payload writes creator, expire_on_resolve:true and subscription |
| LegacySensuClient.NoExpiryShape | src/sensu_client.rs:250-255 | a payload with a client only writes creator and subscription |
| LegacySensuClient.LegacyEntryAgrees | src/sensu_client.rs:195-201 | the legacy (instance id, name) extraction agrees with the current client's |
| LegacySensuClient.DrainedNamesAreMapped | src/sensu_client.rs:203-212 | at most one name per requested id, and each is the client of some requested id |
| LegacySensuClient.IidsEdgeCases | src/sensu_client.rs:186-215 | a `None` response (never produced: the legacy request always wraps the body in `Some`) is an error; a non-array body, including the `{}` an empty body becomes, gives no clients |
| LegacySensuClient.InsertEntry | src/sensu_client.rs:195-201 | one loop step extends the client map by the next item |
| LegacySensuClient.MapIidsToClients | src/sensu_client.rs:185-216 | the result is the legacy id-to-client mapping of the response |

## Left out

- HTTP transport: the server is an oracle from (history, request) to response. Hyper, tokio, URI assembly with the base URL, headers, content length and body decoding (`request`, `sensu_request`) are not modelled.
- JSON parsing by serde is not modelled: responses arrive as `Json` values.
- LegacySensuClient serialisation: only scalar values are written (the payload holds only strings, integers and booleans).
- LegacySensuClient.MemberText: key names are written without escaping. All payload keys are plain, which PlainKeys proves.
- The regex engine is replaced by a direct definition of its matches (`Captures`): leftmost, greedy digit runs with an optional unit letter.
- clap argument parsing is replaced by a record of the flags (`Flags`).
- `Args::new` and `getconf` are not modelled.
- INI file loading and the search order of configuration paths are not modelled. This covers the explicit path, /etc/shush/shush.conf and $HOME/.shush/shush.conf. The constructor takes the loaded properties.
- Environment variables are a map parameter. A variable that is not Unicode is treated like an absent one; the source fails on both with the same error.
- `process::exit` is modelled as an outcome. `NoTargets` and `PostFailed` end a run, and the legacy `unreachable!()` is the outcome `Panic`.
- Printing is modelled only for the listing (`EntryLines`). Warnings and progress messages are not modelled.
- Error wrapper types (src/err.rs, src/sensu_err.rs) are not modelled.
- main.rs is not part of this model.
- Opts.GetExpiration: does not model usize overflow in the multiplication and sum (Dafny `nat` is unbounded). Parsing a digit run of 2^64 or more gives 0, as `unwrap_or(0)` does.
- The legacy `list` in src/sensu.rs:213-215 does nothing and is not modelled.
- SensuApi.SensuClient.List: ignores the subscription and check filters in `ListOpts`, as the source does.
- The configuration test with an unterminated reference (src/config.rs:149-153) is covered by the generic Config.Unterminated lemma, not by a concrete instance.
- The concrete payload strings of the test in src/sensu_client.rs:224-256 are not restated. The five Shape lemmas prove the same texts for every plain check, resource and user name.
- The shared `Response` type allows `Ok(None)` (an empty body), which the current client produces but neither legacy transport does. The legacy lemmas hold for every response, including that one.
- The legacy `sensu_request` in src/sensu_client.rs:166-181 turns an empty or unparsable body into the empty object `{}`. The model takes the body as already parsed.
- The request log of the client classes is an ordinary field rather than ghost state, because the oracle's answers depend on it.

## Findings

| source | as written | input that shows it | evidently intended | confidence | as-written member | corrected member |
|---|---|---|---|---|---|---|
| src/sensu.rs:190-207 | a clear with resources but no checks, or with checks but no resources, POSTs to /silenced | clear with `-i web -r` and a reachable server: POST /silenced with subscription "client:web" and no expiry, creating a permanent silence | POST to /silenced/clear, as the (resources, checks) branch does and as src/sensu/client.rs:267-288 does | not executed | LegacySensu.ClearOfOneClient | SensuApi.ClearPostsOnlyToClear |
| src/sensu.rs:127-134, 165 | when resolving resources fails and no checks are given, `(None, None)` reaches `unreachable!()` | silence with `-n i-1` while GET /clients fails | report the resolution failure, as src/sensu/client.rs:199-203 does with `?`, and exit on no targets (src/sensu/client.rs:240-243) | not executed | LegacySensu.UnreachableIsReached | SensuApi.ListingFailureNoPost |
