# Cache-first postcode distance lookup, in Dafny

This project models the two classes of BespokeSupport/Distance that together answer
"how far, and how long, from these postcodes to those":

- `Distance` (src/Distance.php), the distance-matrix client. It stores the origin and
  destination lists, joins each list with `|` into the query options, builds the request
  URL, classifies the provider's decoded reply (two statuses raise; the soft failures
  append diagnostics to an `errors` list that only grows) and sums `distance.value` and
  `duration.value` over every element of every row into a `Route`.
- `PostcodeDistance` (src/PostcodeDistance.php), the resolver. It wraps single strings as
  lists, keeps the canonical form of every postcode the validator accepts, answers a single
  pair from the newest matching cache record when a database is configured, otherwise asks
  a fresh `Distance` client, appends the answer to the cache table, and records in `source`
  whether the answer came from the `cache` or the `api`.

Files:

- `common.dfy` (module `Common`): `Option`, `Result` and PHP truthiness of a nullable string.
- `distance.dfy` (module `DistanceMatrix`): the reply datatypes, `Route`, the specification
  functions (`Query`, `Classify`, `Diagnostics`, `TotalDistance`, `TotalDuration`, `Answer`)
  and the class `Distance`, whose methods update `destinations`, `origins`, `options` and
  `errors` in place and are proved against those functions.
- `distance_properties.dfy` (module `DistanceProperties`): lemmas about the client's functions.
- `postcode_distance.dfy` (module `PostcodeResolver`): the cache table as a sequence of
  `CacheRecord`s, `GetCache` as a pure function over it, the validation loop, and the class
  `PostcodeDistance`.
- `resolver_properties.dfy` (module `ResolverProperties`): lemmas about validation, the
  lookup and what a repeated request is served.

Outside collaborators are parameters: the postcode validator is `validate: string ->
Option<string>`, `http_build_query` is `encode: map<string, string> -> string`, the HTTP
transport together with `json_decode` is `send: string -> Option<Response>` (`None` for a
transport error or an undecodable body), and the store's clock for `created` is `now`.
PHP results become `Outcome`: `NoResult` for `null`, `Failed` for `false`, `Found(route)`
for a `Route`, and `Thrown(message)` for a raised exception.

Three facts about the code that the model keeps as written:

- The two disjuncts of the lookup's `WHERE` clause are identical (src/PostcodeDistance.php:56-58),
  so only the same `(from, to)` orientation matches; the lookup is not symmetric
  (`ResolverProperties.LookupIsOriented`).
- The insert (src/PostcodeDistance.php:124-131) runs whenever a database is configured,
  multi-point requests included, and stores the aggregate total under the first origin and
  the first destination.
- A failing insert is not caught by `getDistance`; the model's store never fails.

## Model

| member | source | states |
|---|---|---|
| `DistanceMatrix.Distance.Construct` | src/Distance.php:46-55 | raises "You must specify an API key" exactly when the key is null, "" or "0"; otherwise a fresh client holding the key and return type unchanged, with empty lists, options and errors |
| `DistanceMatrix.Distance.ChangeOptions` | src/Distance.php:60-65 | options become the given map when it is non-empty; an empty map leaves the previous options |
| `DistanceMatrix.Distance.ValidateInput` | src/Distance.php:73-85 | with both lists non-empty stores `to` as destinations and `from` as origins and succeeds; otherwise leaves both stored lists and succeeds exactly when one of them is non-empty |
| `DistanceMatrix.Query` | src/Distance.php:92-93 | the options gain `destinations` and `origins` holding the `|`-joined lists, overriding same-named options; every other option is kept |
| `DistanceMatrix.Distance.PrepareUrl` | src/Distance.php:90-99 | options become `Query` of the old options and stored lists, and the URL is the endpoint, return type, `?`, the encoded options, `&key=` and the key |
| `DistanceProperties.JoinSplitRoundTrip` | src/Distance.php:92-93 | a non-empty list whose entries hold no `|` is recovered exactly from its joined field |
| `DistanceMatrix.Distance.ReportAddresses` | src/Distance.php:126-137 | one address loop appends exactly `AddressDiagnostics` to errors and reports whether any address was empty |
| `DistanceMatrix.Distance.ValidateResponse` | src/Distance.php:109-144 | the verdict is `Classify(response)`: raise with `error_message` on OVER_QUERY_LIMIT or REQUEST_DENIED before any error is appended; otherwise errors grow by the request message, then destination messages, then origin messages |
| `DistanceProperties.ClassifyAgreesWithDiagnostics` | src/Distance.php:121-143 | a non-fatal reply is rejected exactly when it yields at least one diagnostic |
| `DistanceProperties.AddressDiagnosticsAt` | src/Distance.php:126-137 | one message per empty address, in index order, the k-th naming the stored input at the k-th empty index (or "" when that input is missing) |
| `DistanceProperties.AddressDiagnosticsNone` | src/Distance.php:126-137 | an address loop appends nothing exactly when no address is empty |
| `DistanceProperties.SingleBadDestination` | src/Distance.php:126-143 | one empty destination among several: the reply is rejected, `getResponse` answers `false`, and exactly one message names that destination's input |
| `DistanceMatrix.SumRows` | src/Distance.php:169-176 | the nested loops yield `TotalDistance` and `TotalDuration` of the rows |
| `DistanceProperties.TotalDistanceAppend` | src/Distance.php:171-176 | the distance total over two batches of rows is the sum of their totals |
| `DistanceProperties.TotalDurationAppend` | src/Distance.php:171-176 | the duration total over two batches of rows is the sum of their totals |
| `DistanceProperties.TotalsNonNegative` | src/Distance.php:169-180 | non-negative element values give non-negative Route totals |
| `DistanceProperties.TwoByTwoTotals` | src/Distance.php:169-182 | 2 x 2 elements with distances 10, 20, 30, 40 and durations 5, 10, 15, 20 give Route(100, 50) |
| `DistanceMatrix.Distance.GetResponse` | src/Distance.php:154-183 | rejected input: `false` with no URL built, nothing sent and no state changed; otherwise stores the lists, updates options, sends one URL, answers `Answer` of the reply (transport failure `false`, fatal status raised, soft failure `false`, else the summed Route) and appends the reply's diagnostics to errors |
| `PostcodeResolver.GetCache` | src/PostcodeDistance.php:51-67 | nothing exactly when no record matches; otherwise a stored record whose from and to equal the arguments in that orientation and whose `created` is the greatest among matching records |
| `ResolverProperties.LookupIsOriented` | src/PostcodeDistance.php:53-61 | a record stored for (a, b) is found for (a, b) but not for (b, a) |
| `ResolverProperties.NewestRecordServed` | src/PostcodeDistance.php:59-60 | a record appended no earlier than all others is what the lookup for its pair returns |
| `ResolverProperties.RecencyWins` | src/PostcodeDistance.php:59-60 | with two records for a pair, the lookup returns one created no earlier than the later one |
| `PostcodeResolver.CanonicalPostcodes` | src/PostcodeDistance.php:82-98 | the validation loop yields `Validated`: the accepted canonical forms in input order |
| `ResolverProperties.ValidatedAppend` | src/PostcodeDistance.php:82-98 | validation of a concatenation is the concatenation of validations, so input order is kept |
| `ResolverProperties.ValidatedMembers` | src/PostcodeDistance.php:82-98 | a postcode is kept exactly when it is the truthy canonical form of some input |
| `ResolverProperties.ValidatedNoLonger` | src/PostcodeDistance.php:82-98 | validation only drops entries |
| `ResolverProperties.SingleInput` | src/PostcodeDistance.php:74-80 | a single string is validated as the one-element list holding it |
| `PostcodeResolver.PostcodeDistance.constructor` | src/PostcodeDistance.php:34-38 | stores the key and the optional database; `source` starts as `cache` |
| `PostcodeResolver.PostcodeDistance.GetDistance` | src/PostcodeDistance.php:70-134 | an empty validated list gives `null` with `source` `cache` and no cache lookup, provider call or insert; otherwise the cache is looked up, once, exactly when a database is configured and one origin and one destination remain; a single pair with a database and a matching record gives that record's Route with `source` `cache` and no call or insert; a falsy key raises with `source` still `cache`; otherwise `source` becomes `api`, the client is asked once with the validated origins and destinations, its answer is returned, and on success with a database exactly one record (first origin, first destination, totals, `now`) is appended |
| `ResolverProperties.StoredAnswerIsServed` | src/PostcodeDistance.php:104-131 | after an answer is written, a single-pair request for the first origin and first destination is a cache hit served that same Route, also when the answer was a multi-point aggregate |
| `ResolverProperties.FatalStatusPropagates` | src/Distance.php:113-119 | a fatal provider status reaches the resolver's caller as a raised exception with the provider's message |

## Left out

- `sendRequest` (src/Distance.php:190-206): curl and `json_decode` are the parameter `send`; a transport error and an undecodable body both read as `None`, which makes `getResponse` answer `false` with no error recorded, as the code does.
- `http_build_query`: the parameter `encode`; the order of the query's keys and the percent-encoding of its values are not modelled, only which keys and values go into it.
- The `Postcode` validator of BespokeSupport\Location is the parameter `validate`; it is not part of this model.
- `DatabaseWrapperInterface` and the SQL text: the table is the sequence `table`, the lookup is the function `GetCache`, the insert is an append, and `created` is the parameter `now`; a failing insert is not modelled.
- `PostcodeResolver.GetCache`: when several matching records share the greatest `created`, the model returns the one inserted last; `ORDER BY created DESC LIMIT 1` leaves that choice to the database.
- `exceptionOnError` and `setExceptionOnError` (src/PostcodeDistance.php:24,40-43): set but never read, so they have no behaviour.
- `dataFormat` (src/Distance.php:54): stored but never read.
- Route.php is not part of this model; `Route` is a datatype with the two integer fields the code sets.
- PHP integer overflow into floating point in the sums: totals are unbounded integers.
- Arguments of other PHP types: `validateInput` takes lists (a `null` argument behaves as the empty list, since both fail the `$to && $from` test), reply fields are always present and typed (a missing `error_message` reads as ""), and postcodes are strings. The API key is a string or `null`, so the other falsy PHP keys (`false`, `0`, `0.0`, `[]`), which `!$apiKey` also rejects, are not modelled; option values are strings, so the nested arrays `http_build_query` accepts are not modelled.
- `googleUrl` is a protected property a subclass could override; here it is a constant.
- Concurrent requests and duplicate concurrent writes: the model is sequential.
- `sentUrls` (on `Distance`), and `providerRequests` and `cacheLookups` (on `PostcodeDistance`), are ghost logs that make "a request was sent" and "the cache was read" observable; the source has no such fields.
