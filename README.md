# Stremio Jackett add-on — a Dafny model of its core

The add-on answers a Stremio stream request for an IMDb id (a film `tt…`, or
an episode `tt…:season:episode`). It asks a Jackett server for its configured
indexers. It then sends the same Torznab search to each indexer and turns
every `<item>` of each answer into a flat record. When the search ends, or a
response timeout fires, whichever comes first, it ranks the records gathered
so far. Ranking drops records with too few seeders, sorts by seeders and keeps
the first `maximumResults`. Each remaining record is turned, one at a time,
into a Stremio stream: a lower-case info hash, a four-line title and a list of
tracker sources.

The model has five modules:

- `JsValues` (`js_values.dfy`): the JavaScript semantics the code relies on.
  It covers numbers that may be NaN, truthiness of possibly undefined
  strings, `parseInt` without a radix, the string form of an integer,
  `split`/`join` on one character, and ASCII `toLowerCase`.
- `Torznab` (`torznab.dfy`): `jackett.js`. It covers the indexer-list shape
  check, the category and the query string, the item normaliser (the working
  map, the string allow-list, the integer allow-list, the date, the indexer
  stamp and the tag), and the fan-out as a sequence of callback events.
- `Ranking` (`ranking.dfy`): the filter/sort/slice chain of `respondStreams`.
- `Streams` (`streams.dfy`): `toStream`, the choice between magnet and link in
  the queue worker, the magnet-or-remote branch, and the serial queue,
  including a `parseTorrent` exception that stops it.
- `Handler` (`handler.dfy`): id splitting, the search query, and the
  `StreamHandler` class. The class holds `results`, the `sentResponse` flag
  and the promise state. Its methods are the partial and end callbacks and
  the timeout.

Values from the outside world are parameters:

- the parsed XML trees (`Reply`, `Element`);
- the per-indexer search reply (`fetch`);
- `extraTag`, `episodeTag` and the `Date` parse (`Helpers`);
- `followRedirect`, `parse-torrent`, `parse-torrent.remote` and the scaling
  part of `formatBytes` (`Resolver`);
- the metadata returned by cinemeta (`Meta`).

Where the code behaves in a way a reader might not expect, the model follows
the code:

- An integer field that does not parse is stored as NaN. It is not omitted.
- A record without a title is kept.
- Nothing deduplicates records.
- Any element named `item` whose `elements` list exists counts as an item,
  even when that list is empty.
- The comparator does not place records without seeders after those with
  seeders. `Ranking.MissingSeedersRule` states what does hold: with a
  threshold such records are dropped, and without one they are kept.

## Model

| member | source | states |
|---|---|---|
| JsValues.ParseIntDecimalPrefix | jackett.js:88 | `parseInt` reads back the decimal form of any integer, including when non-digit text follows it that does not start a hex prefix |
| JsValues.ParseIntDecimal | jackett.js:88 | `parseInt` of the decimal form of an integer is that integer |
| JsValues.MagnitudeDecimal | jackett.js:88 | after the sign, a decimal numeral (leading zeros allowed) followed by text that does not continue it reads as the numeral's value, unless it is a lone "0" followed by x or X |
| JsValues.ParseIntOfNumeral | jackett.js:88 | `parseInt` of a numeral, with or without a leading minus, is its magnitude with that sign |
| JsValues.ParseSignedNumeral | jackett.js:88 | after white space, a numeral with or without a minus sign reads as its magnitude with that sign |
| JsValues.TrimStart | jackett.js:88 | what `parseInt` skips is a prefix of white space; what remains does not start with white space |
| JsValues.DigitPrefix | jackett.js:88 | the digits `parseInt` reads are the longest run of digits of the radix at the start |
| JsValues.NaturalString | index.js:26 | the decimal form of a natural number is non-empty, all digits, and has no leading zero |
| JsValues.NaturalStringValue | index.js:26 | the digits of the decimal form of a natural number read back as that number |
| JsValues.Split | index.js:161 | `split(':')` gives at least one piece, and no piece contains the separator |
| JsValues.JoinSplit | index.js:161 | joining the pieces of `split` with the separator gives back the original string |
| JsValues.SplitJoin | index.js:161 | splitting the join of separator-free pieces gives back the pieces |
| JsValues.LowerAscii | index.js:22 | lower-casing keeps the length, leaves no upper-case letter, changes exactly the letters A–Z, and moves each one by 32 |
| Torznab.IndexerList | jackett.js:11-22 | the indexer list exists exactly when the reply succeeded, its root has a first element, and that element has child elements; the list is those children |
| Torznab.Category | jackett.js:33 | the category is 2000 exactly when the request type is "movie", and 5000 otherwise |
| Torznab.SearchString | jackett.js:41-44 | the search text starts with the title name; it is the bare name exactly when season or episode is missing or empty; otherwise the name is followed by a space and the episode tag |
| Torznab.WorkingMapLastWriteWins | jackett.js:70-75 | a key is in the working map exactly when some child writes it, and its value comes from the last child that writes it |
| Torznab.WorkingMapKeys | jackett.js:70-75 | a key is in the working map exactly when some child of the item writes it |
| Torznab.WorkingMapLastValue | jackett.js:70-75 | a key holds the value written by the last child that writes it |
| Torznab.CopiedAt | jackett.js:79-89 | an allow-list copy sets a key exactly when the key is in the list and truthy in the working map, and coerces the value; other keys keep their earlier value |
| Torznab.CopiesAt | jackett.js:77-89 | only allow-listed keys are copied; a string key holds the working-map text; an integer key holds `parseInt` of it |
| Torznab.ItemRecordFields | jackett.js:77-96 | a record's keys are within the allow-lists plus jackettDate, from and extraTag; string and integer fields appear exactly when truthy in the working map; jackettDate appears exactly when pubDate is truthy, and is the parsed date of pubDate; from is the indexer id; extraTag is the tag of the title (or of nothing, without a title) against the query name |
| Torznab.ItemRecordReadsOnlyAllowList | jackett.js:77-96 | two working maps that agree on the consulted keys give the same record |
| Torznab.CollectFields | jackett.js:70-75 | the first loop over an item's children builds exactly the working map |
| Torznab.CopyFields | jackett.js:79-89 | an allow-list loop yields exactly the allow-list copy of the working map |
| Torznab.NormaliseItem | jackett.js:67-97 | the three loops build the record of the working map of the item's children |
| Torznab.ItemsOfConcat | jackett.js:63-65 | item selection distributes over concatenation, so document order is kept |
| Torznab.ItemsAreItems | jackett.js:63-65 | the selected elements are exactly the item-shaped children: every one is an item, and no item is skipped |
| Torznab.NormalisedOnePerItem | jackett.js:63-99 | the normaliser gives exactly one record per item, in order, each the record of that item |
| Torznab.NormalisedStamped | jackett.js:94 | every normalised record carries the indexer id under from |
| Torznab.NormaliseItems | jackett.js:61-99 | the item loop produces the normalised records of the channel's children |
| Torznab.IndexerEventsCount | jackett.js:47-105 | one indexer contributes one tick exactly when it has a truthy id, and delivers its batch when the reply has a channel |
| Torznab.RequestsAndTicks | jackett.js:46-104 | no more requests than indexers, each with the category and the search text; the number of ticks equals the number of requests |
| Torznab.RequestsFromIndexers | jackett.js:46-48 | every request is sent under the id of one of the indexers, and only an indexer with a truthy id is asked |
| Torznab.RequestsCoverIndexers | jackett.js:46-48 | every indexer with a truthy id is sent the search, with its id, the category and the search text |
| Torznab.DeliveredStamped | jackett.js:94-101 | every delivered record is stamped with the id of one of the requested indexers |
| Torznab.AskIndexer | jackett.js:47-105 | the per-indexer step issues exactly the specified request and emits exactly that indexer's events |
| Torznab.AskAll | jackett.js:46-107 | the loop over the indexer list issues exactly the specified requests and events, and accumulates exactly the delivered records |
| Torznab.Search | jackett.js:28-117 | with no indexer list, or an empty one, no request is sent and the callbacks get `[]` then end `[]`; otherwise the requests and events are those of the indexers in order; the accumulated results are always what the partial callbacks received |
| Ranking.KeepSeededExactly | index.js:113-116 | the seeders filter keeps every passing record as often as it occurs, and drops every other record |
| Ranking.KeepSeededOrder | index.js:113-116 | the filter distributes over concatenation, so relative order is kept |
| Ranking.FilteredThreshold | index.js:113-116 | with a threshold set, every kept record has a nonzero integer seed count of at least the threshold; with none set, the list is unchanged |
| Ranking.InsertPermutes | index.js:120-122 | one insertion step adds exactly the inserted record |
| Ranking.SortPermutes | index.js:120-122 | sorting only reorders the records |
| Ranking.InsertKeepsBound | index.js:120-122 | inserting a record below a bound keeps every seed count below that bound |
| Ranking.InsertDescending | index.js:120-122 | inserting into a non-increasing list of counted records keeps it non-increasing |
| Ranking.SortDescending | index.js:120-122 | when every record has an integer seed count, the sorted list is non-increasing in seeders |
| Ranking.PrefixProperties | index.js:126-127 | a prefix of the sorted list draws only on it and keeps it non-increasing |
| Ranking.Truncated | index.js:126-127 | with a positive maximum, the result is the first min(maximum, length) records; with none set, the list is unchanged; the result is always a prefix |
| Ranking.RankProperties | index.js:113-127 | the ranked list draws only on the input, meets the threshold, respects the maximum, and is non-increasing when the filtered records all have counts |
| Ranking.MissingSeedersRule | index.js:113-122 | a record without a seed count is dropped when a threshold is set and kept when none is |
| Streams.Locator | index.js:132-133 | the URL is magneturl when it is truthy, else link; there is no URL exactly when both are falsy |
| Streams.CrLfLines | index.js:29-31 | lines joined by CRLF split back on LF into the four lines, each but the last ending in CR |
| Streams.TitleLines | index.js:24-31 | the stream title is four lines: heading, size, seeders and tag |
| Streams.Trackers | index.js:34-39 | one `tracker:` entry per announce URL, in order, followed by `dht:<hash>` exactly when there are trackers and DHT is not disabled |
| Streams.TwoTrackers | index.js:34-39 | with two announce URLs, the DHT entry is added for an unset or "True" flag and left out for "False"; no announce list gives no sources |
| Streams.ToStream | index.js:20-51 | the stream's hash is the lower-cased info hash, its name is the record's `from`, its type is the request type, sources are present exactly when the torrent announces trackers, and they are the tracker list; the title is the four-line stream title |
| Streams.StreamFromUriCases | index.js:53-63 | a magnet URI is parsed in place and a throw there is an exception; any other URI is fetched, a fetch error gives no stream and no exception; a parsed torrent gives its stream |
| Streams.FirstThrow | index.js:131-147 | the worker finishes a leading run of tasks: none of them throws, and either all tasks finish or the next one throws |
| Streams.FirstThrowAt | index.js:131-155 | the run of finished tasks ends exactly at the first task whose `parseTorrent` throws |
| Streams.Worker | index.js:131-146 | the worker follows the redirect of the task's magneturl, else its link, and makes a stream of the target; a task with neither is skipped |
| Streams.QueueProperties | index.js:131-155 | the queue drains exactly when no task throws, with the streams of all tasks; when a task throws, the streams are those of the tasks before it; never more streams than tasks |
| Streams.StreamsForProperties | index.js:131-147 | the queue yields at most one stream per task, each lower-case and of the request type, and none when no task has a locator |
| Streams.StreamsForConcat | index.js:131-155 | the queue's output for two batches is the output of the first followed by that of the second, so task order is kept |
| Streams.ProcessQueue | index.js:131-155 | the serial worker loop pushes exactly the streams of the finished tasks, in order, and reports drained exactly when no task threw |
| Handler.IdParts | index.js:93-96 | the request is rejected exactly when the id is missing or empty; otherwise the parts join back to the id and contain no colon |
| Handler.SearchQuery | index.js:168-177 | the query carries the metadata name, year and request type; it carries season and episode exactly when the id had three parts |
| Handler.EpisodeIdRoundTrip | index.js:161-177 | an episode id splits into its three parts, and a plain IMDb id into one part with no season |
| Handler.AnswerBounds | index.js:107-158 | a resolved answer has no more streams than records, no more than the configured maximum, and all are lower-case and of the request type; the promise stalls exactly when some ranked record's `parseTorrent` throws |
| Handler.StreamHandler.constructor | index.js:98-100 | a new handler has no results, has not responded, and its promise is pending |
| Handler.StreamHandler.OnPartial | index.js:181-183 | the partial callback appends the batch and changes nothing else |
| Handler.StreamHandler.RespondStreams | index.js:102-159 | the first call sets the flag and answers for the current results (resolved, stalled on a throw, or waiting on drain); later calls leave the response unchanged |
| Handler.StreamHandler.OnEnd | index.js:185-188 | the end callback replaces the results with the final list, then responds once |
| Handler.StreamHandler.OnTimeout | index.js:191-192 | the timeout responds with the results gathered so far, unless a response was already sent |
| Handler.DeliverPartials | index.js:179-183 | the search's partial callbacks append exactly the delivered records, in delivery order, and leave the flag and the response as they were |
| Handler.FirstCallerWins | index.js:185-192 | of the end callback and the timeout, the first to fire decides the answer, and the second changes nothing |

## Left out

- HTTP (`needle`) and XML parsing (`xml-js`) are left out. The parsed tree, or a failed reply, is an input. An exception thrown by `xml2js` on a malformed body is not modelled.
- `helpers.js` is not part of this model. `extraTag`, `episodeTag` and `followRedirect` are function parameters. Nothing is assumed about them beyond their results, except that `followRedirect` calls back exactly once with a URL: a redirect lookup that never called back would stall the queue, and the model does not capture that.
- Torznab.Search: the `setTicker` countdown is not modelled. On the non-empty path the model records one tick per request and makes no claim about when `end` fires. The end callback is modelled as a separate call, `Handler.StreamHandler.OnEnd`.
- `parse-torrent` and `parse-torrent.remote` are function parameters. A remote fetch error yields no stream and the queue goes on. A magnet that `parseTorrent` throws on stops the queue: the model records the promise as `Stalled`. What the add-on SDK or Node does with the uncaught exception is not modelled.
- `formatBytes` is modelled only for the "0 Bytes" case, because its scaling uses floating-point logarithms and `toFixed`. The scaled text comes from a parameter.
- Parsing `pubDate` with `new Date` is a parameter, `dateMillis`. An invalid date's NaN is whatever that parameter returns.
- Concurrency and timers are not modelled. Indexer replies are processed in list order, where the code sees them in arrival order. The timeout and the end callback are method calls, and `FirstCallerWins` covers both orders.
- Handler.StreamHandler.RespondStreams: when ranking leaves no record, nothing is pushed to the queue. Whether the queue's `drain` then fires depends on the `async` library, so the model records `AwaitingDrain` and does not claim a resolution.
- Handler.StreamHandler.RespondStreams: without a seeders threshold, `tempResults` is the `results` array itself, so the sort reorders `results` in place. The model leaves `results` unchanged. Nothing reads `results` for an answer after the first call, so the response is the same.
- The cinemeta lookup, the manifest, the add-on builder and the router are left out. The metadata is an input. The "no metadata" answer `{streams: []}` is not a separate member.
- The call at index.js:179 passes the query as the first argument of `search(config, query, cb, end)`. The model wires the query, the partial callback and the end callback to their evident roles.
- JavaScript numbers are modelled as exact integers or NaN. Precision loss above 2^53 and the exponent notation of `String(n)` from 1e21 up are not modelled.
- `toLowerCase` is modelled for ASCII letters only. That is the alphabet of a hex or base32 info hash.
- Configuration values are modelled as optional integers (`minimumSeeds`, `maximumResults`) and an optional string (`dhtEnabled`). Booleans and fractional numbers are not modelled.
- Ranking.SeedCount: a string-valued `seeders` field compares like a missing one. The normaliser never produces a string under `seeders`.
- Ranking.SortBySeeders: `Array.prototype.sort` is engine-specific, and the comparator is inconsistent: it never returns 0, and comparisons involving undefined or NaN are false. The model uses an insertion sort driven by the same comparator. It is proved a permutation in all cases, and non-increasing only when every record has an integer seed count.
- The `else` branch at jackett.js:108-111 is unreachable, because its condition repeats the guard at line 31. It has no member of its own.
- A child element named `__proto__`, which would change the working object's prototype in JavaScript, is treated as an ordinary key.
