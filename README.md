# Uptime Kuma indicator — a verified Dafny model

This project models the core of a GNOME Shell extension. The extension shows the
state of the monitors of an Uptime Kuma server in the top panel. It covers:

- what the extension does with the data it fetches:
  - normalising status-page, private-API and metrics payloads into monitors;
  - aggregating them into a summary (counts and the worst status);
  - merging per-monitor heartbeat histories into one summary series;
  - resampling a series for the sparkline;
  - tracking status transitions for notifications.
- the fetcher with its retry and back-off schedule, in the main copy and in the packaged build copy;
- the panel indicator's refresh cycle;
- the older root-level indicator, which parses its own payloads and builds its own menu;
- the two copies of the preferences window:
  - fetching and de-duplicating the list of services;
  - the service dropdowns and rows;
  - the auto-fetch guard.

The Dafny modules follow the program's files:

- `Parsers` (`utils/parsers.js`);
- `Sparkline` (`utils/sparkline.js`);
- `Network` and `BuildNetwork` (the two copies of `utils/network.js`), with `Http` for the retry loop they share and `Uri` for URL building;
- `Indicator` (`extension.js` of the extension);
- `Legacy` (the root `extension.js`);
- `Prefs` and `BuildPrefs` (the two copies of `prefs.js`), with `Services` for the service extraction both copies contain.

`Js`, `Text` and `Numbers` model the JavaScript value semantics the code relies on:

- nullish and truthy tests;
- `??` and `||`;
- `String()`;
- `trim`, `toLowerCase`, `includes`, `replace` and `split`;
- `parseInt` and `parseFloat`;
- `Math.round`.

Stateful objects are classes whose methods change their fields:

- the fetcher, with its tracked timeouts and its session;
- the sparkline widget;
- the indicator;
- the legacy indicator;
- the preferences windows.

Everything they compute is specified by functions on values, and the properties are proved as lemmas about those functions.

Where the surroundings of the core are not available, they are parameters:

- the network, as a function from a URL and an attempt number to a response;
- `JSON.parse`;
- the ISO-8601 parser;
- `normalizeMetrics`, the history normaliser, and the status-page normaliser of the main fetcher, which returns monitors and a heartbeat map;
- base64 and uuid generation;
- the clock, as a number or as pre-formatted text;
- the mock monitor list.

The preferences window's `_joinUrl` is the same code as the fetcher's `joinUrl`. Both are modelled by `Uri.JoinUrl`.

## Model

| member | source | states |
|---|---|---|
| Parsers.Rank | uptime-kuma-indicator/utils/parsers.js:9 | Every status has a position in the priority list, and that entry is its own name. |
| Parsers.PriorityIndex | uptime-kuma-indicator/utils/parsers.js:157-158 | The index of a status string in the priority list. It is -1 exactly when the value equals none of the list's entries. |
| Parsers.LabelStatus | uptime-kuma-indicator/utils/parsers.js:30-40 | A label maps to a status exactly when it is in that status's label list; for example, `up` exactly for the up labels. |
| Parsers.NormalizeStatus | uptime-kuma-indicator/utils/parsers.js:11-41 | Null or undefined gives unknown. A number is read as a Kuma status code. Anything else is stringified, lower-cased and matched against the labels. |
| Parsers.StatusNameRoundTrip | uptime-kuma-indicator/utils/parsers.js:11-41 | Normalising the name of any status gives back that status. |
| Parsers.NormalizeStatusCaseInsensitive | uptime-kuma-indicator/utils/parsers.js:30 | A status word normalises the same in any letter case. |
| Parsers.UnmatchedLabelIsUnknown | uptime-kuma-indicator/utils/parsers.js:30-40 | A non-numeric value whose lower-cased text is no label normalises to unknown. |
| Parsers.ParseLatency | uptime-kuma-indicator/utils/parsers.js:43-55 | Nullish gives no latency. A number is kept. Text gives the rounded parsed finite number, an infinite latency for the `Infinity` literal, and none when it does not parse. |
| Parsers.ParseLatencyOfText | uptime-kuma-indicator/utils/parsers.js:50-54 | The decimal text of any integer parses back to that integer as a latency. |
| Parsers.ParseLatencyOfInfinity | uptime-kuma-indicator/utils/parsers.js:50-54 | `Infinity`, `-Infinity` and a blank-led `+Infinity` read as infinite latencies with their sign. |
| Parsers.ParseLatencyWithoutDigits | uptime-kuma-indicator/utils/parsers.js:50-54 | Text without a digit has a latency exactly when, after leading blanks and a sign, it starts with `Infinity`; that latency is infinite, with the sign read. |
| Parsers.TimestampFromNumber | uptime-kuma-indicator/utils/parsers.js:64-68 | Zero gives none. Values above the millisecond threshold are floored to seconds. Other values are kept as seconds. |
| Parsers.ParseTimestamp | uptime-kuma-indicator/utils/parsers.js:57-81 | A falsy value gives none. Numbers go through the threshold rule. Strings give the ISO parse result, none when invalid. Other kinds give none. |
| Parsers.MonitorId | uptime-kuma-indicator/utils/parsers.js:87 | The id falls back in order: the id as text, then the slug, then the name, then a fresh uuid. It is never nullish. |
| Parsers.NormalizeMonitor | uptime-kuma-indicator/utils/parsers.js:83-97 | The normalised monitor has a ranked status from the first present status key, and latency and last check from their first present keys. Its name falls back from name to title to "Unnamed monitor". It has no history yet. |
| Parsers.NumericIdIsText | uptime-kuma-indicator/utils/parsers.js:87 | A numeric id becomes its decimal text. |
| Parsers.TruthyIndices | uptime-kuma-indicator/utils/parsers.js:111-115 | The positions of exactly the truthy entries, strictly increasing. |
| Parsers.NormalizedEntriesOrigins | uptime-kuma-indicator/utils/parsers.js:111-115 | Each normalised monitor comes from a truthy entry, in payload order. |
| Parsers.NormalizeStatusPage | uptime-kuma-indicator/utils/parsers.js:99-118 | A falsy payload gives no monitors. The list is `monitors ?? data`; an array is walked as it is, and an object through its `.monitors` or else its values. A list that cannot be iterated throws a TypeError. Otherwise the result is every truthy item of the list, normalised in order. |
| Parsers.ApiEntries | uptime-kuma-indicator/utils/parsers.js:124 | The monitor collection of a private-API payload is never nullish. |
| Parsers.NormalizeApi | uptime-kuma-indicator/utils/parsers.js:120-129 | A falsy payload, or a falsy `monitors ?? data ?? result`, gives no monitors. A truthy non-array throws. An array has every entry normalised, in order: a null or undefined entry throws a TypeError, and any other falsy entry is normalised like the rest. |
| Parsers.WorstIndex | uptime-kuma-indicator/utils/parsers.js:144-161 | The worst rank of a list stays within the priority list. |
| Parsers.SummaryStatus | uptime-kuma-indicator/utils/parsers.js:165-167 | Unknown when there are no monitors. A maintenance worst is reported as degraded, so the result is never maintenance. Otherwise it is the worst ranked status. |
| Parsers.AggregateMonitors | uptime-kuma-indicator/utils/parsers.js:131-170 | The loop's counters and worst rank equal the specification of the summary. A non-array gives the empty summary. |
| Parsers.CountsConserved | uptime-kuma-indicator/utils/parsers.js:146-162 | The four counters add up to the number of monitors. |
| Parsers.WorstIsMinimal | uptime-kuma-indicator/utils/parsers.js:157-160 | The worst rank is at most every ranked status present, and is either `up` or the rank of a status that occurs. |
| Parsers.SummaryDownIff | uptime-kuma-indicator/utils/parsers.js:144-168 | For a non-empty list the summary is `down` exactly when some monitor is down. It is `up` exactly when every monitor is up or unranked. |
| Text.LowerChar | uptime-kuma-indicator/utils/parsers.js:30 | ASCII capitals map to their lower-case letter; every other character is kept. |
| Text.ToLower | uptime-kuma-indicator/utils/parsers.js:30 | Lower-casing is character by character and keeps the length. |
| Text.ToLowerIdempotent | uptime-kuma-indicator/utils/parsers.js:30 | Lower-casing twice is lower-casing once. |
| Text.TrimStart | uptime-kuma-indicator/extension.js:417-423 | Dropping leading blanks never lengthens the text. |
| Text.TrimStartMeaning | uptime-kuma-indicator/extension.js:417-423 | The result is a suffix of the text, all that was dropped is blank, and it starts with a non-blank. |
| Text.TrimEnd | uptime-kuma-indicator/extension.js:417-423 | Dropping trailing blanks never lengthens the text. |
| Text.TrimEndMeaning | uptime-kuma-indicator/extension.js:417-423 | The result is a prefix of the text, all that was dropped is blank, and it ends with a non-blank. |
| Text.Trim | uptime-kuma-indicator/extension.js:417-423 | Trimming never lengthens the text. |
| Text.TrimHasNoOuterSpace | uptime-kuma-indicator/extension.js:417-423 | A trimmed text is empty or starts and ends with a non-blank. |
| Text.TrimIsInfix | uptime-kuma-indicator/extension.js:417-423 | A trimmed text is a contiguous slice of the original. |
| Text.TrimKeepsOut | uptime-kuma-indicator/extension.js:417-423 | Trimming introduces no character that was absent. |
| Text.TrimFixed | uptime-kuma-indicator/extension.js:417-423 | A text without outer blanks is its own trim. |
| Text.TrimIdempotent | uptime-kuma-indicator/extension.js:417-423 | Trimming twice is trimming once. |
| Text.TrimPadded | uptime-kuma-indicator/extension.js:417-423 | A blank added at either end does not change the trim. |
| Text.FindFrom | uptime-kuma-indicator/utils/network.js:131 | The first occurrence of a pattern at or after a position, or none when there is none from there on. |
| Text.FirstOccurrence | uptime-kuma-indicator/utils/network.js:131 | An occurrence with none before it is what `indexOf` finds. |
| Text.FirstAfterPrefix | uptime-kuma-indicator/utils/network.js:131 | A pattern after a prefix that lacks its first character is found right after that prefix. |
| Text.IncludesIff | uptime-kuma-indicator/utils/network.js:131 | `includes` holds exactly when the pattern occurs at some position. |
| Text.ReplaceFirst | uptime-kuma-indicator/utils/network.js:131 | Only the first occurrence is replaced, with the text around it kept. Without an occurrence the text is unchanged. |
| Text.FirstIndexOfChar | extension.js:185 | The first position of a character, or none when it is absent. |
| Text.Split | extension.js:185 | Splitting gives at least one part, and no part contains the separator. |
| Text.SplitJoin | extension.js:185 | Joining separator-free parts and splitting again gives back the parts. |
| Text.JoinSplit | extension.js:185 | Splitting a text and joining the parts gives back the text. |
| Text.NatToString | uptime-kuma-indicator/prefs.js:164 | The decimal text of a natural number is a non-empty string of digits. |
| Text.IntToString | uptime-kuma-indicator/utils/network.js:301 | The text of an integer starts with a digit, or with `-` exactly when the integer is negative. |
| Text.NatToStringRoundTrip | uptime-kuma-indicator/utils/network.js:301 | Reading the decimal text of a number gives back the number. |
| Numbers.DigitPrefix | uptime-kuma-indicator/utils/parsers.js:50 | The longest prefix of digits. |
| Numbers.Round | uptime-kuma-indicator/utils/parsers.js:48 | The result is the nearest integer, with halves rounded up. |
| Numbers.ParseInt | uptime-kuma-indicator/utils/parsers.js:74 | A parse succeeds only when the text contains a digit. |
| Numbers.ParseIntOfIntToString | uptime-kuma-indicator/utils/parsers.js:74-76 | `parseInt` reads back the decimal text of any integer. |
| Numbers.RoundOfInteger | uptime-kuma-indicator/utils/parsers.js:48 | Rounding a whole decimal gives that integer. |
| Numbers.RoundParseFloatOfIntToString | uptime-kuma-indicator/utils/parsers.js:50-54 | `parseFloat` of an integer's text is that integer, and rounding keeps it. |
| Js.NullishIsFalsy | uptime-kuma-indicator/utils/parsers.js:58-59 | Null and undefined are falsy. |
| Js.Lookup | uptime-kuma-indicator/utils/parsers.js:84 | A found property is one of the object's fields. A missing one has no field of that name. |
| Js.GetOpt | uptime-kuma-indicator/utils/network.js:234 | Optional chaining on null or undefined gives undefined. |
| Js.FirstPresent | uptime-kuma-indicator/utils/parsers.js:84-86 | The `??` chain is nullish exactly when every key is. Otherwise it is the first present key's value. |
| Js.ToStrOfString | uptime-kuma-indicator/utils/parsers.js:30 | `String()` of a string is that string. |
| Js.ObjectValues | uptime-kuma-indicator/utils/parsers.js:106 | `Object.values` returns an object's values in field order and a string's characters. Anything else gives nothing. |
| Js.Iterate | uptime-kuma-indicator/utils/parsers.js:111 | `for … of` walks exactly arrays and strings, and an array by its items. |
| Uri.Utf8 | uptime-kuma-indicator/utils/network.js:107 | A character encodes as one to four bytes, and as one byte exactly when it is ASCII. |
| Uri.EncodeChar | uptime-kuma-indicator/utils/network.js:107 | An unreserved character is kept. Any other becomes percent-escaped bytes. |
| Uri.EncodeUriComponent | uptime-kuma-indicator/utils/network.js:107 | The encoding is never shorter than the text and uses only unreserved characters, `%` and upper-case hex digits. |
| Uri.EncodeUnreservedIdentity | uptime-kuma-indicator/utils/network.js:130 | A text of unreserved characters encodes as itself. |
| Uri.EncodedHasNoSpecials | uptime-kuma-indicator/utils/network.js:130 | An encoded component contains no `$`, `/`, `{` or `}`. |
| Uri.DropTrailingSlash | uptime-kuma-indicator/utils/network.js:36 | A single trailing slash is removed. A base without one is kept. |
| Uri.DropLeadingSlash | uptime-kuma-indicator/utils/network.js:37 | A single leading slash is removed. A path without one is kept. |
| Uri.JoinUrlRules | uptime-kuma-indicator/utils/network.js:29-38 | An empty base gives the path, and an empty path gives the base. An absolute URL wins. Otherwise base and path are joined by exactly one slash. |
| Uri.JoinUrlSlashInsensitive | uptime-kuma-indicator/utils/network.js:36-38 | A slash at the end of the base or the start of the path does not change the joined URL. |
| Uri.JoinPlainPath | uptime-kuma-indicator/utils/network.js:29-38 | A relative path is appended to the base, less its trailing slash, after one slash. |
| Uri.StatusPageEndpoint | uptime-kuma-indicator/utils/network.js:127-132 | An explicit JSON URL wins. Otherwise the first `{{slug}}` of the template is replaced by the encoded slug, or `/<slug>` is appended when there is no placeholder. |
| Uri.DefaultEndpointShape | uptime-kuma-indicator/utils/network.js:129-131 | With the defaults, a plain slug gives `status/<slug>/status.json`, and an empty one gives `status/default/status.json`. |
| Uri.DefaultTemplateSplit | uptime-kuma-indicator/utils/network.js:129-131 | The default template holds its placeholder between `status/` and `/status.json`. |
| Http.OrDefault | uptime-kuma-indicator/utils/network.js:152 | `value \|\| fallback` on text: the value unless it is empty. |
| Http.ErrorOf | uptime-kuma-indicator/utils/network.js:298-303 | A thrown error is kept, and a non-2xx response becomes `HTTP <status>`. |
| Http.Attempt | uptime-kuma-indicator/utils/network.js:294-304 | An attempt on an open session is the network's answer. On a closed one it throws a TypeError. |
| Http.Tries | uptime-kuma-indicator/utils/network.js:266 | The number of attempts is `retries` when positive, otherwise none. |
| Http.FirstSuccess | uptime-kuma-indicator/utils/network.js:266-306 | The first attempt that succeeds, with every earlier attempt failing. None only if every attempt fails. |
| Http.RequestOutcome | uptime-kuma-indicator/utils/network.js:261-328 | The request succeeds exactly when some attempt does, with the first success's body. Otherwise it throws the last attempt's error, or "Unknown network error" without attempts. Attempts stop at the first success. |
| Http.SleepCount | uptime-kuma-indicator/utils/network.js:306-321 | There is one sleep after every failed attempt but the last one made. |
| Http.Grow | uptime-kuma-indicator/utils/network.js:322 | The next wait is the current one times the back-off, capped at 4000 ms. |
| Http.Wait | uptime-kuma-indicator/utils/network.js:322 | No wait exceeds 4000 ms. |
| Http.WaitPositive | uptime-kuma-indicator/utils/network.js:322 | With a positive back-off every wait is positive. |
| Http.WaitGrows | uptime-kuma-indicator/utils/network.js:322 | With a back-off of at least one the waits never shrink. |
| Http.DefaultWaits | uptime-kuma-indicator/utils/network.js:263 | The default back-off 1.6 gives 400, 640, 1024, 1638.4, 2621.44 and then 4000 ms. |
| Http.StopsAtFirstSuccess | uptime-kuma-indicator/utils/network.js:298-299 | A success at attempt k returns its body after k + 1 attempts and k sleeps. |
| Http.AllAttemptsFail | uptime-kuma-indicator/utils/network.js:325-326 | When every attempt fails, the last error is thrown after all attempts and one sleep fewer. |
| Http.ClosedSessionFails | uptime-kuma-indicator/utils/network.js:78-81 | After `destroy` every request throws a TypeError. |
| Http.Slept | uptime-kuma-indicator/utils/network.js:306-321 | No sleep follows the last allowed attempt. |
| Http.NoAttempts | uptime-kuma-indicator/utils/network.js:325-327 | Without retries nothing is attempted and "Unknown network error" is thrown. |
| Http.DecodeJson | uptime-kuma-indicator/utils/network.js:253-259 | An error passes through, empty text gives null, and other text is parsed. |
| Http.BadgeUrlShape | uptime-kuma-indicator/utils/network.js:107-109 | The badge URL is `<base>/api/badge/<encoded id>/uptime/24h` under the base. |
| Http.BadgeIdIsOneSegment | uptime-kuma-indicator/utils/network.js:107 | The encoded id adds no path segment. |
| Network.SelectMode | uptime-kuma-indicator/utils/network.js:85-86 | `metrics` and `api-key` select their modes, and anything else selects the status page. |
| Network.PreflightError | uptime-kuma-indicator/utils/network.js:142-150 | A missing base URL fails first. The private API and metrics fail without a token. The status page then never fails. |
| Network.ModeHeaders | uptime-kuma-indicator/utils/network.js:180-187 | The status page sends JSON headers. The private API sends the token as it is. Metrics send basic credentials with an empty user. |
| Network.ModeResult | uptime-kuma-indicator/utils/network.js:134-191 | A failed request passes its error on. A result names its source, and only the status page carries a heartbeat map. The private API always yields a list, from `normalizeApi`. |
| Network.StatusPageNeedsNoToken | uptime-kuma-indicator/utils/network.js:121-150 | With a base URL the status page needs no token, while the other two modes fail without one. |
| Network.MainBody | uptime-kuma-indicator/utils/network.js:273-292 | A body is attached exactly when the payload is present and not nullish. A given content type is used. |
| Network.HeartbeatLimit | uptime-kuma-indicator/utils/network.js:227 | The limit is the configured one, never below 24, and 24 by default. |
| Network.HistoryUrls | uptime-kuma-indicator/utils/network.js:239 | There is one heartbeat URL per monitor, in order. |
| Network.HistoryOf | uptime-kuma-indicator/utils/network.js:241-249 | A fetched and normalised series replaces the history. Any error keeps the old one, or `[]`. |
| Network.FillOne | uptime-kuma-indicator/utils/network.js:233-250 | Only the history changes. A monitor that has a history or lacks an id is untouched and costs no attempt. |
| Network.FillHistory | uptime-kuma-indicator/utils/network.js:233-250 | Filling keeps the number of monitors. |
| Network.HistoryFilled | uptime-kuma-indicator/utils/network.js:194-212 | `populateHistory` keeps the number of monitors. |
| Network.HistoryFilledTouchesOnlyHistory | uptime-kuma-indicator/utils/network.js:194-248 | `populateHistory` keeps every monitor in its place and changes nothing but `history`. |
| Network.FillHistoryTouchesOnlyHistory | uptime-kuma-indicator/utils/network.js:245-248 | Filling changes nothing but `history`, and only on pending monitors with an id. |
| Network.FillHistoryLeavesNoGap | uptime-kuma-indicator/utils/network.js:245-248 | When the normaliser always yields a value, every pending monitor with an id leaves with a non-nullish history. |
| Network.MonitorFetcher.constructor | uptime-kuma-indicator/utils/network.js:58-69 | A new fetcher has an open session, no timeouts and the given retry settings. |
| Network.MonitorFetcher.Destroy | uptime-kuma-indicator/utils/network.js:71-82 | Every pending timeout is removed and the session is dropped. |
| Network.MonitorFetcher.AddTimeout | uptime-kuma-indicator/utils/network.js:309-319 | A fresh source id is tracked and the sleep is recorded. |
| Network.MonitorFetcher.FireTimeout | uptime-kuma-indicator/utils/network.js:310 | A fired source is forgotten, and nothing else changes. |
| Network.MonitorFetcher.Sleep | uptime-kuma-indicator/utils/network.js:308-320 | A sleep is recorded, and its timeout is gone once it ends. |
| Network.MonitorFetcher.Request | uptime-kuma-indicator/utils/network.js:261-328 | The retry loop returns what the request specification says and sleeps the specified waits. No timeout is left behind. |
| Network.MonitorFetcher.GetJson | uptime-kuma-indicator/utils/network.js:253-259 | The result is the request's text, decoded as JSON. |
| Network.MonitorFetcher.FetchStatusPage | uptime-kuma-indicator/utils/network.js:121-140 | Without a base URL it fails without a request. Otherwise it requests the status-page endpoint and normalises the payload. |
| Network.MonitorFetcher.FetchPrivateApi | uptime-kuma-indicator/utils/network.js:142-164 | The preflight failures come first. Otherwise the authorised monitor list is requested and normalised. |
| Network.MonitorFetcher.FetchMetrics | uptime-kuma-indicator/utils/network.js:166-192 | The preflight failures come first. Otherwise the metrics text is requested with basic credentials. |
| Network.MonitorFetcher.Fetch | uptime-kuma-indicator/utils/network.js:84-96 | Fetching dispatches on the mode with that mode's preflight, URL, headers and result. |
| Network.MonitorFetcher.FetchUptimeBadge | uptime-kuma-indicator/utils/network.js:98-119 | No id gives no badge and no request. A missing base URL throws. Otherwise the badge URL is requested. |
| Network.MonitorFetcher.FetchHistoryOf | uptime-kuma-indicator/utils/network.js:233-250 | The loop body fills one monitor as specified by its fill function, with as many attempts. |
| Network.MonitorFetcher.PopulatePrivateApiHistory | uptime-kuma-indicator/utils/network.js:214-251 | Without a base URL or token nothing changes. Otherwise every pending monitor with an id gets its series, in order. |
| Network.MonitorFetcher.PopulateHistory | uptime-kuma-indicator/utils/network.js:194-212 | Only the private-API mode with a list fills histories. Every other case leaves the monitors as they are. The list afterwards is `HistoryFilled` of the list. |
| BuildNetwork.SelectBuildMode | uptime-kuma-indicator/build/uptime-kuma-indicator@dumke/utils/network.js:79 | Only `api-key` selects the private API, and metrics is never selected. |
| BuildNetwork.MetricsFallsBackToStatusPage | uptime-kuma-indicator/build/uptime-kuma-indicator@dumke/utils/network.js:79 | The `metrics` mode that the main copy honours reads the status page in the build copy. |
| BuildNetwork.BuildBody | uptime-kuma-indicator/build/uptime-kuma-indicator@dumke/utils/network.js:176-191 | A body is attached exactly when the payload is truthy. |
| BuildNetwork.BodiesOfTheTwoFetchers | uptime-kuma-indicator/build/uptime-kuma-indicator@dumke/utils/network.js:176-191 | The copies differ only in labelling GLib bytes and in dropping empty or falsy bodies. Otherwise both attach the same body. |
| BuildNetwork.BuildHeaders | uptime-kuma-indicator/build/uptime-kuma-indicator@dumke/utils/network.js:146-151 | JSON is always accepted. The private API adds the token, and the status page sends no authorisation. |
| BuildNetwork.SameHeadersAsMain | uptime-kuma-indicator/build/uptime-kuma-indicator@dumke/utils/network.js:146-151 | In the shared modes both copies send the same headers. |
| BuildNetwork.BuildModeResult | uptime-kuma-indicator/build/uptime-kuma-indicator@dumke/utils/network.js:127-153 | An error passes on. A result names its source and always holds a list. |
| BuildNetwork.BuildMonitorFetcher.constructor | uptime-kuma-indicator/build/uptime-kuma-indicator@dumke/utils/network.js:66-76 | A new fetcher starts with the given retry settings and no attempts or sleeps. |
| BuildNetwork.BuildMonitorFetcher.SleepAsync | uptime-kuma-indicator/build/uptime-kuma-indicator@dumke/utils/network.js:56-63 | A sleep is recorded and is not tracked. |
| BuildNetwork.BuildMonitorFetcher.Request | uptime-kuma-indicator/build/uptime-kuma-indicator@dumke/utils/network.js:164-214 | The request follows the same retry specification as the main copy, on a session that is always open. |
| BuildNetwork.BuildMonitorFetcher.GetJson | uptime-kuma-indicator/build/uptime-kuma-indicator@dumke/utils/network.js:156-162 | The result is the request's text, decoded as JSON. |
| BuildNetwork.BuildMonitorFetcher.FetchStatusPage | uptime-kuma-indicator/build/uptime-kuma-indicator@dumke/utils/network.js:111-130 | Without a base URL it fails without a request. Otherwise the status page is requested and normalised. |
| BuildNetwork.BuildMonitorFetcher.FetchPrivateApi | uptime-kuma-indicator/build/uptime-kuma-indicator@dumke/utils/network.js:132-154 | The preflight failures come first. Otherwise the monitor list is requested and normalised. |
| BuildNetwork.BuildMonitorFetcher.Fetch | uptime-kuma-indicator/build/uptime-kuma-indicator@dumke/utils/network.js:78-86 | The private API is used for `api-key`, and the status page for everything else. |
| BuildNetwork.BuildMonitorFetcher.FetchUptimeBadge | uptime-kuma-indicator/build/uptime-kuma-indicator@dumke/utils/network.js:88-109 | The badge behaves as in the main copy. |
| Sparkline.ReadSample | uptime-kuma-indicator/utils/sparkline.js:25-28 | The status is the text status or `unknown`, and the timestamp is numeric or 0. |
| Sparkline.ReadSamples | uptime-kuma-indicator/utils/sparkline.js:23-28 | Reading never adds samples. |
| Sparkline.Insert | uptime-kuma-indicator/utils/sparkline.js:29 | Inserting adds exactly one sample to the multiset. |
| Sparkline.SortByTime | uptime-kuma-indicator/utils/sparkline.js:29 | Sorting is a permutation of the samples. |
| Sparkline.InsertSorted | uptime-kuma-indicator/utils/sparkline.js:29 | Inserting into a time-ordered series keeps it ordered. |
| Sparkline.InsertAtTime | uptime-kuma-indicator/utils/sparkline.js:29 | An inserted sample goes after the samples with its timestamp. |
| Sparkline.SortByTimeCorrect | uptime-kuma-indicator/utils/sparkline.js:29 | The series is sorted by time, is a permutation, and keeps equal stamps in order (stable). |
| Sparkline.SortByTimeOfSorted | uptime-kuma-indicator/utils/sparkline.js:29 | A sorted series is unchanged by sorting. |
| Sparkline.Sanitize | uptime-kuma-indicator/utils/sparkline.js:19-30 | A non-array gives no samples, and an array gives at most its length. |
| Sparkline.SanitizeCorrect | uptime-kuma-indicator/utils/sparkline.js:19-30 | The sanitised series is sorted and is a stable permutation of the truthy elements read in order. |
| Sparkline.StrideIndex | uptime-kuma-indicator/utils/sparkline.js:76-79 | A down-sampled position lies within the source series. |
| Sparkline.StrideBound | uptime-kuma-indicator/utils/sparkline.js:76-80 | The floor stride of every bar stays below the source length. |
| Sparkline.StrideIncreasing | uptime-kuma-indicator/utils/sparkline.js:76-80 | Down-sampling picks strictly increasing positions. |
| Sparkline.Padding | uptime-kuma-indicator/utils/sparkline.js:84 | The padding is n placeholders. |
| Sparkline.Resample | uptime-kuma-indicator/utils/sparkline.js:72-88 | There are always exactly `target` bars. |
| Sparkline.ResampleCases | uptime-kuma-indicator/utils/sparkline.js:72-88 | No samples gives placeholders. Fewer samples are padded at the front, and more are down-sampled by floor stride. The right length is kept. |
| Sparkline.ResampleIdempotent | uptime-kuma-indicator/utils/sparkline.js:72-88 | Resampling again changes nothing. |
| Sparkline.SparklineModel.constructor | uptime-kuma-indicator/utils/sparkline.js:49-66 | A new sparkline has no samples, the given sizes and no repaint. |
| Sparkline.SparklineModel.SetSamples | uptime-kuma-indicator/utils/sparkline.js:68-91 | The series becomes the resampled sanitised input, and one repaint is queued. |
| Sparkline.SparklineModel.SetMode | uptime-kuma-indicator/utils/sparkline.js:93-96 | The width is compact exactly for `compact`, and the samples are kept. |
| Sparkline.SparklineModel.Clear | uptime-kuma-indicator/utils/sparkline.js:98-104 | The series is dropped, with a repaint only when it was not already empty. |
| Indicator.FormatRelative | uptime-kuma-indicator/extension.js:55-75 | Every unit's count lies within that unit's range. |
| Indicator.FormatRelativeMeaning | uptime-kuma-indicator/extension.js:55-75 | The chained floors equal one floor by the unit length, and the unit is the largest one the delta fills. |
| Indicator.FutureIsNow | uptime-kuma-indicator/extension.js:56 | A future check reads as now. |
| Indicator.RelativeText | uptime-kuma-indicator/extension.js:59-74 | The text is `<n> <unit>… ago`. |
| Indicator.SelectedOnly | uptime-kuma-indicator/extension.js:520-526 | Filtering never adds monitors. |
| Indicator.SelectedOnlyMembers | uptime-kuma-indicator/extension.js:520-526 | The filter keeps exactly the monitors whose id text is selected. |
| Indicator.SelectedOnlyAppend | uptime-kuma-indicator/extension.js:522-526 | Filtering keeps the order. |
| Indicator.MapFilled | uptime-kuma-indicator/extension.js:609-628 | Filling from the heartbeat map keeps the list length. |
| Indicator.CacheFilled | uptime-kuma-indicator/extension.js:630-637 | Filling from the cache keeps the list length. |
| Indicator.FillOrder | uptime-kuma-indicator/extension.js:605-647 | An existing history is kept and the map wins over the cache. Only `history` changes. |
| Indicator.CachedMonitorsAreFilled | uptime-kuma-indicator/extension.js:630-637 | A monitor whose id is cached leaves the fill with a history. |
| Indicator.CachedAfterMeaning | uptime-kuma-indicator/extension.js:649-661 | Caching adds exactly the keys of truthy-id monitors with a series and keeps every entry non-empty. |
| Indicator.Listed | uptime-kuma-indicator/extension.js:568-579 | A falsy id is completed and a truthy one kept. Only the id and relative time change. |
| Indicator.ListedAll | uptime-kuma-indicator/extension.js:564-579 | Listing keeps the number of monitors. |
| Indicator.RowsOfKeys | uptime-kuma-indicator/extension.js:581-602 | The rows are keyed exactly by the listed ids. |
| Indicator.RowsOfLast | uptime-kuma-indicator/extension.js:581-588 | Each row shows the last monitor listed with its id. |
| Indicator.Transition | uptime-kuma-indicator/extension.js:735-767 | A first sighting raises nothing. Going down raises an offline notice, and coming back up raises a recovery notice only when enabled. |
| Indicator.StatesAfterKeys | uptime-kuma-indicator/extension.js:735-767 | The stored statuses are keyed by the old keys plus this call's ids. |
| Indicator.StatesAfterLast | uptime-kuma-indicator/extension.js:766 | The last monitor with an id decides its stored status. |
| Indicator.StatesAfterKeepsOthers | uptime-kuma-indicator/extension.js:731-768 | Ids not in this call keep their stored status. |
| Indicator.NoticesAfterMeaning | uptime-kuma-indicator/extension.js:741-763 | There is at most one notice per monitor; only offline ones without recovery notices; none for new monitors. |
| Indicator.BucketsKeys | uptime-kuma-indicator/extension.js:691-705 | The key order lists each timestamp present exactly once, and the buckets are keyed by it. |
| Indicator.BucketsValues | uptime-kuma-indicator/extension.js:693-705 | Each bucket holds the statuses stamped with its key, in order, and is never empty. |
| Indicator.StatusesAtAbsent | uptime-kuma-indicator/extension.js:701-703 | A timestamp no sample has gets no statuses. |
| Indicator.WorstOfMinimal | uptime-kuma-indicator/extension.js:716-722 | A bucket's worst status is ranked, no better than any ranked entry, and is `up` or an entry. |
| Indicator.Collapse | uptime-kuma-indicator/extension.js:724-725 | Maintenance is never shown. |
| Indicator.SortInts | uptime-kuma-indicator/extension.js:710 | Sorting is a permutation. |
| Indicator.SortIntsIncreasing | uptime-kuma-indicator/extension.js:710 | Distinct timestamps sort strictly ascending. |
| Indicator.ComposeAscending | uptime-kuma-indicator/extension.js:710-728 | The merged series is strictly ascending in time. |
| Indicator.ComposeStamps | uptime-kuma-indicator/extension.js:710 | There is one point per sorted distinct timestamp. |
| Indicator.ComposeOnlySampleStamps | uptime-kuma-indicator/extension.js:693-711 | Every point is stamped like some usable sample. |
| Indicator.ComposeCoversSample | uptime-kuma-indicator/extension.js:693-711 | Every usable sample's timestamp has a point. |
| Indicator.ComposeWorst | uptime-kuma-indicator/extension.js:711-727 | Each point carries the worst status stamped so, never maintenance. |
| Indicator.ReadPoint | uptime-kuma-indicator/extension.js:727 | A point object reads back as the same sample. |
| Indicator.ReadSeries | uptime-kuma-indicator/extension.js:684 | The summary series reads back as its points. |
| Indicator.SummarySeriesKept | uptime-kuma-indicator/extension.js:683-684 | Sanitising the merged series neither drops nor reorders a point. |
| Indicator.LoadConfigMeaning | uptime-kuma-indicator/extension.js:416-433 | Text settings are trimmed and defaulted, and the interval is at least ten seconds. |
| Indicator.LoadConfigDefaults | uptime-kuma-indicator/extension.js:418-427 | Empty settings give the status page, normal appearance, info logging and ten seconds. |
| Indicator.SparklineMode | uptime-kuma-indicator/extension.js:451 | The mode is `compact` exactly for `compact`, otherwise `normal`. |
| Indicator.UsesMockMeaning | uptime-kuma-indicator/extension.js:508 | Mock data is used exactly without a base URL. The demo switch never changes that. |
| Indicator.LookupApiKey | uptime-kuma-indicator/extension.js:804-808 | The token is given exactly when it is non-empty. |
| Indicator.DotClass | uptime-kuma-indicator/extension.js:795-802 | Each status maps to its dot class both ways, and any other status maps to unknown. |
| Indicator.DotClassOfSummary | uptime-kuma-indicator/extension.js:670 | The summary's four statuses get four distinct dots. |
| Indicator.LevelIndex | uptime-kuma-indicator/extension.js:840 | The index of a log level, -1 exactly when it is unknown. |
| Indicator.LevelIndexFor | uptime-kuma-indicator/extension.js:459-463 | The threshold is the configured level, with `info` for an unknown one. |
| Indicator.LoggedMeaning | uptime-kuma-indicator/extension.js:839-852 | Errors are always written. Unknown levels are written as debug. Debug needs the debug threshold, and info needs at least info. |
| Indicator.TransitionLogMeaning | uptime-kuma-indicator/extension.js:752-761 | Below the info threshold no status change is logged. From it on there is exactly one info line per notice sent. |
| Indicator.StatusChanges | uptime-kuma-indicator/extension.js:731-768 | The loop gives the stored statuses, the notices and the info lines of the specification. |
| Indicator.PrepareLogMeaning | uptime-kuma-indicator/extension.js:507-528 | Nothing is logged below the info threshold or after a failed request. The mock notice is an info line. The filter count is a debug line, written only with selected services configured. |
| Indicator.PopulatedByFetcher | uptime-kuma-indicator/extension.js:605-647 | With the fetcher's `populateHistory` as the back-fill, filling keeps every monitor in its place and changes only `history`. |
| Indicator.PreparedMeaning | uptime-kuma-indicator/extension.js:503-531 | A refresh fails exactly when its request fails or yields no list. Mock data never fails. The fill runs only with the sparkline shown. |
| Indicator.AddSamples | uptime-kuma-indicator/extension.js:695-704 | The inner loop extends the buckets and key order by one monitor's usable samples. |
| Indicator.CollectBuckets | uptime-kuma-indicator/extension.js:691-705 | The first pass builds the buckets and key order of all usable samples. |
| Indicator.WorstStatus | uptime-kuma-indicator/extension.js:716-722 | The bucket loop finds the specified worst status. |
| Indicator.PointsOf | uptime-kuma-indicator/extension.js:711-728 | The second pass gives one point per timestamp. |
| Indicator.ComposeSummaryHistory | uptime-kuma-indicator/extension.js:687-729 | Both passes together equal the merged-series specification. |
| Indicator.KumaIndicator.constructor | uptime-kuma-indicator/extension.js:241-314 | The indicator starts idle, with the loaded configuration, a fresh fetcher and a sized sparkline. |
| Indicator.KumaIndicator.LoadSettings | uptime-kuma-indicator/extension.js:416-440 | The configuration is read from the settings and applied. |
| Indicator.KumaIndicator.ApplyConfig | uptime-kuma-indicator/extension.js:442-479 | The configuration sets the sparkline's mode and log threshold. A hidden sparkline is emptied. |
| Indicator.KumaIndicator.UpdateLogLevel | uptime-kuma-indicator/extension.js:459-463 | The threshold follows the configured level. |
| Indicator.KumaIndicator.Log | uptime-kuma-indicator/extension.js:839-852 | The console gains exactly the lines the threshold allows. |
| Indicator.KumaIndicator.BeginRefresh | uptime-kuma-indicator/extension.js:493-501 | A refresh starts only when none is running. Otherwise a skip is logged. |
| Indicator.KumaIndicator.RefreshFailed | uptime-kuma-indicator/extension.js:538-545 | A failure logs, shows the error state and releases the guard. |
| Indicator.KumaIndicator.RefreshSucceeded | uptime-kuma-indicator/extension.js:530-545 | Success shows the listed monitors, transitions, summary and cache, writes the info line of each status change, and releases the guard. |
| Indicator.KumaIndicator.FailRefresh | uptime-kuma-indicator/extension.js:538-540 | The error is logged and shown. |
| Indicator.KumaIndicator.ShowMonitors | uptime-kuma-indicator/extension.js:532-535 | The panel shows the listed monitors as specified, and the log gains the info lines of their status changes. |
| Indicator.KumaIndicator.ShowListed | uptime-kuma-indicator/extension.js:533-535 | Statuses, notices, summary and cache follow the listed monitors, and the log gains the info lines of their status changes. |
| Indicator.KumaIndicator.PrepareMonitors | uptime-kuma-indicator/extension.js:503-531 | The list shown, or the error thrown, is as specified. One back-fill is requested only when needed. The log gains the mock notice and the filter count, as `PrepareLog` says. |
| Indicator.KumaIndicator.PopulateMonitorHistory | uptime-kuma-indicator/extension.js:605-647 | The map, then the cache, then the fetcher only for a gap. |
| Indicator.KumaIndicator.UpdateMonitorList | uptime-kuma-indicator/extension.js:564-603 | The rows are exactly the listed ids with their last monitor. |
| Indicator.KumaIndicator.CheckForStatusChanges | uptime-kuma-indicator/extension.js:731-768 | With notifications on, the statuses, notices and info lines are updated as specified. Otherwise nothing changes. |
| Indicator.KumaIndicator.UpdateSummary | uptime-kuma-indicator/extension.js:663-685 | The summary, label, dot and sparkline follow the monitors. |
| Indicator.KumaIndicator.CacheMonitorHistory | uptime-kuma-indicator/extension.js:649-661 | The cache gains the series as specified and stays non-empty. |
| Indicator.KumaIndicator.SetErrorState | uptime-kuma-indicator/extension.js:548-562 | The error state has the empty summary, the error label and the unknown dot. |
| Indicator.KumaIndicator.Stop | uptime-kuma-indicator/extension.js:334-368 | Rows and cache are dropped, the sparkline is cleared, and the fetcher is destroyed and released. |
| Legacy.StatusText | extension.js:14-19 | A known code gets its text, and any other gets `Unknown`. |
| Legacy.StatusIcon | extension.js:21-26 | A known code gets its icon, and any other gets the default icon. |
| Legacy.NormalizeStatusCode | extension.js:341-358 | Numbers are kept. Known words give their codes, and anything else is pending. |
| Legacy.NormalizeIgnoresCase | extension.js:346 | Status words match in any case. |
| Legacy.StatusTextRoundTrip | extension.js:341-358 | A known code's text normalises back to that code. |
| Legacy.StatusScore | extension.js:229-241 | The scores are up 3, pending 2, maintenance 1 and otherwise 0. |
| Legacy.RefreshInterval | extension.js:156 | The refresh period is never below 10 seconds. |
| Legacy.FindMonitors | extension.js:321-339 | The recursive search finds the monitors as specified by kind. |
| Legacy.FindMonitorsOfAppend | extension.js:325-326 | Searching an array is searching its parts in turn. |
| Legacy.FindMonitorsThroughWrapper | extension.js:332-336 | A wrapping object under another key finds the same monitors. |
| Legacy.ShapeMonitor | extension.js:304-312 | The status is the first present key, the name defaults to "Monitor", and the description falls back. |
| Legacy.DedupeKey | extension.js:300 | The key is `id:` for a truthy id, else `name:`, else none. |
| Legacy.Kept | extension.js:296-316 | Every kept position is among the first n entries and passes the id filter. |
| Legacy.KeptIncreasing | extension.js:296-316 | The kept positions increase, so the rows keep payload order. |
| Legacy.KeptKeysDistinct | extension.js:300-302 | No two kept monitors share a key. |
| Legacy.KeptComplete | extension.js:296-316 | A filtered-in entry that is dropped has a key already kept. |
| Legacy.KeptAllWithoutKeys | extension.js:300-301 | Without a filter, every keyless monitor is kept. |
| Legacy.ExtractMonitors | extension.js:291-319 | The loop gives the rows of the kept monitors, or a TypeError for a nullish entry. |
| Legacy.WorstIndex | extension.js:216-223 | The shown monitor is the first one with the lowest score. |
| Legacy.WorstIndexKeepsEarlier | extension.js:216-223 | Rows added later that are no worse do not change the pick. |
| Legacy.PanelStatus | extension.js:210-227 | With no rows, `No data` and the warning icon. Otherwise the text and icon of the first row of lowest score: no row scores lower, and every earlier row scores higher. |
| Legacy.MonitorMenu | extension.js:248-276 | With no rows, the placeholder. Otherwise one line per row in order, then a separator, then `Last update: ` and the clock. |
| Legacy.BuildUrl | extension.js:278-289 | A blank server gives no URL. Otherwise the endpoint is chosen by whether the slug is blank. |
| Legacy.BuildUrlIgnoresBlanks | extension.js:279-283 | Blanks around either setting do not change the URL. |
| Legacy.BuildUrlTrailingSlash | extension.js:284 | One trailing slash on the server gives the same URL. |
| Legacy.TrimmedNonEmpty | extension.js:185-187 | Trimming and dropping blank parts never adds a part. |
| Legacy.TrimmedNonEmptyClean | extension.js:185-187 | Every kept part is non-blank and trimmed. |
| Legacy.ParseMonitorIdsClean | extension.js:183-187 | Every parsed id is non-blank, trimmed and comma-free. |
| Legacy.ParseMonitorIdsOfJoin | extension.js:183-187 | Clean ids joined by commas parse back. |
| Legacy.GetResult | extension.js:66-92 | A 2xx status gives the body, and any other an error naming the status. |
| Legacy.RefreshOutcome | extension.js:179-194 | The response is parsed, filtered and extracted as specified. |
| Legacy.LegacyIndicator.constructor | extension.js:97-118 | The indicator starts not refreshing, with the initial status. |
| Legacy.LegacyIndicator.SetStatus | extension.js:243-246 | The panel shows the given text and icon. |
| Legacy.LegacyIndicator.Refresh | extension.js:163-177 | A running refresh does nothing. A missing server shows the hint. Otherwise the URL is returned and "Updating…" shown. |
| Legacy.LegacyIndicator.FinishRefresh | extension.js:179-207 | Success shows the worst monitor and the rows. An error shows "Error" and the reason. The flag is released. |
| Services.ServiceOf | uptime-kuma-indicator/prefs.js:359-362 | A service holds the id as text and the name. |
| Services.PickedOk | uptime-kuma-indicator/prefs.js:357-358 | Extraction fails exactly when a monitor is nullish. |
| Services.PickedAppend | uptime-kuma-indicator/prefs.js:355-365 | Extracting a concatenation extracts each part in turn. |
| Services.PickedAllEligible | uptime-kuma-indicator/prefs.js:381-388 | When every monitor has an id and a name, every one becomes a service, in order. |
| Services.PickedDropsIneligible | uptime-kuma-indicator/prefs.js:382 | A monitor lacking an id or a name leaves no trace. |
| Services.ListOf | uptime-kuma-indicator/prefs.js:352-356 | A falsy value walks as empty, and a non-iterable one throws. |
| Services.PickedGroupsFlatten | uptime-kuma-indicator/prefs.js:355-365 | The groups' lists are flattened in order. |
| Services.PickedGroupsErrExtends | uptime-kuma-indicator/prefs.js:355-365 | A failure in the groups seen stays a failure as more are added. |
| Services.PickServices | uptime-kuma-indicator/prefs.js:381-388 | The loop equals the extraction specification. |
| Services.PrivateApiList | uptime-kuma-indicator/prefs.js:370-391 | The private-API loop equals its specification. |
| Services.StatusPageList | uptime-kuma-indicator/prefs.js:350-367 | The nested status-page loops equal their specification. |
| Services.ServiceJson | uptime-kuma-indicator/prefs.js:413-441 | A non-2xx status rejects with `HTTP <status>`. Otherwise the body is parsed. |
| Services.ServiceItems | uptime-kuma-indicator/prefs.js:184-191 | "(None)" comes first, then the service labels in order. |
| Services.SelectedIndex | uptime-kuma-indicator/prefs.js:195-198 | The position is one past the service's index, or 0 when it is absent. |
| Services.SelectedIndexOfChoice | uptime-kuma-indicator/prefs.js:507-509 | With unique ids, a chosen position reads back as itself. |
| Prefs.Put | uptime-kuma-indicator/prefs.js:407 | A known id keeps its place and takes the new name. A new id goes last. |
| Prefs.PutName | uptime-kuma-indicator/prefs.js:407 | After a put the id bears the new name, and others keep theirs. |
| Prefs.PutDistinct | uptime-kuma-indicator/prefs.js:402-410 | A put keeps ids distinct. |
| Prefs.DedupedDistinct | uptime-kuma-indicator/prefs.js:402-410 | Every id appears once. |
| Prefs.DedupedLastNameWins | uptime-kuma-indicator/prefs.js:404-408 | Each id keeps the last name seen for it. |
| Prefs.DedupedFirstSeenOrder | uptime-kuma-indicator/prefs.js:410 | The ids stay in first-seen order. |
| Prefs.MetricsList | uptime-kuma-indicator/prefs.js:401-410 | The metrics loop equals the de-duplication specification. |
| Prefs.NewDropdown | uptime-kuma-indicator/prefs.js:162-204 | A new dropdown is well formed and shows its target. |
| Prefs.ListedDropdown | uptime-kuma-indicator/prefs.js:188-199 | After a fetch it lists the services, with the target selected when offered. |
| Prefs.PlaceholderDropdown | uptime-kuma-indicator/prefs.js:200-204 | Before a fetch the saved id is shown as a selected placeholder. |
| Prefs.Refreshed | uptime-kuma-indicator/prefs.js:488-515 | A refreshed dropdown lists the services and selects its target when offered. |
| Prefs.RefreshAll | uptime-kuma-indicator/prefs.js:487-516 | There is one refreshed dropdown per dropdown. |
| Prefs.Retargeted | uptime-kuma-indicator/prefs.js:531-541 | The target becomes the chosen service, or none. |
| Prefs.RetargetAll | uptime-kuma-indicator/prefs.js:531-542 | Every dropdown is retargeted. |
| Prefs.Chosen | uptime-kuma-indicator/prefs.js:529-535 | The saved list is the chosen ids, dropdown by dropdown. |
| Prefs.RefreshKeepsOfferedTargets | uptime-kuma-indicator/prefs.js:482-521 | After a refresh, saving keeps exactly the targets still offered, in order. |
| Prefs.NothingChosenBeforeFetch | uptime-kuma-indicator/prefs.js:529-544 | Before any fetch, saving the selection clears it. |
| Prefs.RetargetLoop | uptime-kuma-indicator/prefs.js:529-542 | The loop equals retargeting plus collecting the chosen ids. |
| Prefs.Renumbered | uptime-kuma-indicator/prefs.js:270-272 | The same rows in the same order, titled 1..n. |
| Prefs.IndexOfRow | uptime-kuma-indicator/prefs.js:262-263 | The position of a row, or none when it is absent. |
| Prefs.InitialDropdowns | uptime-kuma-indicator/prefs.js:142-160 | One dropdown per saved id, or one empty dropdown. |
| Prefs.SavedDropdowns | uptime-kuma-indicator/prefs.js:154-156 | One dropdown per saved id, in order. |
| Prefs.TrailingBlankSchedulesNothing | uptime-kuma-indicator/prefs.js:82-85 | A trailing blank on the base URL schedules no fetch. |
| Prefs.RequestFor | uptime-kuma-indicator/prefs.js:302-327 | Each mode requests its own endpoint. |
| Prefs.RequestMatchesFetcher | uptime-kuma-indicator/prefs.js:340-348 | The window asks the endpoints the fetcher reads. |
| Prefs.ServiceText | uptime-kuma-indicator/prefs.js:443-471 | A non-2xx status rejects, and otherwise the body is returned. |
| Prefs.GuardedRequest | uptime-kuma-indicator/prefs.js:286-327 | No request while fetching, without a base URL, or without a needed token. |
| Prefs.GuardToasts | uptime-kuma-indicator/prefs.js:295-317 | The toast names the missing setting. |
| Prefs.RequestOrToast | uptime-kuma-indicator/prefs.js:295-327 | Unless a fetch is running, an attempt either makes a request or names the missing setting. |
| Prefs.PreferencesBuilder.constructor | uptime-kuma-indicator/prefs.js:19-31 | The mode is forced to metrics, the initial fetch is armed when both settings are set, and the rows are rebuilt. |
| Prefs.PreferencesBuilder.CreateServiceRow | uptime-kuma-indicator/prefs.js:162-235 | One row and dropdown are appended. |
| Prefs.PreferencesBuilder.UpdateAddButtonVisibility | uptime-kuma-indicator/prefs.js:278-282 | The add button shows exactly while there are fewer than ten rows. |
| Prefs.PreferencesBuilder.RebuildServiceRows | uptime-kuma-indicator/prefs.js:142-160 | The rows of the saved selection are rebuilt from scratch. |
| Prefs.PreferencesBuilder.CreateSavedRows | uptime-kuma-indicator/prefs.js:154-156 | There is one row per saved id. |
| Prefs.PreferencesBuilder.OnServiceSelected | uptime-kuma-indicator/prefs.js:523-545 | Nothing happens during a refresh. Otherwise the targets are retargeted and the ids saved. |
| Prefs.PreferencesBuilder.UpdateServiceDropdowns | uptime-kuma-indicator/prefs.js:482-521 | Every dropdown is refreshed with the guard set only meanwhile. |
| Prefs.PreferencesBuilder.ChooseService | uptime-kuma-indicator/prefs.js:206 | Picking the entry already selected fires no `notify::selected` and changes nothing. Otherwise the entry is selected and the handler runs: retarget and save, unless a refresh is under way. |
| Prefs.PreferencesBuilder.AddServiceRow | uptime-kuma-indicator/prefs.js:249-259 | At ten rows a toast is shown. Otherwise an empty row is added and the selection saved. |
| Prefs.PreferencesBuilder.AppendServiceRow | uptime-kuma-indicator/prefs.js:256-258 | One empty row is added at the end. |
| Prefs.PreferencesBuilder.RemoveServiceRow | uptime-kuma-indicator/prefs.js:261-276 | An unknown row changes nothing. Otherwise its position leaves both lists and the rest are renumbered. |
| Prefs.PreferencesBuilder.RemoveRowAt | uptime-kuma-indicator/prefs.js:265-275 | The same position leaves both lists. |
| Prefs.PreferencesBuilder.RenumberRows | uptime-kuma-indicator/prefs.js:270-272 | The rows are retitled by position. |
| Prefs.PreferencesBuilder.ScheduleAutoFetch | uptime-kuma-indicator/prefs.js:563-585 | A pending fetch is cancelled. A new one is armed only for a changed, complete pair. |
| Prefs.PreferencesBuilder.SetBaseUrl | uptime-kuma-indicator/prefs.js:82-85 | The trimmed URL is stored and an auto-fetch considered. |
| Prefs.PreferencesBuilder.SetApiKey | uptime-kuma-indicator/prefs.js:97-100 | The trimmed token is stored and an auto-fetch considered. |
| Prefs.PreferencesBuilder.BeginFetch | uptime-kuma-indicator/prefs.js:284-327 | The guarded request is returned, or the toast is shown. |
| Prefs.PreferencesBuilder.FireInitialFetch | uptime-kuma-indicator/prefs.js:547-561 | The initial timer runs the fetch. |
| Prefs.PreferencesBuilder.FireAutoFetch | uptime-kuma-indicator/prefs.js:579-583 | The auto timer runs the fetch and forgets its id. |
| Prefs.PreferencesBuilder.FinishFetch | uptime-kuma-indicator/prefs.js:329-337 | Success replaces the services and refreshes the dropdowns. Failure shows a toast. The flag is released. |
| BuildPrefs.EffectiveMode | uptime-kuma-indicator/build/uptime-kuma-indicator@dumke/prefs.js:474 | The effective mode is `api-key` exactly for `api-key`, otherwise `status-page`. |
| BuildPrefs.ModeIndex | uptime-kuma-indicator/build/uptime-kuma-indicator@dumke/prefs.js:92-97 | The mode dropdown shows position 1 exactly for `api-key`. |
| BuildPrefs.ModeOfIndex | uptime-kuma-indicator/build/uptime-kuma-indicator@dumke/prefs.js:92-97 | Position 1 stores `api-key`, and otherwise `status-page` is stored. |
| BuildPrefs.ModeIndexRoundTrip | uptime-kuma-indicator/build/uptime-kuma-indicator@dumke/prefs.js:92-97 | A chosen position reads back as itself. |
| BuildPrefs.ModeOfIndexRoundTrip | uptime-kuma-indicator/build/uptime-kuma-indicator@dumke/prefs.js:92-97 | Storing a read mode again keeps its effect. |
| BuildPrefs.VisibilityFor | uptime-kuma-indicator/build/uptime-kuma-indicator@dumke/prefs.js:473-495 | The status widgets show exactly outside `api-key`, and the API widgets exactly in it. |
| BuildPrefs.VisibilityMatchesFetcher | uptime-kuma-indicator/build/uptime-kuma-indicator@dumke/prefs.js:473-495 | Exactly one group shows, the one the packaged fetcher reads. |
| BuildPrefs.SavedAt | uptime-kuma-indicator/build/uptime-kuma-indicator@dumke/prefs.js:171-199 | The saved id for a dropdown, when it is present and non-empty. |
| BuildPrefs.InitialPicker | uptime-kuma-indicator/build/uptime-kuma-indicator@dumke/prefs.js:171-199 | "(None)" comes first, plus the saved id selected when there is one. |
| BuildPrefs.InitialPickers | uptime-kuma-indicator/build/uptime-kuma-indicator@dumke/prefs.js:171-199 | There are four initial dropdowns. |
| BuildPrefs.RefreshedPicker | uptime-kuma-indicator/build/uptime-kuma-indicator@dumke/prefs.js:342-371 | The services are listed, and the saved id is selected exactly when offered. |
| BuildPrefs.RefreshedPickers | uptime-kuma-indicator/build/uptime-kuma-indicator@dumke/prefs.js:342-371 | Every dropdown is refreshed by its saved id. |
| BuildPrefs.SavedIds | uptime-kuma-indicator/build/uptime-kuma-indicator@dumke/prefs.js:373-385 | There are no more ids than dropdowns, and each is the id of an offered service. One id is saved per dropdown when every dropdown picks a service, and none when none does. |
| BuildPrefs.RefreshKeepsOfferedSaved | uptime-kuma-indicator/build/uptime-kuma-indicator@dumke/prefs.js:342-371 | After a refresh, saving keeps exactly the saved ids still offered. |
| BuildPrefs.OfferedSavedAll | uptime-kuma-indicator/build/uptime-kuma-indicator@dumke/prefs.js:342-371 | Saved ids that are all offered are kept as they are. |
| BuildPrefs.OfferedSelectionSurvivesFetch | uptime-kuma-indicator/build/uptime-kuma-indicator@dumke/prefs.js:342-371 | Up to four offered saved ids survive a fetch. |
| BuildPrefs.BuildRequest | uptime-kuma-indicator/build/uptime-kuma-indicator@dumke/prefs.js:210-236 | The private API is used for `api-key` and the status page otherwise, never metrics. |
| BuildPrefs.BuildRequestAsMain | uptime-kuma-indicator/build/uptime-kuma-indicator@dumke/prefs.js:210-236 | In its two modes the request is the main window's request. |
| BuildPrefs.BuildPreferences.constructor | uptime-kuma-indicator/build/uptime-kuma-indicator@dumke/prefs.js:24-33 | The window starts with the stored settings, its initial dropdowns and mode widgets, and the button ready. |
| BuildPrefs.BuildPreferences.SelectMode | uptime-kuma-indicator/build/uptime-kuma-indicator@dumke/prefs.js:93-97 | The chosen mode is stored and the widgets follow it. |
| BuildPrefs.BuildPreferences.UpdateServiceDropdowns | uptime-kuma-indicator/build/uptime-kuma-indicator@dumke/prefs.js:342-371 | Each dropdown is refreshed by its saved id. |
| BuildPrefs.BuildPreferences.OnServiceSelected | uptime-kuma-indicator/build/uptime-kuma-indicator@dumke/prefs.js:373-385 | The saved ids are the picked ones, in order. |
| BuildPrefs.BuildPreferences.ChooseService | uptime-kuma-indicator/build/uptime-kuma-indicator@dumke/prefs.js:193 | Picking the entry already selected fires no `notify::selected` and changes nothing. Otherwise the entry is selected and the chosen ids are saved. |
| BuildPrefs.BuildPreferences.BeginFetch | uptime-kuma-indicator/build/uptime-kuma-indicator@dumke/prefs.js:204-236 | A toast is shown and no request made without a needed setting. Otherwise the request is made with the button disabled. |
| BuildPrefs.BuildPreferences.FinishFetch | uptime-kuma-indicator/build/uptime-kuma-indicator@dumke/prefs.js:238-247 | Success replaces the services and refreshes. Failure shows a toast. The button is restored. |

## Left out

- Translation: `gettext` is the identity; every message is its English text.
- Transport: Soup sessions, GLib main-loop timers and asynchronous scheduling are not modelled. The network is a function parameter, and a request's attempts are sequential.
- User interface: GTK and Adw widgets and Cairo drawing are not modelled. This includes the monitor row's latency and "n/a" text and the appearance CSS classes. Dropdowns and rows are values, with tokens for row identity.
- Mock monitors: the mock monitor list is a parameter.
- Floating point:
  - numbers are integers, and decimals are exact;
  - `parseBadgePercentage`'s regular expression and float parsing are not modelled;
  - the sparkline's float stride is integer division, a floor on exact values.
- Outside parsers: `normalizeMetrics`, `normalizeHeartbeatHistory`, the main fetcher's status-page normaliser, `JSON.parse`, base64, ISO-8601 parsing and uuid generation are opaque function parameters.
- Error wording: the wording of TypeError messages is not modelled; a TypeError is one value.
- Logging: log output is a sequence of records, not console calls. The indicator records its skip, failure, mock, filter and status-change lines.
- Indicator.KumaIndicator.CheckForStatusChanges: `Main.notify` is taken to succeed, so the "Failed to send notification" error line is not recorded.
- Network.MonitorFetcher.Fetch: the debug lines the fetcher hands to its `log` callback are not recorded, here or in `PopulateHistory`.
- Indicator.KumaIndicator.PrepareMonitors: the fetch outcome and the back-fill are parameters, not calls into the indicator's fetcher. `Network.MonitorFetcher.Fetch` and `Network.MonitorFetcher.PopulateHistory` specify them. `Indicator.PopulatedByFetcher` states what filling preserves when the back-fill is the fetcher's `HistoryFilled`.
- Network.ModeResult: the status-page normaliser is a parameter returning monitors and a heartbeat map, as `uptime-kuma-indicator/utils/network.js:138` destructures it. The `normalizeStatusPage` in `uptime-kuma-indicator/utils/parsers.js` returns a plain array, and destructuring it would give undefined for both. The model does not follow that.
- Parsers.ParseLatency: a number that only overflows to infinity, such as `1e400`, is a finite decimal here, and a JSON number is an integer.
- Object identity: Map keys compare by value, and monitor objects are values, so aliasing between them is not modelled.
- `STATUS_CLASS_MAP` prototype keys such as `constructor` are not modelled.
- Js.ObjectValues: integer-like keys are listed in field order, not numeric order.
- Legacy timers: the legacy indicator's first `_refresh`, its `_scheduleRefresh` and `destroy` timers are not modelled.
- Indicator timers: the indicator's `start`, `_scheduleRefresh` and `_bindSettings` timers and signal wiring are not modelled.
- Re-entrancy: programmatic `selected` changes firing `_onServiceSelected` are not modelled; `ChooseService` stands for the user's pick.
- BuildPrefs.BuildPreferences.FinishFetch: the packaged `_updateServiceDropdowns` has no `_isUpdatingDropdowns` guard. Each `selected` it changes, including the change when `model.remove(1)` drops a selected item, runs `_onServiceSelected` and re-saves `selected-services`. The model keeps `selectedServices` unchanged. What gets saved depends on how GTK moves a selection whose item is removed, and that is not modelled. `BuildPrefs.RefreshKeepsOfferedSaved` states which saved ids the refreshed dropdowns still select.
- BuildPrefs.BuildPreferences.UpdateServiceDropdowns: the same re-saves of `selected-services` are not modelled.
- Widget placement: `_findRowIndex` only places widgets and is not modelled.
- The root `prefs.js` only binds settings to widgets and is not part of this model.
- The behaviour and about groups of both preferences windows are not modelled, since they only bind settings.
- BuildNetwork: the packaged `uptime-kuma-indicator/build/uptime-kuma-indicator@dumke/utils/parsers.js` that `utils/network.js:3` imports is not part of this model. The main copy's `Parsers.NormalizeStatusPage` and `Parsers.NormalizeApi` stand for it, so any difference between the two parser copies is not captured.
- Prefs.PreferencesBuilder: every toast is recorded in `toasts`. The source shows one only when the window has `add_toast` (`uptime-kuma-indicator/prefs.js:593-598`), and always sends the message to `console.error`. The same holds for `BuildPrefs.BuildPreferences` (`uptime-kuma-indicator/build/uptime-kuma-indicator@dumke/prefs.js:393-398`).
- Prefs.PreferencesBuilder.RebuildServiceRows: its invariant does not bound the rows by ten when more than ten ids are saved, as the source creates one row per saved id.
- Text.ToLower: lower-cases ASCII letters only; there is no Unicode case mapping.
