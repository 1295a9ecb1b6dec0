# go-enigma client, modelled in Dafny

A model of `client.go`, a Go client for the Enigma.io REST API. The model covers:

- **URL assembly.** The per-client base URI is `https://api.enigma.io/v2/<kind>/<api key>`. The kind is one of `meta`, `data`, `stats`, `export`. A request URL is `<base>/<datapath>`, followed by `?` and the encoded parameters only when there are parameters (`address.dfy`).
- **The parameter multi-map.** `url.Values` with its `Add` (`url_values.dfy`).
- **The four query builders** (`enigma.dfy`). They are classes whose `params` field each setter extends by exactly one value under a fixed name. Every setter returns the receiver. `Client` hands out freshly initialised builders.
- **Error classification in `doQuery`** (`dispatch.dfy`). It turns an abstract reply into a response plus error, or into the run-time panic the code can hit.
- **The export-readiness poller** started by `ExportQuery.FileURL` (`poller.dfy`). It runs sequentially with time in whole seconds, and it returns a log of the probes made and the values sent down the ready channel.
- **Helpers.** `strings.Join` and `strconv.Itoa`, each with an inverse (split at a character, decimal parse), so that what the setters write can be read back (`strings.dfy`).

Two facts about the code shape what the model claims:

- The parameters are encoded by `url.Values.Encode`, which orders pairs by key. Only the values under one key keep insertion order, and that is the only order the model states.
- The poller runs whenever a ready channel is given, even when the export request failed, unless doQuery panics (then no poller starts). After a transport error, or a non-200 reply that does not panic, it probes the empty status URL `""`. After a 200 reply whose body only partly decodes it probes whatever status URL the decoder filled in.

## Model

| member | source | states |
|---|---|---|
| UrlValues.Add | client.go:233-236 | appending a value puts it at the end of the list under its key; earlier values keep their order; every other key keeps its list; the key set grows by at most that key |
| UrlValues.AddNewKey | client.go:547-554 | the first value under a key yields a one-element list, which is how a Stats query starts with `select=[column]` |
| UrlValues.AddAllKeepsOrder | client.go:251-254 | repeated adds under one key (several Search or Where calls) keep every value, in call order, and leave all other keys alone |
| UrlValues.AddCommutes | client.go:268-277 | adds under two different keys commute, so interleaving setters of different parameters gives the same map |
| Address.EndpointNamed | client.go:40-45 | the path segment names exactly one endpoint kind, and each kind's name maps back to it |
| Address.BuildURI | client.go:514-517 | the base URI is `https://api.enigma.io/v2/<kind>/<key>` |
| Address.ParseBuildURI | client.go:29-30 | the endpoint kind and the key are read back out of a base URI unchanged |
| Address.BuildURIInjective | client.go:513-517 | distinct (key, kind) pairs never give the same base URI |
| Address.BuildURL | client.go:89-95 | the URL starts with `<base>/<datapath>`; it is exactly that iff there are no parameters; with parameters a `?` follows the address and the rest is the encoding |
| Address.QueryMarkCount | client.go:90-93 | when the base URI, the datapath and the encoding contain no `?`, a URL without parameters has no `?` and one with parameters has exactly one |
| Dispatch.Classify | client.go:113-125 | transport and read errors pass through; a non-200 reply leaves the target at its zero value and reports the status line when the body does not decode as a JSON object, otherwise `info.additional`; it panics exactly when that field is missing or not a string; success exactly when the status is 200 and decoding succeeds; a 200 reply hands back what the decoder produced with its error |
| Dispatch.DoQuery | client.go:98-127 | the reply classified is the one to `<base>/<datapath>` when there are no parameters, whatever the encoder, and to `<base>/<datapath>?<encoding>` otherwise |
| Poller.Schedule | client.go:33-36 | with a 10 s start and a 120 s ceiling, probes fall at 0, 10, 30 and 70 s, and the interval reaches the ceiling after four rounds |
| Poller.Poll | client.go:492-501 | one to four probes, all of the status URL, at 0/10/30/70 s; every probe but the last failed; the download URL is sent once exactly when the last probe succeeded and nothing follows it; when nothing is sent all four probes failed and the loop ends at 150 s |
| Strings.Itoa | client.go:241 | the decimal form is non-empty, all digits apart from a leading `-` that appears exactly for negative numbers, with no leading zeros (a numeral starting with `0` is exactly `0`) |
| Strings.ItoaRoundTrip | client.go:345-348 | parsing the string that Limit and Page write gives back the number |
| Strings.ItoaInjective | client.go:317-320 | different page or limit numbers never write the same value |
| Strings.Join | client.go:516 | no elements give ""; otherwise the result starts with the first element and is as long as all elements plus one separator between each consecutive pair |
| Strings.SplitJoin | client.go:351-354 | the single comma-joined `select` value splits back into the selected columns, when at least one column is given and the column names contain no comma |
| Enigma.MetaQuery.constructor | client.go:520-524 | a Meta query stores its base URI and has no parameters |
| Enigma.MetaQuery.Parent | client.go:202-205 | the parent-metadata request goes to `<base>/<datapath>` with no query string and is classified as in doQuery |
| Enigma.MetaQuery.Table | client.go:208-211 | the table-metadata request goes to `<base>/<datapath>` with no query string and is classified as in doQuery |
| Enigma.StatsQuery.constructor | client.go:548-552 | a Stats query stores base URI and datapath and starts with empty parameters |
| Enigma.StatsQuery.SelectColumn | client.go:233-236 | appends the column under `select` and returns the receiver |
| Enigma.StatsQuery.Limit | client.go:240-243 | appends the decimal form of the limit under `limit` and returns the receiver |
| Enigma.StatsQuery.Search | client.go:251-254 | appends the query under `search` and returns the receiver |
| Enigma.StatsQuery.Where | client.go:268-271 | appends the clause under `where` and returns the receiver |
| Enigma.StatsQuery.Conjunction | client.go:274-277 | appends the conjunction under `conjunction` and returns the receiver |
| Enigma.StatsQuery.Operation | client.go:288-291 | appends the operation under `operation` and returns the receiver |
| Enigma.StatsQuery.By | client.go:297-300 | appends the compound operation under `by` and returns the receiver |
| Enigma.StatsQuery.Of | client.go:305-308 | appends the column under `of` and returns the receiver |
| Enigma.StatsQuery.Sort | client.go:311-314 | appends only the direction marker under `sort` and returns the receiver |
| Enigma.StatsQuery.Page | client.go:317-320 | appends the decimal form of the page number under `page` and returns the receiver |
| Enigma.StatsQuery.Results | client.go:323-326 | the request goes to buildURL of the query's own base, datapath and parameters, and is classified as in doQuery |
| Enigma.DataQuery.constructor | client.go:535-539 | a Data query stores base URI and datapath and starts with empty parameters |
| Enigma.DataQuery.Limit | client.go:345-348 | appends the decimal form of the limit under `limit` and returns the receiver |
| Enigma.DataQuery.Select | client.go:351-354 | appends one value, the columns joined by `,`, under `select` and returns the receiver |
| Enigma.DataQuery.Search | client.go:364-367 | appends the query under `search` and returns the receiver |
| Enigma.DataQuery.Where | client.go:381-384 | appends the clause under `where` and returns the receiver |
| Enigma.DataQuery.Conjunction | client.go:387-390 | appends the conjunction under `conjunction` and returns the receiver |
| Enigma.DataQuery.Sort | client.go:393-396 | appends column followed by direction marker as one `sort` value and returns the receiver |
| Enigma.DataQuery.Page | client.go:400-403 | appends the decimal form of the page number under `page` and returns the receiver |
| Enigma.DataQuery.Results | client.go:406-409 | the request goes to buildURL of the query's own base, datapath and parameters, and is classified as in doQuery |
| Enigma.ExportQuery.constructor | client.go:562-566 | an Export query stores base URI and datapath and starts with empty parameters |
| Enigma.ExportQuery.Select | client.go:422-425 | appends one value, the columns joined by `,`, under `select` and returns the receiver |
| Enigma.ExportQuery.Search | client.go:434-437 | appends the query under `search` and returns the receiver |
| Enigma.ExportQuery.Where | client.go:451-454 | appends the clause under `where` and returns the receiver |
| Enigma.ExportQuery.Conjunction | client.go:457-460 | appends the conjunction under `conjunction` and returns the receiver |
| Enigma.ExportQuery.Sort | client.go:463-466 | appends column followed by direction marker as one `sort` value and returns the receiver |
| Enigma.ExportQuery.Page | client.go:469-472 | appends the decimal form of the page number under `page` and returns the receiver |
| Enigma.ExportQuery.FileURL | client.go:488-504 | returns the response's export URL with the request's error; a panic in doQuery ends the call before any polling; with a ready channel the poller runs on the response's status URL whatever the error: one to four probes at the poll offsets, every probe but the last failed, the export URL sent once exactly when the last probe succeeded, and four failed probes when nothing is sent; without a channel nothing is probed or sent |
| Enigma.Client.constructor | client.go:570-574 | NewClient stores the key |
| Enigma.Client.Meta | client.go:520-524 | a fresh Meta query on the `meta` base URI of this key, with no parameters |
| Enigma.Client.Data | client.go:534-540 | a fresh Data query on the `data` base URI of this key, for the datapath, with empty parameters |
| Enigma.Client.Stats | client.go:547-554 | a fresh Stats query on the `stats` base URI of this key, for the datapath, whose parameters are exactly `select=[column]` |
| Enigma.Client.Export | client.go:561-567 | a fresh Export query on the `export` base URI of this key, for the datapath, with empty parameters |
| Enigma.VisitorListData | client.go:533 | the documented chain Data, Select("namefull","appt_made_date"), Sort("namefirst", Desc), plus Limit(10), gives exactly `select=[namefull,appt_made_date]`, `sort=[namefirst-]` and `limit=[10]` |
| Enigma.VisitorListStats | client.go:546 | the documented chain Stats(path, "total_people"), Operation(Sum) gives exactly `select=[total_people]` and `operation=[sum]` |
| Enigma.VisitorListExport | client.go:560 | the documented chain Export, Select("namefull"), Sort("namefull", Asc) gives exactly `select=[namefull]` and `sort=[namefull+]` |

## Left out

- `http.Get`, `http.Head`, `ioutil.ReadAll` and closing the body are network I/O. A GET is the function parameter `get` from URL to an abstract reply. A probe is `head(url, seconds)`.
- `json.Unmarshal` and the response structs are a foreign codec and plain data mapping. A reply carries the decoding outcome abstractly. Metadata, data and stats responses are a type parameter, and their zero value is a parameter. Only the export response is a datatype.
- `url.Values.Encode` is the standard library's form encoding. It is the function parameter `encode`, and only the fact that it is applied to non-empty parameters is modelled.
- Dispatch.Classify: the panic at client.go:118 is an outcome (`Panicked`) and not a precondition. The Go runtime's panic value and stack unwinding are not modelled.
- Poller.Poll: the goroutine, the unbuffered channel send and `time.Sleep` are concurrency and wall-clock time. The loop runs sequentially, time is whole seconds, and a send is recorded in a log. Blocking on an unread channel is not modelled.
- Poller.Poll: a probe's time counts only the sleeps before it; `http.Head` is taken to return at once. The default HTTP client has no timeout, so a real probe can take arbitrarily long or block forever, and the 0/10/30/70 s offsets and the 150 s end are lower bounds on wall-clock time.
- MetaQuery: the Go code leaves `params` nil. The model uses the empty map, which has the same length of 0 and so the same URL.
- Strings.Itoa: Go's `int` is a fixed-width machine integer, while the model takes any integer. `strconv.Itoa` is exact on every value of that width, so nothing is lost.
- Conjunction, SortDirection and Operation are Go string types that accept any string. The model keeps them as strings with the named constants.
