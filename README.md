# Analyze request builder

A model of `AnalyzeService`, the fluent builder behind the search client's
"analyze" call. The service accumulates target indices, the analyzer,
tokenizer, token filters and char filters, the text to analyze, two timeouts
and a pretty-print flag. Each setter changes one field in place and returns
the service itself. `Do` derives one GET request from that state:

- the path is `/`, then each index expanded through the `{index}` URI
  template and joined with `,`, then `/_analyze`;
- the query parameters are `pretty`, `master_timeout`, `timeout` and
  `analyzer`, each included only when set;
- the body is passed through unchanged.

`Do` then hands the request to the client's transport and decodes the reply
into an `AnalyzeResult` of `Token`s. The test file's `isEqual` compares two
token lists and tells nil apart from empty.

Layout:

- `wrappers.dfy` holds `Option` and `Result`.
- `strings.dfy` holds Go's `strings.Join`, a `Split` that inverts it, and the
  two round-trip lemmas.
- `analyze.dfy` holds the records, the derivation as functions of a `Config`
  value, the `Client` and the `AnalyzeService` class.
- `analyze_test.dfy` holds `IsEqual`.

The derivation is written twice. `AnalyzeService.BuildRequest` follows the
source's loop, with its early return. `DeriveRequest` is the specification it
is proved equal to, and the lemmas about the path, the parameters and the
filters are stated about that function.

Three outside collaborators are parameters. The URI template expansion is an
`Expander` function passed to `BuildRequest` and `Do`, and it may fail. The
transport and the decoder are function-valued fields of `Client`. `Client`
also keeps a log, `requests`, of every request handed to the transport. That
log is how `Do` states that nothing is sent when an expansion fails.

When no index is configured, the code produces the path `//_analyze`, because
the path starts as `/` and the join of an empty list adds nothing before
`/_analyze` is appended. A tidier builder would emit `/_analyze`; this one
does not, and the model follows the code (`NoIndicesPath`).

## Model

| member | source | states |
|---|---|---|
| `Analyze.AnalyzeService.constructor` | analyze.go:28-31 | a new service holds the given client, and every other field is at its zero value |
| `Analyze.AnalyzeService.Index` | analyze.go:33-40 | appends exactly the one name at the end of the indices; earlier entries, their order and duplicates are kept; every other field is unchanged; returns the receiver |
| `Analyze.AnalyzeService.Indices` | analyze.go:42-49 | the new indices are the old ones followed by the given names, in order; every other field is unchanged; returns the receiver |
| `Analyze.AnalyzeService.Timeout` | analyze.go:51-55 | overwrites only the timeout; returns the receiver |
| `Analyze.AnalyzeService.MasterTimeout` | analyze.go:57-61 | overwrites only the master timeout; returns the receiver |
| `Analyze.AnalyzeService.Analyzer` | analyze.go:63-67 | overwrites only the analyzer; returns the receiver |
| `Analyze.AnalyzeService.Tokenizer` | analyze.go:69-73 | overwrites only the tokenizer; returns the receiver |
| `Analyze.AnalyzeService.TokenFilters` | analyze.go:75-82 | the new token filters are the old ones followed by the given names; every other field is unchanged; returns the receiver |
| `Analyze.AnalyzeService.CharFilters` | analyze.go:84-91 | the new char filters are the old ones followed by the given names; every other field is unchanged; returns the receiver |
| `Analyze.AnalyzeService.Body` | analyze.go:93-97 | overwrites only the body; returns the receiver |
| `Analyze.AnalyzeService.Pretty` | analyze.go:99-103 | overwrites only the pretty flag; returns the receiver |
| `Analyze.ExpandAll` | analyze.go:110-120 | succeeds iff every index expands; on success the expansions come in the order of the indices; on failure it carries the error of the first index whose expansion fails |
| `Analyze.QueryParams` | analyze.go:126-138 | `pretty`=`1` iff pretty is on; `master_timeout`, `timeout` and `analyzer` each present iff non-empty, with that value; no other key |
| `Analyze.DeriveRequest` | analyze.go:106-141 | with the path built by `AnalyzePath`: fails iff some index fails to expand, with the first such error; otherwise a GET whose body is the configured body and whose parameters are `QueryParams` |
| `Analyze.PathRoundTrip` | analyze.go:108-124 | for `AnalyzePath` (`/` + the names joined by `,` + `/_analyze`): for one or more comma-free expanded names, the path has the shape `/…/_analyze` and its index segment splits back into exactly those names, in order |
| `Analyze.DerivedPathListsIndices` | analyze.go:108-124 | when every index expands to a comma-free name, the derived path lists each index's expansion in the order the indices were added |
| `Analyze.NoIndicesPath` | analyze.go:108-124 | with no indices the derived request is a GET to `//_analyze` with the configured parameters and body |
| `Analyze.TwoIndicesPath` | analyze.go:108-124 | indices `idx1`, `idx2` expanded unchanged give the path `/idx1,idx2/_analyze` |
| `Analyze.EmptyIndexLooksLikeNoIndex` | analyze.go:108-124 | no index and one empty index name give the same path, `//_analyze` |
| `Analyze.FiltersNotSent` | analyze.go:126-141 | changing the tokenizer, the token filters or the char filters does not change the derived request |
| `Analyze.AnalyzeService.BuildRequest` | analyze.go:106-141 | the loop-based derivation, which changes no field, returns exactly `DeriveRequest` of the current configuration |
| `Analyze.RepeatedBuildsAgree` | analyze.go:106-141 | two derivations from the same service give the same request |
| `Analyze.Client.PerformRequest` | analyze.go:144 | sending logs exactly that request once and returns the transport's reply for that position in the log |
| `Analyze.AnalyzeService.Do` | analyze.go:105-154 | leaves the configuration unchanged; on an expansion error returns that error and sends no request; otherwise sends the derived GET exactly once and, through `Outcome`, returns the transport's error verbatim or the decoder's result on the reply body |
| `Analyze.RepeatedDoSendsSameRequest` | analyze.go:105-154 | executing twice on an unchanged service sends the same derived request twice, or on an expansion error fails twice with the same error and sends nothing |
| `Analyze.IntegrationTestRequest` | analyze_test.go:14 | the test's chain (one index, analyzer `standard`, body `a test`) with the index name expanded unchanged, derives a GET to `/<index>/_analyze` with the single parameter `analyzer=standard` and body `a test` |
| `AnalyzeTest.IsEqual` | analyze_test.go:38-59 | nil equals nil; nil never equals a list, not even an empty one; lists of different lengths differ; lists of equal length are equal iff they agree at every position on all five token fields; overall, true iff the two values are equal |
| `Strings.SplitJoin` | analyze.go:121 | for `Join` (Go's `strings.Join`): joining one or more comma-free parts with `,` and splitting at `,` gives the parts back |
| `Strings.JoinSplit` | analyze.go:121 | splitting any string at `,` and joining the pieces with `,` gives the string back |

## Left out

- The internals of `uritemplates.Expand` are not part of this model. Callers supply it as a possibly failing function. `PathRoundTrip` and `DerivedPathListsIndices` assume, as a requires, that its results hold no comma. Simple string expansion percent-encodes the comma, so the assumption holds for it.
- The HTTP transport is not modelled. This covers connections, status handling and network errors. It is a function of the request and of how many requests were sent before, held by `Client`. The same request sent twice may get different replies.
- JSON decoding into `AnalyzeResult` is not modelled. The decoder is a function of the reply body, held by `Client`. `Token` and `AnalyzeResult` are plain datatypes.
- `url.Values` is a map from a key to one value, because the source only calls `Set`.
- A nil slice and an empty slice of indices or filters are not told apart. The source handles both the same way: it appends, ranges and joins them alike.
- `TestAnalyze` runs against a live server, so its expected tokens are not modelled. Only the request it builds is (`IntegrationTestRequest`).
- The service's pointer to the wider client library is not modelled, and neither is concurrency. The builder is single-owner, unsynchronised state.
- Token offsets and positions are only constrained to the int64 range. No arithmetic is done on them.
