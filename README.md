# deep-research, modelled in Dafny

`deep-research` is a command-line and web research agent. It turns a topic
into a plan of search queries and runs those queries against a SearXNG search
engine page by page. Results are deduplicated on a normalised URL and
accumulated into a research context, which is compressed with an LLM when it
grows past a character budget. In the end it has the LLM write a Markdown
report, to which the command line appends a bibliography.

This project models the bookkeeping at the core of that agent and proves what
it promises:

- **Character budget and chunking** (`agent_budget.dfy`, module `Budget`):
  - the context budget derived from the model's context length;
  - the lossless chunk splitter, which prefers paragraph, then line, then
    space breaks in the last fifth of a window;
  - the control skeleton of direct and chunked compression;
  - the three-attempt report ladder of `writeReport`.
- **Text helpers** (`agent_text.dfy`, module `AgentText`): `stripThinkTags`,
  `truncateQuery` and `summarizePage`.
- **Search executor and round controller** (`research.dfy`, module
  `Research`):
  - the paginated, deduplicating search over a batch of queries, over the
    agent's seen set and source list (class `DeepResearcher`);
  - the exhaustive round loop, which slices the query list into batches,
    stops early at the wanted number of sources, and ends with the report.
- **Query expansion** (`expansion.dfy`, module `Expansion`):
  - the set of candidate queries: base queries, platform-prefixed queries and
    lowercase synonym substitutions;
  - the cap of 150 queries.
- **SearXNG client helpers** (`searxng.dfy`, module `SearXNG`):
  - the category-page test;
  - titles derived from listing URLs;
  - the truncation rule of fetched page text;
  - the filter loop of `ExtractListingLinks` over the hrefs its regular
    expressions matched.
- **Command line** (`cli.dfy`, module `Cli`):
  - the plan-approval answer;
  - file-name sanitising and the 50-character topic in the default file name;
  - the bibliography, which lists each URL once.
- **Web server** (`server.dfy`, module `WebServer`):
  - the job lifecycle (idle, planning, awaiting_approval, running, complete,
    error, cancelled) across the HTTP handlers;
  - request defaulting.
- **Go string functions** (`go_strings.dfy`, module `GoStrings`): the subset
  of Go's `strings` package the code uses, on byte-indexed strings (one `char`
  per byte).

The LLM, the search engine, page fetching, `normalizeURL` and `url.Parse` are
oracles. They are function-typed parameters, or fields of the `Env`,
`Searcher` and `Llm` values the agent is built with. None of the proved
properties depends on what the oracles answer. Go's floating-point products
are written as the integer formulas they compute for the sizes in use:

- `int(n * 3.5)` is `(7n)/2`;
- `int(m * 0.6)` is `(3m)/5`;
- `int(m * 0.5)` is `m/2`;
- `int(m * 0.8)` is `(4m)/5`;
- the target `len * 0.5/attempt` is `len/(2 * attempt)`.

Where a loop mutates state, the model has a method with that loop. The method
is proved equal to a specification function: `Chunks`, `Ladder`,
`QueryPages`, `Process`, `Rounds`, `CollectAsWritten`, `Entries`, `BaseSet`,
`PlatformSet`, `SynonymSet` or the server's step functions. Lemmas about those
functions state the promised properties.

## Model

| member | source | states |
|---|---|---|
| GoStrings.Index | pkg/agent/agent.go:16-17 | -1 exactly when the pattern never occurs; otherwise the first position where it occurs |
| GoStrings.LastIndex | pkg/agent/agent.go:201-206 | -1 exactly when the pattern never occurs; otherwise the last position where it occurs |
| GoStrings.Contains | pkg/agent/agent.go:756 | true exactly when the pattern occurs somewhere |
| GoStrings.TrimSpace | pkg/agent/agent.go:21 | the result is the input with its leading and trailing runs of ASCII white space (space, tab, newline, carriage return, vertical tab, form feed) removed, and it neither starts nor ends with white space |
| GoStrings.ToLower | pkg/search/searxng.go:281 | same length; every ASCII capital is mapped to its small letter, every other character is kept |
| GoStrings.ReplaceCharPointwise | pkg/search/searxng.go:325-326 | replacing one character by another keeps the length and changes exactly the positions holding that character |
| GoStrings.CountChar | pkg/search/searxng.go:301 | the number of occurrences of the character (its multiplicity in the string) |
| GoStrings.TrimChar | pkg/search/searxng.go:316 | the result neither starts nor ends with the character, and is no longer than the input |
| GoStrings.TrimCharInside | pkg/search/searxng.go:316 | the trimmed string occurs inside the original, and every character cut from before or after it is the trimmed character |
| GoStrings.TrimSuffix | pkg/search/searxng.go:323 | with the suffix present, the result followed by the suffix is the input; otherwise the input is unchanged |
| AgentText.StripThinkTags | pkg/agent/agent.go:15-22 | with both `<think>` and `</think>` present, the result is the trimmed text after the first `</think>`; otherwise it is the trimmed input; it never starts or ends with white space |
| AgentText.TruncateQuery | pkg/agent/agent.go:1080-1085 | a short query is returned unchanged; a longer one is cut to exactly `maxLen` characters, ending in "..." and starting with the query's first `maxLen - 3` characters |
| AgentText.SummarizePage | pkg/agent/agent.go:390-411 | content under 100 characters is returned unchanged; if the LLM fails, the first `min(len, 300)` characters are returned; otherwise the LLM's answer with think tags stripped |
| Budget.MaxContextChars | pkg/agent/agent.go:39-44 | 98304 for a non-positive context length; otherwise the floor of 3.5 times the length |
| Budget.HalfBudget | pkg/agent/agent.go:572 | the floor of half the budget |
| Budget.MaxInputChars | pkg/agent/agent.go:93 | the floor of 0.6 times the budget |
| Budget.ChunkSize | pkg/agent/agent.go:138-141 | half the budget, but at least 2000 |
| Budget.SearchStart | pkg/agent/agent.go:200 | the floor of 0.8 times the window; for a non-empty window, inside it |
| Budget.LastFrom | pkg/agent/agent.go:201-206 | the last occurrence of a pattern at or after a start position, or -1 exactly when there is none |
| Budget.BreakPoint | pkg/agent/agent.go:196-207 | the break lies after the search start and no later than the window's end |
| Budget.BreakAtParagraph | pkg/agent/agent.go:201-202 | with a blank line in the searched part, the chunk ends just after the last blank line |
| Budget.BreakAtLine | pkg/agent/agent.go:203-204 | failing that, the chunk ends just after the last newline |
| Budget.BreakAtSpace | pkg/agent/agent.go:205-206 | failing that, the chunk ends just after the last space |
| Budget.BreakAtWindowEnd | pkg/agent/agent.go:197 | with none of the three in the searched part, the chunk is the whole window |
| Budget.ChunksReassemble | pkg/agent/agent.go:181-214 | concatenating the chunks gives back the input exactly |
| Budget.ChunksSized | pkg/agent/agent.go:182-211 | at least one chunk; each chunk is at most `maxChunkSize` long and non-empty for non-empty input; every chunk but the last is longer than the search start |
| Budget.SplitContextIntoChunks | pkg/agent/agent.go:181-214 | the loop returns exactly `Chunks`, and a single chunk holding the input when the input fits |
| Budget.CompressDirect | pkg/agent/agent.go:106-132 | a chat error is returned as an error; otherwise the reply, with its think block stripped and trimmed, is the result when it has at least 200 characters and is refused as too small, with its length, when shorter |
| Budget.CompressPart | pkg/agent/agent.go:151-162 | a chunk's compression; on failure the chunk itself when it is within a quarter of the chunk size, and otherwise its first quarter-chunk-size characters plus the truncation marker |
| Budget.CompressParts | pkg/agent/agent.go:147-163 | one part per chunk, in order, each `CompressPart` of its chunk |
| Budget.CompressContext | pkg/agent/agent.go:90-103 | with fuel left, input within 0.6 of the budget is compressed directly and longer input goes to `CompressChunked`; a success on fitting input has at least 200 characters, and a success on longer input fits 0.6 of the budget |
| Budget.CompressChunked | pkg/agent/agent.go:135-178 | every success fits 0.6 of the budget; when the joined parts fit they are the result, and otherwise they go back to `CompressContext` with one less fuel |
| Budget.FitContext | pkg/agent/agent.go:579-596 | data within the ceiling is kept; over it, the compressed data, or on compression failure a prefix of exactly the ceiling's length |
| Budget.FitForAttempt | pkg/agent/agent.go:579-596 | the loop body's fitting step computes `FitContext`, and a failed compression truncates to exactly the ceiling |
| Budget.LadderStep | pkg/agent/agent.go:578-626 | a reply ends the ladder with it; a budget error with attempts left halves the ceiling and retries; any other error ends it with `GenerationFailed(attempt, error)` |
| Budget.LadderCalls | pkg/agent/agent.go:575-628 | between one and three report calls (`4 - attempt` from a later attempt); the first call gets the data fitted to the starting ceiling |
| Budget.LadderRetries | pkg/agent/agent.go:615-621 | between two consecutive calls, the earlier failed with an error mentioning "context" or "token", the ceiling halved, and the new data is the earlier data fitted to the halved ceiling |
| Budget.LadderEnd | pkg/agent/agent.go:615-625 | the last call does not retry, and its reply or error is the outcome |
| Budget.ReportResult | pkg/agent/agent.go:622-625 | an error passes through; a reply is returned with think tags stripped |
| Budget.WriteReport | pkg/agent/agent.go:569-629 | the loop returns `ReportResult` of the ladder from attempt 1 at half the budget, after between one and three report calls |
| Expansion.OptionSet | pkg/agent/agent.go:760-761 | the empty set or the one value held |
| Expansion.SynonymVariant | pkg/agent/agent.go:753-763 | some variant exactly when the lowercased key occurs in the lowercased query, the lowercased alternative differs from the key, and the substitution is at most 60 long; the variant is then that substitution |
| Expansion.BaseSetMembers | pkg/agent/agent.go:726-731 | a base candidate is a base query of at most 60 characters, and every such query is one |
| Expansion.PrefixedMembers | pkg/agent/agent.go:738-743 | the prefixed forms of one query are `platform + " " + q`, one for each non-empty platform |
| Expansion.PlatformSetMembers | pkg/agent/agent.go:733-744 | a platform candidate is `platform + " " + q`, for a non-empty platform and a base query of at most 40 characters |
| Expansion.WordVariantsMembers | pkg/agent/agent.go:757-764 | the variants for one key are exactly the `SynonymVariant`s of its alternatives |
| Expansion.KeyVariantsMembers | pkg/agent/agent.go:754-766 | the variants of a query are the variants over all synonym keys |
| Expansion.SynonymSetMembers | pkg/agent/agent.go:748-767 | a synonym candidate is a variant of a base query of at most 50 characters |
| Expansion.CandidateSources | pkg/agent/agent.go:726-772 | a query is a candidate exactly when it comes from one of the three sources: a short base query, a prefixed query, or a synonym substitution |
| Expansion.WordVariantsShort | pkg/agent/agent.go:760 | every synonym variant of one key is at most 60 characters long |
| Expansion.SynonymSetShort | pkg/agent/agent.go:760 | every synonym candidate is at most 60 characters long |
| Expansion.BaseSetShort | pkg/agent/agent.go:728 | every base candidate is at most 60 characters long |
| Expansion.LongCandidatesArePrefixed | pkg/agent/agent.go:726-772 | a candidate longer than 60 characters is a platform-prefixed query, so base queries over 60 never appear unprefixed |
| Expansion.WordVariantsAbsent | pkg/agent/agent.go:756 | a key not occurring in the lowercased query gives no variants |
| Expansion.AddPrefixed | pkg/agent/agent.go:738-743 | the platform loop adds exactly the prefixed forms of one query |
| Expansion.AddWordVariants | pkg/agent/agent.go:757-764 | the alternatives loop adds exactly the variants for one key |
| Expansion.AddSynonymVariants | pkg/agent/agent.go:753-766 | the loop over the synonym map adds exactly the variants over all keys, whatever the map's order |
| Expansion.AddBaseQueries | pkg/agent/agent.go:726-731 | the first loop builds exactly the base candidates |
| Expansion.AddPlatformQueries | pkg/agent/agent.go:733-744 | the second loop adds exactly the platform candidates |
| Expansion.SynonymQueries | pkg/agent/agent.go:746-767 | the third loop builds exactly the synonym candidates |
| Expansion.CapQueries | pkg/agent/agent.go:774-782 | the result is duplicate-free, drawn from the set, `min(150, size)` long, and all of the set when it holds at most 150 |
| Expansion.ExpandQueries | pkg/agent/agent.go:723-785 | the result is a duplicate-free sequence of candidates of length `min(150, candidates)`, holding every candidate when there are at most 150 |
| Research.PageLimit | pkg/agent/agent.go:998-1001 | 100 pages when `MaxPages` is 0; otherwise `MaxPages` (no page for a negative setting) |
| Research.PaginationRules | pkg/agent/agent.go:1003-1032 | pages are asked in order from page 1; each kept page is the searcher's non-empty answer; no more than the limit; none beyond page 1 without pagination; the scan stops at the limit, an error or an empty page |
| Research.QueryPagesNext | pkg/agent/agent.go:1003-1032 | a non-empty page within the limit is kept and the scan goes on with the next page |
| Research.QueryPagesEnd | pkg/agent/agent.go:1003-1032 | past the limit, on an error, on an empty page, or past page 1 without pagination, the scan stops |
| Research.AllResultsAppend | pkg/agent/agent.go:996-1074 | the results of two query lists in sequence are the results of their concatenation |
| Research.NormalizedURLsMembers | pkg/agent/agent.go:1039 | a normalised URL is in the set exactly when some result normalises to it |
| Research.ProcessAppend | pkg/agent/agent.go:1037-1071 | processing two result lists in turn is processing their concatenation |
| Research.ProcessCounts | pkg/agent/agent.go:1037-1071 | `newURLs + duplicates` grows by the number of results; sources grow by exactly the new URLs, and the old sources stay in front |
| Research.ProcessSeen | pkg/agent/agent.go:1040-1047 | the seen set gains exactly the normalised URLs of the results, and grows by exactly the number counted new |
| Research.SeenResultAddsNothing | pkg/agent/agent.go:1041-1045 | a result whose normalised URL was seen already only counts a duplicate |
| Research.ProcessFromState | pkg/agent/agent.go:1037-1071 | seen set and sources after processing do not depend on the counters or text carried in |
| Research.RoundContext | pkg/agent/agent.go:924-940 | the round header and results are appended when there are results; over half the budget the context is compressed, and kept as it is when compression fails |
| Research.NextIndex | pkg/agent/agent.go:910-915 | the next index moves by at most `ParallelQuery` and stops at the end of the list |
| Research.BatchStart | pkg/agent/agent.go:910-915 | the start of the i-th batch lies between the current index and the end of the list |
| Research.BatchStartShift | pkg/agent/agent.go:910-915 | the batches after the first start where the later batches of the whole run start |
| Research.RoundsStep | pkg/agent/agent.go:906-956 | one round searches the next slice; it stops when the sources reach `MinResults`, and otherwise continues with the next round |
| Research.RoundsAdvance | pkg/agent/agent.go:906-956 | the state after one round is the final state on an early stop, and otherwise leads to the same final state as the remaining rounds |
| Research.RoundsDone | pkg/agent/agent.go:906 | at `MaxLoops` rounds, or with no queries left, no round runs and nothing changes |
| Research.RoundsBatches | pkg/agent/agent.go:906-915 | rounds take consecutive, non-overlapping, in-order slices of at most `ParallelQuery` queries |
| Research.BatchesCons | pkg/agent/agent.go:910-915 | a first batch ahead of consecutive slices from the next index gives consecutive slices again |
| Research.RoundsStop | pkg/agent/agent.go:906-954 | never more than `MaxLoops` rounds; every round but the last ended below `MinResults`; the run ends at `MaxLoops`, at the end of the queries, or when the last round reached `MinResults` |
| Research.CountsCons | pkg/agent/agent.go:943-954 | one round below `MinResults` ahead of the remaining rounds keeps the stop rule |
| Research.RoundsAsOnePass | pkg/agent/agent.go:906-926 | the seen set and sources after all rounds are those of one pass over the concatenated batches |
| Research.DeepResearcher.RecordPage | pkg/agent/agent.go:1037-1071 | the result loop leaves seen set, sources, text and counters as `Process` over the page |
| Research.DeepResearcher.FetchPage | pkg/agent/agent.go:1003-1031 | a page request stops exactly on an error, an empty page, or a page past 1 without pagination; otherwise it returns the searcher's page |
| Research.DeepResearcher.SearchQuery | pkg/agent/agent.go:998-1073 | the page loop of one query processes exactly the results of `QueryPages` from page 1 to the page limit |
| Research.DeepResearcher.SearchWithPagination | pkg/agent/agent.go:981-1077 | the new seen set, sources, text and counters are those of one pass over the queries |
| Research.DeepResearcher.RunRound | pkg/agent/agent.go:919-940 | a round searches its queries and computes the next context with `RoundContext` |
| Research.DeepResearcher.AdvanceRound | pkg/agent/agent.go:909-954 | the loop body moves the index within the list, and its state leads to the final state of `Rounds` |
| Research.DeepResearcher.RunRounds | pkg/agent/agent.go:898-956 | the round loop ends with the seen set, sources and context of `Rounds` from round 0 |
| Research.DeepResearcher.RunExhaustive | pkg/agent/agent.go:869-978 | sources and seen set are reset; an empty query list is an error; otherwise the rounds run and the report ladder's outcome is returned with the sources |
| SearXNG.AnyContainedMeans | pkg/search/searxng.go:294-298 | the indicator loop finds a match exactly when some indicator occurs |
| SearXNG.CategoryPageMeans | pkg/search/searxng.go:280-305 | a URL is a category page exactly when its lowercase form contains an indicator, or it has more than two `&` |
| SearXNG.ToLowerIdempotent | pkg/search/searxng.go:281 | lowercasing twice is lowercasing once |
| SearXNG.ToLowerKeepsAmpersands | pkg/search/searxng.go:281-301 | lowercasing keeps the number of `&` |
| SearXNG.CategoryTestIgnoresCase | pkg/search/searxng.go:280-305 | the test gives the same answer for a URL and its lowercase form |
| SearXNG.LastSegment | pkg/search/searxng.go:316-321 | the last `/`-separated segment: a suffix with no `/`, preceded by `/` unless it is the whole string |
| SearXNG.LastSlashFacts | pkg/search/searxng.go:316-321 | the last `/` is at its index, and no `/` follows it |
| SearXNG.TitleFromPath | pkg/search/searxng.go:316-328 | the last segment of the slash-trimmed path, with one `.html` suffix removed, and each `-` and `_` turned into a space |
| SearXNG.TitleIsClean | pkg/search/searxng.go:316-328 | a derived title contains no `-`, `_` or `/` |
| SearXNG.TitleFromURL | pkg/search/searxng.go:309-328 | a URL that does not parse is its own title; otherwise the title is derived from its path |
| SearXNG.TruncateText | pkg/search/searxng.go:132-134 | with a positive limit, a longer text becomes its first `maxLength` characters followed by "..."; otherwise it is unchanged |
| SearXNG.TruncatedLength | pkg/search/searxng.go:132-134 | with a positive limit, the result is at most three longer than the limit and starts with the text up to the limit |
| SearXNG.Resolve | pkg/search/searxng.go:244-250 | a relative href gets `scheme://host` in front; an `http` href is kept; any other href is skipped |
| SearXNG.RelativeHrefNotDeduplicated | pkg/search/searxng.go:240-263 | as written, the relative href "/x" matched twice on the page s://x/ gives the link s://x/x twice |
| SearXNG.RepeatedHrefAsWritten | pkg/search/searxng.go:240-263 | as written, any relative href that passes the filters is collected twice when it is matched twice |
| SearXNG.LinkURLsMembers | pkg/search/searxng.go:263-268 | every collected link's URL is in the set of collected URLs |
| SearXNG.CollectFromHrefs | pkg/search/searxng.go:244-268 | as written, every link comes from a relative or `http` href, passed the category, parse and host tests, and carries the title derived from its URL |
| SearXNG.CollectDistinct | pkg/search/searxng.go:240-263 | corrected, with duplicates detected on the full URL (`Collect`), no URL is collected twice, and the seen set is exactly the collected URLs |
| SearXNG.CollectBound | pkg/search/searxng.go:268-272 | as written, the loop returns as soon as `maxLinks` links are held, so there are at most `maxLinks` of them (at most one when `maxLinks` is not positive) |
| SearXNG.CollectAfterDone | pkg/search/searxng.go:270-272 | as written, after the early return, later hrefs change nothing |
| SearXNG.ExtractListingLinks | pkg/search/searxng.go:209-276 | with the page parsed, the links are those `CollectAsWritten` gives, resolved against the page's `scheme://host` |
| SearXNG.CollectLinks | pkg/search/searxng.go:226-276 | the filter loop, which skips an href already among the seen full URLs, computes `CollectAsWritten`, returning once `maxLinks` links are held |
| Cli.ReadChoice | cmd/main.go:220-238 | the trimmed, lowercased answer: empty approves, "q" quits, "r" asks for details, anything else is added context |
| Cli.RemoveDisallowed | cmd/main.go:306-307 | every kept character is in `a-zA-Z0-9_-`, and the result is no longer than the input |
| Cli.SanitizeFilename | cmd/main.go:302-309 | the output holds only `a-z`, `0-9`, `_` and `-`, and is no longer than the input |
| Cli.ToLowerAppend | cmd/main.go:308 | lowercasing distributes over concatenation |
| Cli.SanitizeByChar | cmd/main.go:304-308 | character by character, each ASCII letter or digit is kept (lowercased), `_` and `-` are kept, a space becomes `_`, and anything else is removed |
| Cli.RemoveDisallowedKeeps | cmd/main.go:306-307 | a string of allowed characters passes the filter unchanged |
| Cli.SanitizeIdempotent | cmd/main.go:302-309 | sanitising twice is sanitising once |
| Cli.DefaultTopic | cmd/main.go:280-283 | the file-name topic is the sanitised topic cut to at most 50 characters, and a prefix of it |
| Cli.URLsOfMembers | cmd/main.go:264-267 | the seen URLs are exactly the URLs of the sources so far |
| Cli.EntriesAreFirstOccurrences | cmd/main.go:264-270 | an entry is listed exactly when its number is the first position of its URL, and it carries that source's title |
| Cli.FirstWithPrefix | cmd/main.go:264-270 | first occurrences before the last source do not depend on it |
| Cli.FirstWithLast | cmd/main.go:264-270 | the last source is a first occurrence exactly when its URL does not appear earlier |
| Cli.EntriesBounded | cmd/main.go:268 | every entry number is between 1 and the number of sources |
| Cli.EntriesOrdered | cmd/main.go:264-270 | entries keep the order of the sources, and no URL is listed twice |
| Cli.EntriesOlder | cmd/main.go:264-270 | an entry of a prefix is numbered within it and lists one of its URLs |
| Cli.EntriesCover | cmd/main.go:264-270 | the bibliography lists exactly the URLs of the sources |
| Cli.EntriesStep | cmd/main.go:265-270 | one more source adds its URL to the seen set, and adds an entry exactly when the URL is new |
| Cli.BibliographySkip | cmd/main.go:266 | a source whose URL was listed before leaves the text unchanged |
| Cli.BibliographyAdd | cmd/main.go:266-268 | a new URL appends its numbered line |
| Cli.RenderAppend | cmd/main.go:268 | rendering one more entry appends its line |
| Cli.FinalOutput | cmd/main.go:259-270 | the output is the report, the bibliography header, and the rendered entries |
| WebServer.WithDefaults | cmd/server/main.go:173-187 | every non-positive setting takes its default (loops 5, parallel 5, context 32768, minimum results 20, delay 500 ms); everything else, `MaxPages` included, stays as given |
| WebServer.DefaultsIdempotent | cmd/server/main.go:173-187 | defaulting twice is defaulting once |
| WebServer.StartGuard | cmd/server/main.go:152-158 | a new research request is refused with 409 exactly while the job is planning, running or awaiting approval |
| WebServer.EmptyTopicRejected | cmd/server/main.go:167-170 | a request without a topic is refused with 400 and changes nothing |
| WebServer.NewJobOutcome | cmd/server/main.go:190-279 | an accepted request starts a job for the defaulted request; on success it awaits approval with the plan, on failure it is in error with the planner's message |
| WebServer.ApproveRules | cmd/server/main.go:282-324 | approval succeeds exactly from awaiting_approval with a plan and a researcher, and then sets running with an uncancelled context; every refusal changes nothing |
| WebServer.ReviseRules | cmd/server/main.go:327-365 | revision is accepted only while awaiting approval; it plans again from the job's request and ends awaiting approval with the new plan, or in error without a plan |
| WebServer.ReplanOutcome | cmd/server/main.go:368-407 | planning with feedback ends awaiting approval with the planner's plan, or in error without a plan |
| WebServer.CancelRules | cmd/server/main.go:410-457 | a running job with a cancel function is cancelled; one awaiting approval or planning is replaced by a fresh idle job and the researcher is cleared; anything else is refused with "Nothing to cancel" |
| WebServer.ExecuteRules | cmd/server/main.go:460-503 | a finished run completes the job with its result on success or after cancellation, and sets an error with the message otherwise |
| WebServer.InitialConsistent | cmd/server/main.go:26-36 | the idle starting state satisfies the state invariant |
| WebServer.ResearchKeepsConsistent | cmd/server/main.go:145-279 | the research handler keeps the state invariant |
| WebServer.ReviseKeepsConsistent | cmd/server/main.go:327-407 | the revise handler keeps the state invariant |
| WebServer.OtherHandlersKeepConsistent | cmd/server/main.go:282-503 | approve, cancel and the end of the run keep the state invariant |
| WebServer.HandlersKeepConsistent | cmd/server/main.go:145-535 | every handler keeps the state invariant: no job is left planning, a job awaiting approval has a plan and a researcher, a running job has a cancel function, a complete job has a result, and an error has a message |
| WebServer.ApproveNeverMissesPlan | cmd/server/main.go:301-304 | between requests, approving a job that awaits approval never fails with "Plan not found" |
| WebServer.ResearchFollowsLifecycle | cmd/server/main.go:145-279 | the research handler leaves the status alone or makes an allowed move |
| WebServer.ReviseFollowsLifecycle | cmd/server/main.go:327-407 | the revise handler leaves the status alone or makes an allowed move |
| WebServer.HandlersFollowLifecycle | cmd/server/main.go:145-535 | every handler leaves the status alone or moves it along the lifecycle |
| WebServer.Server.constructor | cmd/server/main.go:26-36 | a new server holds the idle job |
| WebServer.Server.SetError | cmd/server/main.go:524-535 | the job is in error with the message |
| WebServer.Server.CreatePlan | cmd/server/main.go:214-279 | the fields change as the plan step says |
| WebServer.Server.HandleResearch | cmd/server/main.go:145-211 | fields and response are those of the research step |
| WebServer.Server.HandleApprove | cmd/server/main.go:282-324 | fields and response are those of the approve step |
| WebServer.Server.CreatePlanWithFeedback | cmd/server/main.go:368-407 | the fields change as the replanning step says |
| WebServer.Server.HandleRevise | cmd/server/main.go:327-365 | fields and response are those of the revise step |
| WebServer.Server.HandleCancel | cmd/server/main.go:410-457 | fields and response are those of the cancel step |
| WebServer.Server.ExecuteResearch | cmd/server/main.go:460-503 | the fields change as the end-of-run step says |

## Left out

- Network I/O is left out. The HTTP requests of `SearchWithPage`, `Search`, `FetchPageContent` and `ExtractListingLinks`, and the LLM client's `Chat`, are oracles: they are transport.
- `parallelSearch` and simple-mode `Run` are left out. `parallelSearch` exists for goroutines and a semaphore, and only `Run` uses it; `RunExhaustive` is the default mode.
- Concurrency is left out: the agent's and the server's mutexes, the goroutine running `executeResearch`, and interleavings of handlers. Handlers are modelled as running one after another.
- The server's progress events are left out: `onProgress`, `handleProgress`, the server-sent events channel, `handleStatus` and `handleResults`. They only report state.
- The job's `StartedAt` time and its `Progress` field are left out.
- Prompt text and JSON decoding are left out. `CreatePlan`, `CreatePlanExhaustive`, `decide`, `summarize` and `generateQueryExpansions` appear only as the plans, expansions and replies they return.
- `Research.Env`: `normalizeURL` and `url.Parse` are uninterpreted functions. They depend on `net/url` parsing and query encoding.
- Regular-expression HTML extraction is left out: `extractTextFromHTML`, and the href patterns of `ExtractListingLinks` and `sanitizeFilename`. `ExtractListingLinks` takes the matched hrefs, already in pattern order, as input. `sanitizeFilename`'s pattern is written out as `Allowed`.
- `SearXNG.ExtractListingLinks`: the page URL is taken already parsed. Go discards that parse's error, and after a failed parse it would read the fields of a nil URL. The page was fetched from that URL just before, so the model does not represent that case.
- `SearXNG.ExtractListingLinks`: its three filters (not a category page, parses, same host) are passed to the loop as one keep test, `LinkFilter`.
- Floating point is left out. Ratios, thresholds and percentages are the integer formulas above, and the float products match them for the sizes in use.
- `Budget.CompressContext`: the mutual recursion with `compressContextChunked` has a fuel bound, because the Go code has no depth bound. With the fuel used up the model gives an error, where Go would recurse further.
- `time.Sleep` delays, console output and the `totalURLsFound` and `totalDuplicates` statistics are left out. They do not affect results.
- `GoStrings.ToLower` lowercases ASCII only. `strings.ToLower` also maps non-ASCII letters.
- `GoStrings.TrimSpace` trims the ASCII white space only. With one character per byte, the multi-byte Unicode spaces that `strings.TrimSpace` also trims are not modelled.
- `Research.DeepResearcher.RunExhaustive` requires a non-negative `ParallelQuery` when a round can run, that is when `MaxLoops` is positive and there are queries. A round with a negative value makes the Go slice bounds panic.
- `Research.DeepResearcher.RunExhaustive`: an error from `writeReport` is returned as `ReportFailed(error)`. Go returns the error itself.
- `Budget.SplitContextIntoChunks` requires `maxChunkSize >= 1`. Its only caller passes at least 2000, and with a size below 1 the Go loop never ends.
- `Budget.SplitContextIntoChunks`: the method ensures only that its result is `Chunks`. Reassembly and chunk sizes are proved about `Chunks` in `ChunksReassemble` and `ChunksSized`.
- `AgentText.TruncateQuery` requires `maxLen >= 3` for a query longer than `maxLen`. Go panics on that slice otherwise.
- Command-line plumbing is left out: the interactive reading loop, flag and environment parsing, WSL host detection, the output path and timestamp, and the file write. `ReadChoice` covers how an answer is read.
- The web server's embedded file system is left out, along with HTTP routing and how JSON responses are encoded.
- `pkg/search/search.go` and `pkg/search/mock.go` are left out. They hold only interface declarations and a test fixture, and the `Searcher` oracle stands for them.

## Findings

| source | as written | input that shows it | evidently intended | confidence | as-written member | corrected member |
|---|---|---|---|---|---|---|
| pkg/search/searxng.go:240-263 | the loop looks up `seen[href]` but records `seen[fullURL]`, so a relative href is never recognised as seen | the relative href "/x" matched twice on the page s://x/ (link s://x/x) | each full URL is collected once | not executed | SearXNG.RelativeHrefNotDeduplicated | SearXNG.CollectDistinct |
