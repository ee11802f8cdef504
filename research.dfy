/**
 * The exhaustive research driver of pkg/agent/agent.go: the paginated,
 * deduplicating search executor (`searchWithPagination`) and the round
 * controller (`RunExhaustive`). The search engine, the page fetcher, the
 * LLM and `normalizeURL` are outside collaborators, given as function values.
 */
module Research {
  import opened GoStrings
  import opened AgentText
  import opened Budget

  datatype Config = Config(
    maxLoops: int, parallelQuery: int, deepMode: bool, resultLinks: bool, simpleMode: bool,
    minResults: int, delayMs: int, maxPages: int, contextLength: int)

  datatype SearchResult = SearchResult(title: string, url: string, content: string)

  datatype Source = Source(title: string, url: string)

  /** The parts of a research plan exhaustive mode reads. */
  datatype ResearchPlan = ResearchPlan(understandingSummary: string, expectedOutcome: string, searchQueries: seq<string>)

  datatype ResearchResult = ResearchResult(report: string, sources: seq<Source>)

  datatype RunError = NoQueries | ReportFailed(cause: ReportError)

  /** `Searcher.Search(query)`. */
  type SearchFn = string -> Result<seq<SearchResult>, string>
  /** `SearchWithPage(query, page)`. */
  type PageSearchFn = (string, nat) -> Result<seq<SearchResult>, string>
  /** `ContentFetcher.FetchPageContent(url, maxLength)`. */
  type FetchFn = (string, int) -> Result<string, string>

  /** A search engine; the optional parts are the interfaces it may also implement. */
  datatype Searcher = Searcher(search: SearchFn, searchWithPage: Option<PageSearchFn>, fetchPageContent: Option<FetchFn>)

  /**
   * The LLM calls the driver makes: page summaries, `compressContext` and
   * report writing. `compress(data, attempt)` is `compressContext` at ratio
   * 0.5/attempt; in the Go driver it is `LadderCompressor(MaxContextChars(ContextLength), chat, fuel)`
   * over the same LLM's chat, whose properties are those of `CompressContext`.
   * Here it is kept a free parameter, so the round and report lemmas hold
   * for any compressor.
   */
  datatype Llm = Llm(pageChat: PageChat, compress: Compressor, reportChat: ReportChat)

  const AutoPageLimit := 100
  const DeepFetchLength := 6000
  const MinDeepContentLen := 50

  // ---------------------------------------------------------------------------
  // Pagination

  /** Pages fetched per query: `MaxPages`, where 0 means auto (100 pages) and a negative value none. */
  function PageLimit(maxPages: int): (r: nat)
    ensures maxPages == 0 ==> r == AutoPageLimit
    ensures maxPages > 0 ==> r == maxPages
    ensures maxPages < 0 ==> r == 0
  {
    if maxPages == 0 then AutoPageLimit else if maxPages < 0 then 0 else maxPages
  }

  /** The reply to the request for page `page` of query `q`. */
  function PageResponse(s: Searcher, q: string, page: nat): Result<seq<SearchResult>, string> {
    if s.searchWithPage.Some? then s.searchWithPage.value(q, page) else s.search(q)
  }

  /**
   * The non-empty result pages of query `q` from page `page` on: pages are
   * requested in order until an error, an empty page, or the page limit; a
   * searcher without pagination is asked for page 1 only.
   */
  function QueryPages(s: Searcher, q: string, page: nat, limit: nat): seq<seq<SearchResult>>
    decreases limit + 1 - page
  {
    if page > limit then []
    else if s.searchWithPage.None? && page > 1 then []
    else match PageResponse(s, q, page)
      case Err(_) => []
      case Ok(rs) => if rs == [] then [] else [rs] + QueryPages(s, q, page + 1, limit)
  }

  /**
   * The pagination rules: from page `page`, the i-th page processed is the
   * non-empty reply to page `page + i`; at most `limit - page + 1` pages,
   * only page 1 without pagination; and the run stops at the limit, at the
   * end of what a non-paginating searcher offers, or at the first error or
   * empty page.
   */
  lemma {:induction false} PaginationRules(s: Searcher, q: string, page: nat, limit: nat)
    requires page >= 1
    ensures var pages := QueryPages(s, q, page, limit);
      && (forall i :: 0 <= i < |pages| ==> PageResponse(s, q, page + i) == Ok(pages[i]) && pages[i] != [])
      && (page <= limit + 1 ==> |pages| <= limit + 1 - page)
      && (page > limit ==> pages == [])
      && (s.searchWithPage.None? ==> |pages| <= if page == 1 then 1 else 0)
      && (page + |pages| > limit
          || (s.searchWithPage.None? && page + |pages| > 1)
          || PageResponse(s, q, page + |pages|).Err?
          || PageResponse(s, q, page + |pages|).value == [])
    decreases limit + 1 - page
  {
    var pages := QueryPages(s, q, page, limit);
    if page <= limit && !(s.searchWithPage.None? && page > 1) && PageResponse(s, q, page).Ok? && PageResponse(s, q, page).value != [] {
      var rest := QueryPages(s, q, page + 1, limit);
      PaginationRules(s, q, page + 1, limit);
      assert pages == [PageResponse(s, q, page).value] + rest;
      forall i | 0 <= i < |pages|
        ensures PageResponse(s, q, page + i) == Ok(pages[i]) && pages[i] != []
      {
        if i > 0 {
          assert pages[i] == rest[i - 1];
          assert page + i == (page + 1) + (i - 1);
        }
      }
      assert page + |pages| == (page + 1) + |rest|;
    }
  }

  lemma QueryPagesNext(s: Searcher, q: string, page: nat, limit: nat)
    requires page <= limit && !(s.searchWithPage.None? && page > 1)
    requires PageResponse(s, q, page).Ok? && PageResponse(s, q, page).value != []
    ensures QueryPages(s, q, page, limit) == [PageResponse(s, q, page).value] + QueryPages(s, q, page + 1, limit)
  {
  }

  lemma QueryPagesEnd(s: Searcher, q: string, page: nat, limit: nat)
    requires page > limit || (s.searchWithPage.None? && page > 1)
      || PageResponse(s, q, page).Err? || PageResponse(s, q, page).value == []
    ensures QueryPages(s, q, page, limit) == []
  {
  }

  /** The concatenation of a sequence of result pages. */
  function Flatten(pages: seq<seq<SearchResult>>): seq<SearchResult> {
    if pages == [] then [] else Flatten(pages[..|pages| - 1]) + pages[|pages| - 1]
  }

  /** The pages fetched so far, followed by those still to come, are all the pages of the query. */
  lemma PagesAdvance(s: Searcher, q: string, page: nat, limit: nat, done: seq<seq<SearchResult>>)
    requires page <= limit && !(s.searchWithPage.None? && page > 1)
    requires PageResponse(s, q, page).Ok? && PageResponse(s, q, page).value != []
    requires QueryPages(s, q, 1, limit) == done + QueryPages(s, q, page, limit)
    ensures QueryPages(s, q, 1, limit) == (done + [PageResponse(s, q, page).value]) + QueryPages(s, q, page + 1, limit)
  {
    QueryPagesNext(s, q, page, limit);
    var later := QueryPages(s, q, page + 1, limit);
    assert done + ([PageResponse(s, q, page).value] + later) == (done + [PageResponse(s, q, page).value]) + later;
  }

  /** Processing the results of one more page continues from the results of the earlier pages. */
  lemma ProcessPages(t: Tally, done: seq<seq<SearchResult>>, rs: seq<SearchResult>,
                     normalize: string -> string, entry: SearchResult -> string)
    ensures Process(t, Flatten(done + [rs]), normalize, entry)
         == Process(Process(t, Flatten(done), normalize, entry), rs, normalize, entry)
  {
    assert (done + [rs])[..|done|] == done;
    assert Flatten(done + [rs]) == Flatten(done) + rs;
    ProcessAppend(t, Flatten(done), rs, normalize, entry);
  }

  /** Every result processed for `queries`, in order: each query's pages, in page order. */
  function AllResults(s: Searcher, queries: seq<string>, limit: nat): seq<SearchResult> {
    if queries == [] then []
    else AllResults(s, queries[..|queries| - 1], limit) + Flatten(QueryPages(s, queries[|queries| - 1], 1, limit))
  }

  lemma {:induction false} AllResultsAppend(s: Searcher, a: seq<string>, b: seq<string>, limit: nat)
    ensures AllResults(s, a + b, limit) == AllResults(s, a, limit) + AllResults(s, b, limit)
    decreases |b|
  {
    if b == [] {
      assert a + b == a;
    } else {
      var init := b[..|b| - 1];
      AllResultsAppend(s, a, init, limit);
      assert (a + b)[..|a + b| - 1] == a + init;
      assert (a + b)[|a + b| - 1] == b[|b| - 1];
    }
  }

  // ---------------------------------------------------------------------------
  // Recording results

  /** The state `searchWithPagination` keeps: seen normalized URLs, sources, result text, counters. */
  datatype Tally = Tally(seen: set<string>, sources: seq<Source>, text: string, newURLs: nat, duplicates: nat)

  /** A tally over given seen URLs and sources, with empty text and zero counters. */
  function Fresh(seen: set<string>, sources: seq<Source>): Tally {
    Tally(seen, sources, "", 0, 0)
  }

  function SnippetEntry(r: SearchResult): string {
    "- " + r.title + "\n  URL: " + r.url + "\n  Snippet: " + r.content + "\n\n"
  }

  /**
   * The text recorded for a new result: in deep mode with a fetcher, the
   * summary of the fetched page when more than 50 characters came back;
   * otherwise the search snippet.
   */
  function Entry(r: SearchResult, deep: Option<FetchFn>, pageChat: PageChat): string {
    if deep.Some? && deep.value(r.url, DeepFetchLength).Ok? && |deep.value(r.url, DeepFetchLength).value| > MinDeepContentLen then
      var content := deep.value(r.url, DeepFetchLength).value;
      "- LISTING: " + r.title + "\n  URL: " + r.url + "\n  Details: " + SummarizePage(r.url, r.title, content, pageChat) + "\n\n"
    else SnippetEntry(r)
  }

  /** `Entry` for a fixed fetcher and summariser. */
  function EntryText(deep: Option<FetchFn>, pageChat: PageChat): SearchResult -> string {
    r => Entry(r, deep, pageChat)
  }

  /**
   * One result: a duplicate (by normalized URL) is only counted; a new one is
   * recorded with the text `entry` gives it.
   */
  function Step(t: Tally, r: SearchResult, normalize: string -> string, entry: SearchResult -> string): Tally {
    var n := normalize(r.url);
    if n in t.seen then t.(duplicates := t.duplicates + 1)
    else Tally(t.seen + {n}, t.sources + [Source(r.title, r.url)], t.text + entry(r), t.newURLs + 1, t.duplicates)
  }

  /** The results `rs` processed in order. */
  function Process(t: Tally, rs: seq<SearchResult>, normalize: string -> string, entry: SearchResult -> string): Tally {
    if rs == [] then t
    else Step(Process(t, rs[..|rs| - 1], normalize, entry), rs[|rs| - 1], normalize, entry)
  }

  /** The normalized URLs of `rs`. */
  function NormalizedURLs(rs: seq<SearchResult>, normalize: string -> string): set<string> {
    if rs == [] then {} else NormalizedURLs(rs[..|rs| - 1], normalize) + {normalize(rs[|rs| - 1].url)}
  }

  lemma {:induction false} NormalizedURLsMembers(rs: seq<SearchResult>, normalize: string -> string)
    ensures forall n :: n in NormalizedURLs(rs, normalize) <==> exists k :: 0 <= k < |rs| && normalize(rs[k].url) == n
  {
    if rs != [] {
      var init := rs[..|rs| - 1];
      NormalizedURLsMembers(init, normalize);
      forall n | n in NormalizedURLs(rs, normalize)
        ensures exists k :: 0 <= k < |rs| && normalize(rs[k].url) == n
      {
        if n in NormalizedURLs(init, normalize) {
          var k :| 0 <= k < |init| && normalize(init[k].url) == n;
          assert rs[k] == init[k];
        } else {
          assert normalize(rs[|rs| - 1].url) == n;
        }
      }
      forall n, k | 0 <= k < |rs| && normalize(rs[k].url) == n
        ensures n in NormalizedURLs(rs, normalize)
      {
        if k < |init| {
          assert init[k] == rs[k];
        }
      }
    }
  }

  lemma {:induction false} ProcessAppend(t: Tally, a: seq<SearchResult>, b: seq<SearchResult>,
                                         normalize: string -> string, entry: SearchResult -> string)
    ensures Process(t, a + b, normalize, entry) == Process(Process(t, a, normalize, entry), b, normalize, entry)
    decreases |b|
  {
    if b == [] {
      assert a + b == a;
    } else {
      ProcessAppend(t, a, b[..|b| - 1], normalize, entry);
      assert (a + b)[..|a + b| - 1] == a + b[..|b| - 1];
      assert (a + b)[|a + b| - 1] == b[|b| - 1];
    }
  }

  /**
   * The counters and the state stay in step: every result is counted once,
   * as new or as a duplicate; the sources grow by exactly the new results,
   * keeping the old ones in front.
   */
  lemma {:induction false} ProcessCounts(t: Tally, rs: seq<SearchResult>,
                                         normalize: string -> string, entry: SearchResult -> string)
    ensures var u := Process(t, rs, normalize, entry);
      && u.newURLs >= t.newURLs && u.duplicates >= t.duplicates
      && u.newURLs + u.duplicates == t.newURLs + t.duplicates + |rs|
      && |u.sources| == |t.sources| + (u.newURLs - t.newURLs)
      && u.sources[..|t.sources|] == t.sources
  {
    if rs != [] {
      var init := rs[..|rs| - 1];
      ProcessCounts(t, init, normalize, entry);
      var v := Process(t, init, normalize, entry);
      var r := rs[|rs| - 1];
      if normalize(r.url) !in v.seen {
        assert (v.sources + [Source(r.title, r.url)])[..|t.sources|] == v.sources[..|t.sources|];
      }
    }
  }

  /**
   * The seen set gains exactly the normalized URLs of the results, and grows
   * by exactly the number of new results.
   */
  lemma {:induction false} ProcessSeen(t: Tally, rs: seq<SearchResult>,
                                       normalize: string -> string, entry: SearchResult -> string)
    ensures var u := Process(t, rs, normalize, entry);
      && u.seen == t.seen + NormalizedURLs(rs, normalize)
      && u.newURLs >= t.newURLs
      && |u.seen| == |t.seen| + (u.newURLs - t.newURLs)
  {
    if rs != [] {
      var init := rs[..|rs| - 1];
      var r := rs[|rs| - 1];
      ProcessSeen(t, init, normalize, entry);
    }
  }

  /** A result whose normalized URL is already seen adds nothing but a duplicate count. */
  lemma SeenResultAddsNothing(t: Tally, rs: seq<SearchResult>, r: SearchResult,
                              normalize: string -> string, entry: SearchResult -> string)
    requires normalize(r.url) in t.seen || exists k :: 0 <= k < |rs| && normalize(rs[k].url) == normalize(r.url)
    ensures var before := Process(t, rs, normalize, entry);
      Process(t, rs + [r], normalize, entry) == before.(duplicates := before.duplicates + 1)
  {
    ProcessSeen(t, rs, normalize, entry);
    NormalizedURLsMembers(rs, normalize);
    assert (rs + [r])[..|rs|] == rs;
  }

  /** What a pass does to the seen URLs and the sources depends on nothing else in the tally. */
  lemma {:induction false} ProcessFromState(t: Tally, rs: seq<SearchResult>,
                                            normalize: string -> string, entry: SearchResult -> string)
    ensures Process(t, rs, normalize, entry).seen == Process(Fresh(t.seen, t.sources), rs, normalize, entry).seen
    ensures Process(t, rs, normalize, entry).sources == Process(Fresh(t.seen, t.sources), rs, normalize, entry).sources
  {
    if rs != [] {
      ProcessFromState(t, rs[..|rs| - 1], normalize, entry);
    }
  }

  // ---------------------------------------------------------------------------
  // Rounds of `RunExhaustive`

  function InitialContext(topic: string, plan: ResearchPlan): string {
    "User Query: " + topic + "\n\nResearch Plan:\n- Understanding: " + plan.understandingSummary
      + "\n- Expected Outcome: " + plan.expectedOutcome + "\n\nKnowledge gathered:\n"
  }

  function RoundHeader(round: nat): string {
    "\n--- Round " + NatToString(round) + " Results ---\n"
  }

  /**
   * The research context after round `round` (1-based) added `roundResults`:
   * compressed with ratio 0.5 once it exceeds half the budget, and kept
   * whole when that compression fails.
   */
  function RoundContext(context: string, round: nat, roundResults: string, maxChars: nat, compress: Compressor): (r: string)
    ensures var grown := if roundResults != "" then context + RoundHeader(round) + roundResults else context;
      && (|grown| <= HalfBudget(maxChars) || compress(grown, 1).Err? ==> r == grown)
      && (|grown| > HalfBudget(maxChars) && compress(grown, 1).Ok? ==> r == compress(grown, 1).value)
  {
    var grown := if roundResults != "" then context + RoundHeader(round) + roundResults else context;
    if |grown| > HalfBudget(maxChars) then
      match compress(grown, 1)
      case Ok(c) => c
      case Err(_) => grown
    else grown
  }

  /** The collaborators of the driver, as its fields hold them. */
  datatype Env = Env(config: Config, searcher: Searcher, normalize: string -> string, llm: Llm)

  function Deep(env: Env): Option<FetchFn> {
    if env.config.deepMode then env.searcher.fetchPageContent else None
  }

  /** One round's pass over its queries, from `seen` and `sources`. */
  function RoundPass(env: Env, batch: seq<string>, seen: set<string>, sources: seq<Source>): Tally {
    Process(Fresh(seen, sources), AllResults(env.searcher, batch, PageLimit(env.config.maxPages)),
            env.normalize, EntryText(Deep(env), env.llm.pageChat))
  }

  /** The first query index of the round after the one starting at `queryIndex`. */
  function NextIndex(queryIndex: nat, perRound: nat, total: nat): (r: nat)
    requires queryIndex <= total
    ensures queryIndex <= r <= total
    ensures r - queryIndex <= perRound
    ensures r == total || r == queryIndex + perRound
  {
    if queryIndex + perRound > total then total else queryIndex + perRound
  }

  /** What the rounds did: final seen URLs, sources and context, each round's queries and its unique count. */
  datatype RoundsRun = RoundsRun(seen: set<string>, sources: seq<Source>, context: string,
                                 batches: seq<seq<string>>, counts: seq<nat>)

  /** The rounds from round `round` (0-based) and query index `queryIndex` on. */
  function Rounds(env: Env, queries: seq<string>, round: nat, queryIndex: nat,
                  seen: set<string>, sources: seq<Source>, context: string): RoundsRun
    requires (env.config.parallelQuery >= 0 || round >= env.config.maxLoops) && queryIndex <= |queries|
    decreases env.config.maxLoops - round
  {
    if round >= env.config.maxLoops || queryIndex >= |queries| then RoundsRun(seen, sources, context, [], [])
    else
      var endIndex := NextIndex(queryIndex, env.config.parallelQuery, |queries|);
      var batch := queries[queryIndex..endIndex];
      var pass := RoundPass(env, batch, seen, sources);
      var context' := RoundContext(context, round + 1, pass.text, MaxContextChars(env.config.contextLength), env.llm.compress);
      if |pass.sources| >= env.config.minResults then
        RoundsRun(pass.seen, pass.sources, context', [batch], [|pass.sources|])
      else
        var rest := Rounds(env, queries, round + 1, endIndex, pass.seen, pass.sources, context');
        RoundsRun(rest.seen, rest.sources, rest.context, [batch] + rest.batches, [|pass.sources|] + rest.counts)
  }

  /** The start of round `i` of a run from `queryIndex`: each round starts where the previous one ended. */
  function BatchStart(queryIndex: nat, perRound: nat, total: nat, i: nat): (r: nat)
    requires queryIndex <= total
    ensures queryIndex <= r <= total
  {
    if i == 0 then queryIndex else NextIndex(BatchStart(queryIndex, perRound, total, i - 1), perRound, total)
  }

  lemma {:induction false} BatchStartShift(queryIndex: nat, perRound: nat, total: nat, i: nat)
    requires queryIndex <= total
    ensures BatchStart(NextIndex(queryIndex, perRound, total), perRound, total, i) == BatchStart(queryIndex, perRound, total, i + 1)
  {
    if i > 0 {
      BatchStartShift(queryIndex, perRound, total, i - 1);
    }
  }

  /** One round of `Rounds`, unfolded. */
  lemma RoundsStep(env: Env, queries: seq<string>, round: nat, queryIndex: nat,
                   seen: set<string>, sources: seq<Source>, context: string)
    requires (env.config.parallelQuery >= 0 || round >= env.config.maxLoops) && queryIndex <= |queries|
    requires round < env.config.maxLoops && queryIndex < |queries|
    ensures var endIndex := NextIndex(queryIndex, env.config.parallelQuery, |queries|);
      var pass := RoundPass(env, queries[queryIndex..endIndex], seen, sources);
      var context' := RoundContext(context, round + 1, pass.text, MaxContextChars(env.config.contextLength), env.llm.compress);
      var run := Rounds(env, queries, round, queryIndex, seen, sources, context);
      var rest := Rounds(env, queries, round + 1, endIndex, pass.seen, pass.sources, context');
      && (|pass.sources| >= env.config.minResults ==>
            run == RoundsRun(pass.seen, pass.sources, context', [queries[queryIndex..endIndex]], [|pass.sources|]))
      && (|pass.sources| < env.config.minResults ==>
            run == RoundsRun(rest.seen, rest.sources, rest.context,
                             [queries[queryIndex..endIndex]] + rest.batches, [|pass.sources|] + rest.counts))
  {
  }

  /**
   * After one round from `queryIndex` has left `seen'`, `sources'` and
   * `context'`, the final seen URLs, sources and context are these when the
   * round reached `MinResults`, and those of the rounds that follow otherwise.
   */
  lemma RoundsAdvance(env: Env, queries: seq<string>, round: nat, queryIndex: nat,
                      seen: set<string>, sources: seq<Source>, context: string,
                      seen': set<string>, sources': seq<Source>, context': string)
    requires (env.config.parallelQuery >= 0 || round >= env.config.maxLoops) && queryIndex <= |queries|
    requires round < env.config.maxLoops && queryIndex < |queries|
    requires var pass := RoundPass(env, queries[queryIndex..NextIndex(queryIndex, env.config.parallelQuery, |queries|)], seen, sources);
      && seen' == pass.seen && sources' == pass.sources
      && context' == RoundContext(context, round + 1, pass.text, MaxContextChars(env.config.contextLength), env.llm.compress)
    ensures var run := Rounds(env, queries, round, queryIndex, seen, sources, context);
      |sources'| >= env.config.minResults ==> run.seen == seen' && run.sources == sources' && run.context == context'
    ensures var run := Rounds(env, queries, round, queryIndex, seen, sources, context);
      var rest := Rounds(env, queries, round + 1, NextIndex(queryIndex, env.config.parallelQuery, |queries|), seen', sources', context');
      |sources'| < env.config.minResults ==> run.seen == rest.seen && run.sources == rest.sources && run.context == rest.context
  {
    RoundsStep(env, queries, round, queryIndex, seen, sources, context);
  }

  lemma RoundsDone(env: Env, queries: seq<string>, round: nat, queryIndex: nat,
                   seen: set<string>, sources: seq<Source>, context: string)
    requires (env.config.parallelQuery >= 0 || round >= env.config.maxLoops) && queryIndex <= |queries|
    requires round >= env.config.maxLoops || queryIndex >= |queries|
    ensures Rounds(env, queries, round, queryIndex, seen, sources, context) == RoundsRun(seen, sources, context, [], [])
  {
  }

  /**
   * Rounds take consecutive, non-overlapping, in-order slices of at most
   * `ParallelQuery` queries (exactly that many unless the queries run out),
   * each starting while queries remained.
   */
  lemma {:induction false} RoundsBatches(env: Env, queries: seq<string>, round: nat, queryIndex: nat,
                                         seen: set<string>, sources: seq<Source>, context: string)
    requires (env.config.parallelQuery >= 0 || round >= env.config.maxLoops) && queryIndex <= |queries|
    ensures env.config.parallelQuery >= 0 ==>
      ConsecutiveSlices(queries, env.config.parallelQuery, queryIndex,
                        Rounds(env, queries, round, queryIndex, seen, sources, context).batches)
    ensures env.config.parallelQuery < 0 ==> Rounds(env, queries, round, queryIndex, seen, sources, context).batches == []
    decreases env.config.maxLoops - round
  {
    var p := env.config.parallelQuery;
    var n := |queries|;
    if !(round >= env.config.maxLoops || queryIndex >= n) {
      var endIndex := NextIndex(queryIndex, p, n);
      var pass := RoundPass(env, queries[queryIndex..endIndex], seen, sources);
      var context' := RoundContext(context, round + 1, pass.text, MaxContextChars(env.config.contextLength), env.llm.compress);
      RoundsStep(env, queries, round, queryIndex, seen, sources, context);
      if |pass.sources| < env.config.minResults {
        RoundsBatches(env, queries, round + 1, endIndex, pass.seen, pass.sources, context');
        BatchesCons(queries, p, queryIndex, Rounds(env, queries, round + 1, endIndex, pass.seen, pass.sources, context').batches);
      } else {
        BatchesCons(queries, p, queryIndex, []);
        assert [queries[queryIndex..endIndex]] + [] == [queries[queryIndex..endIndex]];
      }
    }
  }

  /**
   * Batch `i` of `batches` is the slice of `queries` from the start of round
   * `i` to the start of the next, and it starts while queries remain.
   */
  ghost predicate ConsecutiveSlices(queries: seq<string>, p: nat, from: nat, batches: seq<seq<string>>)
    requires from <= |queries|
  {
    forall i {:trigger batches[i]} :: 0 <= i < |batches| ==>
      BatchStart(from, p, |queries|, i) < |queries|
      && batches[i] == queries[BatchStart(from, p, |queries|, i)..BatchStart(from, p, |queries|, i + 1)]
  }

  /** The slice property of `RoundsBatches`, extended by the batch in front. */
  lemma BatchesCons(queries: seq<string>, p: nat, queryIndex: nat, rest: seq<seq<string>>)
    requires queryIndex < |queries|
    requires ConsecutiveSlices(queries, p, NextIndex(queryIndex, p, |queries|), rest)
    ensures ConsecutiveSlices(queries, p, queryIndex, [queries[queryIndex..NextIndex(queryIndex, p, |queries|)]] + rest)
  {
    var n := |queries|;
    var endIndex := NextIndex(queryIndex, p, n);
    var batches := [queries[queryIndex..endIndex]] + rest;
    assert BatchStart(queryIndex, p, n, 1) == endIndex;
    forall i | 0 <= i < |batches|
      ensures BatchStart(queryIndex, p, n, i) < n
      ensures batches[i] == queries[BatchStart(queryIndex, p, n, i)..BatchStart(queryIndex, p, n, i + 1)]
    {
      if i == 0 {
        assert batches[i] == queries[queryIndex..endIndex];
      } else {
        var j := i - 1;
        BatchStartShift(queryIndex, p, n, j);
        BatchStartShift(queryIndex, p, n, i);
        assert BatchStart(queryIndex, p, n, i) == BatchStart(endIndex, p, n, j);
        assert BatchStart(queryIndex, p, n, i + 1) == BatchStart(endIndex, p, n, j + 1);
        assert batches[i] == rest[j];
      }
    }
  }

  /**
   * There are never more than `MaxLoops` rounds; every round but the last
   * ended below `MinResults` unique sources; and the loop ends at `MaxLoops`, when the queries run out, or when the last round
   * reached `MinResults`.
   */
  lemma RoundsStop(env: Env, queries: seq<string>, round: nat, queryIndex: nat,
                   seen: set<string>, sources: seq<Source>, context: string)
    requires (env.config.parallelQuery >= 0 || round >= env.config.maxLoops) && queryIndex <= |queries|
    ensures var run := Rounds(env, queries, round, queryIndex, seen, sources, context);
      && |run.counts| == |run.batches|
      && (round + |run.batches| <= env.config.maxLoops || run.batches == [])
      && (forall i :: 0 <= i < |run.counts| - 1 ==> run.counts[i] < env.config.minResults)
      && (round + |run.batches| >= env.config.maxLoops
          || BatchStart(queryIndex, env.config.parallelQuery, |queries|, |run.batches|) >= |queries|
          || (run.counts != [] && run.counts[|run.counts| - 1] >= env.config.minResults))
  {
    if env.config.parallelQuery >= 0 {
      RoundsStopFrom(env, queries, round, queryIndex, seen, sources, context);
    }
  }

  /** `RoundsStop` for a non-negative `ParallelQuery`, by induction on the rounds. */
  lemma {:induction false} RoundsStopFrom(env: Env, queries: seq<string>, round: nat, queryIndex: nat,
                                          seen: set<string>, sources: seq<Source>, context: string)
    requires env.config.parallelQuery >= 0 && queryIndex <= |queries|
    ensures var run := Rounds(env, queries, round, queryIndex, seen, sources, context);
      && |run.counts| == |run.batches|
      && (round + |run.batches| <= env.config.maxLoops || run.batches == [])
      && (forall i :: 0 <= i < |run.counts| - 1 ==> run.counts[i] < env.config.minResults)
      && (round + |run.batches| >= env.config.maxLoops
          || BatchStart(queryIndex, env.config.parallelQuery, |queries|, |run.batches|) >= |queries|
          || (run.counts != [] && run.counts[|run.counts| - 1] >= env.config.minResults))
    decreases env.config.maxLoops - round
  {
    var p := env.config.parallelQuery;
    var n := |queries|;
    if !(round >= env.config.maxLoops || queryIndex >= n) {
      var endIndex := NextIndex(queryIndex, p, n);
      var pass := RoundPass(env, queries[queryIndex..endIndex], seen, sources);
      var context' := RoundContext(context, round + 1, pass.text, MaxContextChars(env.config.contextLength), env.llm.compress);
      RoundsStep(env, queries, round, queryIndex, seen, sources, context);
      if |pass.sources| < env.config.minResults {
        var rest := Rounds(env, queries, round + 1, endIndex, pass.seen, pass.sources, context');
        RoundsStopFrom(env, queries, round + 1, endIndex, pass.seen, pass.sources, context');
        CountsCons(env.config, |queries|, round, queryIndex, |pass.sources|, rest.batches, rest.counts);
        CountsBelow(|pass.sources|, rest.counts, env.config.minResults);
      }
    }
  }

  /** The bound and the stop condition of `RoundsStop`, extended by a round in front that stayed below `MinResults`. */
  lemma CountsCons(config: Config, n: nat, round: nat, queryIndex: nat, count: nat,
                   batches: seq<seq<string>>, counts: seq<nat>)
    requires config.parallelQuery >= 0 && queryIndex < n && round < config.maxLoops
    requires count < config.minResults
    requires (round + 1 + |batches| <= config.maxLoops || batches == [])
      && (round + 1 + |batches| >= config.maxLoops
          || BatchStart(NextIndex(queryIndex, config.parallelQuery, n), config.parallelQuery, n, |batches|) >= n
          || (counts != [] && counts[|counts| - 1] >= config.minResults))
    ensures round + 1 + |batches| <= config.maxLoops
    ensures var counts' := [count] + counts;
      || round + 1 + |batches| >= config.maxLoops
      || BatchStart(queryIndex, config.parallelQuery, n, 1 + |batches|) >= n
      || counts'[|counts'| - 1] >= config.minResults
  {
    BatchStartShift(queryIndex, config.parallelQuery, n, |batches|);
  }

  lemma CountsBelow(count: nat, counts: seq<nat>, minResults: int)
    requires count < minResults
    requires forall i :: 0 <= i < |counts| - 1 ==> counts[i] < minResults
    ensures var counts' := [count] + counts;
      forall i :: 0 <= i < |counts'| - 1 ==> counts'[i] < minResults
  {
    var counts' := [count] + counts;
    forall i | 0 <= i < |counts'| - 1
      ensures counts'[i] < minResults
    {
      if i > 0 { assert counts'[i] == counts[i - 1]; }
    }
  }

  /** `ConcatQueries(batches)`: the queries of the rounds, in order. */
  function ConcatQueries(batches: seq<seq<string>>): seq<string> {
    if batches == [] then [] else ConcatQueries(batches[..|batches| - 1]) + batches[|batches| - 1]
  }

  lemma {:induction false} ConcatQueriesCons(b: seq<string>, rest: seq<seq<string>>)
    ensures ConcatQueries([b] + rest) == b + ConcatQueries(rest)
    decreases |rest|
  {
    if rest == [] {
      assert ConcatQueries([b]) == ConcatQueries([]) + b;
    } else {
      var init := rest[..|rest| - 1];
      ConcatQueriesCons(b, init);
      assert ([b] + rest)[..|[b] + rest| - 1] == [b] + init;
      assert ([b] + rest)[|[b] + rest| - 1] == rest[|rest| - 1];
    }
  }

  /**
   * Splitting the work into rounds changes nothing about what is found: the
   * final seen URLs and sources are those of one pass over every query the
   * rounds took, in order.
   */
  lemma {:induction false} RoundsAsOnePass(env: Env, queries: seq<string>, round: nat, queryIndex: nat,
                                           seen: set<string>, sources: seq<Source>, context: string)
    requires (env.config.parallelQuery >= 0 || round >= env.config.maxLoops) && queryIndex <= |queries|
    ensures var run := Rounds(env, queries, round, queryIndex, seen, sources, context);
      && run.seen == RoundPass(env, ConcatQueries(run.batches), seen, sources).seen
      && run.sources == RoundPass(env, ConcatQueries(run.batches), seen, sources).sources
    decreases env.config.maxLoops - round
  {
    var run := Rounds(env, queries, round, queryIndex, seen, sources, context);
    var limit := PageLimit(env.config.maxPages);
    if !(round >= env.config.maxLoops || queryIndex >= |queries|) {
      var endIndex := NextIndex(queryIndex, env.config.parallelQuery, |queries|);
      var batch := queries[queryIndex..endIndex];
      var pass := RoundPass(env, batch, seen, sources);
      var context' := RoundContext(context, round + 1, pass.text, MaxContextChars(env.config.contextLength), env.llm.compress);
      if |pass.sources| >= env.config.minResults {
        assert ConcatQueries(run.batches) == batch by {
          assert ConcatQueries([batch]) == ConcatQueries([]) + batch;
        }
      } else {
        var rest := Rounds(env, queries, round + 1, endIndex, pass.seen, pass.sources, context');
        RoundsAsOnePass(env, queries, round + 1, endIndex, pass.seen, pass.sources, context');
        ConcatQueriesCons(batch, rest.batches);
        var restQueries := ConcatQueries(rest.batches);
        AllResultsAppend(env.searcher, batch, restQueries, limit);
        ProcessAppend(Fresh(seen, sources), AllResults(env.searcher, batch, limit), AllResults(env.searcher, restQueries, limit),
                      env.normalize, EntryText(Deep(env), env.llm.pageChat));
        ProcessFromState(pass, AllResults(env.searcher, restQueries, limit), env.normalize, EntryText(Deep(env), env.llm.pageChat));
      }
    }
  }

  /** The outcome `RunExhaustive` returns once the rounds are over. */
  function Outcome(report: Result<string, ReportError>, sources: seq<Source>): Result<ResearchResult, RunError> {
    match report
    case Err(e) => Err(ReportFailed(e))
    case Ok(text) => Ok(ResearchResult(text, sources))
  }

  /**
   * The research agent. The oracles and the configuration are fixed at
   * construction; `sources` and `seenURLs` (a Go map to `true`, so a set)
   * change as results are recorded.
   */
  class DeepResearcher {
    const env: Env
    var sources: seq<Source>
    var seenURLs: set<string>

    /** `NewDeepResearcher`: no sources and no seen URLs yet. */
    constructor (env: Env)
      ensures this.env == env && sources == [] && seenURLs == {}
    {
      this.env := env;
      sources := [];
      seenURLs := {};
    }

    /** Results recorded from tally `t` by this agent's normalizer and entry text. */
    function Record(t: Tally, rs: seq<SearchResult>): Tally {
      Process(t, rs, env.normalize, EntryText(Deep(env), env.llm.pageChat))
    }

    /** The agent's state together with the running text and counters. */
    function State(text: string, newURLs: nat, duplicates: nat): Tally
      reads this
    {
      Tally(seenURLs, sources, text, newURLs, duplicates)
    }

    /**
     * The innermost loop of `searchWithPagination`: each result of one page,
     * in order, is counted as a duplicate or recorded as new.
     */
    method RecordPage(results: seq<SearchResult>, text0: string, newURLs0: nat, duplicates0: nat)
      returns (text: string, newURLs: nat, duplicates: nat)
      modifies this
      ensures State(text, newURLs, duplicates) == Record(Tally(old(seenURLs), old(sources), text0, newURLs0, duplicates0), results)
    {
      ghost var start := State(text0, newURLs0, duplicates0);
      var normalize := env.normalize;
      var entryText := EntryText(Deep(env), env.llm.pageChat);
      text, newURLs, duplicates := text0, newURLs0, duplicates0;
      var k := 0;
      while k < |results|
        invariant 0 <= k <= |results|
        invariant State(text, newURLs, duplicates) == Record(start, results[..k])
      {
        var r := results[k];
        var normalizedURL := normalize(r.url);
        assert results[..k + 1][..k] == results[..k];
        if normalizedURL in seenURLs {
          duplicates := duplicates + 1;
        } else {
          seenURLs := seenURLs + {normalizedURL};
          newURLs := newURLs + 1;
          var entry := entryText(r);
          text := text + entry;
          sources := sources + [Source(r.title, r.url)];
        }
        k := k + 1;
      }
      assert results[..k] == results;
    }

    /**
     * One page request of `searchWithPagination`: page `page` of `query`, or
     * a stop when the searcher cannot paginate past page 1, the request
     * fails, or the page is empty.
     */
    method FetchPage(query: string, page: nat) returns (stop: bool, results: seq<SearchResult>)
      requires page >= 1
      ensures stop <==> ((env.searcher.searchWithPage.None? && page > 1)
                         || PageResponse(env.searcher, query, page).Err? || PageResponse(env.searcher, query, page).value == [])
      ensures !stop ==> results == PageResponse(env.searcher, query, page).value
    {
      var searcher := env.searcher;
      var response: Result<seq<SearchResult>, string>;
      if searcher.searchWithPage.Some? {
        response := searcher.searchWithPage.value(query, page);
      } else if page == 1 {
        response := searcher.search(query);
      } else {
        return true, [];
      }
      assert response == PageResponse(searcher, query, page);
      if response.Err? {
        return true, [];
      }
      results := response.value;
      stop := |results| == 0;
    }

    /** The page loop of `searchWithPagination` for one query. */
    method SearchQuery(query: string, text0: string, newURLs0: nat, duplicates0: nat)
      returns (text: string, newURLs: nat, duplicates: nat)
      modifies this
      ensures State(text, newURLs, duplicates)
        == Record(Tally(old(seenURLs), old(sources), text0, newURLs0, duplicates0),
                  Flatten(QueryPages(env.searcher, query, 1, PageLimit(env.config.maxPages))))
    {
      ghost var start := State(text0, newURLs0, duplicates0);
      ghost var limit := PageLimit(env.config.maxPages);
      var searcher := env.searcher;
      text, newURLs, duplicates := text0, newURLs0, duplicates0;
      var maxPages := env.config.maxPages;
      if maxPages == 0 {
        maxPages := AutoPageLimit;
      }
      ghost var done: seq<seq<SearchResult>> := [];
      var page: nat := 1;
      while page <= maxPages
        invariant 1 <= page
        invariant QueryPages(searcher, query, 1, limit) == done + QueryPages(searcher, query, page, limit)
        invariant State(text, newURLs, duplicates) == Record(start, Flatten(done))
        decreases maxPages - page
      {
        var stop, searchResults := FetchPage(query, page);
        if stop {
          QueryPagesEnd(searcher, query, page, limit);
          break;
        }
        PagesAdvance(searcher, query, page, limit, done);
        text, newURLs, duplicates := RecordPage(searchResults, text, newURLs, duplicates);
        ProcessPages(start, done, searchResults, env.normalize, EntryText(Deep(env), env.llm.pageChat));
        done := done + [searchResults];
        page := page + 1;
      }
      if page > maxPages {
        QueryPagesEnd(searcher, query, page, limit);
      }
      assert done + [] == done;
    }

    /**
     * `searchWithPagination`: each query's pages in order, each page's
     * results in order, recorded against the seen URLs. Returns the result
     * text and the new and duplicate counts.
     */
    method SearchWithPagination(queries: seq<string>) returns (text: string, newURLs: nat, duplicates: nat)
      modifies this
      ensures var t := RoundPass(env, queries, old(seenURLs), old(sources));
        && seenURLs == t.seen && sources == t.sources && text == t.text
        && newURLs == t.newURLs && duplicates == t.duplicates
    {
      ghost var start := Fresh(seenURLs, sources);
      ghost var limit := PageLimit(env.config.maxPages);
      text, newURLs, duplicates := "", 0, 0;
      var i := 0;
      while i < |queries|
        invariant 0 <= i <= |queries|
        invariant State(text, newURLs, duplicates) == Record(start, AllResults(env.searcher, queries[..i], limit))
      {
        ghost var sofar := AllResults(env.searcher, queries[..i], limit);
        text, newURLs, duplicates := SearchQuery(queries[i], text, newURLs, duplicates);
        ProcessAppend(start, sofar, Flatten(QueryPages(env.searcher, queries[i], 1, limit)),
                      env.normalize, EntryText(Deep(env), env.llm.pageChat));
        assert queries[..i + 1][..i] == queries[..i];
        i := i + 1;
      }
      assert queries[..i] == queries;
    }

    /**
     * One round of `RunExhaustive`: search the round's queries, append their
     * results under a round marker when there are any, and compress the
     * context with ratio 0.5 once it is over half the budget.
     */
    method RunRound(roundQueries: seq<string>, round: nat, researchContext: string) returns (context: string)
      modifies this
      ensures var pass := RoundPass(env, roundQueries, old(seenURLs), old(sources));
        && seenURLs == pass.seen && sources == pass.sources
        && context == RoundContext(researchContext, round + 1, pass.text, MaxContextChars(env.config.contextLength), env.llm.compress)
    {
      var roundResults, newURLs, duplicates := SearchWithPagination(roundQueries);
      context := researchContext;
      if roundResults != "" {
        context := context + RoundHeader(round + 1) + roundResults;
      }
      var maxChars := MaxContextChars(env.config.contextLength);
      var compressionThreshold := HalfBudget(maxChars);
      if |context| > compressionThreshold {
        var compressed := env.llm.compress(context, 1);
        if compressed.Ok? {
          context := compressed.value;
        }
      }
    }

    /**
     * `RunExhaustive`: resets the sources and seen URLs, rejects an empty
     * query list, runs rounds of `ParallelQuery` queries (at most `MaxLoops`,
     * stopping early at `MinResults` unique sources), and writes the report
     * from the final context. A negative `ParallelQuery` makes Go slice out of
     * range once a round runs, so it is excluded unless no round can run
     * (`MaxLoops` at most 0, or no queries).
     */
    method RunExhaustive(topic: string, plan: ResearchPlan) returns (r: Result<ResearchResult, RunError>)
      requires env.config.parallelQuery >= 0 || env.config.maxLoops <= 0 || plan.searchQueries == []
      modifies this
      ensures plan.searchQueries == [] ==> r == Err(NoQueries) && sources == [] && seenURLs == {}
      ensures plan.searchQueries != [] ==>
        var run := Rounds(env, plan.searchQueries, 0, 0, {}, [], InitialContext(topic, plan));
        var maxChars := MaxContextChars(env.config.contextLength);
        && sources == run.sources && seenURLs == run.seen
        && r == Outcome(ReportResult(Ladder(1, run.context, HalfBudget(maxChars), env.llm.compress, env.llm.reportChat).outcome), sources)
    {
      sources := [];
      seenURLs := {};
      if |plan.searchQueries| == 0 {
        return Err(NoQueries);
      }
      var researchContext := RunRounds(plan.searchQueries, InitialContext(topic, plan));
      var maxChars := MaxContextChars(env.config.contextLength);
      var report, sent := WriteReport(researchContext, maxChars, env.llm.compress, env.llm.reportChat);
      if report.Err? {
        return Err(ReportFailed(report.error));
      }
      return Ok(ResearchResult(report.value, sources));
    }

    /**
     * One pass of the round loop: runs the queries from `queryIndex` of
     * round `round` and reports whether `MinResults` was reached. Either way
     * the rounds from the old state end where those from the new state end.
     */
    method AdvanceRound(queries: seq<string>, round: nat, queryIndex: nat, researchContext: string)
      returns (context': string, next: nat, stop: bool)
      requires env.config.parallelQuery >= 0 && queryIndex < |queries| && round < env.config.maxLoops
      modifies this
      ensures queryIndex <= next <= |queries|
      ensures var run := Rounds(env, queries, round, queryIndex, old(seenURLs), old(sources), researchContext);
        stop ==> run.seen == seenURLs && run.sources == sources && run.context == context'
      ensures var run := Rounds(env, queries, round, queryIndex, old(seenURLs), old(sources), researchContext);
        var rest := Rounds(env, queries, round + 1, next, seenURLs, sources, context');
        !stop ==> run.seen == rest.seen && run.sources == rest.sources && run.context == rest.context
    {
      var endIndex := queryIndex + env.config.parallelQuery;
      if endIndex > |queries| {
        endIndex := |queries|;
      }
      assert endIndex == NextIndex(queryIndex, env.config.parallelQuery, |queries|);
      var roundQueries := queries[queryIndex..endIndex];
      context' := RunRound(roundQueries, round, researchContext);
      RoundsAdvance(env, queries, round, queryIndex, old(seenURLs), old(sources), researchContext, seenURLs, sources, context');
      var currentUniqueCount := |sources|;
      stop := currentUniqueCount >= env.config.minResults;
      next := endIndex;
    }

    /**
     * The round loop of `RunExhaustive` over `queries`, from no sources, no
     * seen URLs and the context `initial`; returns the final context.
     */
    method RunRounds(queries: seq<string>, initial: string) returns (researchContext: string)
      requires env.config.parallelQuery >= 0 || env.config.maxLoops <= 0
      requires sources == [] && seenURLs == {}
      modifies this
      ensures var run := Rounds(env, queries, 0, 0, {}, [], initial);
        sources == run.sources && seenURLs == run.seen && researchContext == run.context
    {
      researchContext := initial;
      var totalQueries := |queries|;
      var queryIndex := 0;
      ghost var whole := Rounds(env, queries, 0, 0, {}, [], researchContext);
      var round: nat := 0;
      while round < env.config.maxLoops && queryIndex < totalQueries
        invariant 0 <= queryIndex <= totalQueries
        invariant var rest := Rounds(env, queries, round, queryIndex, seenURLs, sources, researchContext);
          whole.seen == rest.seen && whole.sources == rest.sources && whole.context == rest.context
        decreases env.config.maxLoops - round
      {
        var stop;
        researchContext, queryIndex, stop := AdvanceRound(queries, round, queryIndex, researchContext);
        if stop {
          break;
        }
        round := round + 1;
      }
      if round >= env.config.maxLoops || queryIndex >= totalQueries {
        RoundsDone(env, queries, round, queryIndex, seenURLs, sources, researchContext);
      }
    }
  }
}
