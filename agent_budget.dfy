/**
 * The context budget manager of the research agent (pkg/agent/agent.go):
 * the character budget derived from the model's context length, the lossless
 * chunk splitter, direct and chunked compression through an LLM oracle, and
 * the three-attempt report ladder.
 *
 * Go computes the budget fractions in floating point; here they are the
 * integer quotients they round down to (`int(m*0.6)` is `(3*m)/5`, and so on).
 */
module Budget {
  import opened GoStrings
  import opened AgentText

  const DefaultContextChars := 98304

  /**
   * `maxContextChars`: 3.5 characters per token, rounded down, or 32768 * 3
   * characters when the context length is not set.
   */
  function MaxContextChars(contextLength: int): (r: nat)
    ensures contextLength <= 0 ==> r == DefaultContextChars
    ensures contextLength > 0 ==> 2 * r <= 7 * contextLength < 2 * r + 2
  {
    if contextLength <= 0 then 32768 * 3 else (7 * contextLength) / 2
  }

  /** `int(m * 0.5)`: the compression trigger and the initial report ceiling. */
  function HalfBudget(m: nat): (r: nat)
    ensures 2 * r <= m < 2 * r + 2
  {
    m / 2
  }

  /** `int(m * 0.6)`: the largest input of a direct compression, and the chunked target. */
  function MaxInputChars(m: nat): (r: nat)
    ensures 5 * r <= 3 * m < 5 * r + 5
  {
    (3 * m) / 5
  }

  /** The chunk size of chunked compression: half the budget, at least 2000. */
  function ChunkSize(m: nat): (r: nat)
    ensures r >= 2000 && r >= m / 2
    ensures r == 2000 || r == m / 2
  {
    if m / 2 < 2000 then 2000 else m / 2
  }

  /** `int(maxChunkSize * 0.8)`: where the search for a break begins. */
  function SearchStart(n: nat): (r: nat)
    ensures 5 * r <= 4 * n < 5 * r + 5
    ensures n >= 1 ==> r < n
  {
    (4 * n) / 5
  }

  /** Occurrences in a suffix `s[k..]` are occurrences in `s`, shifted by `k`. */
  lemma OccursInSuffix(s: string, k: nat, pat: string, j: int)
    requires k <= |s|
    ensures OccursAt(s[k..], pat, j) <==> j >= 0 && OccursAt(s, pat, k + j)
  {
    if 0 <= j && j + |pat| <= |s| - k {
      assert s[k..][j..j + |pat|] == s[k + j..k + j + |pat|];
    }
  }

  /** Some occurrence of `pat` starts at or after `k`. */
  ghost predicate OccursFrom(s: string, pat: string, k: int) {
    exists i :: k <= i && OccursAt(s, pat, i)
  }

  /** `LastIndex` over the suffix `s[k..]`, read back as positions of `s`. */
  lemma LastIndexInSuffix(s: string, k: nat, pat: string)
    requires k <= |s|
    ensures LastIndex(s[k..], pat) != -1 <==> OccursFrom(s, pat, k)
    ensures LastIndex(s[k..], pat) != -1 ==>
      OccursAt(s, pat, k + LastIndex(s[k..], pat))
      && forall i :: k + LastIndex(s[k..], pat) < i ==> !OccursAt(s, pat, i)
  {
    var li := LastIndex(s[k..], pat);
    if li != -1 {
      OccursInSuffix(s, k, pat, li);
      forall i | k + li < i ensures !OccursAt(s, pat, i) {
        OccursInSuffix(s, k, pat, i - k);
      }
    }
    if OccursFrom(s, pat, k) {
      var i :| k <= i && OccursAt(s, pat, i);
      OccursInSuffix(s, k, pat, i - k);
    }
  }

  /**
   * `k + strings.LastIndex(s[k..], pat)`, or -1: the last occurrence of `pat`
   * that starts at or after `k`.
   */
  function LastFrom(s: string, pat: string, k: nat): (r: int)
    requires k <= |s|
    ensures r == -1 <==> !OccursFrom(s, pat, k)
    ensures r != -1 ==> k <= r && OccursAt(s, pat, r) && forall i :: r < i ==> !OccursAt(s, pat, i)
  {
    var li := LastIndex(s[k..], pat);
    LastIndexInSuffix(s, k, pat);
    if li == -1 then -1 else k + li
  }

  /**
   * The break point chosen in a window of `maxChunkSize` characters: just after
   * the last paragraph break ("\n\n") in the window's last 20%, else after
   * the last newline there, else after the last space there, else the whole
   * window. The lemmas below state each preference.
   */
  function BreakPoint(window: string): (bp: nat)
    requires |window| >= 1
    ensures SearchStart(|window|) < bp <= |window|
  {
    var ss := SearchStart(|window|);
    var para := LastFrom(window, "\n\n", ss);
    if para != -1 then para + 2
    else
      var line := LastFrom(window, "\n", ss);
      if line != -1 then line + 1
      else
        var space := LastFrom(window, " ", ss);
        if space != -1 then space + 1 else |window|
  }

  /** A paragraph break in the last 20% wins: the cut falls just after the last one. */
  lemma BreakAtParagraph(window: string)
    requires |window| >= 1 && OccursFrom(window, "\n\n", SearchStart(|window|))
    ensures OccursAt(window, "\n\n", BreakPoint(window) - 2)
    ensures forall i :: BreakPoint(window) - 2 < i ==> !OccursAt(window, "\n\n", i)
  {
  }

  /** Otherwise a newline in the last 20%: the cut falls just after the last one. */
  lemma BreakAtLine(window: string)
    requires |window| >= 1 && !OccursFrom(window, "\n\n", SearchStart(|window|))
    requires OccursFrom(window, "\n", SearchStart(|window|))
    ensures window[BreakPoint(window) - 1] == '\n'
    ensures forall i :: BreakPoint(window) - 1 < i ==> !OccursAt(window, "\n", i)
  {
    var ss := SearchStart(|window|);
    var line := LastFrom(window, "\n", ss);
    assert LastFrom(window, "\n\n", ss) == -1;
    assert BreakPoint(window) == line + 1;
    assert OccursAt(window, "\n", line);
    assert window[line..line + 1] == "\n";
    assert window[line] == '\n';
  }

  /** Otherwise a space in the last 20%: the cut falls just after the last one. */
  lemma BreakAtSpace(window: string)
    requires |window| >= 1 && !OccursFrom(window, "\n\n", SearchStart(|window|))
    requires !OccursFrom(window, "\n", SearchStart(|window|)) && OccursFrom(window, " ", SearchStart(|window|))
    ensures window[BreakPoint(window) - 1] == ' '
    ensures forall i :: BreakPoint(window) - 1 < i ==> !OccursAt(window, " ", i)
  {
    var ss := SearchStart(|window|);
    var space := LastFrom(window, " ", ss);
    assert LastFrom(window, "\n\n", ss) == -1;
    assert LastFrom(window, "\n", ss) == -1;
    assert BreakPoint(window) == space + 1;
    assert OccursAt(window, " ", space);
    assert window[space..space + 1] == " ";
    assert window[space] == ' ';
  }

  /** With no break in the last 20%, the whole window is one chunk. */
  lemma BreakAtWindowEnd(window: string)
    requires |window| >= 1 && !OccursFrom(window, "\n\n", SearchStart(|window|))
    requires !OccursFrom(window, "\n", SearchStart(|window|)) && !OccursFrom(window, " ", SearchStart(|window|))
    ensures BreakPoint(window) == |window|
  {
  }

  /**
   * The chunks `splitContextIntoChunks` produces. Every cut lies strictly
   * inside the text, so the remainder after a cut is never empty.
   */
  function Chunks(text: string, maxChunkSize: nat): seq<string>
    requires maxChunkSize >= 1
    decreases |text|
  {
    if |text| <= maxChunkSize then [text]
    else
      var bp := BreakPoint(text[..maxChunkSize]);
      [text[..bp]] + Chunks(text[bp..], maxChunkSize)
  }

  /** Splitting is lossless: the chunks concatenate back to the input. */
  lemma {:induction false} ChunksReassemble(text: string, maxChunkSize: nat)
    requires maxChunkSize >= 1
    ensures Concat(Chunks(text, maxChunkSize)) == text
    decreases |text|
  {
    if |text| > maxChunkSize {
      var bp := BreakPoint(text[..maxChunkSize]);
      ChunksReassemble(text[bp..], maxChunkSize);
      assert Chunks(text, maxChunkSize)[1..] == Chunks(text[bp..], maxChunkSize);
      assert text == text[..bp] + text[bp..];
    } else {
      assert Concat([text]) == text + Concat([]);
    }
  }

  /**
   * Every chunk is at most `maxChunkSize` long and, unless the input is empty,
   * non-empty; every chunk but the last is longer than 80% of the window.
   */
  lemma {:induction false} ChunksSized(text: string, maxChunkSize: nat)
    requires maxChunkSize >= 1
    ensures |Chunks(text, maxChunkSize)| >= 1
    ensures forall i :: 0 <= i < |Chunks(text, maxChunkSize)| ==>
      |Chunks(text, maxChunkSize)[i]| <= maxChunkSize && (text != [] ==> Chunks(text, maxChunkSize)[i] != [])
    ensures forall i :: 0 <= i < |Chunks(text, maxChunkSize)| - 1 ==>
      |Chunks(text, maxChunkSize)[i]| > SearchStart(maxChunkSize)
    decreases |text|
  {
    if |text| > maxChunkSize {
      var bp := BreakPoint(text[..maxChunkSize]);
      ChunksSized(text[bp..], maxChunkSize);
      assert Chunks(text, maxChunkSize)[1..] == Chunks(text[bp..], maxChunkSize);
    }
  }

  /**
   * `splitContextIntoChunks`: cuts `text` into consecutive pieces of at most
   * `maxChunkSize` characters, preferring paragraph, line and word breaks.
   * A non-positive size would make the Go loop spin or panic, so it is
   * excluded. `ChunksReassemble` and `ChunksSized` state what the chunks are.
   */
  method SplitContextIntoChunks(text: string, maxChunkSize: int) returns (chunks: seq<string>)
    requires maxChunkSize >= 1
    ensures chunks == Chunks(text, maxChunkSize)
    ensures |text| <= maxChunkSize ==> chunks == [text]
  {
    if |text| <= maxChunkSize {
      chunks := [text];
    } else {
      chunks := [];
      var remaining := text;
      while |remaining| > 0
        invariant chunks + (if |remaining| > 0 then Chunks(remaining, maxChunkSize) else []) == Chunks(text, maxChunkSize)
        decreases |remaining|
      {
        if |remaining| <= maxChunkSize {
          chunks := chunks + [remaining];
          break;
        }
        var chunk := remaining[..maxChunkSize];
        var breakPoint := BreakPoint(chunk);
        assert Chunks(remaining, maxChunkSize) == [remaining[..breakPoint]] + Chunks(remaining[breakPoint..], maxChunkSize);
        chunks := chunks + [remaining[..breakPoint]];
        remaining := remaining[breakPoint..];
      }
    }
  }

  // ---------------------------------------------------------------------------
  // Compression through the LLM

  /** The LLM's answer to a compression request: (context, target characters) -> reply. */
  type CompressChat = (string, int) -> Result<string, string>

  datatype CompressError = ChatFailed(cause: string) | TooSmall(length: nat) | DepthExhausted

  const MinCompressedLen := 200
  const ChunkSeparator := "\n\n---\n\n"
  const TruncationMarker := "\n[...truncated...]\n"

  /**
   * `compressContextDirect` with target ratio `1/ratioDen`: one LLM call; the
   * reply, stripped of think tags and trimmed, is rejected when shorter than
   * 200 characters.
   */
  function CompressDirect(context: string, ratioDen: nat, chat: CompressChat): (r: Result<string, CompressError>)
    requires ratioDen >= 1
    ensures r.Ok? ==> |r.value| >= MinCompressedLen && chat(context, |context| / ratioDen).Ok?
    ensures r.Ok? ==> IsTrimOf(StripThinkTags(chat(context, |context| / ratioDen).value), r.value)
    ensures chat(context, |context| / ratioDen).Err? ==> r == Err(ChatFailed(chat(context, |context| / ratioDen).error))
    ensures r.Err? ==> r.error.ChatFailed? || r.error.TooSmall?
    ensures chat(context, |context| / ratioDen).Ok? ==>
      var compressed := TrimSpace(StripThinkTags(chat(context, |context| / ratioDen).value));
      && (|compressed| >= MinCompressedLen ==> r == Ok(compressed))
      && (|compressed| < MinCompressedLen ==> r == Err(TooSmall(|compressed|)))
  {
    match chat(context, |context| / ratioDen)
    case Err(e) => Err(ChatFailed(e))
    case Ok(resp) =>
      var compressed := TrimSpace(StripThinkTags(resp));
      if |compressed| < MinCompressedLen then Err(TooSmall(|compressed|)) else Ok(compressed)
  }

  /**
   * One part of chunked compression: the chunk compressed directly, or, when
   * that fails, the chunk cut to a quarter of the chunk size followed by a
   * truncation marker (a chunk no longer than that is kept whole).
   */
  function CompressPart(chunk: string, chunkSize: nat, ratioDen: nat, chat: CompressChat): (part: string)
    requires ratioDen >= 1
    ensures CompressDirect(chunk, ratioDen, chat).Ok? ==> part == CompressDirect(chunk, ratioDen, chat).value
    ensures CompressDirect(chunk, ratioDen, chat).Err? ==>
      |part| <= chunkSize / 4 + |TruncationMarker| && HasPrefix(part, chunk[..if |chunk| > chunkSize / 4 then chunkSize / 4 else |chunk|])
    ensures CompressDirect(chunk, ratioDen, chat).Err? && |chunk| <= chunkSize / 4 ==> part == chunk
    ensures CompressDirect(chunk, ratioDen, chat).Err? && |chunk| > chunkSize / 4 ==>
      part == chunk[..chunkSize / 4] + TruncationMarker
  {
    match CompressDirect(chunk, ratioDen, chat)
    case Ok(c) => c
    case Err(_) =>
      if |chunk| > chunkSize / 4 then chunk[..chunkSize / 4] + TruncationMarker else chunk
  }

  function CompressParts(chunks: seq<string>, chunkSize: nat, ratioDen: nat, chat: CompressChat): (parts: seq<string>)
    requires ratioDen >= 1
    ensures |parts| == |chunks|
    ensures forall i :: 0 <= i < |chunks| ==> parts[i] == CompressPart(chunks[i], chunkSize, ratioDen, chat)
  {
    if chunks == [] then []
    else [CompressPart(chunks[0], chunkSize, ratioDen, chat)] + CompressParts(chunks[1..], chunkSize, ratioDen, chat)
  }

  /**
   * `compressContext`: direct compression when the context fits 60% of the
   * budget `maxChars`, chunked compression otherwise. Go recurses without a
   * bound; `fuel` bounds the depth and runs out as `DepthExhausted`.
   * A context that fits is compressed to a reply of at least 200
   * characters; a larger one goes through chunked compression and a success
   * ends within 60% of the budget.
   */
  function CompressContext(context: string, ratioDen: nat, maxChars: nat, chat: CompressChat, fuel: nat): (r: Result<string, CompressError>)
    requires ratioDen >= 1
    ensures fuel >= 1 && |context| <= MaxInputChars(maxChars) ==> r == CompressDirect(context, ratioDen, chat)
    ensures fuel >= 1 && |context| > MaxInputChars(maxChars) ==> r == CompressChunked(context, ratioDen, maxChars, chat, fuel)
    ensures r.Ok? && |context| <= MaxInputChars(maxChars) ==> |r.value| >= MinCompressedLen
    ensures r.Ok? && |context| > MaxInputChars(maxChars) ==> |r.value| <= MaxInputChars(maxChars)
    decreases fuel, 1
  {
    if fuel == 0 then Err(DepthExhausted)
    else if |context| <= MaxInputChars(maxChars) then CompressDirect(context, ratioDen, chat)
    else CompressChunked(context, ratioDen, maxChars, chat, fuel)
  }

  /**
   * `compressContextChunked`: split, compress each chunk with its fallback,
   * join with a separator, and compress again when the join is still over 60%
   * of the budget.
   */
  function CompressChunked(context: string, ratioDen: nat, maxChars: nat, chat: CompressChat, fuel: nat): (r: Result<string, CompressError>)
    requires ratioDen >= 1 && fuel >= 1
    ensures r.Ok? ==> |r.value| <= MaxInputChars(maxChars)
    ensures |JoinedParts(context, ratioDen, maxChars, chat)| <= MaxInputChars(maxChars) ==>
      r == Ok(JoinedParts(context, ratioDen, maxChars, chat))
    ensures |JoinedParts(context, ratioDen, maxChars, chat)| > MaxInputChars(maxChars) ==>
      r == CompressContext(JoinedParts(context, ratioDen, maxChars, chat), ratioDen, maxChars, chat, fuel - 1)
    decreases fuel, 0
  {
    var result := JoinedParts(context, ratioDen, maxChars, chat);
    if |result| > MaxInputChars(maxChars) then CompressContext(result, ratioDen, maxChars, chat, fuel - 1)
    else Ok(result)
  }

  /** The joined, per-chunk compressed parts of one chunked pass. */
  function JoinedParts(context: string, ratioDen: nat, maxChars: nat, chat: CompressChat): string
    requires ratioDen >= 1
  {
    var chunkSize := ChunkSize(maxChars);
    Join(CompressParts(Chunks(context, chunkSize), chunkSize, ratioDen, chat), ChunkSeparator)
  }

  // ---------------------------------------------------------------------------
  // The report ladder of `writeReport`

  /** The LLM's answer to a report request: (attempt, data) -> reply. */
  type ReportChat = (nat, string) -> Result<string, string>

  const MaxReportAttempts := 3

  datatype ReportError =
    | GenerationFailed(attempts: nat, cause: string)
    | AttemptsExhausted(attempts: nat)

  /** An error that looks budget related, which the ladder retries on. */
  predicate IsBudgetError(e: string) {
    Contains(e, "context") || Contains(e, "token")
  }

  /** Compression as the ladder sees it: (data, attempt) -> compressed data or an error. */
  type Compressor = (string, nat) -> Result<string, CompressError>

  /** The compressor `writeReport` uses: ratio 0.5/attempt, that is target `|data| / (2 * attempt)`. */
  function LadderCompressor(maxChars: nat, chat: CompressChat, fuel: nat): Compressor {
    (data: string, attempt: nat) =>
      if attempt >= 1 then CompressContext(data, 2 * attempt, maxChars, chat, fuel) else Err(DepthExhausted)
  }

  /**
   * The data sent on attempt `attempt` when the ceiling is `ceiling`: kept
   * when within the ceiling; otherwise compressed, or, if compression fails,
   * cut to exactly `ceiling` characters.
   */
  function FitContext(context: string, ceiling: nat, attempt: nat, compress: Compressor): (r: string)
    ensures |context| <= ceiling ==> r == context
    ensures |context| > ceiling && compress(context, attempt).Err? ==> |r| == ceiling && HasPrefix(context, r)
    ensures |context| > ceiling && compress(context, attempt).Ok? ==> r == compress(context, attempt).value
  {
    if |context| > ceiling then
      match compress(context, attempt)
      case Ok(c) => c
      case Err(_) => context[..ceiling]
    else context
  }

  /**
   * What the ladder did: its outcome (the raw reply of the successful call, or
   * the error), the data of each report call, and the ceiling at each.
   */
  datatype LadderRun = LadderRun(outcome: Result<string, ReportError>, sent: seq<string>, ceilings: seq<nat>)

  /** The ladder from attempt `attempt` on, with the current data and ceiling. */
  function Ladder(attempt: nat, context: string, ceiling: nat, compress: Compressor, report: ReportChat): LadderRun
    requires attempt >= 1
    decreases MaxReportAttempts + 1 - attempt
  {
    if attempt > MaxReportAttempts then LadderRun(Err(AttemptsExhausted(MaxReportAttempts)), [], [])
    else
      var current := FitContext(context, ceiling, attempt, compress);
      match report(attempt, current)
      case Ok(resp) => LadderRun(Ok(resp), [current], [ceiling])
      case Err(e) =>
        if attempt < MaxReportAttempts && IsBudgetError(e) then
          var rest := Ladder(attempt + 1, current, ceiling / 2, compress, report);
          LadderRun(rest.outcome, [current] + rest.sent, [ceiling] + rest.ceilings)
        else LadderRun(Err(GenerationFailed(attempt, e)), [current], [ceiling])
  }

  /** One attempt of the ladder: success and a final error end the run, a retry continues it. */
  lemma LadderStep(attempt: nat, context: string, ceiling: nat, compress: Compressor, report: ReportChat)
    requires 1 <= attempt <= MaxReportAttempts
    ensures var current := FitContext(context, ceiling, attempt, compress);
      var run := Ladder(attempt, context, ceiling, compress, report);
      var rest := Ladder(attempt + 1, current, ceiling / 2, compress, report);
      && (report(attempt, current).Ok? ==> run.outcome == Ok(report(attempt, current).value) && run.sent == [current])
      && (Retries(attempt, current, report) ==> run.outcome == rest.outcome && run.sent == [current] + rest.sent)
      && (report(attempt, current).Err? && !Retries(attempt, current, report) ==>
            run.outcome == Err(GenerationFailed(attempt, report(attempt, current).error)) && run.sent == [current])
  {
  }

  /** One step of the ladder retries: the reply at `attempt` is a budget error and attempts remain. */
  predicate Retries(attempt: nat, current: string, report: ReportChat) {
    report(attempt, current).Err? && attempt < MaxReportAttempts && IsBudgetError(report(attempt, current).error)
  }

  /**
   * A ladder run from attempt `attempt` makes between one and `4 - attempt`
   * report calls; the first call's data is the given data fitted to the given
   * ceiling.
   */
  lemma {:induction false} LadderCalls(attempt: nat, context: string, ceiling: nat, compress: Compressor, report: ReportChat)
    requires 1 <= attempt <= MaxReportAttempts
    ensures var run := Ladder(attempt, context, ceiling, compress, report);
      && 1 <= |run.sent| <= MaxReportAttempts + 1 - attempt
      && |run.ceilings| == |run.sent|
      && run.ceilings[0] == ceiling
      && run.sent[0] == FitContext(context, ceiling, attempt, compress)
    decreases MaxReportAttempts + 1 - attempt
  {
    var current := FitContext(context, ceiling, attempt, compress);
    if Retries(attempt, current, report) {
      LadderCalls(attempt + 1, current, ceiling / 2, compress, report);
    }
  }

  /**
   * Report calls `k` and `k + 1` of a run from attempt `attempt`: call `k`
   * failed with a budget-related error while attempts remained, the ceiling
   * halved, and call `k + 1` sent call `k`'s data fitted to the halved ceiling.
   */
  predicate RetryStep(run: LadderRun, attempt: nat, k: nat, compress: Compressor, report: ReportChat) {
    && k + 1 < |run.sent| && k + 1 < |run.ceilings|
    && run.ceilings[k + 1] == run.ceilings[k] / 2
    && run.sent[k + 1] == FitContext(run.sent[k], run.ceilings[k + 1], attempt + k + 1, compress)
    && Retries(attempt + k, run.sent[k], report)
  }

  /**
   * Between consecutive report calls: the earlier call failed with a
   * budget-related error, the ceiling halved, and the new data is the earlier
   * data fitted to the halved ceiling.
   */
  lemma {:induction false} LadderRetries(attempt: nat, context: string, ceiling: nat, compress: Compressor, report: ReportChat)
    requires 1 <= attempt <= MaxReportAttempts
    ensures var run := Ladder(attempt, context, ceiling, compress, report);
      forall k: nat :: k < |run.sent| - 1 ==> RetryStep(run, attempt, k, compress, report)
    decreases MaxReportAttempts + 1 - attempt
  {
    var current := FitContext(context, ceiling, attempt, compress);
    LadderStep(attempt, context, ceiling, compress, report);
    if Retries(attempt, current, report) {
      LadderCalls(attempt + 1, current, ceiling / 2, compress, report);
      LadderRetries(attempt + 1, current, ceiling / 2, compress, report);
      RetriesCons(attempt, current, ceiling, Ladder(attempt, context, ceiling, compress, report),
                  Ladder(attempt + 1, current, ceiling / 2, compress, report), compress, report);
    }
  }

  /** Every pair of consecutive calls of `run`, from attempt `attempt`, is a retry step. */
  predicate RetryChain(run: LadderRun, attempt: nat, compress: Compressor, report: ReportChat) {
    forall k: nat :: k < |run.sent| - 1 ==> RetryStep(run, attempt, k, compress, report)
  }

  /** A retry in front of a run whose consecutive calls are retry steps gives such a run again. */
  lemma RetriesCons(attempt: nat, current: string, ceiling: nat, run: LadderRun, rest: LadderRun,
                    compress: Compressor, report: ReportChat)
    requires Retries(attempt, current, report)
    requires 1 <= |rest.sent| && |rest.ceilings| == |rest.sent|
    requires rest.ceilings[0] == ceiling / 2 && rest.sent[0] == FitContext(current, ceiling / 2, attempt + 1, compress)
    requires RetryChain(rest, attempt + 1, compress, report)
    requires run.sent == [current] + rest.sent && run.ceilings == [ceiling] + rest.ceilings
    ensures RetryChain(run, attempt, compress, report)
  {
    forall k: nat | k < |run.sent| - 1
      ensures RetryStep(run, attempt, k, compress, report)
    {
      if k > 0 {
        assert RetryStep(rest, attempt + 1, k - 1, compress, report);
        assert run.sent[k] == rest.sent[k - 1] && run.sent[k + 1] == rest.sent[k];
        assert run.ceilings[k] == rest.ceilings[k - 1] && run.ceilings[k + 1] == rest.ceilings[k];
      }
    }
  }

  /**
   * `run`, from attempt `attempt`, ends with the reply or the error of its
   * last report call, and that call was not one to retry.
   */
  predicate EndsWithLastCall(run: LadderRun, attempt: nat, report: ReportChat) {
    && |run.sent| >= 1
    && var last := attempt + |run.sent| - 1;
      var reply := report(last, run.sent[|run.sent| - 1]);
      && !Retries(last, run.sent[|run.sent| - 1], report)
      && (reply.Ok? ==> run.outcome == Ok(reply.value))
      && (reply.Err? ==> run.outcome == Err(GenerationFailed(last, reply.error)))
  }

  /** A retry in front of a run keeps its last call and its outcome. */
  lemma EndsCons(attempt: nat, current: string, run: LadderRun, rest: LadderRun, report: ReportChat)
    requires EndsWithLastCall(rest, attempt + 1, report)
    requires run.outcome == rest.outcome && run.sent == [current] + rest.sent
    ensures EndsWithLastCall(run, attempt, report)
  {
    assert run.sent[|run.sent| - 1] == rest.sent[|rest.sent| - 1];
    assert attempt + |run.sent| - 1 == (attempt + 1) + |rest.sent| - 1;
  }

  /**
   * A ladder run ends with the reply or the error of its last report call, and
   * never by running out of attempts: it stops at the first success, at the
   * first error that is not budget related, or at the third attempt.
   */
  lemma {:induction false} LadderEnd(attempt: nat, context: string, ceiling: nat, compress: Compressor, report: ReportChat)
    requires 1 <= attempt <= MaxReportAttempts
    ensures EndsWithLastCall(Ladder(attempt, context, ceiling, compress, report), attempt, report)
    decreases MaxReportAttempts + 1 - attempt
  {
    var current := FitContext(context, ceiling, attempt, compress);
    LadderStep(attempt, context, ceiling, compress, report);
    if Retries(attempt, current, report) {
      LadderEnd(attempt + 1, current, ceiling / 2, compress, report);
      EndsCons(attempt, current, Ladder(attempt, context, ceiling, compress, report),
               Ladder(attempt + 1, current, ceiling / 2, compress, report), report);
    }
  }

  /** The report returned for a ladder outcome: a reply has its think block stripped. */
  function ReportResult(outcome: Result<string, ReportError>): (r: Result<string, ReportError>)
    ensures outcome.Err? ==> r == outcome
    ensures outcome.Ok? ==> r.Ok? && r.value == StripThinkTags(outcome.value)
  {
    match outcome
    case Ok(reply) => Ok(StripThinkTags(reply))
    case Err(e) => Err(e)
  }

  /**
   * The compression step at the head of each `writeReport` attempt: data over
   * the ceiling is compressed, or hard-truncated to the ceiling when
   * compression fails.
   */
  method FitForAttempt(context: string, ceiling: nat, attempt: nat, compress: Compressor) returns (fitted: string)
    ensures fitted == FitContext(context, ceiling, attempt, compress)
    ensures |context| > ceiling && compress(context, attempt).Err? ==> |fitted| == ceiling
  {
    fitted := context;
    if |fitted| > ceiling {
      var compressed := compress(fitted, attempt);
      if compressed.Err? {
        if |fitted| > ceiling {
          fitted := fitted[..ceiling];
        }
      } else {
        fitted := compressed.value;
      }
    }
  }

  /**
   * One attempt of `writeReport`, seen from the whole run: after the calls in
   * `sent`, the call of attempt `attempt` sends the fitted data, and its reply
   * ends the run or retries from the halved ceiling.
   */
  lemma LadderAttempt(attempt: nat, context: string, ceiling: nat, compress: Compressor, report: ReportChat,
                      sent: seq<string>, whole: LadderRun)
    requires 1 <= attempt <= MaxReportAttempts
    requires whole.outcome == Ladder(attempt, context, ceiling, compress, report).outcome
    requires whole.sent == sent + Ladder(attempt, context, ceiling, compress, report).sent
    ensures var current := FitContext(context, ceiling, attempt, compress);
      var reply := report(attempt, current);
      && (reply.Ok? ==> whole.outcome == Ok(reply.value) && whole.sent == sent + [current])
      && (reply.Err? && !Retries(attempt, current, report) ==>
            whole.outcome == Err(GenerationFailed(attempt, reply.error)) && whole.sent == sent + [current])
  {
    LadderStep(attempt, context, ceiling, compress, report);
  }

  /** The retry case of `LadderAttempt`: the run continues from the next attempt. */
  lemma LadderAttemptRetry(attempt: nat, context: string, ceiling: nat, compress: Compressor, report: ReportChat,
                           sent: seq<string>, whole: LadderRun)
    requires 1 <= attempt <= MaxReportAttempts
    requires whole.outcome == Ladder(attempt, context, ceiling, compress, report).outcome
    requires whole.sent == sent + Ladder(attempt, context, ceiling, compress, report).sent
    requires Retries(attempt, FitContext(context, ceiling, attempt, compress), report)
    ensures var current := FitContext(context, ceiling, attempt, compress);
      var rest := Ladder(attempt + 1, current, ceiling / 2, compress, report);
      whole.outcome == rest.outcome && whole.sent == (sent + [current]) + rest.sent
  {
    LadderStep(attempt, context, ceiling, compress, report);
    var current := FitContext(context, ceiling, attempt, compress);
    var rest := Ladder(attempt + 1, current, ceiling / 2, compress, report);
    assert sent + ([current] + rest.sent) == (sent + [current]) + rest.sent;
  }

  /**
   * `writeReport`: up to three report calls. Before each, data over the
   * ceiling (initially half the budget) is compressed by `compress` (the
   * agent's is `LadderCompressor`, ratio 0.5/attempt) or, when that fails,
   * hard-truncated to the ceiling. A budget-related error halves the ceiling
   * and retries while attempts remain; any other error is returned at once.
   * `sent` records the data of each report call.
   */
  method WriteReport(context: string, maxChars: nat, compress: Compressor, report: ReportChat)
    returns (r: Result<string, ReportError>, ghost sent: seq<string>)
    ensures r == ReportResult(Ladder(1, context, HalfBudget(maxChars), compress, report).outcome)
    ensures sent == Ladder(1, context, HalfBudget(maxChars), compress, report).sent
    ensures 1 <= |sent| <= MaxReportAttempts
  {
    ghost var whole := Ladder(1, context, HalfBudget(maxChars), compress, report);
    LadderCalls(1, context, HalfBudget(maxChars), compress, report);
    var ceiling: nat := HalfBudget(maxChars);
    var currentContext := context;
    sent := [];
    var attempt: nat := 1;
    while attempt <= MaxReportAttempts
      invariant 1 <= attempt <= MaxReportAttempts + 1
      invariant whole.outcome == Ladder(attempt, currentContext, ceiling, compress, report).outcome
      invariant whole.sent == sent + Ladder(attempt, currentContext, ceiling, compress, report).sent
      invariant |sent| == attempt - 1
    {
      ghost var before, data := sent, currentContext;
      currentContext := FitForAttempt(currentContext, ceiling, attempt, compress);
      sent := sent + [currentContext];
      var resp := report(attempt, currentContext);
      if resp.Err? {
        if attempt < MaxReportAttempts && IsBudgetError(resp.error) {
          LadderAttemptRetry(attempt, data, ceiling, compress, report, before, whole);
          ceiling := ceiling / 2;
          attempt := attempt + 1;
          continue;
        }
        LadderAttempt(attempt, data, ceiling, compress, report, before, whole);
        return Err(GenerationFailed(attempt, resp.error)), sent;
      }
      LadderAttempt(attempt, data, ceiling, compress, report, before, whole);
      return Ok(StripThinkTags(resp.value)), sent;
    }
    r := Err(AttemptsExhausted(MaxReportAttempts));
  }
}
