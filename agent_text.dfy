/**
 * Small text helpers of the research agent (pkg/agent/agent.go): removal of a
 * reasoning model's `<think>` block, shortening of queries for display, and
 * the short-content rule of per-page summaries.
 */
module AgentText {
  import opened GoStrings

  const ThinkOpen := "<think>"
  const ThinkClose := "</think>"

  /**
   * `stripThinkTags`: when the reply holds both an opening and a closing think
   * tag, everything up to and including the FIRST closing tag is dropped; the
   * rest is trimmed of surrounding white space.
   */
  function StripThinkTags(s: string): (r: string)
    ensures r == [] || (!IsSpace(r[0]) && !IsSpace(r[|r| - 1]))
    ensures !Contains(s, ThinkOpen) || !Contains(s, ThinkClose) ==> IsTrimOf(s, r)
    ensures Contains(s, ThinkOpen) && Contains(s, ThinkClose) ==>
      exists e :: OccursAt(s, ThinkClose, e) && (forall j :: 0 <= j < e ==> !OccursAt(s, ThinkClose, j))
        && IsTrimOf(s[e + |ThinkClose|..], r)
  {
    var start := Index(s, ThinkOpen);
    var end := Index(s, ThinkClose);
    if start != -1 && end != -1 then
      assert OccursAt(s, ThinkClose, end) && |ThinkClose| == 8;
      TrimSpace(s[end + 8..])
    else
      TrimSpace(s)
  }

  /**
   * `truncateQuery`: a query longer than `maxLen` keeps its first `maxLen - 3`
   * characters followed by "...". Go would panic on a long query with
   * `maxLen < 3`, which the precondition excludes.
   */
  function TruncateQuery(q: string, maxLen: int): (r: string)
    requires |q| <= maxLen || 3 <= maxLen
    ensures |q| <= maxLen ==> r == q
    ensures |q| > maxLen ==> |r| == maxLen && HasSuffix(r, "...") && HasPrefix(q, r[..maxLen - 3])
  {
    if |q| <= maxLen then q else q[..maxLen - 3] + "..."
  }

  /** The LLM's answer to a page summary request: (url, title, content) -> reply. */
  type PageChat = (string, string, string) -> Result<string, string>

  const MinSummarizedLen := 100
  const SummaryFallbackLen := 300

  /**
   * `summarizePage`: content under 100 characters is returned unchanged; when
   * the LLM fails, the first 300 characters stand in for a summary.
   */
  function SummarizePage(url: string, title: string, content: string, chat: PageChat): (r: string)
    ensures |content| < MinSummarizedLen ==> r == content
    ensures |content| >= MinSummarizedLen && chat(url, title, content).Err? ==>
      HasPrefix(content, r) && |r| == if |content| < SummaryFallbackLen then |content| else SummaryFallbackLen
    ensures |content| >= MinSummarizedLen && chat(url, title, content).Ok? ==>
      r == StripThinkTags(chat(url, title, content).value)
  {
    if |content| < MinSummarizedLen then content
    else match chat(url, title, content)
      case Err(_) => content[..if |content| < SummaryFallbackLen then |content| else SummaryFallbackLen]
      case Ok(resp) => StripThinkTags(resp)
  }
}
