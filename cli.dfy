/**
 * The pure and bookkeeping parts of the command-line front end (cmd/main.go):
 * the reading of a plan-approval answer, the bibliography appended to the
 * report with each source URL listed once, and the default output file name
 * derived from the topic.
 */
module Cli {
  import opened GoStrings
  import opened Research

  // ---------------------------------------------------------------------------
  // Plan approval

  /** What the user's answer to the plan prompt asks for. */
  datatype Decision = Approve | Quit | Revise | MoreContext(context: string)

  /**
   * The answer is lowercased and trimmed: empty approves, "q" quits, "r"
   * asks for more details, and anything else becomes the added context.
   */
  function ReadChoice(line: string): (d: Decision)
    ensures var choice := TrimSpace(ToLower(line));
      && (d == Approve <==> choice == "")
      && (d == Quit <==> choice == "q")
      && (d == Revise <==> choice == "r")
      && (d.MoreContext? <==> choice !in {"", "q", "r"})
      && (d.MoreContext? ==> d.context == choice)
  {
    var choice := TrimSpace(ToLower(line));
    if choice == "" then Approve
    else if choice == "q" then Quit
    else if choice == "r" then Revise
    else MoreContext(choice)
  }

  // ---------------------------------------------------------------------------
  // File names

  /** The characters the file-name pattern `[a-zA-Z0-9_-]` admits. */
  predicate Allowed(c: char) {
    'a' <= c <= 'z' || 'A' <= c <= 'Z' || '0' <= c <= '9' || c == '_' || c == '-'
  }

  /** The characters a sanitized name is made of. */
  predicate SafeChar(c: char) {
    'a' <= c <= 'z' || '0' <= c <= '9' || c == '_' || c == '-'
  }

  /** Replacing every match of `[^a-zA-Z0-9_-]` by nothing. */
  function RemoveDisallowed(s: string): (r: string)
    ensures |r| <= |s|
    ensures forall i :: 0 <= i < |r| ==> Allowed(r[i])
  {
    if s == [] then [] else (if Allowed(s[0]) then [s[0]] else []) + RemoveDisallowed(s[1..])
  }

  /**
   * `sanitizeFilename`: spaces become `_`, every character outside
   * `[a-zA-Z0-9_-]` is dropped, and the rest is lowercased. (Bytes of a
   * multi-byte character are all outside the pattern, so dropping them one by
   * one drops the whole character, as the rune-wise regular expression does.)
   */
  function SanitizeFilename(s: string): (r: string)
    ensures |r| <= |s|
    ensures forall i :: 0 <= i < |r| ==> SafeChar(r[i])
  {
    ReplaceCharPointwise(s, ' ', '_');
    var kept := RemoveDisallowed(ReplaceAll(s, " ", "_"));
    assert forall i :: 0 <= i < |kept| ==> SafeChar(LowerChar(kept[i]));
    ToLower(kept)
  }

  /** What one input character contributes to the sanitized name. */
  function SanitizedChar(c: char): string {
    if c == ' ' then "_" else if Allowed(c) then [LowerChar(c)] else []
  }

  /** The character-by-character reading of `sanitizeFilename`. */
  function SanitizedByChar(s: string): string {
    if s == [] then [] else SanitizedChar(s[0]) + SanitizedByChar(s[1..])
  }

  lemma ToLowerAppend(a: string, b: string)
    ensures ToLower(a + b) == ToLower(a) + ToLower(b)
  {
  }

  /**
   * The sanitized name keeps, in order, each letter (lowercased), digit, `_`
   * and `-` of the input, turns each space into `_`, and drops everything
   * else.
   */
  lemma {:induction false} SanitizeByChar(s: string)
    ensures SanitizeFilename(s) == SanitizedByChar(s)
  {
    if s != [] {
      SanitizeByChar(s[1..]);
      var c := if s[0] == ' ' then '_' else s[0];
      assert ReplaceAll(s, " ", "_") == [c] + ReplaceAll(s[1..], " ", "_") by {
        assert HasPrefix(s, " ") <==> s[0] == ' ';
        assert s[|" "|..] == s[1..];
      }
      var rest := ReplaceAll(s[1..], " ", "_");
      assert RemoveDisallowed([c] + rest) == (if Allowed(c) then [c] else []) + RemoveDisallowed(rest) by {
        assert ([c] + rest)[1..] == rest;
      }
      ToLowerAppend(if Allowed(c) then [c] else [], RemoveDisallowed(rest));
    }
  }

  lemma {:induction false} RemoveDisallowedKeeps(s: string)
    requires forall i :: 0 <= i < |s| ==> Allowed(s[i])
    ensures RemoveDisallowed(s) == s
  {
    if s != [] {
      RemoveDisallowedKeeps(s[1..]);
    }
  }

  /** Sanitizing a sanitized name changes nothing. */
  lemma SanitizeIdempotent(s: string)
    ensures SanitizeFilename(SanitizeFilename(s)) == SanitizeFilename(s)
  {
    var t := SanitizeFilename(s);
    ReplaceCharPointwise(t, ' ', '_');
    assert ReplaceAll(t, " ", "_") == t;
    RemoveDisallowedKeeps(t);
    assert ToLower(t) == t;
  }

  const MaxTopicLen := 50

  /** The topic part of the default file name: the sanitized topic, cut to 50 characters. */
  function DefaultTopic(topic: string): (r: string)
    ensures var safe := SanitizeFilename(topic);
      && HasPrefix(safe, r)
      && |r| == (if |safe| > MaxTopicLen then MaxTopicLen else |safe|)
  {
    var safe := SanitizeFilename(topic);
    if |safe| > MaxTopicLen then safe[..MaxTopicLen] else safe
  }

  // ---------------------------------------------------------------------------
  // The bibliography

  /** A bibliography line: the source's position in the list (from 1), its title and URL. */
  datatype BibEntry = BibEntry(number: nat, title: string, url: string)

  const BibHeader := "\n\n---\n\n## Bibliography\n\n"

  /** The URLs of a list of sources. */
  function URLsOf(sources: seq<Source>): set<string> {
    if sources == [] then {} else URLsOf(sources[..|sources| - 1]) + {sources[|sources| - 1].url}
  }

  lemma {:induction false} URLsOfMembers(sources: seq<Source>)
    ensures forall u :: u in URLsOf(sources) <==> exists j :: 0 <= j < |sources| && sources[j].url == u
  {
    if sources != [] {
      var init := sources[..|sources| - 1];
      URLsOfMembers(init);
      forall u | u in URLsOf(sources)
        ensures exists j :: 0 <= j < |sources| && sources[j].url == u
      {
        if u in URLsOf(init) {
          var j :| 0 <= j < |init| && init[j].url == u;
          assert sources[j] == init[j];
        }
      }
      forall u | exists j :: 0 <= j < |sources| && sources[j].url == u
        ensures u in URLsOf(sources)
      {
        var j :| 0 <= j < |sources| && sources[j].url == u;
        if j < |init| {
          assert init[j] == sources[j];
        }
      }
    }
  }

  /** The entries the loop writes: a source is listed when no earlier source had its URL. */
  function Entries(sources: seq<Source>): seq<BibEntry> {
    if sources == [] then []
    else
      var init := sources[..|sources| - 1];
      var last := sources[|sources| - 1];
      Entries(init) + (if last.url in URLsOf(init) then [] else [BibEntry(|sources|, last.title, last.url)])
  }

  function Line(e: BibEntry): string {
    NatToString(e.number) + ". [" + e.title + "](" + e.url + ")\n"
  }

  function Render(entries: seq<BibEntry>): string {
    if entries == [] then [] else Render(entries[..|entries| - 1]) + Line(entries[|entries| - 1])
  }

  /** Source `n` (counting from 1) is the first with URL `u`. */
  ghost predicate FirstWith(sources: seq<Source>, n: int, u: string) {
    1 <= n <= |sources| && sources[n - 1].url == u && forall j :: 0 <= j < n - 1 ==> sources[j].url != u
  }

  /**
   * An entry is listed exactly when it is the first source with its URL,
   * numbered by its position, with that source's title.
   */
  lemma {:induction false} EntriesAreFirstOccurrences(sources: seq<Source>, e: BibEntry)
    ensures e in Entries(sources) <==> FirstWith(sources, e.number, e.url) && sources[e.number - 1].title == e.title
  {
    if sources != [] {
      var n := |sources|;
      var init := sources[..n - 1];
      var last := sources[n - 1];
      EntriesAreFirstOccurrences(init, e);
      EntriesBounded(init);
      var added := if last.url in URLsOf(init) then [] else [BibEntry(n, last.title, last.url)];
      assert Entries(sources) == Entries(init) + added;
      assert e in Entries(sources) <==> e in Entries(init) || e in added;
      if 1 <= e.number < n {
        FirstWithPrefix(sources, e.number, e.url);
        assert sources[e.number - 1] == init[e.number - 1];
      } else if e.number == n {
        FirstWithLast(sources, e.url);
      }
    }
  }

  /** Before the last source, being first with a URL does not depend on the last source. */
  lemma FirstWithPrefix(sources: seq<Source>, n: int, u: string)
    requires 1 <= n < |sources|
    ensures FirstWith(sources, n, u) <==> FirstWith(sources[..|sources| - 1], n, u)
  {
    var init := sources[..|sources| - 1];
    assert forall j :: 0 <= j < n ==> sources[j] == init[j];
  }

  /** The last source is first with its URL exactly when no earlier source has it. */
  lemma FirstWithLast(sources: seq<Source>, u: string)
    requires sources != []
    ensures FirstWith(sources, |sources|, u) <==>
      sources[|sources| - 1].url == u && u !in URLsOf(sources[..|sources| - 1])
  {
    var init := sources[..|sources| - 1];
    URLsOfMembers(init);
    assert forall j :: 0 <= j < |init| ==> sources[j] == init[j];
  }

  lemma {:induction false} EntriesBounded(sources: seq<Source>)
    ensures forall k :: 0 <= k < |Entries(sources)| ==> 1 <= Entries(sources)[k].number <= |sources|
  {
    if sources != [] {
      EntriesBounded(sources[..|sources| - 1]);
    }
  }

  /** Entries keep the order of the sources, and no URL is listed twice. */
  lemma {:induction false} EntriesOrdered(sources: seq<Source>)
    ensures var es := Entries(sources);
      && (forall a, b :: 0 <= a < b < |es| ==> es[a].number < es[b].number)
      && (forall a, b :: 0 <= a < b < |es| ==> es[a].url != es[b].url)
  {
    if sources != [] {
      var init := sources[..|sources| - 1];
      var last := sources[|sources| - 1];
      EntriesOrdered(init);
      assert forall a, b :: 0 <= a < b < |Entries(init)| ==> Entries(init)[a].number < Entries(init)[b].number;
      assert forall a, b :: 0 <= a < b < |Entries(init)| ==> Entries(init)[a].url != Entries(init)[b].url;
      var prev := Entries(init);
      if last.url in URLsOf(init) {
        assert Entries(sources) == prev + [];
        assert prev + [] == prev;
      } else {
        var e := BibEntry(|sources|, last.title, last.url);
        var es := prev + [e];
        assert Entries(sources) == es;
        forall a | 0 <= a < |prev|
          ensures prev[a].number < e.number && prev[a].url != e.url
        {
          EntriesOlder(init, prev[a]);
        }
        forall a, b | 0 <= a < b < |es|
          ensures es[a].number < es[b].number && es[a].url != es[b].url
        {
          assert es[a] == prev[a];
          if b < |prev| {
            assert es[b] == prev[b];
          } else {
            assert es[b] == e;
          }
        }
      }
    }
  }

  /** An entry of a prefix has a smaller number than the next source, and a URL already seen. */
  lemma EntriesOlder(init: seq<Source>, e: BibEntry)
    requires e in Entries(init)
    ensures e.number <= |init| && e.url in URLsOf(init)
  {
    EntriesAreFirstOccurrences(init, e);
    URLsOfMembers(init);
    assert init[e.number - 1].url == e.url;
  }

  /** The URLs a list of entries shows. */
  function EntryURLs(entries: seq<BibEntry>): set<string> {
    if entries == [] then {} else EntryURLs(entries[..|entries| - 1]) + {entries[|entries| - 1].url}
  }

  /** The bibliography shows exactly the URLs of the sources. */
  lemma {:induction false} EntriesCover(sources: seq<Source>)
    ensures EntryURLs(Entries(sources)) == URLsOf(sources)
  {
    if sources != [] {
      var init := sources[..|sources| - 1];
      var last := sources[|sources| - 1];
      EntriesCover(init);
      var prev := Entries(init);
      if last.url in URLsOf(init) {
        assert Entries(sources) == prev + [];
        assert prev + [] == prev;
      } else {
        var e := BibEntry(|sources|, last.title, last.url);
        assert Entries(sources) == prev + [e];
        assert (prev + [e])[..|prev|] == prev;
      }
    }
  }

  lemma EntriesStep(sources: seq<Source>, i: nat)
    requires i < |sources|
    ensures var init := sources[..i];
      && URLsOf(sources[..i + 1]) == URLsOf(init) + {sources[i].url}
      && Entries(sources[..i + 1]) ==
        Entries(init) + (if sources[i].url in URLsOf(init) then [] else [BibEntry(i + 1, sources[i].title, sources[i].url)])
  {
    assert sources[..i + 1][..i] == sources[..i];
  }

  /** A source whose URL was written before leaves the text as it is. */
  lemma BibliographySkip(head: string, out: string, sources: seq<Source>, i: nat)
    requires i < |sources| && out == head + Render(Entries(sources[..i]))
    requires sources[i].url in URLsOf(sources[..i])
    ensures out == head + Render(Entries(sources[..i + 1]))
  {
    EntriesStep(sources, i);
    var prev := Entries(sources[..i]);
    assert prev + [] == prev;
  }

  /** A source with a new URL adds its line, numbered by its position. */
  lemma BibliographyAdd(head: string, out: string, sources: seq<Source>, i: nat)
    requires i < |sources| && out == head + Render(Entries(sources[..i]))
    requires sources[i].url !in URLsOf(sources[..i])
    ensures out + Line(BibEntry(i + 1, sources[i].title, sources[i].url)) == head + Render(Entries(sources[..i + 1]))
  {
    var e := BibEntry(i + 1, sources[i].title, sources[i].url);
    EntriesStep(sources, i);
    assert Entries(sources[..i + 1]) == Entries(sources[..i]) + [e];
    RenderAppend(Entries(sources[..i]), e);
    AppendAssoc(head, Render(Entries(sources[..i])), Line(e));
  }

  lemma AppendAssoc(a: string, b: string, c: string)
    ensures (a + b) + c == a + (b + c)
  {
  }

  lemma RenderAppend(entries: seq<BibEntry>, e: BibEntry)
    ensures Render(entries + [e]) == Render(entries) + Line(e)
  {
    assert (entries + [e])[..|entries|] == entries;
  }

  /**
   * Step 7 of the command: the report followed by the bibliography, where
   * each URL is written once, at its first occurrence, numbered by its
   * position in the source list.
   */
  method FinalOutput(result: ResearchResult) returns (out: string)
    ensures out == result.report + BibHeader + Render(Entries(result.sources))
  {
    var sources := result.sources;
    var head := result.report + BibHeader;
    out := head;
    var seen: set<string> := {};
    var i := 0;
    while i < |sources|
      invariant 0 <= i <= |sources|
      invariant seen == URLsOf(sources[..i])
      invariant out == head + Render(Entries(sources[..i]))
    {
      var src := sources[i];
      EntriesStep(sources, i);
      if src.url !in seen {
        BibliographyAdd(head, out, sources, i);
        seen := seen + {src.url};
        out := out + Line(BibEntry(i + 1, src.title, src.url));
      } else {
        BibliographySkip(head, out, sources, i);
      }
      i := i + 1;
    }
    assert sources[..i] == sources;
  }
}
