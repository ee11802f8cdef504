/**
 * The pure helpers of the SearXNG client (pkg/search/searxng.go): the
 * category-page test, titles from listing URLs, the truncation rule of
 * `FetchPageContent`, and the filter loop of `ExtractListingLinks` over the
 * hrefs its regular expressions matched. URL parsing (`net/url`) is a
 * function parameter.
 */
module SearXNG {
  import opened GoStrings

  /** Substrings of a lowercased URL that mark a category, search or navigation page. */
  const CategoryIndicators: seq<string> := [
    "/category/", "/categories/", "/tag/", "/tags/",
    "/search", "/results", "/browse", "/list",
    "/page/", "/p=", "page=", "pagina=",
    "/filter", "/sort", "/order",
    "/login", "/register", "/signup", "/account",
    "/contact", "/about", "/help", "/faq",
    "/terms", "/privacy", "/cookie"
  ]

  /** Some string of `inds` occurs in `lower`. */
  function AnyContained(lower: string, inds: seq<string>): bool {
    if inds == [] then false
    else Contains(lower, inds[0]) || AnyContained(lower, inds[1..])
  }

  lemma {:induction false} AnyContainedMeans(lower: string, inds: seq<string>)
    ensures AnyContained(lower, inds) <==> exists j :: 0 <= j < |inds| && Contains(lower, inds[j])
  {
    if inds != [] {
      AnyContainedMeans(lower, inds[1..]);
      assert forall j :: 1 <= j < |inds| ==> inds[j] == inds[1..][j - 1];
    }
  }

  /** `isLikelyCategoryPage`. */
  function IsLikelyCategoryPage(url: string): bool {
    AnyContained(ToLower(url), CategoryIndicators) || CountChar(url, '&') > 2
  }

  /**
   * A URL is taken for a category page exactly when its lowercased form
   * contains one of the indicators, or it has more than two `&`.
   */
  lemma CategoryPageMeans(url: string)
    ensures IsLikelyCategoryPage(url) <==>
      (exists j :: 0 <= j < |CategoryIndicators| && Contains(ToLower(url), CategoryIndicators[j])) || CountChar(url, '&') > 2
  {
    AnyContainedMeans(ToLower(url), CategoryIndicators);
  }

  lemma {:induction false} ToLowerIdempotent(s: string)
    ensures ToLower(ToLower(s)) == ToLower(s)
  {
    forall i | 0 <= i < |s|
      ensures ToLower(ToLower(s))[i] == ToLower(s)[i]
    {
      assert LowerChar(LowerChar(s[i])) == LowerChar(s[i]);
    }
  }

  lemma {:induction false} ToLowerKeepsAmpersands(s: string)
    ensures CountChar(ToLower(s), '&') == CountChar(s, '&')
  {
    if s != [] {
      ToLowerKeepsAmpersands(s[1..]);
      assert ToLower(s)[1..] == ToLower(s[1..]);
      assert ToLower(s)[0] == LowerChar(s[0]);
    }
  }

  /** The test does not depend on letter case: lowercasing the URL first changes nothing. */
  lemma CategoryTestIgnoresCase(url: string)
    ensures IsLikelyCategoryPage(ToLower(url)) == IsLikelyCategoryPage(url)
  {
    ToLowerIdempotent(url);
    ToLowerKeepsAmpersands(url);
  }

  /** The part of `s` after its last `/`, or all of `s` when it has none (the last element of `strings.Split(s, "/")`). */
  function LastSegment(s: string): (r: string)
    ensures HasSuffix(s, r)
    ensures forall j :: 0 <= j < |r| ==> r[j] != '/'
    ensures |r| == |s| || s[|s| - |r| - 1] == '/'
  {
    var i := LastIndex(s, "/");
    LastSlashFacts(s, i);
    s[i + 1..]
  }

  lemma LastSlashFacts(s: string, i: int)
    requires i == LastIndex(s, "/")
    ensures -1 <= i < |s|
    ensures forall j :: i < j < |s| ==> s[j] != '/'
    ensures i != -1 ==> s[i] == '/'
  {
    forall j | i < j < |s|
      ensures s[j] != '/'
    {
      assert !OccursAt(s, "/", j);
      assert s[j..j + 1] == [s[j]];
    }
    if i != -1 {
      assert s[i..i + 1] == "/";
    }
  }

  /**
   * The title `extractTitleFromURL` derives from a URL path: its last
   * segment once surrounding `/` are trimmed, with one trailing ".html"
   * removed and every `-` and `_` turned into a space.
   */
  function TitleFromPath(path: string): (r: string)
    ensures var seg := TrimSuffix(LastSegment(TrimChar(path, '/')), ".html");
      && |r| == |seg|
      && forall i :: 0 <= i < |r| ==> r[i] == if seg[i] == '-' || seg[i] == '_' then ' ' else seg[i]
  {
    var seg := TrimSuffix(LastSegment(TrimChar(path, '/')), ".html");
    var spaced := ReplaceAll(seg, "-", " ");
    ReplaceCharPointwise(seg, '-', ' ');
    ReplaceCharPointwise(spaced, '_', ' ');
    ReplaceAll(spaced, "_", " ")
  }

  /** A derived title holds no `-`, `_` or `/`. */
  lemma TitleIsClean(path: string)
    ensures forall i :: 0 <= i < |TitleFromPath(path)| ==> TitleFromPath(path)[i] !in {'-', '_', '/'}
  {
    var last := LastSegment(TrimChar(path, '/'));
    var seg := TrimSuffix(last, ".html");
    assert forall i :: 0 <= i < |seg| ==> seg[i] == last[i];
  }

  datatype ParsedURL = ParsedURL(scheme: string, host: string, path: string)

  /** `url.Parse`: None when it reports an error. */
  type URLParser = string -> Option<ParsedURL>

  /** `extractTitleFromURL`: the URL itself when it does not parse. */
  function TitleFromURL(url: string, parse: URLParser): (r: string)
    ensures parse(url).None? ==> r == url
    ensures parse(url).Some? ==> r == TitleFromPath(parse(url).value.path)
  {
    match parse(url)
    case None => url
    case Some(u) => TitleFromPath(u.path)
  }

  const Ellipsis := "..."

  /**
   * The truncation rule of `FetchPageContent`: with a positive limit, a
   * longer text keeps its first `maxLength` characters followed by "...".
   */
  function TruncateText(text: string, maxLength: int): (r: string)
    ensures maxLength > 0 && |text| > maxLength ==>
      |r| == maxLength + |Ellipsis| && r[..maxLength] == text[..maxLength] && HasSuffix(r, Ellipsis)
    ensures maxLength <= 0 || |text| <= maxLength ==> r == text
  {
    if maxLength > 0 && |text| > maxLength then text[..maxLength] + Ellipsis else text
  }

  /** Truncated text never exceeds the limit by more than the ellipsis, and starts like the text. */
  lemma TruncatedLength(text: string, maxLength: int)
    requires maxLength > 0
    ensures |TruncateText(text, maxLength)| <= maxLength + |Ellipsis|
    ensures HasPrefix(text, TruncateText(text, maxLength)[..if |text| < maxLength then |text| else maxLength])
  {
  }

  // ---------------------------------------------------------------------------
  // The filter loop of `ExtractListingLinks`

  datatype ListingLink = ListingLink(url: string, title: string)

  /** `scheme://host` of the page, against which relative hrefs are resolved. */
  function BaseURL(page: ParsedURL): string {
    page.scheme + "://" + page.host
  }

  /** A relative href is resolved against the base URL; other non-http hrefs are skipped. */
  function Resolve(href: string, base: string): (r: Option<string>)
    ensures HasPrefix(href, "/") ==> r == Some(base + href)
    ensures !HasPrefix(href, "/") && HasPrefix(href, "http") ==> r == Some(href)
    ensures !HasPrefix(href, "/") && !HasPrefix(href, "http") ==> r.None?
  {
    if HasPrefix(href, "/") then Some(base + href)
    else if HasPrefix(href, "http") then Some(href)
    else None
  }

  /** A resolved URL is kept when it is no category page and it parses with the page's host. */
  predicate Admissible(url: string, page: ParsedURL, parse: URLParser) {
    !IsLikelyCategoryPage(url) && parse(url).Some? && parse(url).value.host == page.host
  }

  /** The filters of `ExtractListingLinks` for a page, as one test. */
  function LinkFilter(page: ParsedURL, parse: URLParser): string -> bool {
    url => Admissible(url, page, parse)
  }

  function LinkTitle(parse: URLParser): string -> string {
    url => TitleFromURL(url, parse)
  }

  /** The loop state: seen full URLs, collected links, and whether the loop has returned. */
  datatype Harvest = Harvest(seen: set<string>, links: seq<ListingLink>, done: bool)

  const NoHarvest := Harvest({}, [], false)

  /** Collect `url`, returning once `maxLinks` links are held. */
  function Admit(h: Harvest, url: string, title: string -> string, maxLinks: int): Harvest {
    var links := h.links + [ListingLink(url, title(url))];
    Harvest(h.seen + {url}, links, |links| >= maxLinks)
  }

  /**
   * One href as the code is written: the seen set holds full URLs, but it is
   * the href that is looked up in it.
   */
  function VisitAsWritten(h: Harvest, href: string, base: string, keep: string -> bool, title: string -> string, maxLinks: int): Harvest {
    if h.done || href in h.seen then h
    else match Resolve(href, base)
      case None => h
      case Some(url) => if keep(url) then Admit(h, url, title, maxLinks) else h
  }

  function CollectAsWritten(hrefs: seq<string>, base: string, keep: string -> bool, title: string -> string, maxLinks: int): Harvest {
    if hrefs == [] then NoHarvest
    else VisitAsWritten(CollectAsWritten(hrefs[..|hrefs| - 1], base, keep, title, maxLinks), hrefs[|hrefs| - 1], base, keep, title, maxLinks)
  }

  /** One href with duplicates detected on the full URL, as the seen set is meant to be used. */
  function Visit(h: Harvest, href: string, base: string, keep: string -> bool, title: string -> string, maxLinks: int): Harvest {
    if h.done then h
    else match Resolve(href, base)
      case None => h
      case Some(url) => if url in h.seen || !keep(url) then h else Admit(h, url, title, maxLinks)
  }

  function Collect(hrefs: seq<string>, base: string, keep: string -> bool, title: string -> string, maxLinks: int): Harvest {
    if hrefs == [] then NoHarvest
    else Visit(Collect(hrefs[..|hrefs| - 1], base, keep, title, maxLinks), hrefs[|hrefs| - 1], base, keep, title, maxLinks)
  }

  /** Every indicator starts with `/` and a letter other than `x`, or with `p`. */
  lemma IndicatorShapes()
    ensures forall j :: 0 <= j < |CategoryIndicators| ==>
      |CategoryIndicators[j]| >= 2
      && ((CategoryIndicators[j][0] == '/' && CategoryIndicators[j][1] !in {'/', 'x'}) || CategoryIndicators[j][0] == 'p')
  {
  }

  /** A lowercase URL without `p` or `&`, where every `/` is followed by `/` or `x`, is no category page. */
  lemma NotCategoryPage(url: string)
    requires ToLower(url) == url && CountChar(url, '&') == 0
    requires forall i :: 0 <= i < |url| ==> url[i] != 'p'
    requires forall i :: 0 <= i < |url| - 1 && url[i] == '/' ==> url[i + 1] in {'/', 'x'}
    ensures !IsLikelyCategoryPage(url)
  {
    NoIndicator(url);
    CategoryPageMeans(url);
  }

  lemma NoIndicator(url: string)
    requires forall i :: 0 <= i < |url| ==> url[i] != 'p'
    requires forall i :: 0 <= i < |url| - 1 && url[i] == '/' ==> url[i + 1] in {'/', 'x'}
    ensures forall j :: 0 <= j < |CategoryIndicators| ==> !Contains(url, CategoryIndicators[j])
  {
    IndicatorShapes();
    forall j | 0 <= j < |CategoryIndicators|
      ensures !Contains(url, CategoryIndicators[j])
    {
      NoOccurrence(url, CategoryIndicators[j]);
    }
  }

  lemma NoOccurrence(url: string, ind: string)
    requires |ind| >= 2 && ((ind[0] == '/' && ind[1] !in {'/', 'x'}) || ind[0] == 'p')
    requires forall i :: 0 <= i < |url| ==> url[i] != 'p'
    requires forall i :: 0 <= i < |url| - 1 && url[i] == '/' ==> url[i + 1] in {'/', 'x'}
    ensures forall i :: !OccursAt(url, ind, i)
  {
  }

  /** The example of the dedup gap: an admissible relative href, matched twice. */
  function ExampleParser(): URLParser {
    (u: string) => Some(ParsedURL("s", "x", u))
  }

  const ExamplePage := ParsedURL("s", "x", "/")

  /** The one link of the example passes the filter. */
  lemma ExampleAdmissible(url: string)
    requires url == "s://x/x"
    ensures LinkFilter(ExamplePage, ExampleParser())(url)
  {
    ExampleNotCategory(url);
  }

  lemma ExampleNotCategory(url: string)
    requires url == "s://x/x"
    ensures !IsLikelyCategoryPage(url)
  {
    ExampleShape(url);
    ExampleLower(url);
    NotCategoryPage(url);
  }

  lemma ExampleLower(url: string)
    requires url == "s://x/x"
    ensures ToLower(url) == url && CountChar(url, '&') == 0
  {
    forall i | 0 <= i < |url| ensures LowerChar(url[i]) == url[i] { }
    assert multiset(url)['&'] == 0;
  }

  lemma ExampleShape(url: string)
    requires url == "s://x/x"
    ensures forall i :: 0 <= i < |url| ==> url[i] != 'p'
    ensures forall i :: 0 <= i < |url| - 1 && url[i] == '/' ==> url[i + 1] in {'/', 'x'}
  {
    assert url == ['s', ':', '/', '/', 'x', '/', 'x'];
  }

  /**
   * As written, a repeated relative href yields the same link twice: the
   * href "/x" on the page s://x/, matched twice, for at most five links.
   */
  lemma RelativeHrefNotDeduplicated(href: string)
    requires href == "/x"
    ensures var links := CollectAsWritten([href, href], BaseURL(ExamplePage), LinkFilter(ExamplePage, ExampleParser()),
                                          LinkTitle(ExampleParser()), 5).links;
      |links| == 2 && links[0] == links[1]
  {
    var base := BaseURL(ExamplePage);
    assert base + href == "s://x/x";
    ExampleAdmissible(base + href);
    RepeatedHrefAsWritten(href, base, LinkFilter(ExamplePage, ExampleParser()), LinkTitle(ExampleParser()), 5);
  }

  /** A relative href whose full URL passes the filter is collected twice when it appears twice. */
  lemma RepeatedHrefAsWritten(href: string, base: string, keep: string -> bool, title: string -> string, maxLinks: int)
    requires HasPrefix(href, "/") && keep(base + href) && |base| > 0 && maxLinks > 2
    ensures var links := CollectAsWritten([href, href], base, keep, title, maxLinks).links;
      |links| == 2 && links[0] == links[1]
  {
    assert [href][..0] == [];
    var one := CollectAsWritten([href], base, keep, title, maxLinks);
    assert one == VisitAsWritten(CollectAsWritten([], base, keep, title, maxLinks), href, base, keep, title, maxLinks);
    assert Resolve(href, base) == Some(base + href);
    assert one == Admit(NoHarvest, base + href, title, maxLinks);
    assert href !in one.seen by {
      assert |href| != |base + href|;
    }
    assert [href, href][..1] == [href];
    assert CollectAsWritten([href, href], base, keep, title, maxLinks) == VisitAsWritten(one, href, base, keep, title, maxLinks);
  }

  /** A collected link: resolved from one of the hrefs, passed the filter, and carrying its derived title. */
  ghost predicate FromHref(l: ListingLink, hrefs: seq<string>, base: string, keep: string -> bool, title: string -> string) {
    (exists k :: 0 <= k < |hrefs| && Resolve(hrefs[k], base) == Some(l.url))
    && keep(l.url)
    && l.title == title(l.url)
  }

  /** The URLs of a list of links. */
  function LinkURLs(links: seq<ListingLink>): set<string> {
    if links == [] then {} else LinkURLs(links[..|links| - 1]) + {links[|links| - 1].url}
  }

  lemma {:induction false} LinkURLsMembers(links: seq<ListingLink>)
    ensures forall i :: 0 <= i < |links| ==> links[i].url in LinkURLs(links)
  {
    if links != [] {
      LinkURLsMembers(links[..|links| - 1]);
    }
  }

  /**
   * Every link `ExtractListingLinks` returns is built from a relative href
   * (prefixed with `scheme://host`) or an `http` href, passed the filter,
   * and carries its derived title.
   */
  lemma {:induction false} CollectFromHrefs(hrefs: seq<string>, base: string, keep: string -> bool, title: string -> string, maxLinks: int)
    ensures forall l :: l in CollectAsWritten(hrefs, base, keep, title, maxLinks).links ==> FromHref(l, hrefs, base, keep, title)
  {
    if hrefs != [] {
      var init := hrefs[..|hrefs| - 1];
      CollectFromHrefs(init, base, keep, title, maxLinks);
      var g := CollectAsWritten(init, base, keep, title, maxLinks);
      var h := CollectAsWritten(hrefs, base, keep, title, maxLinks);
      forall l | l in g.links
        ensures FromHref(l, hrefs, base, keep, title)
      {
        assert FromHref(l, init, base, keep, title);
        var k :| 0 <= k < |init| && Resolve(init[k], base) == Some(l.url);
        assert hrefs[k] == init[k];
      }
      if h != g {
        var url := Resolve(hrefs[|hrefs| - 1], base).value;
        assert h.links == g.links + [ListingLink(url, title(url))];
        assert FromHref(ListingLink(url, title(url)), hrefs, base, keep, title) by {
          assert Resolve(hrefs[|hrefs| - 1], base) == Some(url);
        }
      }
    }
  }

  /** No URL is collected twice, and the seen set is exactly the collected URLs. */
  lemma {:induction false} CollectDistinct(hrefs: seq<string>, base: string, keep: string -> bool, title: string -> string, maxLinks: int)
    ensures var h := Collect(hrefs, base, keep, title, maxLinks);
      && (forall i, j :: 0 <= i < j < |h.links| ==> h.links[i].url != h.links[j].url)
      && h.seen == LinkURLs(h.links)
  {
    if hrefs != [] {
      var init := hrefs[..|hrefs| - 1];
      CollectDistinct(init, base, keep, title, maxLinks);
      var g := Collect(init, base, keep, title, maxLinks);
      var h := Collect(hrefs, base, keep, title, maxLinks);
      if h != g {
        var url := Resolve(hrefs[|hrefs| - 1], base).value;
        assert h.links == g.links + [ListingLink(url, title(url))];
        assert h.links[..|g.links|] == g.links;
        LinkURLsMembers(g.links);
        forall i, j | 0 <= i < j < |h.links|
          ensures h.links[i].url != h.links[j].url
        {
          assert h.links[i] == g.links[i];
          if j < |g.links| {
            assert h.links[j] == g.links[j];
          }
        }
      }
    }
  }

  /**
   * The loop returns as soon as `maxLinks` links are held, so there are at
   * most `maxLinks` of them (at most one when `maxLinks` is not positive).
   */
  lemma {:induction false} CollectBound(hrefs: seq<string>, base: string, keep: string -> bool, title: string -> string, maxLinks: int)
    ensures var h := CollectAsWritten(hrefs, base, keep, title, maxLinks);
      var bound := if maxLinks >= 1 then maxLinks else 1;
      && |h.links| <= bound
      && (h.done <==> |h.links| >= bound)
  {
    if hrefs != [] {
      CollectBound(hrefs[..|hrefs| - 1], base, keep, title, maxLinks);
    }
  }

  /** Once the loop has returned, later hrefs change nothing. */
  lemma {:induction false} CollectAfterDone(hrefs: seq<string>, i: nat, base: string, keep: string -> bool, title: string -> string, maxLinks: int)
    requires i <= |hrefs| && CollectAsWritten(hrefs[..i], base, keep, title, maxLinks).done
    ensures CollectAsWritten(hrefs, base, keep, title, maxLinks) == CollectAsWritten(hrefs[..i], base, keep, title, maxLinks)
    decreases |hrefs| - i
  {
    if i < |hrefs| {
      assert hrefs[..i + 1][..i] == hrefs[..i];
      CollectAfterDone(hrefs, i + 1, base, keep, title, maxLinks);
    } else {
      assert hrefs[..i] == hrefs;
    }
  }

  /**
   * The filter loop of `ExtractListingLinks` over the matched hrefs, with
   * the page already parsed. As written, the href itself is looked up among
   * the full URLs seen so far.
   */
  method ExtractListingLinks(hrefs: seq<string>, page: ParsedURL, parse: URLParser, maxLinks: int)
    returns (links: seq<ListingLink>)
    ensures links == CollectAsWritten(hrefs, BaseURL(page), LinkFilter(page, parse), LinkTitle(parse), maxLinks).links
  {
    var baseURL := page.scheme + "://" + page.host;
    links := CollectLinks(hrefs, baseURL, LinkFilter(page, parse), LinkTitle(parse), maxLinks);
  }

  /**
   * The loop itself, for any filter `keep` (not a category page, parses, same
   * host) and any title rule: `links` and `seen` follow `CollectAsWritten`
   * href by href, and the loop returns once `maxLinks` links are held.
   */
  method CollectLinks(hrefs: seq<string>, baseURL: string, keep: string -> bool, title: string -> string, maxLinks: int)
    returns (links: seq<ListingLink>)
    ensures links == CollectAsWritten(hrefs, baseURL, keep, title, maxLinks).links
  {
    var seen: set<string> := {};
    links := [];
    var i := 0;
    while i < |hrefs|
      invariant 0 <= i <= |hrefs|
      invariant CollectAsWritten(hrefs[..i], baseURL, keep, title, maxLinks) == Harvest(seen, links, false)
    {
      var href := hrefs[i];
      assert hrefs[..i + 1][..i] == hrefs[..i];
      i := i + 1;
      if href in seen {
        continue;
      }
      var fullURL := href;
      if HasPrefix(href, "/") {
        fullURL := baseURL + href;
      } else if !HasPrefix(href, "http") {
        continue;
      }
      if !keep(fullURL) {
        continue;
      }
      seen := seen + {fullURL};
      links := links + [ListingLink(fullURL, title(fullURL))];
      if |links| >= maxLinks {
        CollectAfterDone(hrefs, i, baseURL, keep, title, maxLinks);
        return;
      }
    }
    assert hrefs[..i] == hrefs;
  }
}
