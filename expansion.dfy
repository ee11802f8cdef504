/**
 * Query expansion of exhaustive mode (`expandQueriesWithLLM` in
 * pkg/agent/agent.go): the planner's base queries, platform-prefixed copies
 * of the short ones, and lower-cased synonym substitutions, deduplicated and
 * capped at 150. The expansion itself (platforms and synonyms) comes from the
 * LLM and is an input here.
 */
module Expansion {
  import opened GoStrings

  /** The LLM-provided expansion: synonyms per term, and search platform prefixes. */
  datatype QueryExpansion = QueryExpansion(synonyms: map<string, seq<string>>, platforms: seq<string>)

  const MaxQueries := 150
  const MaxBaseLen := 60
  const MaxPrefixedBaseLen := 40
  const MaxSynonymBaseLen := 50
  const MaxSynonymLen := 60

  function OptionSet(o: Option<string>): (r: set<string>)
    ensures o.None? ==> r == {}
    ensures o.Some? ==> r == {o.value}
  {
    if o.Some? then {o.value} else {}
  }

  /**
   * The synonym variant of base query `q` for term `word` and alternative
   * `syn`: every occurrence of the lower-cased term in the lower-cased query is
   * replaced by the lower-cased alternative. There is none when the term does
   * not occur, when the alternative is the term itself, or when the variant
   * is over 60 characters.
   */
  function SynonymVariant(q: string, word: string, syn: string): (r: Option<string>)
    ensures r.Some? ==> |r.value| <= MaxSynonymLen
    ensures r.Some? <==>
      Contains(ToLower(q), ToLower(word)) && ToLower(syn) != ToLower(word)
      && |ReplaceAll(ToLower(q), ToLower(word), ToLower(syn))| <= MaxSynonymLen
    ensures r.Some? ==> r.value == ReplaceAll(ToLower(q), ToLower(word), ToLower(syn))
  {
    var lowerQ := ToLower(q);
    var wordLower := ToLower(word);
    if Contains(lowerQ, wordLower) && ToLower(syn) != wordLower then
      var newQuery := ReplaceAll(lowerQ, wordLower, ToLower(syn));
      if |newQuery| <= MaxSynonymLen then Some(newQuery) else None
    else None
  }

  // ---------------------------------------------------------------------------
  // The three candidate sources, each a fold from the end (as the loops build them)

  /** Base queries of at most 60 characters. */
  function BaseSet(qs: seq<string>): set<string> {
    if qs == [] then {}
    else BaseSet(qs[..|qs| - 1]) + (if |qs[|qs| - 1]| <= MaxBaseLen then {qs[|qs| - 1]} else {})
  }

  /** `platform + " " + q` for every non-empty platform. */
  function Prefixed(platforms: seq<string>, q: string): set<string> {
    if platforms == [] then {}
    else
      var p := platforms[|platforms| - 1];
      Prefixed(platforms[..|platforms| - 1], q) + (if p != "" then {p + " " + q} else {})
  }

  /** Platform-prefixed copies of the base queries of at most 40 characters. */
  function PlatformSet(qs: seq<string>, platforms: seq<string>): set<string> {
    if qs == [] then {}
    else
      var q := qs[|qs| - 1];
      PlatformSet(qs[..|qs| - 1], platforms) + (if |q| <= MaxPrefixedBaseLen then Prefixed(platforms, q) else {})
  }

  /** The variants of `q` for one term and its list of alternatives. */
  function WordVariants(q: string, word: string, syns: seq<string>): set<string> {
    if syns == [] then {}
    else WordVariants(q, word, syns[..|syns| - 1]) + OptionSet(SynonymVariant(q, word, syns[|syns| - 1]))
  }

  /** The variants of `q` for the terms in `keys`. */
  function KeyVariants(q: string, synonyms: map<string, seq<string>>, keys: set<string>): set<string> {
    set word, v | word in keys && word in synonyms && v in WordVariants(q, word, synonyms[word]) :: v
  }

  /** Synonym variants of the base queries of at most 50 characters. */
  function SynonymSet(qs: seq<string>, synonyms: map<string, seq<string>>): set<string> {
    if qs == [] then {}
    else
      var q := qs[|qs| - 1];
      SynonymSet(qs[..|qs| - 1], synonyms)
        + (if |q| <= MaxSynonymBaseLen then KeyVariants(q, synonyms, synonyms.Keys) else {})
  }

  /** Every query the expansion may return. */
  function Candidates(base: seq<string>, e: QueryExpansion): set<string> {
    BaseSet(base) + PlatformSet(base, e.platforms) + SynonymSet(base, e.synonyms)
  }

  // ---------------------------------------------------------------------------
  // What the three sources contain

  lemma {:induction false} BaseSetMembers(qs: seq<string>, x: string)
    ensures x in BaseSet(qs) <==> |x| <= MaxBaseLen && exists i :: 0 <= i < |qs| && qs[i] == x
  {
    if qs != [] {
      var init := qs[..|qs| - 1];
      BaseSetMembers(init, x);
      if exists i :: 0 <= i < |qs| && qs[i] == x {
        var i :| 0 <= i < |qs| && qs[i] == x;
        if i < |qs| - 1 { assert init[i] == x; }
      }
      if exists i :: 0 <= i < |init| && init[i] == x {
        var i :| 0 <= i < |init| && init[i] == x;
        assert qs[i] == x;
      }
    }
  }

  lemma {:induction false} PrefixedMembers(platforms: seq<string>, q: string, x: string)
    ensures x in Prefixed(platforms, q) <==>
      exists j :: 0 <= j < |platforms| && platforms[j] != "" && x == platforms[j] + " " + q
  {
    if platforms != [] {
      var init := platforms[..|platforms| - 1];
      PrefixedMembers(init, q, x);
      if exists j :: 0 <= j < |platforms| && platforms[j] != "" && x == platforms[j] + " " + q {
        var j :| 0 <= j < |platforms| && platforms[j] != "" && x == platforms[j] + " " + q;
        if j < |platforms| - 1 { assert init[j] == platforms[j]; }
      }
      if exists j :: 0 <= j < |init| && init[j] != "" && x == init[j] + " " + q {
        var j :| 0 <= j < |init| && init[j] != "" && x == init[j] + " " + q;
        assert platforms[j] == init[j];
      }
    }
  }

  lemma {:induction false} PlatformSetMembers(qs: seq<string>, platforms: seq<string>, x: string)
    ensures x in PlatformSet(qs, platforms) <==>
      exists i, j :: 0 <= i < |qs| && 0 <= j < |platforms| && |qs[i]| <= MaxPrefixedBaseLen
        && platforms[j] != "" && x == platforms[j] + " " + qs[i]
  {
    if qs != [] {
      var init := qs[..|qs| - 1];
      var q := qs[|qs| - 1];
      PlatformSetMembers(init, platforms, x);
      PrefixedMembers(platforms, q, x);
      if exists i, j :: 0 <= i < |qs| && 0 <= j < |platforms| && |qs[i]| <= MaxPrefixedBaseLen
           && platforms[j] != "" && x == platforms[j] + " " + qs[i] {
        var i, j :| 0 <= i < |qs| && 0 <= j < |platforms| && |qs[i]| <= MaxPrefixedBaseLen
           && platforms[j] != "" && x == platforms[j] + " " + qs[i];
        if i < |qs| - 1 { assert init[i] == qs[i]; }
      }
      if exists i, j :: 0 <= i < |init| && 0 <= j < |platforms| && |init[i]| <= MaxPrefixedBaseLen
           && platforms[j] != "" && x == platforms[j] + " " + init[i] {
        var i, j :| 0 <= i < |init| && 0 <= j < |platforms| && |init[i]| <= MaxPrefixedBaseLen
           && platforms[j] != "" && x == platforms[j] + " " + init[i];
        assert qs[i] == init[i];
      }
    }
  }

  lemma {:induction false} WordVariantsMembers(q: string, word: string, syns: seq<string>, x: string)
    ensures x in WordVariants(q, word, syns) <==>
      exists j :: 0 <= j < |syns| && SynonymVariant(q, word, syns[j]) == Some(x)
  {
    if syns != [] {
      var init := syns[..|syns| - 1];
      WordVariantsMembers(q, word, init, x);
      if exists j :: 0 <= j < |syns| && SynonymVariant(q, word, syns[j]) == Some(x) {
        var j :| 0 <= j < |syns| && SynonymVariant(q, word, syns[j]) == Some(x);
        if j < |syns| - 1 { assert init[j] == syns[j]; }
      }
      if exists j :: 0 <= j < |init| && SynonymVariant(q, word, init[j]) == Some(x) {
        var j :| 0 <= j < |init| && SynonymVariant(q, word, init[j]) == Some(x);
        assert syns[j] == init[j];
      }
    }
  }

  lemma KeyVariantsMembers(q: string, synonyms: map<string, seq<string>>, x: string)
    ensures x in KeyVariants(q, synonyms, synonyms.Keys) <==>
      exists word :: word in synonyms && x in WordVariants(q, word, synonyms[word])
  {
  }

  lemma {:induction false} SynonymSetMembers(qs: seq<string>, synonyms: map<string, seq<string>>, x: string)
    ensures x in SynonymSet(qs, synonyms) <==>
      exists i :: 0 <= i < |qs| && |qs[i]| <= MaxSynonymBaseLen && x in KeyVariants(qs[i], synonyms, synonyms.Keys)
  {
    if qs != [] {
      var init := qs[..|qs| - 1];
      SynonymSetMembers(init, synonyms, x);
      if exists i :: 0 <= i < |qs| && |qs[i]| <= MaxSynonymBaseLen && x in KeyVariants(qs[i], synonyms, synonyms.Keys) {
        var i :| 0 <= i < |qs| && |qs[i]| <= MaxSynonymBaseLen && x in KeyVariants(qs[i], synonyms, synonyms.Keys);
        if i < |qs| - 1 { assert init[i] == qs[i]; }
      }
      if exists i :: 0 <= i < |init| && |init[i]| <= MaxSynonymBaseLen && x in KeyVariants(init[i], synonyms, synonyms.Keys) {
        var i :| 0 <= i < |init| && |init[i]| <= MaxSynonymBaseLen && x in KeyVariants(init[i], synonyms, synonyms.Keys);
        assert qs[i] == init[i];
      }
    }
  }

  /**
   * Where an expanded query comes from: an unchanged base query of at most 60
   * characters, a non-empty platform followed by a space and a base query of
   * at most 40 characters, or a synonym variant of a base query of at most 50
   * characters for one of the terms.
   */
  lemma CandidateSources(base: seq<string>, e: QueryExpansion, x: string)
    ensures x in Candidates(base, e) <==>
      (|x| <= MaxBaseLen && exists i :: 0 <= i < |base| && base[i] == x)
      || (exists i, j :: 0 <= i < |base| && 0 <= j < |e.platforms| && |base[i]| <= MaxPrefixedBaseLen
            && e.platforms[j] != "" && x == e.platforms[j] + " " + base[i])
      || (exists i, word, k :: 0 <= i < |base| && |base[i]| <= MaxSynonymBaseLen && word in e.synonyms
            && 0 <= k < |e.synonyms[word]| && SynonymVariant(base[i], word, e.synonyms[word][k]) == Some(x))
  {
    BaseSetMembers(base, x);
    PlatformSetMembers(base, e.platforms, x);
    SynonymSetMembers(base, e.synonyms, x);
    if exists i :: 0 <= i < |base| && |base[i]| <= MaxSynonymBaseLen && x in KeyVariants(base[i], e.synonyms, e.synonyms.Keys) {
      var i :| 0 <= i < |base| && |base[i]| <= MaxSynonymBaseLen && x in KeyVariants(base[i], e.synonyms, e.synonyms.Keys);
      KeyVariantsMembers(base[i], e.synonyms, x);
      var word :| word in e.synonyms && x in WordVariants(base[i], word, e.synonyms[word]);
      WordVariantsMembers(base[i], word, e.synonyms[word], x);
    }
    if exists i, word, k :: 0 <= i < |base| && |base[i]| <= MaxSynonymBaseLen && word in e.synonyms
         && 0 <= k < |e.synonyms[word]| && SynonymVariant(base[i], word, e.synonyms[word][k]) == Some(x) {
      var i, word, k :| 0 <= i < |base| && |base[i]| <= MaxSynonymBaseLen && word in e.synonyms
         && 0 <= k < |e.synonyms[word]| && SynonymVariant(base[i], word, e.synonyms[word][k]) == Some(x);
      WordVariantsMembers(base[i], word, e.synonyms[word], x);
      KeyVariantsMembers(base[i], e.synonyms, x);
    }
  }

  /** Synonym variants are at most 60 characters long. */
  lemma {:induction false} WordVariantsShort(q: string, word: string, syns: seq<string>)
    ensures forall x :: x in WordVariants(q, word, syns) ==> |x| <= MaxSynonymLen
  {
    if syns != [] {
      WordVariantsShort(q, word, syns[..|syns| - 1]);
    }
  }

  lemma {:induction false} SynonymSetShort(qs: seq<string>, synonyms: map<string, seq<string>>)
    ensures forall x :: x in SynonymSet(qs, synonyms) ==> |x| <= MaxSynonymLen
  {
    if qs != [] {
      SynonymSetShort(qs[..|qs| - 1], synonyms);
      forall word | word in synonyms {
        WordVariantsShort(qs[|qs| - 1], word, synonyms[word]);
      }
    }
  }

  lemma {:induction false} BaseSetShort(qs: seq<string>)
    ensures forall x :: x in BaseSet(qs) ==> |x| <= MaxBaseLen
  {
    if qs != [] {
      BaseSetShort(qs[..|qs| - 1]);
    }
  }

  /**
   * Only platform-prefixed queries can exceed 60 characters: a base query
   * over 60 characters never appears on its own.
   */
  lemma LongCandidatesArePrefixed(base: seq<string>, e: QueryExpansion, x: string)
    requires x in Candidates(base, e) && |x| > MaxBaseLen
    ensures x in PlatformSet(base, e.platforms)
    ensures exists i, j :: (0 <= i < |base| && 0 <= j < |e.platforms| && |base[i]| <= MaxPrefixedBaseLen
      && e.platforms[j] != "" && x == e.platforms[j] + " " + base[i])
  {
    BaseSetShort(base);
    SynonymSetShort(base, e.synonyms);
    PlatformSetMembers(base, e.platforms, x);
  }

  // ---------------------------------------------------------------------------
  // The set construction, step by step

  lemma KeyVariantsEmpty(q: string, synonyms: map<string, seq<string>>)
    ensures KeyVariants(q, synonyms, {}) == {}
  {
  }

  lemma KeyVariantsAdd(q: string, synonyms: map<string, seq<string>>, done: set<string>, word: string)
    requires word in synonyms
    ensures KeyVariants(q, synonyms, done + {word}) == KeyVariants(q, synonyms, done) + WordVariants(q, word, synonyms[word])
  {
  }

  /** Adding the variants for one more term to the variants so far. */
  lemma KeyVariantsStep(acc: set<string>, r: set<string>, r': set<string>, q: string,
                        synonyms: map<string, seq<string>>, done: set<string>, word: string)
    requires word in synonyms
    requires r == acc + KeyVariants(q, synonyms, done)
    requires r' == r + WordVariants(q, word, synonyms[word])
    ensures r' == acc + KeyVariants(q, synonyms, done + {word})
  {
    KeyVariantsAdd(q, synonyms, done, word);
  }

  /** Moving one key from the keys to visit to the keys visited keeps them a partition. */
  lemma KeysMove(keys: set<string>, done: set<string>, all: set<string>, word: string)
    requires keys + done == all && keys !! done && word in keys
    ensures (keys - {word}) + (done + {word}) == all && (keys - {word}) !! (done + {word})
    ensures |keys - {word}| < |keys|
  {
  }

  /** A term that does not occur in the lower-cased query has no variants. */
  lemma {:induction false} WordVariantsAbsent(q: string, word: string, syns: seq<string>)
    requires !Contains(ToLower(q), ToLower(word))
    ensures WordVariants(q, word, syns) == {}
  {
    if syns != [] {
      WordVariantsAbsent(q, word, syns[..|syns| - 1]);
    }
  }

  /** `platform + " " + q` for every non-empty platform, inserted into `expanded`. */
  method AddPrefixed(expanded: set<string>, platforms: seq<string>, q: string) returns (r: set<string>)
    ensures r == expanded + Prefixed(platforms, q)
  {
    r := expanded;
    var j := 0;
    while j < |platforms|
      invariant 0 <= j <= |platforms|
      invariant r == expanded + Prefixed(platforms[..j], q)
    {
      var platform := platforms[j];
      if platform != "" {
        var newQuery := platform + " " + q;
        r := r + {newQuery};
      }
      assert platforms[..j + 1][..j] == platforms[..j];
      j := j + 1;
    }
    assert platforms[..j] == platforms;
  }

  /** The variants of `q` for one term, inserted into `acc`. */
  method AddWordVariants(acc: set<string>, q: string, word: string, syns: seq<string>) returns (r: set<string>)
    ensures r == acc + WordVariants(q, word, syns)
  {
    r := acc;
    var lowerQ := ToLower(q);
    var wordLower := ToLower(word);
    if Contains(lowerQ, wordLower) {
      var k := 0;
      while k < |syns|
        invariant 0 <= k <= |syns|
        invariant r == acc + WordVariants(q, word, syns[..k])
      {
        var syn := syns[k];
        if ToLower(syn) != wordLower {
          var newQuery := ReplaceAll(lowerQ, wordLower, ToLower(syn));
          if |newQuery| <= MaxSynonymLen {
            r := r + {newQuery};
          }
        }
        assert syns[..k + 1][..k] == syns[..k];
        k := k + 1;
      }
      assert syns[..k] == syns;
    } else {
      WordVariantsAbsent(q, word, syns);
    }
  }

  /** The variants of `q` for every term of the map, visited in any order. */
  method AddSynonymVariants(acc: set<string>, q: string, synonyms: map<string, seq<string>>) returns (r: set<string>)
    ensures r == acc + KeyVariants(q, synonyms, synonyms.Keys)
  {
    r := acc;
    var keys := synonyms.Keys;
    var done: set<string> := {};
    KeyVariantsEmpty(q, synonyms);
    while keys != {}
      invariant keys + done == synonyms.Keys && keys !! done
      invariant r == acc + KeyVariants(q, synonyms, done)
      decreases |keys|
    {
      var word :| word in keys;
      ghost var before := r;
      r := AddWordVariants(r, q, word, synonyms[word]);
      KeyVariantsStep(acc, before, r, q, synonyms, done, word);
      KeysMove(keys, done, synonyms.Keys, word);
      keys := keys - {word};
      done := done + {word};
    }
  }

  /** Step 1 of `expandQueriesWithLLM`: the base queries of at most 60 characters. */
  method AddBaseQueries(base: seq<string>) returns (expanded: set<string>)
    ensures expanded == BaseSet(base)
  {
    expanded := {};
    var i := 0;
    while i < |base|
      invariant 0 <= i <= |base|
      invariant expanded == BaseSet(base[..i])
    {
      var q := base[i];
      if |q| <= MaxBaseLen {
        expanded := expanded + {q};
      }
      assert base[..i + 1][..i] == base[..i];
      i := i + 1;
    }
    assert base[..i] == base;
  }

  /** Step 2: platform-prefixed copies of the base queries of at most 40 characters. */
  method AddPlatformQueries(expanded: set<string>, base: seq<string>, platforms: seq<string>) returns (r: set<string>)
    ensures r == expanded + PlatformSet(base, platforms)
  {
    r := expanded;
    var i := 0;
    while i < |base|
      invariant 0 <= i <= |base|
      invariant r == expanded + PlatformSet(base[..i], platforms)
    {
      var q := base[i];
      if |q| <= MaxPrefixedBaseLen {
        r := AddPrefixed(r, platforms, q);
      }
      assert base[..i + 1][..i] == base[..i];
      i := i + 1;
    }
    assert base[..i] == base;
  }

  /** Step 3: the synonym variants of the base queries of at most 50 characters. */
  method SynonymQueries(base: seq<string>, synonyms: map<string, seq<string>>) returns (synonymQueries: set<string>)
    ensures synonymQueries == SynonymSet(base, synonyms)
  {
    synonymQueries := {};
    var i := 0;
    while i < |base|
      invariant 0 <= i <= |base|
      invariant synonymQueries == SynonymSet(base[..i], synonyms)
    {
      var q := base[i];
      if |q| <= MaxSynonymBaseLen {
        synonymQueries := AddSynonymVariants(synonymQueries, q, synonyms);
      }
      assert base[..i + 1][..i] == base[..i];
      i := i + 1;
    }
    assert base[..i] == base;
  }

  /**
   * Step 4: the first 150 elements of `expanded` in map order. The order is
   * unspecified, so the result is any list of distinct elements of length
   * min(150, |expanded|), holding all of them when there are at most 150.
   */
  method CapQueries(expanded: set<string>) returns (result: seq<string>)
    ensures forall i :: 0 <= i < |result| ==> result[i] in expanded
    ensures forall i, j :: 0 <= i < j < |result| ==> result[i] != result[j]
    ensures |result| == if |expanded| < MaxQueries then |expanded| else MaxQueries
    ensures |expanded| <= MaxQueries ==> forall x :: x in expanded ==> x in result
  {
    result := [];
    var remaining := expanded;
    while remaining != {}
      invariant remaining <= expanded
      invariant forall x :: x in expanded ==> x in remaining || x in result
      invariant forall k :: 0 <= k < |result| ==> result[k] in expanded && result[k] !in remaining
      invariant forall k, j :: 0 <= k < j < |result| ==> result[k] != result[j]
      invariant |result| + |remaining| == |expanded|
      invariant |result| < MaxQueries
      decreases |remaining|
    {
      var q :| q in remaining;
      result := result + [q];
      remaining := remaining - {q};
      if |result| >= MaxQueries {
        break;
      }
    }
    if |remaining| == 0 {
      assert remaining == {};
    }
  }

  /**
   * `expandQueriesWithLLM`: the deduplicated candidate set, capped at 150
   * queries taken in map order.
   */
  method ExpandQueries(base: seq<string>, e: QueryExpansion) returns (result: seq<string>)
    ensures forall i :: 0 <= i < |result| ==> result[i] in Candidates(base, e)
    ensures forall i, j :: 0 <= i < j < |result| ==> result[i] != result[j]
    ensures |result| == if |Candidates(base, e)| < MaxQueries then |Candidates(base, e)| else MaxQueries
    ensures |Candidates(base, e)| <= MaxQueries ==> forall x :: x in Candidates(base, e) ==> x in result
  {
    var expanded := AddBaseQueries(base);
    expanded := AddPlatformQueries(expanded, base, e.platforms);
    var synonymQueries := SynonymQueries(base, e.synonyms);
    var pending := synonymQueries;
    while pending != {}
      invariant pending <= synonymQueries
      invariant expanded + pending == Candidates(base, e)
      decreases |pending|
    {
      var q :| q in pending;
      expanded := expanded + {q};
      pending := pending - {q};
    }
    result := CapQueries(expanded);
  }
}
