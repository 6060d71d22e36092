/** The pure parts of the document analyzer: the domain vote, the merge of
    the term mapping, and the filter of the extracted terms. */
module Analyzer {
  import opened Options
  import opened Text

  // ---------------------------------------------------------------------------
  // identify_domain

  /** `domain_keywords`, in the order of the dictionary. */
  const DomainKeywords: seq<(string, seq<string>)> := [
    ("electronics_semiconductor", ["substrate", "layer", "semiconductor", "wafer", "transistor", "chip", "circuit"]),
    ("chemistry_pharma", ["compound", "molecule", "pharmaceutical", "drug", "synthesis", "reaction", "chemical"]),
    ("mechanical", ["distal", "proximal", "apparatus", "device", "mechanical", "housing"]),
    ("biotech", ["protein", "cell", "antibody", "gene", "DNA", "RNA", "biological"])
  ]

  /** `sum(1 for kw in keywords if kw in text_lower)`: how many of the
      keywords occur, each counted once however often it occurs. */
  function Score(u: string, keywords: seq<string>): (n: nat)
    ensures n <= |keywords|
    ensures n == 0 <==> forall k :: 0 <= k < |keywords| ==> !Contains(u, keywords[k])
  {
    if keywords == [] then 0
    else Score(u, keywords[..|keywords| - 1]) + (if Contains(u, keywords[|keywords| - 1]) then 1 else 0)
  }

  /** The score of each domain of the table. */
  function Scores(table: seq<(string, seq<string>)>, u: string): (s: seq<nat>)
    ensures |s| == |table|
  {
    seq(|table|, i requires 0 <= i < |table| => Score(u, table[i].1))
  }

  /** `max(scores, key=scores.get)`: the first index holding the largest value. */
  function ArgMax(s: seq<nat>): (k: nat)
    requires |s| > 0
    ensures k < |s|
    ensures forall j :: 0 <= j < |s| ==> s[j] <= s[k]
    ensures forall j :: 0 <= j < k ==> s[j] < s[k]
  {
    if |s| == 1 then 0
    else
      var k := ArgMax(s[..|s| - 1]);
      assert forall j :: 0 <= j < |s| - 1 ==> s[..|s| - 1][j] == s[j];
      if s[|s| - 1] > s[k] then |s| - 1 else k
  }

  /** identify_domain over a keyword table and the lower-cased text. */
  function DomainFrom(table: seq<(string, seq<string>)>, u: string): string
    requires |table| > 0
  {
    var scores := Scores(table, u);
    var k := ArgMax(scores);
    if scores[k] > 0 then table[k].0 else "general"
  }

  /** identify_domain; lower-casing is the ASCII one of Text.ToLower. */
  function IdentifyDomain(text: string): string {
    DomainFrom(DomainKeywords, ToLower(text))
  }

  /** No domain of the table is called "general". */
  predicate NoGeneralDomain(table: seq<(string, seq<string>)>) {
    forall i :: 0 <= i < |table| ==> table[i].0 != "general"
  }

  /** The vote is "general" exactly when no keyword of any domain occurs. */
  lemma GeneralIffNoKeyword(table: seq<(string, seq<string>)>, u: string)
    requires |table| > 0 && NoGeneralDomain(table)
    ensures DomainFrom(table, u) == "general" <==>
            forall i, k :: 0 <= i < |table| && 0 <= k < |table[i].1| ==> !Contains(u, table[i].1[k])
  {
    var scores := Scores(table, u);
    var best := ArgMax(scores);
    if scores[best] > 0 {
      var k :| 0 <= k < |table[best].1| && Contains(u, table[best].1[k]);
    } else {
      forall i, k | 0 <= i < |table| && 0 <= k < |table[i].1| ensures !Contains(u, table[i].1[k]) {
        assert scores[i] == 0;
      }
    }
  }

  /** Otherwise it is a domain with the highest score, and every domain
      before it in table order scores less. */
  lemma DomainHasBestScore(table: seq<(string, seq<string>)>, u: string)
    requires |table| > 0 && NoGeneralDomain(table)
    requires DomainFrom(table, u) != "general"
    ensures exists d :: 0 <= d < |table| && table[d].0 == DomainFrom(table, u) &&
                        Score(u, table[d].1) > 0 &&
                        (forall e :: 0 <= e < |table| ==> Score(u, table[e].1) <= Score(u, table[d].1)) &&
                        (forall e :: 0 <= e < d ==> Score(u, table[e].1) < Score(u, table[d].1))
  {
    var scores := Scores(table, u);
    var d := ArgMax(scores);
    assert forall e :: 0 <= e < |table| ==> scores[e] == Score(u, table[e].1);
  }

  lemma DomainKeywordsHaveNoGeneral()
    ensures |DomainKeywords| == 4 && NoGeneralDomain(DomainKeywords)
  {
  }

  /** identify_domain is "general" exactly when the lower-cased text holds no keyword. */
  lemma IdentifyGeneralIff(text: string)
    ensures IdentifyDomain(text) == "general" <==>
            forall i, k :: 0 <= i < |DomainKeywords| && 0 <= k < |DomainKeywords[i].1| ==>
                           !Contains(ToLower(text), DomainKeywords[i].1[k])
  {
    DomainKeywordsHaveNoGeneral();
    GeneralIffNoKeyword(DomainKeywords, ToLower(text));
  }

  /** "DNA" and "RNA" hold upper-case letters and the text is lower-cased
      first, so the biotech score is that of its five lower-case keywords. */
  lemma UpperKeywordsNeverCount(text: string)
    ensures Score(ToLower(text), DomainKeywords[3].1) ==
            Score(ToLower(text), ["protein", "cell", "antibody", "gene", "biological"])
  {
    var u := ToLower(text);
    var seven: seq<string> := ["protein", "cell", "antibody", "gene", "DNA", "RNA", "biological"];
    var six: seq<string> := ["protein", "cell", "antibody", "gene", "DNA", "RNA"];
    var five: seq<string> := ["protein", "cell", "antibody", "gene", "DNA"];
    var four: seq<string> := ["protein", "cell", "antibody", "gene"];
    var kept: seq<string> := ["protein", "cell", "antibody", "gene", "biological"];
    LowerNeverContainsUpper(text, "DNA", 0);
    LowerNeverContainsUpper(text, "RNA", 0);
    assert DomainKeywords[3].1 == seven;
    assert seven[..6] == six && six[..5] == five && five[..4] == four && kept[..4] == four;
    assert Score(u, six) == Score(u, five) == Score(u, four);
  }

  // ---------------------------------------------------------------------------
  // _build_term_mapping

  /** `dict.get(key, {})` on the glossary's `domain_terms`. */
  function Glossary(domainTerms: map<string, map<string, string>>, key: string): map<string, string> {
    if key in domainTerms then domainTerms[key] else map[]
  }

  /** The first loop: each extracted term whose lower-cased form is in the
      general glossary is mapped to that entry, replacing any earlier value. */
  function GeneralPass(m: map<string, string>, general: map<string, string>, terms: seq<(string, int)>): map<string, string>
  {
    if terms == [] then m
    else
      var before := GeneralPass(m, general, terms[..|terms| - 1]);
      var t := terms[|terms| - 1].0;
      if ToLower(t) in general then before[t := general[ToLower(t)]] else before
  }

  /** The second loop: an AI-suggested pair is added only when its English
      term is not yet a key. */
  function AiPass(m: map<string, string>, ai: seq<(string, string)>): map<string, string>
  {
    if ai == [] then m
    else
      var before := AiPass(m, ai[..|ai| - 1]);
      var (eng, kor) := ai[|ai| - 1];
      if eng in before then before else before[eng := kor]
  }

  /** The whole merge: domain glossary, then general hits, then AI terms
      (`None` when there is no AI analysis or it has no
      `domain_specific_terms`). */
  function TermMapping(terms: seq<(string, int)>, domain: string,
                       domainTerms: map<string, map<string, string>>,
                       ai: Option<seq<(string, string)>>): map<string, string>
  {
    var m := GeneralPass(Glossary(domainTerms, domain), Glossary(domainTerms, "general"), terms);
    if ai.Some? then AiPass(m, ai.value) else m
  }

  /** _build_term_mapping, with its two loops. */
  method BuildTermMapping(terms: seq<(string, int)>, domain: string,
                          domainTerms: map<string, map<string, string>>,
                          ai: Option<seq<(string, string)>>)
    returns (mapping: map<string, string>)
    ensures mapping == TermMapping(terms, domain, domainTerms, ai)
  {
    mapping := Glossary(domainTerms, domain);
    var general := Glossary(domainTerms, "general");
    ghost var start := mapping;
    var i := 0;
    while i < |terms|
      invariant 0 <= i <= |terms|
      invariant mapping == GeneralPass(start, general, terms[..i])
    {
      assert terms[..i + 1][..i] == terms[..i];
      var termLower := ToLower(terms[i].0);
      if termLower in general {
        mapping := mapping[terms[i].0 := general[termLower]];
      }
      i := i + 1;
    }
    assert terms[..|terms|] == terms;
    if ai.Some? {
      var aiTerms := ai.value;
      ghost var merged := mapping;
      var j := 0;
      while j < |aiTerms|
        invariant 0 <= j <= |aiTerms|
        invariant mapping == AiPass(merged, aiTerms[..j])
      {
        assert aiTerms[..j + 1][..j] == aiTerms[..j];
        var (eng, kor) := aiTerms[j];
        if eng !in mapping {
          mapping := mapping[eng := kor];
        }
        j := j + 1;
      }
      assert aiTerms[..|aiTerms|] == aiTerms;
    }
  }

  /** term `k` is an extracted term found in the general glossary. */
  predicate GeneralHit(general: map<string, string>, terms: seq<(string, int)>, k: string) {
    ToLower(k) in general && exists i :: 0 <= i < |terms| && terms[i].0 == k
  }

  /** After the first loop, the keys are the starting ones plus the general
      hits; a hit carries the glossary value, any other key keeps its value. */
  lemma {:induction false} GeneralPassFacts(m: map<string, string>, general: map<string, string>, terms: seq<(string, int)>)
    ensures var r := GeneralPass(m, general, terms);
            forall k :: (k in r <==> k in m || GeneralHit(general, terms, k)) &&
                        (GeneralHit(general, terms, k) ==> r[k] == general[ToLower(k)]) &&
                        (k in m && !GeneralHit(general, terms, k) ==> r[k] == m[k])
    decreases |terms|
  {
    if terms != [] {
      var init := terms[..|terms| - 1];
      GeneralPassFacts(m, general, init);
      var t := terms[|terms| - 1].0;
      forall k ensures GeneralHit(general, terms, k) <==> GeneralHit(general, init, k) || (k == t && ToLower(t) in general) {
        if GeneralHit(general, terms, k) && k != t {
          var i :| 0 <= i < |terms| && terms[i].0 == k;
          assert init[i].0 == k;
        }
        if GeneralHit(general, init, k) {
          var i :| 0 <= i < |init| && init[i].0 == k;
          assert terms[i].0 == k;
        }
      }
    }
  }

  /** Some AI pair suggests a translation for `k`. */
  predicate Suggested(ai: seq<(string, string)>, k: string) {
    exists i :: 0 <= i < |ai| && ai[i].0 == k
  }

  /** The first AI occurrence of `k`, when no earlier pair names it. */
  predicate FirstAi(ai: seq<(string, string)>, k: string, i: int) {
    0 <= i < |ai| && ai[i].0 == k && forall j :: 0 <= j < i ==> ai[j].0 != k
  }

  /** After the second loop, the keys are the old ones plus the AI terms; old
      keys keep their values, and a new key takes its first AI value. */
  lemma AiPassFacts(m: map<string, string>, ai: seq<(string, string)>)
    ensures var r := AiPass(m, ai);
            forall k :: (k in r <==> k in m || Suggested(ai, k)) &&
                        (k in m ==> r[k] == m[k]) &&
                        (forall i :: k !in m && FirstAi(ai, k, i) ==> r[k] == ai[i].1)
  {
    AiPassKeys(m, ai);
    AiPassKeeps(m, ai);
    forall k, i | k !in m && FirstAi(ai, k, i) ensures AiPass(m, ai)[k] == ai[i].1 {
      AiPassFirst(m, ai, k, i);
    }
  }

  lemma SuggestedLast(ai: seq<(string, string)>, k: string)
    requires ai != []
    ensures Suggested(ai, k) <==> Suggested(ai[..|ai| - 1], k) || k == ai[|ai| - 1].0
  {
    var init := ai[..|ai| - 1];
    if Suggested(init, k) {
      var i :| 0 <= i < |init| && init[i].0 == k;
      assert ai[i].0 == k;
    }
    if Suggested(ai, k) {
      var i :| 0 <= i < |ai| && ai[i].0 == k;
      if i < |init| { assert init[i].0 == k; }
    }
  }

  /** The keys after the second loop: the old ones and the AI terms. */
  lemma {:induction false} AiPassKeys(m: map<string, string>, ai: seq<(string, string)>)
    ensures forall k :: k in AiPass(m, ai) <==> k in m || Suggested(ai, k)
    decreases |ai|
  {
    if ai != [] {
      AiPassKeys(m, ai[..|ai| - 1]);
      forall k ensures k in AiPass(m, ai) <==> k in m || Suggested(ai, k) {
        SuggestedLast(ai, k);
      }
    }
  }

  /** The second loop never changes an old key. */
  lemma {:induction false} AiPassKeeps(m: map<string, string>, ai: seq<(string, string)>)
    ensures forall k :: k in m ==> k in AiPass(m, ai) && AiPass(m, ai)[k] == m[k]
    decreases |ai|
  {
    if ai != [] {
      AiPassKeeps(m, ai[..|ai| - 1]);
    }
  }

  /** A new key takes the value of its first AI pair. */
  lemma {:induction false} AiPassFirst(m: map<string, string>, ai: seq<(string, string)>, k: string, i: int)
    requires k !in m && FirstAi(ai, k, i)
    ensures k in AiPass(m, ai) && AiPass(m, ai)[k] == ai[i].1
    decreases |ai|
  {
    var n := |ai| - 1;
    var init := ai[..n];
    if i < n {
      assert FirstAi(init, k, i);
      AiPassFirst(m, init, k, i);
    } else {
      AiPassKeys(m, init);
      forall j | 0 <= j < |init| ensures init[j].0 != k {
        assert init[j] == ai[j];
      }
    }
  }

  /** Merge priority of _build_term_mapping: every domain term and every AI
      term is a key; a general hit wins over the domain glossary; a domain
      term keeps its value otherwise; an AI term only fills a key neither of
      the others set, with its first suggestion. */
  lemma MergePriority(terms: seq<(string, int)>, domain: string,
                      domainTerms: map<string, map<string, string>>,
                      ai: Option<seq<(string, string)>>, k: string)
    ensures var r := TermMapping(terms, domain, domainTerms, ai);
            var d := Glossary(domainTerms, domain);
            var g := Glossary(domainTerms, "general");
            (k in d ==> k in r) &&
            (GeneralHit(g, terms, k) ==> k in r && r[k] == g[ToLower(k)]) &&
            (k in d && !GeneralHit(g, terms, k) ==> r[k] == d[k]) &&
            (ai.Some? && Suggested(ai.value, k) ==> k in r) &&
            (ai.Some? && k !in d && !GeneralHit(g, terms, k) ==>
               forall i :: FirstAi(ai.value, k, i) ==> r[k] == ai.value[i].1) &&
            (k in r <==> k in d || GeneralHit(g, terms, k) ||
                         (ai.Some? && Suggested(ai.value, k)))
  {
    var d := Glossary(domainTerms, domain);
    var g := Glossary(domainTerms, "general");
    GeneralPassFacts(d, g, terms);
    if ai.Some? {
      AiPassFacts(GeneralPass(d, g, terms), ai.value);
    }
  }

  // ---------------------------------------------------------------------------
  // the filter of extract_technical_terms

  const Stopwords: set<string> := {"The", "A", "An", "In", "Of", "And", "Or", "To", "For", "With", "By", "At"}

  /** A term survives the filter: not a stopword and longer than two characters. */
  predicate Keeps(term: string) {
    term !in Stopwords && |term| > 2
  }

  /** The comprehension over `most_common(top_n * 2)`, keeping the order. */
  function Kept(ranked: seq<(string, int)>): seq<(string, int)> {
    if ranked == [] then []
    else
      var x := ranked[|ranked| - 1];
      Kept(ranked[..|ranked| - 1]) + (if Keeps(x.0) then [x] else [])
  }

  /** `filtered_terms[:top_n]`, given the counted terms in descending order. */
  function FilterTerms(ranked: seq<(string, int)>, topN: int): seq<(string, int)> {
    PyPrefix(Kept(ranked), topN)
  }

  /** Counts never increase along the list. */
  predicate ByCountDescending(s: seq<(string, int)>) {
    forall i, j :: 0 <= i < j < |s| ==> s[j].1 <= s[i].1
  }

  /** The kept pairs are exactly the ranked ones that pass the filter, and
      a list in descending count order stays in it. */
  lemma {:induction false} KeptFacts(ranked: seq<(string, int)>)
    ensures forall x :: x in Kept(ranked) <==> x in ranked && Keeps(x.0)
    ensures |Kept(ranked)| <= |ranked|
    ensures ByCountDescending(ranked) ==> ByCountDescending(Kept(ranked))
  {
    if ranked != [] {
      var init := ranked[..|ranked| - 1];
      KeptFacts(init);
      assert ranked == init + [ranked[|ranked| - 1]];
      if ByCountDescending(ranked) {
        assert ByCountDescending(init);
        var k := Kept(ranked);
        forall i, j | 0 <= i < j < |k| ensures k[j].1 <= k[i].1 {
          if j == |k| - 1 && Keeps(ranked[|ranked| - 1].0) {
            assert k[i] in init;
          }
        }
      }
    }
  }

  /** extract_technical_terms returns at most `top_n` terms, every one a
      counted term that is neither a stopword nor two characters or fewer,
      and they keep the descending count order of `most_common`. */
  lemma FilterTermsFacts(ranked: seq<(string, int)>, topN: int)
    ensures topN >= 0 ==> |FilterTerms(ranked, topN)| <= topN
    ensures forall x :: x in FilterTerms(ranked, topN) ==> x in ranked && x.0 !in Stopwords && |x.0| > 2
    ensures ByCountDescending(ranked) ==> ByCountDescending(FilterTerms(ranked, topN))
    ensures topN >= 0 && |Kept(ranked)| <= topN ==>
            forall x :: x in ranked && Keeps(x.0) ==> x in FilterTerms(ranked, topN)
  {
    KeptFacts(ranked);
    var k := Kept(ranked);
    var r := FilterTerms(ranked, topN);
    assert r == k[..|r|];
    forall x | x in r ensures x in k {
      var i :| 0 <= i < |r| && r[i] == x;
      assert k[i] == x;
    }
    if topN >= 0 && |k| <= topN {
      assert r == k;
    }
  }
}
