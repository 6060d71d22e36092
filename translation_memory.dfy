/** The translation memory: an upsert store of translations keyed by the hash
    of their source text, with exact and fuzzy search and grouped counts.
    The hash (MD5 in the repository) and the similarity ratio (difflib's) are
    abstract functions given to the constructor; the SQLite table is the map
    field `store`. */
module TmManager {
  import opened Options
  import opened Text

  /** One row of the table; its source_hash column is the row's key in the store. */
  datatype Entry = Entry(source: string, target: string, domain: string, documentType: string,
                         qualityScore: int)

  datatype MatchType = Exact | Fuzzy

  /** One dictionary of the list search returns. */
  datatype Match = Match(source: string, target: string, domain: string, qualityScore: int,
                         similarity: real, matchType: MatchType)

  /** The dictionary get_stats returns. */
  datatype Stats = Stats(total: nat, byDomain: map<string, nat>, byType: map<string, nat>)

  function ExactMatch(e: Entry): Match {
    Match(e.source, e.target, e.domain, e.qualityScore, 1.0, Exact)
  }

  function FuzzyMatch(e: Entry, similarity: real): Match {
    Match(e.source, e.target, e.domain, e.qualityScore, similarity, Fuzzy)
  }

  /** Python's truthiness of the `domain` argument: not None and not "". */
  predicate Filters(domain: Option<string>) {
    domain.Some? && domain.value != ""
  }

  /** The rows the candidate query reads: those of the domain when it filters. */
  function Pool(store: map<string, Entry>, domain: Option<string>): map<string, Entry> {
    if Filters(domain) then map h | h in store && store[h].domain == domain.value :: store[h]
    else store
  }

  /** `keys` is what `ORDER BY quality_score DESC LIMIT limit` can return from
      `pool`: distinct keys of the pool, as many as the limit allows, in
      non-increasing quality, and no row left out scores above a chosen one.
      Among equal scores the order is not fixed. */
  predicate RankedByQuality(pool: map<string, Entry>, keys: seq<string>, limit: nat) {
    (forall i :: 0 <= i < |keys| ==> keys[i] in pool) &&
    (forall i, j :: 0 <= i < j < |keys| ==> keys[i] != keys[j]) &&
    |keys| == Min(limit, |pool|) &&
    (forall i, j :: 0 <= i < j < |keys| ==> pool[keys[j]].qualityScore <= pool[keys[i]].qualityScore) &&
    (forall i, h :: 0 <= i < |keys| && h in pool && h !in keys ==>
                    pool[h].qualityScore <= pool[keys[i]].qualityScore)
  }

  /** The candidate rows, in the order of the keys. */
  function Rows(pool: map<string, Entry>, keys: seq<string>): (rows: seq<Entry>)
    requires forall i :: 0 <= i < |keys| ==> keys[i] in pool
    ensures |rows| == |keys|
  {
    seq(|keys|, i requires 0 <= i < |keys| => pool[keys[i]])
  }

  /** The loop over candidates: a fuzzy match for each whose similarity to the
      query reaches the threshold, in candidate order. */
  function Hits(similarity: (string, string) -> real, source: string, candidates: seq<Entry>,
                threshold: real): seq<Match>
  {
    if candidates == [] then []
    else
      var c := candidates[|candidates| - 1];
      var s := similarity(source, c.source);
      Hits(similarity, source, candidates[..|candidates| - 1], threshold) +
      (if s >= threshold then [FuzzyMatch(c, s)] else [])
  }

  /** Each match is at most as similar as the one before it. */
  predicate SortedBySimilarity(rs: seq<Match>) {
    forall i :: 0 < i < |rs| ==> rs[i].similarity <= rs[i - 1].similarity
  }

  /** Inserting `x` after every match at least as similar: the step of a
      descending insertion sort. */
  function InsertBySimilarity(x: Match, rs: seq<Match>): (r: seq<Match>)
    ensures |r| == |rs| + 1
  {
    if rs == [] then [x]
    else if rs[|rs| - 1].similarity >= x.similarity then rs + [x]
    else InsertBySimilarity(x, rs[..|rs| - 1]) + [rs[|rs| - 1]]
  }

  /** `results.sort(key=lambda x: x["similarity"], reverse=True)`: non-increasing similarity. */
  function SortBySimilarity(rs: seq<Match>): (r: seq<Match>)
    ensures |r| == |rs|
  {
    if rs == [] then []
    else InsertBySimilarity(rs[|rs| - 1], SortBySimilarity(rs[..|rs| - 1]))
  }

  /** The fuzzy part of search, over the candidate rows. */
  function FuzzyResults(similarity: (string, string) -> real, source: string, candidates: seq<Entry>,
                        threshold: real, maxResults: int): seq<Match>
  {
    PyPrefix(SortBySimilarity(Hits(similarity, source, candidates, threshold)), maxResults)
  }

  /** The sum of the counts of a grouped count. */
  ghost function Pick(m: map<string, nat>): string
    requires m != map[]
  {
    var k :| k in m; k
  }

  ghost function SumValues(m: map<string, nat>): nat
    decreases |m|
  {
    if m == map[] then 0
    else
      var k := Pick(m);
      assert |m - {k}| < |m| by { assert m.Keys == (m - {k}).Keys + {k}; }
      m[k] + SumValues(m - {k})
  }

  /** The rows among `keys` whose column value is c. */
  ghost function RowsIn(store: map<string, Entry>, column: Entry -> string, keys: set<string>, c: string): set<string> {
    set h | h in keys && h in store && column(store[h]) == c
  }

  /** The rows of `store` whose column value is c. */
  ghost function RowsWith(store: map<string, Entry>, column: Entry -> string, c: string): set<string> {
    RowsIn(store, column, store.Keys, c)
  }

  /** One more row counted in group c. */
  function Bump(counts: map<string, nat>, c: string): map<string, nat> {
    counts[c := (if c in counts then counts[c] else 0) + 1]
  }

  class TranslationMemory {
    var store: map<string, Entry>
    const hash: string -> string
    const similarity: (string, string) -> real

    /** Opening the database: the table keeps the rows it already holds. */
    constructor (hash: string -> string, similarity: (string, string) -> real, rows: map<string, Entry>)
      ensures this.hash == hash && this.similarity == similarity && store == rows
    {
      this.hash := hash;
      this.similarity := similarity;
      store := rows;
    }

    /** add: INSERT OR REPLACE under the source's hash. When the storage layer
        raises (`storageFails`) the store is unchanged and the result False. */
    method Add(source: string, target: string, domain: string, documentType: string,
               qualityScore: int, storageFails: bool) returns (ok: bool)
      modifies this
      ensures ok == !storageFails
      ensures ok ==> store == old(store)[hash(source) := Entry(source, target, domain, documentType, qualityScore)]
      ensures !ok ==> store == old(store)
      ensures ok ==> |store| == |old(store)| + (if hash(source) in old(store) then 0 else 1)
    {
      if storageFails {
        return false;
      }
      store := store[hash(source) := Entry(source, target, domain, documentType, qualityScore)];
      return true;
    }

    /** search: the exact row for the query's hash when there is one;
        otherwise the fuzzy matches among the (at most 100) best-scoring rows
        of the pool, most similar first, cut to max_results. `keys` are the
        rows the candidate query returned. */
    method Search(source: string, domain: Option<string>, threshold: real, maxResults: int)
      returns (results: seq<Match>, ghost keys: seq<string>)
      ensures hash(source) in store ==> results == [ExactMatch(store[hash(source)])]
      ensures hash(source) !in store ==>
                RankedByQuality(Pool(store, domain), keys, 100) &&
                results == FuzzyResults(similarity, source, Rows(Pool(store, domain), keys), threshold, maxResults)
      ensures hash(source) !in store ==>
                |results| <= 100 && (maxResults >= 0 ==> |results| <= maxResults) &&
                SortedBySimilarity(results) &&
                forall r :: r in results ==>
                  r.matchType == Fuzzy && r.similarity >= threshold &&
                  (Filters(domain) ==> r.domain == domain.value)
    {
      var h := hash(source);
      if h in store {
        return [ExactMatch(store[h])], [];
      }
      var pool := Pool(store, domain);
      var chosen := TopByQuality(pool, 100);
      keys := chosen;
      var candidates := Rows(pool, chosen);
      var hits := CollectHits(similarity, source, candidates, threshold);
      results := PyPrefix(SortBySimilarity(hits), maxResults);
      SearchFacts(similarity, source, store, domain, chosen, threshold, maxResults);
    }

    /** get_stats: the number of rows and the row counts grouped by domain and
        by document type. */
    method GetStats() returns (stats: Stats)
      ensures stats.total == |store|
      ensures forall d :: d in stats.byDomain <==> exists h :: h in store && store[h].domain == d
      ensures forall d :: d in stats.byDomain ==> stats.byDomain[d] == |RowsWith(store, (e: Entry) => e.domain, d)|
      ensures forall t :: t in stats.byType <==> exists h :: h in store && store[h].documentType == t
      ensures forall t :: t in stats.byType ==> stats.byType[t] == |RowsWith(store, (e: Entry) => e.documentType, t)|
      ensures SumValues(stats.byDomain) == stats.total && SumValues(stats.byType) == stats.total
    {
      var byDomain := GroupCount(store, (e: Entry) => e.domain);
      var byType := GroupCount(store, (e: Entry) => e.documentType);
      stats := Stats(|store|, byDomain, byType);
    }
  }

  /** `ORDER BY quality_score DESC LIMIT limit`, ties in any order. */
  method TopByQuality(pool: map<string, Entry>, limit: nat) returns (keys: seq<string>)
    ensures RankedByQuality(pool, keys, limit)
  {
    keys := [];
    var remaining := pool.Keys;
    while |keys| < limit && remaining != {}
      invariant |keys| <= limit
      invariant RankedSoFar(pool, keys, remaining)
      decreases |remaining|
    {
      BestExists(pool, remaining);
      var h :| h in remaining && forall g :: g in remaining ==> pool[g].qualityScore <= pool[h].qualityScore;
      RankedStep(pool, keys, remaining, h);
      keys := keys + [h];
      remaining := remaining - {h};
    }
    RankedDone(pool, keys, remaining, limit);
  }

  /** The selection so far: the keys chosen, best first, and the keys left,
      none better than a chosen one. */
  predicate RankedSoFar(pool: map<string, Entry>, keys: seq<string>, remaining: set<string>) {
    remaining <= pool.Keys &&
    (forall h :: h in pool ==> (h in remaining <==> h !in keys)) &&
    |keys| + |remaining| == |pool| &&
    (forall i :: 0 <= i < |keys| ==> keys[i] in pool) &&
    (forall i, j :: 0 <= i < j < |keys| ==> keys[i] != keys[j]) &&
    (forall i, j :: 0 <= i < j < |keys| ==> pool[keys[j]].qualityScore <= pool[keys[i]].qualityScore) &&
    (forall i, h :: 0 <= i < |keys| && h in remaining ==> pool[h].qualityScore <= pool[keys[i]].qualityScore)
  }

  lemma RankedStep(pool: map<string, Entry>, keys: seq<string>, remaining: set<string>, h: string)
    requires RankedSoFar(pool, keys, remaining)
    requires h in remaining && forall g :: g in remaining ==> pool[g].qualityScore <= pool[h].qualityScore
    ensures RankedSoFar(pool, keys + [h], remaining - {h})
  {
    var keys' := keys + [h];
    assert forall i :: 0 <= i < |keys| ==> keys'[i] == keys[i];
    assert forall i :: 0 <= i < |keys| ==> pool[h].qualityScore <= pool[keys[i]].qualityScore;
  }

  lemma RankedDone(pool: map<string, Entry>, keys: seq<string>, remaining: set<string>, limit: nat)
    requires RankedSoFar(pool, keys, remaining) && |keys| <= limit
    requires |keys| == limit || remaining == {}
    ensures RankedByQuality(pool, keys, limit)
  {
  }

  /** A non-empty set of keys has one of top quality. */
  lemma {:induction false} BestExists(pool: map<string, Entry>, keys: set<string>)
    requires keys != {} && keys <= pool.Keys
    ensures exists h :: h in keys && forall g :: g in keys ==> pool[g].qualityScore <= pool[h].qualityScore
    decreases |keys|
  {
    var x :| x in keys;
    if keys != {x} {
      BestExists(pool, keys - {x});
      var h :| h in keys - {x} && forall g :: g in keys - {x} ==> pool[g].qualityScore <= pool[h].qualityScore;
      if pool[x].qualityScore > pool[h].qualityScore {
        assert forall g :: g in keys ==> pool[g].qualityScore <= pool[x].qualityScore;
      } else {
        assert forall g :: g in keys ==> pool[g].qualityScore <= pool[h].qualityScore;
      }
    } else {
      assert forall g :: g in keys ==> g == x;
    }
  }

  /** `GROUP BY column` with `COUNT(*)`, as the dictionary made of its rows. */
  method GroupCount(store: map<string, Entry>, column: Entry -> string) returns (counts: map<string, nat>)
    ensures forall c :: c in counts <==> exists h :: h in store && column(store[h]) == c
    ensures forall c :: c in counts ==> counts[c] == |RowsWith(store, column, c)|
    ensures SumValues(counts) == |store|
  {
    counts := map[];
    var remaining := store.Keys;
    while remaining != {}
      invariant remaining <= store.Keys
      invariant Tallied(store, column, store.Keys - remaining, counts)
      invariant SumValues(counts) == |store.Keys - remaining|
      decreases |remaining|
    {
      var h :| h in remaining;
      TallyNext(store, column, remaining, counts, h);
      SumNext(store, column, remaining, counts, h);
      counts := Bump(counts, column(store[h]));
      remaining := remaining - {h};
    }
    assert store.Keys - remaining == store.Keys;
    TalliedAll(store, column, counts);
  }

  /** One more row counted: the loop step of GroupCount, for the tally ... */
  lemma TallyNext(store: map<string, Entry>, column: Entry -> string, remaining: set<string>,
                  counts: map<string, nat>, h: string)
    requires remaining <= store.Keys && h in remaining
    requires Tallied(store, column, store.Keys - remaining, counts)
    ensures Tallied(store, column, store.Keys - (remaining - {h}), Bump(counts, column(store[h])))
  {
    assert store.Keys - (remaining - {h}) == (store.Keys - remaining) + {h};
    TallyStep(store, column, store.Keys - remaining, counts, h);
  }

  /** ... and for the sum of the counts. */
  lemma SumNext(store: map<string, Entry>, column: Entry -> string, remaining: set<string>,
                counts: map<string, nat>, h: string)
    requires remaining <= store.Keys && h in remaining
    requires SumValues(counts) == |store.Keys - remaining|
    ensures SumValues(Bump(counts, column(store[h]))) == |store.Keys - (remaining - {h})|
  {
    assert store.Keys - (remaining - {h}) == (store.Keys - remaining) + {h};
    SumValuesBump(counts, column(store[h]));
  }

  /** `counts` holds, for each column value met among `keys`, the number of those rows. */
  ghost predicate Tallied(store: map<string, Entry>, column: Entry -> string, keys: set<string>,
                          counts: map<string, nat>) {
    forall c :: (c in counts <==> RowsIn(store, column, keys, c) != {}) &&
                (c in counts ==> counts[c] == |RowsIn(store, column, keys, c)|)
  }

  lemma TallyStep(store: map<string, Entry>, column: Entry -> string, keys: set<string>,
                  counts: map<string, nat>, h: string)
    requires h in store && h !in keys
    requires Tallied(store, column, keys, counts)
    ensures Tallied(store, column, keys + {h}, Bump(counts, column(store[h])))
  {
    forall c ensures |RowsIn(store, column, keys + {h}, c)| ==
                     |RowsIn(store, column, keys, c)| + (if c == column(store[h]) then 1 else 0)
                 && (RowsIn(store, column, keys + {h}, c) != {} <==>
                     RowsIn(store, column, keys, c) != {} || c == column(store[h])) {
      RowsInAdd(store, column, keys, h, c);
    }
  }

  lemma RowsInAdd(store: map<string, Entry>, column: Entry -> string, keys: set<string>, h: string, c: string)
    requires h in store && h !in keys
    ensures RowsIn(store, column, keys + {h}, c) ==
            RowsIn(store, column, keys, c) + (if c == column(store[h]) then {h} else {})
  {
  }

  lemma TalliedAll(store: map<string, Entry>, column: Entry -> string, counts: map<string, nat>)
    requires Tallied(store, column, store.Keys, counts)
    ensures forall c :: c in counts <==> exists h :: h in store && column(store[h]) == c
  {
    forall c ensures c in counts <==> exists h :: h in store && column(store[h]) == c {
      if c in counts {
        var h :| h in RowsIn(store, column, store.Keys, c);
      }
      if h :| h in store && column(store[h]) == c {
        assert h in RowsIn(store, column, store.Keys, c);
      }
    }
  }

  /** Removing any one key takes its count off the sum. */
  lemma {:induction false} SumValuesRemove(m: map<string, nat>, k: string)
    requires k in m
    ensures SumValues(m) == m[k] + SumValues(m - {k})
    decreases |m|
  {
    var j := Pick(m);
    if j != k {
      assert |m - {j}| < |m| by { assert m.Keys == (m - {j}).Keys + {j}; }
      assert |m - {k}| < |m| by { assert m.Keys == (m - {k}).Keys + {k}; }
      SumValuesRemove(m - {j}, k);
      SumValuesRemove(m - {k}, j);
      assert m - {j} - {k} == m - {k} - {j};
    }
  }

  /** Counting one more row of group c adds one to the sum. */
  lemma SumValuesBump(m: map<string, nat>, c: string)
    ensures SumValues(Bump(m, c)) == SumValues(m) + 1
  {
    var m' := Bump(m, c);
    SumValuesRemove(m', c);
    assert m' - {c} == m - {c};
    if c in m {
      SumValuesRemove(m, c);
    } else {
      assert m - {c} == m;
    }
  }

  // ---------------------------------------------------------------------------
  // Properties of the fuzzy search

  lemma {:induction false} HitsHold(similarity: (string, string) -> real, source: string,
                                    candidates: seq<Entry>, threshold: real, r: Match)
    requires r in Hits(similarity, source, candidates, threshold)
    ensures r.matchType == Fuzzy && r.similarity >= threshold
    ensures exists c :: c in candidates && r == FuzzyMatch(c, similarity(source, c.source))
  {
    var n := |candidates|;
    if r !in Hits(similarity, source, candidates[..n - 1], threshold) {
      assert candidates[n - 1] in candidates;
    } else {
      HitsHold(similarity, source, candidates[..n - 1], threshold, r);
      var c :| c in candidates[..n - 1] && r == FuzzyMatch(c, similarity(source, c.source));
      assert c in candidates;
    }
  }

  lemma {:induction false} HitsLength(similarity: (string, string) -> real, source: string,
                                      candidates: seq<Entry>, threshold: real)
    ensures |Hits(similarity, source, candidates, threshold)| <= |candidates|
  {
    if candidates != [] {
      HitsLength(similarity, source, candidates[..|candidates| - 1], threshold);
    }
  }

  lemma {:induction false} InsertSorted(x: Match, rs: seq<Match>)
    requires SortedBySimilarity(rs)
    ensures var r := InsertBySimilarity(x, rs);
            SortedBySimilarity(r) && (r[|r| - 1] == x || (rs != [] && r[|r| - 1] == rs[|rs| - 1]))
  {
    if rs == [] {
    } else if rs[|rs| - 1].similarity >= x.similarity {
      SortedAppend(rs, x);
    } else {
      var init := rs[..|rs| - 1];
      var y := rs[|rs| - 1];
      SortedPrefix(rs);
      InsertSorted(x, init);
      var r0 := InsertBySimilarity(x, init);
      if init != [] {
        assert init[|init| - 1] == rs[|rs| - 2];
      }
      SortedAppend(r0, y);
    }
  }

  lemma SortedAppend(rs: seq<Match>, y: Match)
    requires SortedBySimilarity(rs)
    requires rs != [] ==> y.similarity <= rs[|rs| - 1].similarity
    ensures SortedBySimilarity(rs + [y])
  {
    var r := rs + [y];
    forall i | 0 < i < |r| ensures r[i].similarity <= r[i - 1].similarity {
      if i < |rs| {
        assert r[i] == rs[i] && r[i - 1] == rs[i - 1];
      }
    }
  }

  lemma SortedPrefix(rs: seq<Match>)
    requires SortedBySimilarity(rs) && rs != []
    ensures SortedBySimilarity(rs[..|rs| - 1])
  {
  }

  /** The insertion adds `x` and loses nothing. */
  lemma {:induction false} InsertBySimilarityPermutes(x: Match, rs: seq<Match>)
    ensures multiset(InsertBySimilarity(x, rs)) == multiset(rs) + multiset{x}
  {
    if rs != [] && rs[|rs| - 1].similarity < x.similarity {
      InsertBySimilarityPermutes(x, rs[..|rs| - 1]);
      assert rs == rs[..|rs| - 1] + [rs[|rs| - 1]];
    }
  }

  /** The sort is a permutation. */
  lemma {:induction false} SortBySimilarityPermutes(rs: seq<Match>)
    ensures multiset(SortBySimilarity(rs)) == multiset(rs)
  {
    if rs != [] {
      SortBySimilarityPermutes(rs[..|rs| - 1]);
      InsertBySimilarityPermutes(rs[|rs| - 1], SortBySimilarity(rs[..|rs| - 1]));
      assert rs == rs[..|rs| - 1] + [rs[|rs| - 1]];
    }
  }

  lemma {:induction false} SortSorted(rs: seq<Match>)
    ensures SortedBySimilarity(SortBySimilarity(rs))
  {
    if rs != [] {
      SortSorted(rs[..|rs| - 1]);
      InsertSorted(rs[|rs| - 1], SortBySimilarity(rs[..|rs| - 1]));
    }
  }

  /** Every fuzzy result is a fuzzy match of a candidate that reached the
      threshold; the results are most similar first, at most max_results
      (none for a negative one cutting past the start) and at most one per
      candidate. */
  lemma FuzzyResultsHold(similarity: (string, string) -> real, source: string, candidates: seq<Entry>,
                         threshold: real, maxResults: int)
    ensures var rs := FuzzyResults(similarity, source, candidates, threshold, maxResults);
            |rs| <= |candidates| && (maxResults >= 0 ==> |rs| <= maxResults) &&
            SortedBySimilarity(rs) &&
            forall r :: r in rs ==> r.matchType == Fuzzy && r.similarity >= threshold &&
                                    exists c :: c in candidates && r == FuzzyMatch(c, similarity(source, c.source))
  {
    var hits := Hits(similarity, source, candidates, threshold);
    var sorted := SortBySimilarity(hits);
    var rs := FuzzyResults(similarity, source, candidates, threshold, maxResults);
    HitsLength(similarity, source, candidates, threshold);
    SortSorted(hits);
    SortedTake(sorted, |rs|);
    forall r | r in rs
      ensures r.matchType == Fuzzy && r.similarity >= threshold &&
              exists c :: c in candidates && r == FuzzyMatch(c, similarity(source, c.source))
    {
      FuzzyResultIsHit(similarity, source, candidates, threshold, maxResults, r);
      HitsHold(similarity, source, candidates, threshold, r);
    }
  }

  /** A prefix of a sorted list is sorted. */
  lemma SortedTake(rs: seq<Match>, n: nat)
    requires SortedBySimilarity(rs) && n <= |rs|
    ensures SortedBySimilarity(rs[..n])
  {
  }

  /** Every fuzzy result is one of the hits. */
  lemma FuzzyResultIsHit(similarity: (string, string) -> real, source: string, candidates: seq<Entry>,
                         threshold: real, maxResults: int, r: Match)
    requires r in FuzzyResults(similarity, source, candidates, threshold, maxResults)
    ensures r in Hits(similarity, source, candidates, threshold)
  {
    var hits := Hits(similarity, source, candidates, threshold);
    var sorted := SortBySimilarity(hits);
    assert r in sorted;
    SortBySimilarityPermutes(hits);
    assert r in multiset(sorted);
  }


  /** The loop of search over the candidates. */
  method CollectHits(similarity: (string, string) -> real, source: string, candidates: seq<Entry>,
                     threshold: real) returns (hits: seq<Match>)
    ensures hits == Hits(similarity, source, candidates, threshold)
  {
    hits := [];
    var i := 0;
    while i < |candidates|
      invariant 0 <= i <= |candidates|
      invariant hits == Hits(similarity, source, candidates[..i], threshold)
    {
      var s := similarity(source, candidates[i].source);
      if s >= threshold {
        hits := hits + [FuzzyMatch(candidates[i], s)];
      }
      assert candidates[..i + 1][..i] == candidates[..i];
      i := i + 1;
    }
    assert candidates[..i] == candidates;
  }

  /** What the fuzzy branch of search promises of the rows of the pool. */
  lemma SearchFacts(similarity: (string, string) -> real, source: string, store: map<string, Entry>,
                    domain: Option<string>, keys: seq<string>, threshold: real, maxResults: int)
    requires RankedByQuality(Pool(store, domain), keys, 100)
    ensures var rs := FuzzyResults(similarity, source, Rows(Pool(store, domain), keys), threshold, maxResults);
            |rs| <= 100 && (maxResults >= 0 ==> |rs| <= maxResults) && SortedBySimilarity(rs) &&
            forall r :: r in rs ==>
              r.matchType == Fuzzy && r.similarity >= threshold &&
              (Filters(domain) ==> r.domain == domain.value)
  {
    var pool := Pool(store, domain);
    var candidates := Rows(pool, keys);
    FuzzyResultsHold(similarity, source, candidates, threshold, maxResults);
    forall r | r in FuzzyResults(similarity, source, candidates, threshold, maxResults) && Filters(domain)
      ensures r.domain == domain.value
    {
      var c := FuzzyResultSource(similarity, source, candidates, threshold, maxResults, r);
      var k :| 0 <= k < |candidates| && candidates[k] == c;
      assert keys[k] in pool;
    }
  }

  /** The candidate a fuzzy result comes from. */
  lemma FuzzyResultSource(similarity: (string, string) -> real, source: string, candidates: seq<Entry>,
                          threshold: real, maxResults: int, r: Match) returns (c: Entry)
    requires r in FuzzyResults(similarity, source, candidates, threshold, maxResults)
    ensures c in candidates && r == FuzzyMatch(c, similarity(source, c.source))
  {
    FuzzyResultsHold(similarity, source, candidates, threshold, maxResults);
    c :| c in candidates && r == FuzzyMatch(c, similarity(source, c.source));
  }

  lemma {:induction false} HitsMonotone(similarity: (string, string) -> real, source: string,
                                        candidates: seq<Entry>, low: real, high: real)
    requires low <= high
    ensures |Hits(similarity, source, candidates, high)| <= |Hits(similarity, source, candidates, low)|
  {
    if candidates != [] {
      HitsMonotone(similarity, source, candidates[..|candidates| - 1], low, high);
    }
  }

  /** Raising the threshold never gives more fuzzy results. */
  lemma ThresholdMonotone(similarity: (string, string) -> real, source: string, candidates: seq<Entry>,
                          low: real, high: real, maxResults: int)
    requires low <= high
    ensures |FuzzyResults(similarity, source, candidates, high, maxResults)| <=
            |FuzzyResults(similarity, source, candidates, low, maxResults)|
  {
    var hl := Hits(similarity, source, candidates, low);
    var hh := Hits(similarity, source, candidates, high);
    HitsMonotone(similarity, source, candidates, low, high);
  }
}
