/** The control flow of translate_document: translation memory lookup,
    translation, QA and the write back to the memory. The analysis result
    and the translator are inputs; the memory and the QA checker are the
    model's own classes. */
module Pipeline {
  import opened Options
  import opened QaRules
  import opened QaChecker
  import opened TmManager
  import QaProperties

  /** `similarity_threshold=0.95`; max_results keeps its default. */
  const TmThreshold: real := 0.95
  const TmMaxResults: int := 5

  /** The two entries of the analysis dictionary the pipeline reads. */
  datatype Analysis = Analysis(domain: string, termMapping: map<string, string>)

  /** The keyword arguments both translator calls receive. */
  datatype TranslationRequest = TranslationRequest(sourceText: string, domain: string,
                                                   termMapping: map<string, string>,
                                                   documentType: string)

  /** The translator's dictionary: success with a translation, or an error. */
  datatype TranslationResult = TranslationOk(translation: string) | TranslationFailed(error: string)

  /** What translate_document returns. `FromMemory` has source "TM",
      `Translated` source "Claude AI"; a failure is the translator's own
      result, returned as it came. */
  datatype Outcome =
    | FromMemory(translation: string, analysis: Analysis, tmMatch: Match)
    | Failure(result: TranslationResult)
    | Translated(translation: string, analysis: Analysis, qaResult: QAResult,
                 translationResult: TranslationResult)

  /** The collaborator calls translate_document makes, in order. */
  datatype Call = SearchMemory | Translate(selfReview: bool) | CheckQa | AddToMemory

  /** `tm_matches and tm_matches[0]["similarity"] == 1.0` */
  predicate ExactHit(matches: seq<Match>) {
    |matches| > 0 && matches[0].similarity == 1.0
  }

  /** The quality score a passing translation is stored with. */
  function QualityScore(r: QAResult): int {
    if r.totalViolations == 0 then 10 else 7
  }

  /** A stored translation scores 10 exactly when QA found nothing, and 7
      exactly when QA found only minor or neutral violations. */
  lemma StoredQuality(vs: seq<Violation>)
    requires Verdict(vs).passed
    ensures QualityScore(Verdict(vs)) == 10 <==> vs == []
    ensures QualityScore(Verdict(vs)) == 7 <==>
            vs != [] && forall v :: v in vs ==> SeverityOf(v.rule) == Minor || SeverityOf(v.rule) == Neutral
  {
    QaProperties.VerdictIff(vs);
    forall v | v in vs ensures SeverityOf(v.rule) == Minor || SeverityOf(v.rule) == Neutral {
      assert SeverityOf(v.rule) != Critical && SeverityOf(v.rule) != Major;
    }
  }

  class TranslationPipeline {
    const tm: TranslationMemory
    const qaChecker: PatentQAChecker
    /** translator.translate and translator.translate_with_self_review. */
    const translate: TranslationRequest -> TranslationResult
    const translateWithSelfReview: TranslationRequest -> TranslationResult

    constructor (tm: TranslationMemory, qaChecker: PatentQAChecker,
                 translate: TranslationRequest -> TranslationResult,
                 translateWithSelfReview: TranslationRequest -> TranslationResult)
      ensures this.tm == tm && this.qaChecker == qaChecker
      ensures this.translate == translate && this.translateWithSelfReview == translateWithSelfReview
    {
      this.tm := tm;
      this.qaChecker := qaChecker;
      this.translate := translate;
      this.translateWithSelfReview := translateWithSelfReview;
    }

    /** The translator the `use_self_review` flag selects, applied to the request. */
    function Translation(useSelfReview: bool, req: TranslationRequest): TranslationResult
      reads this
    {
      if useSelfReview then translateWithSelfReview(req) else translate(req)
    }

    /** translate_document from the analysis on. `matches` is what the memory
        search returned and `calls` the collaborator calls made;
        `storageFails` is whether the memory's write raises. */
    method TranslateDocument(analysis: Analysis, sourceText: string, documentType: string,
                             useSelfReview: bool, saveToTm: bool, storageFails: bool)
      returns (outcome: Outcome, ghost matches: seq<Match>, ghost calls: seq<Call>)
      modifies tm, qaChecker
      // the search: an exact row first, otherwise near matches in the domain
      ensures tm.hash(sourceText) in old(tm.store) ==>
                matches == [ExactMatch(old(tm.store)[tm.hash(sourceText)])]
      ensures tm.hash(sourceText) !in old(tm.store) ==>
                |matches| <= TmMaxResults &&
                forall m :: m in matches ==>
                  m.matchType == Fuzzy && m.similarity >= TmThreshold &&
                  (analysis.domain != "" ==> m.domain == analysis.domain)
      // an exact hit answers from the memory; nothing else is called or changed
      ensures tm.hash(sourceText) in old(tm.store) ==>
                ExactHit(matches) && outcome.FromMemory? &&
                outcome.translation == old(tm.store)[tm.hash(sourceText)].target
      ensures ExactHit(matches) ==>
                outcome == FromMemory(matches[0].target, analysis, matches[0]) &&
                calls == [SearchMemory] &&
                tm.store == old(tm.store) && qaChecker.violations == old(qaChecker.violations)
      // otherwise the translator runs
      ensures !ExactHit(matches) ==>
                |calls| > 0 && calls[0] == SearchMemory &&
                Translated(analysis, sourceText, documentType, useSelfReview, saveToTm, storageFails,
                           old(tm.store), old(qaChecker.violations), tm.store, qaChecker.violations,
                           outcome, calls[1..])
    {
      var results;
      ghost var keys;
      results, keys := tm.Search(sourceText, Some(analysis.domain), TmThreshold, TmMaxResults);
      matches := results;
      if |results| > 0 && results[0].similarity == 1.0 {
        return FromMemory(results[0].target, analysis, results[0]), matches, [SearchMemory];
      }
      ghost var rest;
      outcome, rest := TranslateAndReview(analysis, sourceText, documentType, useSelfReview, saveToTm, storageFails);
      calls := [SearchMemory] + rest;
      assert calls[1..] == rest;
    }

    /** What happens after a search without an exact hit, from the state
        before to the state after: the translator runs; a failure comes back
        unchanged and nothing is stored; a translation is checked, and it is
        stored with its quality score exactly when saving is asked for and
        it passed QA. */
    ghost predicate Translated(analysis: Analysis, sourceText: string, documentType: string,
                               useSelfReview: bool, saveToTm: bool, storageFails: bool,
                               store0: map<string, Entry>, violations0: seq<Violation>,
                               store: map<string, Entry>, violations: seq<Violation>,
                               outcome: Outcome, calls: seq<Call>)
      reads this
    {
      var tr := Translation(useSelfReview, TranslationRequest(sourceText, analysis.domain,
                                                              analysis.termMapping, documentType));
      (tr.TranslationFailed? ==>
         outcome == Failure(tr) && calls == [Translate(useSelfReview)] &&
         store == store0 && violations == violations0) &&
      (tr.TranslationOk? ==>
         var vs := AllViolations(sourceText, tr.translation, analysis.termMapping, documentType,
                                 qaChecker.forbiddenTranslations);
         var qa := Verdict(vs);
         violations == vs &&
         outcome == Outcome.Translated(tr.translation, analysis, qa, tr) &&
         (saveToTm && qa.passed ==>
            calls == [Translate(useSelfReview), CheckQa, AddToMemory] &&
            store == if storageFails then store0
                     else store0[tm.hash(sourceText) :=
                            Entry(sourceText, tr.translation, analysis.domain, documentType, QualityScore(qa))]) &&
         (!(saveToTm && qa.passed) ==>
            calls == [Translate(useSelfReview), CheckQa] && store == store0))
    }

    /** Steps 3 to 5 of translate_document. */
    method TranslateAndReview(analysis: Analysis, sourceText: string, documentType: string,
                              useSelfReview: bool, saveToTm: bool, storageFails: bool)
      returns (outcome: Outcome, ghost calls: seq<Call>)
      modifies tm, qaChecker
      ensures Translated(analysis, sourceText, documentType, useSelfReview, saveToTm, storageFails,
                         old(tm.store), old(qaChecker.violations), tm.store, qaChecker.violations,
                         outcome, calls)
    {
      var req := TranslationRequest(sourceText, analysis.domain, analysis.termMapping, documentType);
      // the memory and the checker are two objects: writing one leaves the other alone
      assert (tm as object) != (qaChecker as object);
      var translationResult;
      if useSelfReview {
        translationResult := translateWithSelfReview(req);
      } else {
        translationResult := translate(req);
      }
      calls := [Translate(useSelfReview)];
      if translationResult.TranslationFailed? {
        return Failure(translationResult), calls;
      }
      var translation := translationResult.translation;
      var qaResult := qaChecker.CheckAll(sourceText, translation, analysis.termMapping, documentType);
      calls := [Translate(useSelfReview), CheckQa];
      if saveToTm && qaResult.passed {
        var qualityScore := if qaResult.totalViolations == 0 then 10 else 7;
        var _ := tm.Add(sourceText, translation, analysis.domain, documentType, qualityScore, storageFails);
        calls := [Translate(useSelfReview), CheckQa, AddToMemory];
      }
      outcome := Outcome.Translated(translation, analysis, qaResult, translationResult);
    }
  }
}
