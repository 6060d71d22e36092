// PatentQAChecker of src/qa_checker.py: the ten checks as methods that build
// their violation lists with the loops of the source, `check_all`, which
// resets and refills the `violations` field and tallies the severities, and
// `generate_report`, which renders a result line by line.
module QaChecker {
  import opened Options
  import opened Text
  import opened QaRules

  // ---------------------------------------------------------------------------
  // The text of a report (generate_report), as a specification.

  function Rule60(): string {
    Repeat('=', 60)
  }

  function ReportHeader(result: QAResult): seq<string> {
    var c := result.severityCounts;
    [Rule60(), "📋 특허 번역 QA 리포트 (QA_CHECKLIST.md 기반)", Rule60(), "",
     "## 요약",
     "총 위반 사항: " + NatToString(result.totalViolations) + "개",
     "통과 여부: " + (if result.passed then "✅ PASS" else "❌ FAIL"),
     "",
     "## 심각도별 집계",
     "  CRITICAL (치명적): " + NatToString(c.critical) + "개 - 자동 실패",
     "  MAJOR (중대): " + NatToString(c.major) + "개 - 품질 저하",
     "  MINOR (경미): " + NatToString(c.minor) + "개 - 개선 권장",
     "  NEUTRAL (중립): " + NatToString(c.neutral) + "개 - 참고용",
     "",
     "## 실행된 QA 검사 항목 (10개)",
     "  1. ✓ 형식 검사 (온도, 퍼센트, 서열번호, 청구항 마침표)",
     "  2. ✓ 용어 일관성 검사 (금지 용어)",
     "  3. ✓ 선행사 '상기' 검사",
     "  4. ✓ 청구항 구조 검사 (명사구 종결)",
     "  5. ✓ 구두점 검사 (콜론, 세미콜론 오용)",
     "  6. ✓ 도메인별 오역 검사 (substrate, detach, distal/proximal end 등)",
     "  7. ✓ 표준 용어 검사 (embodiment, aspect, subject matter)",
     "  8. ✓ 수치 표현 검사 (more than one, less than two)",
     "  9. ✓ 전환구 검사 (adapted to 등)",
     " 10. ✓ 청구항 명사구 구조 상세 검사",
     "",
     "📖 전체 가이드라인: config/QA_CHECKLIST.md 참조",
     ""]
  }

  /** The block of the i-th violation (numbered from 1), rendered from its dictionary form:
      four lines, the `수정` line only when there is a correction, and a blank line. */
  function ViolationBlock(i: nat, d: ViolationDict): (b: seq<string>)
    ensures |b| == if d.correct != "" then 6 else 5
    ensures d.correct != "" ==> b[4] == "수정: " + d.correct
    ensures b[|b| - 1] == ""
  {
    ["### [" + NatToString(i) + "] " + d.ruleId + " (" + ToUpper(d.severity) + ")",
     "설명: " + d.description,
     "위치: " + d.location,
     "발견: " + d.found] +
    (if d.correct != "" then ["수정: " + d.correct] else []) +
    [""]
  }

  /** The blocks of the first k violations. */
  function BlocksUpTo(vs: seq<ViolationDict>, k: nat): seq<string>
    requires k <= |vs|
  {
    if k == 0 then [] else BlocksUpTo(vs, k - 1) + ViolationBlock(k, vs[k - 1])
  }

  const DetailsHeading: seq<string> := ["## 상세 위반 사항", ""]

  function ReportLines(result: QAResult): seq<string> {
    LaidOut(ReportHeader(result), result.violations)
  }

  /** A header, the details section when there are violations, and the closing rule. */
  function LaidOut(header: seq<string>, vs: seq<ViolationDict>): seq<string> {
    header + (if vs == [] then [] else DetailsHeading + BlocksUpTo(vs, |vs|)) + [Rule60()]
  }

  function Report(result: QAResult): string {
    Join(ReportLines(result), "\n")
  }

  // ---------------------------------------------------------------------------
  // The loops of the checks.

  /** One `re.finditer` pass (or a loop over a short list): the violation reported
      at each position 0 .. n-1, in order. */
  method ScanPositions(n: nat, at: nat -> Option<Violation>) returns (vs: seq<Violation>)
    ensures vs == Collect(n, at)
  {
    vs := [];
    var p := 0;
    while p < n
      invariant 0 <= p <= n
      invariant vs == Collect(p, at)
    {
      vs := vs + OptList(at(p));
      p := p + 1;
    }
  }

  /** A loop over a rule table whose body is a scan of one entry. */
  method ScanTable(n: nat, width: nat -> nat, at: nat -> nat -> Option<Violation>) returns (vs: seq<Violation>)
    ensures vs == TableScan(n, width, at)
  {
    vs := [];
    var i := 0;
    while i < n
      invariant 0 <= i <= n
      invariant vs == Gather(i, ScanGroupFn(width, at))
    {
      var found := ScanPositions(width(i), at(i));
      vs := vs + found;
      i := i + 1;
    }
  }

  // ---------------------------------------------------------------------------

  class PatentQAChecker {
    /** The configured `forbidden_translations` table. */
    const forbiddenTranslations: ForbiddenTable
    /** `self.violations`: the list of the last check_all. */
    var violations: seq<Violation>

    constructor (forbidden: ForbiddenTable)
      ensures forbiddenTranslations == forbidden && violations == []
    {
      forbiddenTranslations := forbidden;
      violations := [];
    }

    /** check_formatting */
    method CheckFormatting(text: string, documentType: string) returns (vs: seq<Violation>)
      ensures vs == FormattingViolations(text, documentType)
    {
      var temperatures := ScanPositions(|text|, UnitAtFn(text, TemperatureRule));
      var percents := ScanPositions(|text|, UnitAtFn(text, PercentRule));
      var ending := ClaimEndingViolations(text, documentType);
      var seqIds := ScanPositions(|text|, SeqIdAtFn(text));
      vs := temperatures + percents + ending + seqIds;
    }

    /** check_terminology: one violation per forbidden rendering found in the text. */
    method CheckTerminology(text: string, termMapping: map<string, string>) returns (vs: seq<Violation>)
      ensures vs == TerminologyViolations(text, termMapping, forbiddenTranslations)
    {
      vs := ScanTable(|forbiddenTranslations|, ForbiddenWidthFn(forbiddenTranslations),
                      ForbiddenAtFn(text, termMapping, forbiddenTranslations));
    }

    /** check_antecedent_basis */
    method CheckAntecedentBasis(source: string, translation: string) returns (vs: seq<Violation>)
      ensures vs == AntecedentViolations(source, translation)
    {
      vs := ScanPositions(|source|, AntecedentAtFn(source, translation));
    }

    /** check_claim_structure */
    method CheckClaimStructure(text: string, documentType: string) returns (vs: seq<Violation>)
      ensures vs == ClaimStructureViolations(text, documentType)
    {
      vs := ClaimStructureViolations(text, documentType);
    }

    /** check_punctuation */
    method CheckPunctuation(text: string, documentType: string) returns (vs: seq<Violation>)
      ensures vs == PunctuationViolations(text, documentType)
    {
      var colons := [];
      if documentType == ClaimType {
        colons := ScanPositions(|text|, ColonAtFn(text));
      }
      vs := colons + SemicolonViolations(text);
    }

    /** check_domain_terms */
    method CheckDomainTerms(source: string, translation: string) returns (vs: seq<Violation>)
      ensures vs == DomainViolations(source, translation)
    {
      vs := ScanTable(|DomainMistranslations|, DomainWidthFn(source, DomainMistranslations),
                      DomainAtFn(translation, DomainMistranslations));
    }

    /** check_standard_terminology */
    method CheckStandardTerminology(translation: string) returns (vs: seq<Violation>)
      ensures vs == StandardTermViolations(translation)
    {
      var embodiments := ScanPositions(|ForbiddenEmbodiments|, EmbodimentAtFn(translation));
      vs := embodiments + if Contains(translation, "주제") then [SubjectMatterViolation] else [];
    }

    /** check_numerical_expressions */
    method CheckNumericalExpressions(source: string, translation: string) returns (vs: seq<Violation>)
      ensures vs == NumericalViolations(source, translation)
    {
      vs := NumericalViolations(source, translation);
    }

    /** check_transitional_phrases */
    method CheckTransitionalPhrases(source: string, translation: string) returns (vs: seq<Violation>)
      ensures vs == TransitionalViolations(source, translation)
    {
      vs := TransitionalViolations(source, translation);
    }

    /** check_claim_noun_phrase_structure */
    method CheckClaimNounPhraseStructure(text: string, documentType: string) returns (vs: seq<Violation>)
      ensures vs == ClaimNounPhraseViolations(text, documentType)
    {
      vs := ClaimNounPhraseViolations(text, documentType);
    }

    /** The four severity tallies of check_all. */
    method CountSeverities(vs: seq<Violation>) returns (counts: SeverityCounts)
      ensures counts == CountsOf(vs)
    {
      counts := SeverityCounts(0, 0, 0, 0);
      var k := 0;
      while k < |vs|
        invariant 0 <= k <= |vs|
        invariant counts == CountsOf(vs[..k])
      {
        assert vs[..k + 1][..k] == vs[..k];
        match SeverityOf(vs[k].rule) {
          case Critical => counts := counts.(critical := counts.critical + 1);
          case Major => counts := counts.(major := counts.major + 1);
          case Minor => counts := counts.(minor := counts.minor + 1);
          case Neutral => counts := counts.(neutral := counts.neutral + 1);
        }
        k := k + 1;
      }
      assert vs[..k] == vs;
    }

    /** check_all: the checks in their fixed order, then the severity tally and the verdict.
        Violations of earlier calls are discarded. */
    method CheckAll(source: string, translation: string, termMapping: map<string, string>,
                    documentType: string) returns (result: QAResult)
      modifies this
      ensures violations == AllViolations(source, translation, termMapping, documentType, forbiddenTranslations)
      ensures result == Verdict(violations)
    {
      var formatting := CheckFormatting(translation, documentType);
      var terminology := CheckTerminology(translation, termMapping);
      var antecedent := CheckAntecedentBasis(source, translation);
      var structure := [];
      if documentType == ClaimType {
        structure := CheckClaimStructure(translation, documentType);
      }
      var punctuation := CheckPunctuation(translation, documentType);
      var domain := CheckDomainTerms(source, translation);
      var standard := CheckStandardTerminology(translation);
      var numerical := CheckNumericalExpressions(source, translation);
      var transitional := CheckTransitionalPhrases(source, translation);
      var nounPhrase := [];
      if documentType == ClaimType {
        nounPhrase := CheckClaimNounPhraseStructure(translation, documentType);
      }
      violations := formatting + terminology + antecedent + structure + punctuation + domain +
                    standard + numerical + transitional + nounPhrase;
      var counts := CountSeverities(violations);
      result := QAResult(|violations|, counts, Dicts(violations), counts.critical == 0 && counts.major == 0);
    }

    /** generate_report */
    method GenerateReport(result: QAResult) returns (report: string)
      ensures report == Report(result)
    {
      var vs := result.violations;
      var details := [];
      if vs != [] {
        var blocks := RenderViolations(vs);
        details := DetailsHeading + blocks;
      }
      var header := ReportHeader(result);
      var lines := header + details + [Rule60()];
      assert lines == LaidOut(header, vs);
      report := Join(lines, "\n");
    }

    /** The loop of generate_report over the violations, numbered from 1. */
    method RenderViolations(vs: seq<ViolationDict>) returns (blocks: seq<string>)
      ensures blocks == BlocksUpTo(vs, |vs|)
    {
      blocks := [];
      var i := 0;
      while i < |vs|
        invariant 0 <= i <= |vs|
        invariant blocks == BlocksUpTo(vs, i)
      {
        blocks := blocks + ViolationBlock(i + 1, vs[i]);
        i := i + 1;
      }
    }
  }
}
