// The QA rule engine of src/qa_checker.py, as specification functions.
//
// Every `check_*` of PatentQAChecker is defined here as a function of its
// inputs and of the rule tables; the class in qa_checker.dfy computes the
// same lists with the loops of the source and is proved equal to them.
//
// A `re.finditer` pass is modelled as a scan over start positions: for each
// pattern the positions at which the pattern matches are exactly the starts
// of the matches `finditer` reports (no match can start inside another one),
// so the violations of one pass are those of the positions 0, 1, ... in order.
module QaRules {
  import opened Options
  import opened Text

  datatype Severity = Critical | Major | Minor | Neutral

  /** The rule a violation reports. The source's `rule_id`, `severity` and
      `description` are all determined by the rule (RuleId, SeverityOf and
      Description); the rules with a parameter carry what the source puts into
      those texts. */
  datatype Rule =
    | FormatTemperature
    | FormatPercentage
    | ClaimEnding
    | SeqIdFormat
    | ForbiddenTerm(engTerm: string, forbiddenKr: string)
    | AntecedentBasis
    | ClaimNounPhraseEnding
    | ColonAfterParticle
    | SemicolonAtListEnd
    | DomainMistranslation(term: string, context: string)
    | EmbodimentForbiddenTerm(forbiddenKr: string)
    | SubjectMatterMistranslation
    | MoreThanOneMistranslation
    | LessThanTwoMistranslation
    | AdaptedToMistranslation
    | MethodClaimPreamble
    | MethodClaimEndingStructure

  function RuleId(r: Rule): string {
    match r
    case FormatTemperature => "format_temperature"
    case FormatPercentage => "format_percentage"
    case ClaimEnding => "claim_ending"
    case SeqIdFormat => "seq_id_format"
    case ForbiddenTerm(eng, _) => "forbidden_term_" + eng
    case AntecedentBasis => "antecedent_basis"
    case ClaimNounPhraseEnding => "claim_noun_phrase_ending"
    case ColonAfterParticle => "colon_after_particle"
    case SemicolonAtListEnd => "semicolon_at_list_end"
    case DomainMistranslation(term, _) => "domain_mistranslation_" + ReplaceChar(term, ' ', '_')
    case EmbodimentForbiddenTerm(_) => "embodiment_forbidden_term"
    case SubjectMatterMistranslation => "subject_matter_mistranslation"
    case MoreThanOneMistranslation => "more_than_one_mistranslation"
    case LessThanTwoMistranslation => "less_than_two_mistranslation"
    case AdaptedToMistranslation => "adapted_to_mistranslation"
    case MethodClaimPreamble => "method_claim_preamble"
    case MethodClaimEndingStructure => "method_claim_ending_structure"
  }

  function SeverityOf(r: Rule): Severity {
    match r
    case FormatTemperature => Minor
    case FormatPercentage => Minor
    case ClaimEnding => Major
    case SeqIdFormat => Minor
    case ForbiddenTerm(_, _) => Major
    case AntecedentBasis => Major
    case ClaimNounPhraseEnding => Major
    case ColonAfterParticle => Major
    case SemicolonAtListEnd => Minor
    case DomainMistranslation(_, _) => Major
    case EmbodimentForbiddenTerm(_) => Minor
    case SubjectMatterMistranslation => Minor
    case MoreThanOneMistranslation => Major
    case LessThanTwoMistranslation => Major
    case AdaptedToMistranslation => Critical
    case MethodClaimPreamble => Major
    case MethodClaimEndingStructure => Minor
  }

  function Description(r: Rule): string {
    match r
    case FormatTemperature => "온도 표기 시 숫자와 단위 사이에 공백 필요"
    case FormatPercentage => "퍼센트 표기 시 숫자와 기호 사이에 공백 필요"
    case ClaimEnding => "청구항은 마침표로 종결되어야 함"
    case SeqIdFormat => "서열번호 형식: '서열번호 숫자'"
    case ForbiddenTerm(_, kr) => "금지 용어 사용: " + kr
    case AntecedentBasis => "선행사 있는 명사에 '상기' 누락"
    case ClaimNounPhraseEnding => "청구항이 완전한 명사구로 종결되지 않음"
    case ColonAfterParticle => "청구항에서 조사 뒤 콜론 사용 금지"
    case SemicolonAtListEnd => "목록 마지막 항목 뒤 세미콜론 금지"
    case DomainMistranslation(term, context) => "'" + term + "' 오역: " + context + " 문맥"
    case EmbodimentForbiddenTerm(kr) => "'embodiment' 번역 시 '" + kr + "' 사용 지양"
    case SubjectMatterMistranslation => "'subject matter'를 '주제'로 번역 지양"
    case MoreThanOneMistranslation => "'more than one' 오역"
    case LessThanTwoMistranslation => "'less than two' 오역"
    case AdaptedToMistranslation => "'adapted to' 오역 - 권리범위 영향"
    case MethodClaimPreamble => "방법 청구항은 '~방법으로서,' 또는 '~방법에 있어서,'로 시작 권장"
    case MethodClaimEndingStructure => "방법 청구항 종결 구조 확인 필요"
  }

  /** The number (1 to 10) of the check of check_all that reports a rule. */
  function CheckOf(r: Rule): nat {
    match r
    case FormatTemperature => 1
    case FormatPercentage => 1
    case ClaimEnding => 1
    case SeqIdFormat => 1
    case ForbiddenTerm(_, _) => 2
    case AntecedentBasis => 3
    case ClaimNounPhraseEnding => 4
    case ColonAfterParticle => 5
    case SemicolonAtListEnd => 5
    case DomainMistranslation(_, _) => 6
    case EmbodimentForbiddenTerm(_) => 7
    case SubjectMatterMistranslation => 7
    case MoreThanOneMistranslation => 8
    case LessThanTwoMistranslation => 8
    case AdaptedToMistranslation => 9
    case MethodClaimPreamble => 10
    case MethodClaimEndingStructure => 10
  }

  /** Every violation in `vs` is of a rule of check `k`. */
  predicate From(vs: seq<Violation>, k: nat) {
    forall v | v in vs :: CheckOf(v.rule) == k
  }

  /** The rules only the claim-specific parts of the checks report. */
  predicate ClaimOnly(r: Rule) {
    r == ClaimEnding || r == ClaimNounPhraseEnding || r == ColonAfterParticle ||
    r == MethodClaimPreamble || r == MethodClaimEndingStructure
  }

  lemma RuleFrom(vs: seq<Violation>, r: Rule)
    requires forall v | v in vs :: v.rule == r
    ensures From(vs, CheckOf(r))
  {
  }

  lemma AppendFrom(a: seq<Violation>, b: seq<Violation>, k: nat)
    requires From(a, k) && From(b, k)
    ensures From(a + b, k)
  {
  }

  /** Where a violation was found; LocationText gives the source's text for it. */
  datatype Location =
    | Position(pos: nat)
    | FoundText(text: string)
    | FoundEither(first: string, second: string)
    | SentenceEnd
    | ClaimStart
    | ClaimEnd

  function LocationText(l: Location): string {
    match l
    case Position(p) => "위치: " + NatToString(p)
    case FoundText(s) => "'" + s + "' 발견"
    case FoundEither(a, b) => "'" + a + "' 또는 '" + b + "' 발견"
    case SentenceEnd => "문장 끝"
    case ClaimStart => "청구항 시작 부분"
    case ClaimEnd => "청구항 끝"
  }

  /** QAViolation */
  datatype Violation = Violation(rule: Rule, location: Location, found: string, correct: string)

  /** The severity strings of the source. */
  function SeverityValue(s: Severity): string {
    match s
    case Critical => "critical"
    case Major => "major"
    case Minor => "minor"
    case Neutral => "neutral"
  }

  /** The dictionary of QAViolation.to_dict. */
  datatype ViolationDict = ViolationDict(ruleId: string, severity: string, description: string,
                                         location: string, found: string, correct: string)

  function ToDict(v: Violation): (d: ViolationDict)
    ensures d.ruleId == RuleId(v.rule) && d.severity == SeverityValue(SeverityOf(v.rule))
    ensures d.found == v.found && d.correct == v.correct
  {
    ViolationDict(RuleId(v.rule), SeverityValue(SeverityOf(v.rule)), Description(v.rule),
                  LocationText(v.location), v.found, v.correct)
  }

  const ClaimType: string := "claim"

  // ---------------------------------------------------------------------------
  // One scan: the violations a rule reports at positions 0 .. n-1, in order.

  /** The violation found at one position, as a list of zero or one elements. */
  function OptList(o: Option<Violation>): (r: seq<Violation>)
    ensures |r| <= 1
  {
    match o
    case Some(v) => [v]
    case None => []
  }

  function Collect(n: nat, at: nat -> Option<Violation>): (r: seq<Violation>)
    ensures |r| <= n
  {
    if n == 0 then [] else Collect(n - 1, at) + OptList(at(n - 1))
  }

  lemma {:induction false} CollectMember(n: nat, at: nat -> Option<Violation>, v: Violation)
    ensures v in Collect(n, at) <==> exists i :: 0 <= i < n && at(i) == Some(v)
  {
    if n > 0 {
      CollectMember(n - 1, at, v);
    }
  }

  /** The lists of groups 0 .. n-1, concatenated (a loop over a rule table). */
  function Gather(n: nat, group: nat -> seq<Violation>): seq<Violation> {
    if n == 0 then [] else Gather(n - 1, group) + group(n - 1)
  }

  lemma {:induction false} GatherMember(n: nat, group: nat -> seq<Violation>, v: Violation)
    ensures v in Gather(n, group) <==> exists i :: 0 <= i < n && v in group(i)
  {
    if n > 0 {
      GatherMember(n - 1, group, v);
    }
  }

  /** A loop over a rule table whose body is a scan: entry i is scanned at the
      positions 0 .. width(i)-1 with `at(i)`. */
  function ScanGroupFn(width: nat -> nat, at: nat -> nat -> Option<Violation>): nat -> seq<Violation> {
    (i: nat) => Collect(width(i), at(i))
  }

  function TableScan(n: nat, width: nat -> nat, at: nat -> nat -> Option<Violation>): seq<Violation> {
    Gather(n, ScanGroupFn(width, at))
  }

  lemma TableScanMember(n: nat, width: nat -> nat, at: nat -> nat -> Option<Violation>, v: Violation)
    ensures v in TableScan(n, width, at) <==> exists i, j :: 0 <= i < n && 0 <= j < width(i) && at(i)(j) == Some(v)
  {
    GatherMember(n, ScanGroupFn(width, at), v);
    forall i | 0 <= i < n ensures v in ScanGroupFn(width, at)(i) <==> exists j :: 0 <= j < width(i) && at(i)(j) == Some(v) {
      CollectMember(width(i), at(i), v);
    }
  }

  /** Every violation of a scan satisfies `ok` when the violation of every position does. */
  lemma {:induction false} CollectAll(n: nat, at: nat -> Option<Violation>, ok: Violation -> bool)
    requires forall i: nat :: i < n && at(i).Some? ==> ok(at(i).value)
    ensures forall v | v in Collect(n, at) :: ok(v)
  {
    if n > 0 {
      CollectAll(n - 1, at, ok);
    }
  }

  lemma {:induction false} TableScanAll(n: nat, width: nat -> nat, at: nat -> nat -> Option<Violation>,
                                        ok: Violation -> bool)
    requires forall i: nat, j: nat :: i < n && j < width(i) && at(i)(j).Some? ==> ok(at(i)(j).value)
    ensures forall v | v in TableScan(n, width, at) :: ok(v)
  {
    if n > 0 {
      TableScanAll(n - 1, width, at, ok);
      CollectAll(width(n - 1), at(n - 1), ok);
    }
  }

  lemma {:induction false} CollectNone(n: nat, at: nat -> Option<Violation>)
    requires forall i: nat :: i < n ==> at(i) == None
    ensures Collect(n, at) == []
  {
    if n > 0 {
      CollectNone(n - 1, at);
    }
  }

  /** The positions below n at which `at` reports v. */
  function Hits(n: nat, at: nat -> Option<Violation>, v: Violation): set<nat> {
    set i: nat | i < n && at(i) == Some(v)
  }

  /** How many times the scan of the first n positions holds v. */
  function Tally(n: nat, at: nat -> Option<Violation>, v: Violation): nat {
    multiset(Collect(n, at))[v]
  }

  /** A scan holds v once for every position that reports it. */
  lemma CollectCount(n: nat, at: nat -> Option<Violation>, v: Violation)
    ensures multiset(Collect(n, at))[v] == |Hits(n, at, v)|
  {
    TallyCount(n, at, v);
  }

  lemma {:induction false} TallyCount(n: nat, at: nat -> Option<Violation>, v: Violation)
    ensures Tally(n, at, v) == |Hits(n, at, v)|
  {
    if n == 0 {
      assert Hits(0, at, v) == {};
    } else {
      var i: nat := n - 1;
      TallyCount(i, at, v);
      TallyStep(n, at, v);
      HitsStep(n, at, v);
    }
  }

  lemma TallyStep(n: nat, at: nat -> Option<Violation>, v: Violation)
    requires n > 0
    ensures Tally(n, at, v) == Tally(n - 1, at, v) + if at(n - 1) == Some(v) then 1 else 0
  {
    MultisetAppend(Collect(n - 1, at), OptList(at(n - 1)), v);
    OptListCount(at(n - 1), v);
  }

  lemma MultisetAppend<T>(a: seq<T>, b: seq<T>, x: T)
    ensures multiset(a + b)[x] == multiset(a)[x] + multiset(b)[x]
  {
  }

  lemma OptListCount(o: Option<Violation>, v: Violation)
    ensures multiset(OptList(o))[v] == if o == Some(v) then 1 else 0
  {
  }

  lemma HitsStep(n: nat, at: nat -> Option<Violation>, v: Violation)
    requires n > 0
    ensures |Hits(n, at, v)| == |Hits(n - 1, at, v)| + if at(n - 1) == Some(v) then 1 else 0
  {
    var before := Hits(n - 1, at, v);
    if at(n - 1) == Some(v) {
      assert Hits(n, at, v) == before + {n - 1};
      assert n - 1 !in before;
    } else {
      assert Hits(n, at, v) == before;
    }
  }

  /** The (entry, position) pairs of a table scan that report v. */
  function PairHits(n: nat, width: nat -> nat, at: nat -> nat -> Option<Violation>, v: Violation)
    : set<(nat, nat)>
  {
    set i: nat, j: nat | i < n && j < width(i) && at(i)(j) == Some(v) :: (i, j)
  }

  function RowHits(i: nat, m: nat, at: nat -> Option<Violation>, v: Violation): set<(nat, nat)> {
    set j: nat | j < m && at(j) == Some(v) :: (i, j)
  }

  lemma {:induction false} RowHitsCount(i: nat, m: nat, at: nat -> Option<Violation>, v: Violation)
    ensures |RowHits(i, m, at, v)| == |Hits(m, at, v)|
  {
    if m == 0 {
      assert RowHits(i, 0, at, v) == {};
      assert Hits(0, at, v) == {};
    } else {
      RowHitsCount(i, m - 1, at, v);
      RowHitsStep(i, m, at, v);
      HitsStep(m, at, v);
    }
  }

  lemma RowHitsStep(i: nat, m: nat, at: nat -> Option<Violation>, v: Violation)
    requires m > 0
    ensures |RowHits(i, m, at, v)| == |RowHits(i, m - 1, at, v)| + if at(m - 1) == Some(v) then 1 else 0
  {
    if at(m - 1) == Some(v) {
      RowHitsGrow(i, m, at, v);
    } else {
      assert RowHits(i, m, at, v) == RowHits(i, m - 1, at, v);
    }
  }

  lemma RowHitsGrow(i: nat, m: nat, at: nat -> Option<Violation>, v: Violation)
    requires m > 0 && at(m - 1) == Some(v)
    ensures |RowHits(i, m, at, v)| == |RowHits(i, m - 1, at, v)| + 1
  {
    var before := RowHits(i, m - 1, at, v);
    assert RowHits(i, m, at, v) == before + {(i, m - 1)};
    assert (i, m - 1) !in before;
  }

  /** Entry i's scan holds v once for every pair (i, j) that reports it. */
  lemma RowCount(i: nat, width: nat -> nat, at: nat -> nat -> Option<Violation>, v: Violation)
    ensures multiset(Collect(width(i), at(i)))[v] == |RowHits(i, width(i), at(i), v)|
  {
    CollectCount(width(i), at(i), v);
    RowHitsCount(i, width(i), at(i), v);
  }

  /** A table scan holds v once for every (entry, position) pair that reports it. */
  lemma {:induction false} TableScanCount(n: nat, width: nat -> nat, at: nat -> nat -> Option<Violation>,
                                          v: Violation)
    ensures multiset(TableScan(n, width, at))[v] == |PairHits(n, width, at, v)|
  {
    if n == 0 {
      assert TableScan(0, width, at) == [];
      assert PairHits(0, width, at, v) == {};
    } else {
      var i: nat := n - 1;
      TableScanCount(i, width, at, v);
      RowCount(i, width, at, v);
      TableScanStep(n, i, width, at, v);
      PairHitsStep(n, i, width, at, v);
    }
  }

  lemma TableScanStep(n: nat, i: nat, width: nat -> nat, at: nat -> nat -> Option<Violation>, v: Violation)
    requires n == i + 1
    ensures multiset(TableScan(n, width, at))[v] ==
            multiset(TableScan(i, width, at))[v] + multiset(Collect(width(i), at(i)))[v]
  {
    assert TableScan(n, width, at) == TableScan(i, width, at) + Collect(width(i), at(i));
  }

  lemma PairHitsStep(n: nat, i: nat, width: nat -> nat, at: nat -> nat -> Option<Violation>, v: Violation)
    requires n == i + 1
    ensures |PairHits(n, width, at, v)| == |PairHits(i, width, at, v)| + |RowHits(i, width(i), at(i), v)|
  {
    var before := PairHits(i, width, at, v);
    var row := RowHits(i, width(i), at(i), v);
    assert PairHits(n, width, at, v) == before + row;
    assert before * row == {};
  }

  // ---------------------------------------------------------------------------
  // Check 1: formatting (check_formatting)

  /** The temperature and percent rules differ only in the unit and the rule reported. */
  datatype UnitRule = UnitRule(unit: char, rule: Rule)

  const TemperatureRule: UnitRule := UnitRule('℃', FormatTemperature)
  const PercentRule: UnitRule := UnitRule('%', FormatPercentage)

  /** `(\d+)\s*<unit>` matches at p: p starts a run of digits, whitespace may follow,
      then the unit. A match never starts in the middle of a digit run, because the
      attempt at the start of the run has the same outcome and is made first. */
  predicate UnitMatchAt(s: string, p: nat, unit: char) {
    p < |s| && IsDigit(s[p]) && (p == 0 || !IsDigit(s[p - 1])) &&
    var w := SpaceRunEnd(s, DigitRunEnd(s, p));
    w < |s| && s[w] == unit
  }

  /** The match is accepted only when exactly one whitespace character separates
      the digits from the unit (`\d+\s<unit>`). */
  predicate UnitWellSpaced(s: string, p: nat, unit: char)
    requires UnitMatchAt(s, p, unit)
  {
    var d := DigitRunEnd(s, p);
    SpaceRunEnd(s, d) == d + 1
  }

  function UnitAt(s: string, rule: UnitRule, p: nat): (o: Option<Violation>)
    ensures o.Some? <==> UnitMatchAt(s, p, rule.unit) && !UnitWellSpaced(s, p, rule.unit)
    ensures o.Some? ==> o.value.rule == rule.rule && o.value.location == Position(p)
    ensures o.Some? ==> OccursAt(s, o.value.found, p) && o.value.found != [] &&
                        o.value.found[|o.value.found| - 1] == rule.unit
    // the whole match is reported, and the suggestion is its digits, one space and the unit
    ensures o.Some? ==> var d := DigitRunEnd(s, p);
                        o.value.found == s[p..SpaceRunEnd(s, d) + 1] &&
                        o.value.correct == s[p..d] + " " + [rule.unit]
  {
    if UnitMatchAt(s, p, rule.unit) && !UnitWellSpaced(s, p, rule.unit) then
      var d := DigitRunEnd(s, p);
      var w := SpaceRunEnd(s, d);
      Some(Violation(rule.rule, Position(p), s[p..w + 1], s[p..d] + " " + [rule.unit]))
    else None
  }

  function UnitAtFn(s: string, rule: UnitRule): nat -> Option<Violation> {
    (p: nat) => UnitAt(s, rule, p)
  }

  function UnitViolations(s: string, rule: UnitRule): (r: seq<Violation>)
    ensures forall v | v in r :: v.rule == rule.rule
  {
    CollectAll(|s|, UnitAtFn(s, rule), (v: Violation) => v.rule == rule.rule);
    Collect(|s|, UnitAtFn(s, rule))
  }

  /** `\s?`, `:?`, `\s?` in this order match all of x. */
  predicate SpaceColonSpace(x: string) {
    var a := if |x| > 0 && IsSpace(x[0]) then 1 else 0;
    var y := x[a..];
    var c := if |y| > 0 && y[0] == ':' then 1 else 0;
    var z := y[c..];
    |z| == 0 || (|z| == 1 && IsSpace(z[0]))
  }

  /** The end of the run of whitespace and colons that starts at p. */
  function SeparatorRunEnd(s: string, p: nat): (e: nat)
    requires p <= |s|
    ensures p <= e <= |s|
    ensures forall k :: p <= k < e ==> IsSpace(s[k]) || s[k] == ':'
    ensures e == |s| || !(IsSpace(s[e]) || s[e] == ':')
    decreases |s| - p
  {
    if p < |s| && (IsSpace(s[p]) || s[p] == ':') then SeparatorRunEnd(s, p + 1) else p
  }

  /** Where `번호` starts when `서열\s?번호` is tried at p. */
  function SeqNumberWord(s: string, p: nat): nat
    requires OccursAt(s, "서열", p)
  {
    if p + 2 < |s| && IsSpace(s[p + 2]) then p + 3 else p + 2
  }

  /** `서열\s?번호\s?:?\s?(\d+)` matches at p. The digits must follow the separators
      directly, so they start where the run of whitespace and colons ends. */
  predicate SeqIdMatchAt(s: string, p: nat) {
    OccursAt(s, "서열", p) &&
    var q := SeqNumberWord(s, p);
    OccursAt(s, "번호", q) &&
    var k := SeparatorRunEnd(s, q + 2);
    k < |s| && IsDigit(s[k]) && SpaceColonSpace(s[q + 2..k])
  }

  /** Start of the digit group of a sequence-number match. */
  function SeqIdDigitsStart(s: string, p: nat): (k: nat)
    requires SeqIdMatchAt(s, p)
    ensures p + 4 <= k < |s|
  {
    SeparatorRunEnd(s, SeqNumberWord(s, p) + 2)
  }

  /** The canonical spelling `서열번호 <digits>` of the match at p. */
  function SeqIdCanonical(s: string, p: nat): (c: string)
    requires SeqIdMatchAt(s, p)
    ensures StartsWith(c, "서열번호 ")
  {
    var k := SeqIdDigitsStart(s, p);
    "서열번호 " + s[k..DigitRunEnd(s, k)]
  }

  /** The text of the match at p: from `서열` to the end of its digits. */
  function SeqIdMatch(s: string, p: nat): (m: string)
    requires SeqIdMatchAt(s, p)
    ensures OccursAt(s, m, p)
  {
    s[p..DigitRunEnd(s, SeqIdDigitsStart(s, p))]
  }

  /** A match is reported exactly when it is not already spelled canonically; the
      suggestion is the canonical spelling. */
  function SeqIdAt(s: string, p: nat): (o: Option<Violation>)
    ensures o.Some? <==> SeqIdMatchAt(s, p) && SeqIdMatch(s, p) != SeqIdCanonical(s, p)
    ensures o.Some? ==> o.value.rule == SeqIdFormat && o.value.location == Position(p)
    ensures o.Some? ==> o.value.found == SeqIdMatch(s, p) && o.value.correct == SeqIdCanonical(s, p)
    ensures o.Some? ==> o.value.found != o.value.correct && StartsWith(o.value.correct, "서열번호 ")
  {
    if SeqIdMatchAt(s, p) then
      var k := SeqIdDigitsStart(s, p);
      var d := DigitRunEnd(s, k);
      if s[p..d] != "서열번호 " + s[k..d] then
        Some(Violation(SeqIdFormat, Position(p), s[p..d], "서열번호 " + s[k..d]))
      else None
    else None
  }

  function SeqIdAtFn(s: string): nat -> Option<Violation> {
    (p: nat) => SeqIdAt(s, p)
  }

  function SeqIdViolations(s: string): (r: seq<Violation>)
    ensures forall v | v in r :: v.rule == SeqIdFormat && v.found != v.correct
  {
    CollectAll(|s|, SeqIdAtFn(s), (v: Violation) => v.rule == SeqIdFormat && v.found != v.correct);
    Collect(|s|, SeqIdAtFn(s))
  }

  /** A claim whose stripped text does not end with a period is reported, with its last 20 characters. */
  function ClaimEndingViolations(text: string, documentType: string): (r: seq<Violation>)
    ensures r != [] <==> documentType == ClaimType && !EndsWith(Strip(text), ".")
    ensures forall v | v in r :: v.rule == ClaimEnding && v.found == Last(Strip(text), 20)
    ensures |r| <= 1
  {
    if documentType == ClaimType && !EndsWith(Strip(text), ".") then
      [Violation(ClaimEnding, SentenceEnd, Last(Strip(text), 20), "... (마침표 추가)")]
    else []
  }

  /** check_formatting: temperatures, percentages, the claim's final period, sequence numbers.
      The claim-ending rule is reported by the final-period test and by nothing else. */
  function FormattingViolations(text: string, documentType: string): (r: seq<Violation>)
    ensures From(r, 1)
    ensures forall v | v in r && v.rule == ClaimEnding :: v in ClaimEndingViolations(text, documentType)
    ensures forall v | v in ClaimEndingViolations(text, documentType) :: v in r
  {
    var temperatures := UnitViolations(text, TemperatureRule);
    var percentages := UnitViolations(text, PercentRule);
    var ending := ClaimEndingViolations(text, documentType);
    var seqIds := SeqIdViolations(text);
    RuleFrom(temperatures, FormatTemperature);
    RuleFrom(percentages, FormatPercentage);
    RuleFrom(ending, ClaimEnding);
    RuleFrom(seqIds, SeqIdFormat);
    AppendFrom(temperatures, percentages, 1);
    AppendFrom(temperatures + percentages, ending, 1);
    AppendFrom(temperatures + percentages + ending, seqIds, 1);
    temperatures + percentages + ending + seqIds
  }

  // ---------------------------------------------------------------------------
  // Check 2: forbidden terms (check_terminology)

  /** The configured `forbidden_translations`: English term and its forbidden renderings,
      in the order of the configuration. */
  type ForbiddenTable = seq<(string, seq<string>)>

  const UnresolvedTerm: string := "확인 필요"

  function ForbiddenAt(text: string, termMapping: map<string, string>, entry: (string, seq<string>), j: nat)
    : (o: Option<Violation>)
    ensures o.Some? <==> j < |entry.1| && Contains(text, entry.1[j])
    ensures o.Some? ==> o.value.rule == ForbiddenTerm(entry.0, o.value.found) && o.value.found == entry.1[j]
  {
    if j < |entry.1| && Contains(text, entry.1[j]) then
      var kr := entry.1[j];
      Some(Violation(ForbiddenTerm(entry.0, kr), FoundText(kr), kr,
                     if entry.0 in termMapping then termMapping[entry.0] else UnresolvedTerm))
    else None
  }

  function ForbiddenWidthFn(forbidden: ForbiddenTable): nat -> nat {
    (i: nat) => if i < |forbidden| then |forbidden[i].1| else 0
  }

  function ForbiddenAtFn(text: string, termMapping: map<string, string>, forbidden: ForbiddenTable)
    : nat -> nat -> Option<Violation>
  {
    (i: nat) => (j: nat) => if i < |forbidden| then ForbiddenAt(text, termMapping, forbidden[i], j) else None
  }

  /** check_terminology: for each entry in table order, each forbidden rendering in
      its order that occurs in the text. */
  function TerminologyViolations(text: string, termMapping: map<string, string>, forbidden: ForbiddenTable)
    : (r: seq<Violation>)
    ensures forall v | v in r :: v.rule.ForbiddenTerm? && Contains(text, v.found)
    ensures From(r, 2)
  {
    var r := TableScan(|forbidden|, ForbiddenWidthFn(forbidden), ForbiddenAtFn(text, termMapping, forbidden));
    ForbiddenScanAll(text, termMapping, forbidden);
    ForbiddenFrom(r);
    r
  }

  lemma ForbiddenScanAll(text: string, termMapping: map<string, string>, forbidden: ForbiddenTable)
    ensures forall v | v in TableScan(|forbidden|, ForbiddenWidthFn(forbidden), ForbiddenAtFn(text, termMapping, forbidden))
              :: v.rule.ForbiddenTerm? && Contains(text, v.found)
  {
    TableScanAll(|forbidden|, ForbiddenWidthFn(forbidden), ForbiddenAtFn(text, termMapping, forbidden),
                 (v: Violation) => v.rule.ForbiddenTerm? && Contains(text, v.found));
  }

  lemma ForbiddenFrom(vs: seq<Violation>)
    requires forall v | v in vs :: v.rule.ForbiddenTerm?
    ensures From(vs, 2)
  {
  }

  // ---------------------------------------------------------------------------
  // Check 3: antecedent basis (check_antecedent_basis)

  /** The alternatives of `the\s+(compound|...)` in order, with their Korean nouns. */
  const AntecedentNouns: seq<(string, string)> := [
    ("compound", "화합물"), ("device", "장치"), ("method", "방법"),
    ("system", "시스템"), ("apparatus", "장치"), ("composition", "조성물")
  ]

  function FirstNounAt(l: string, e: nat, j: nat): (r: Option<nat>)
    ensures r.Some? ==> j <= r.value < |AntecedentNouns| && OccursAt(l, AntecedentNouns[r.value].0, e)
    ensures r.Some? ==> forall m :: j <= m < r.value ==> !OccursAt(l, AntecedentNouns[m].0, e)
    ensures r.None? ==> forall m :: j <= m < |AntecedentNouns| ==> !OccursAt(l, AntecedentNouns[m].0, e)
    decreases |AntecedentNouns| - j
  {
    if j >= |AntecedentNouns| then None
    else if OccursAt(l, AntecedentNouns[j].0, e) then Some(j)
    else FirstNounAt(l, e, j + 1)
  }

  /** `the\s+(noun)` matches at p, ignoring ASCII case; the result is the noun's index. */
  function TheNounAt(source: string, p: nat): (r: Option<nat>)
    ensures r.Some? ==> r.value < |AntecedentNouns|
  {
    var l := ToLower(source);
    if OccursAt(l, "the", p) then
      var e := SpaceRunEnd(l, p + 3);
      if e > p + 3 then FirstNounAt(l, e, 0) else None
    else None
  }

  /** `the\s+(noun)` matches at p iff TheNounAt finds a noun, and the noun found
      is the first alternative that occurs after the whitespace. */
  lemma TheNounMatches(source: string, p: nat)
    ensures var l := ToLower(source);
            TheNounAt(source, p).Some? <==>
              OccursAt(l, "the", p) && SpaceRunEnd(l, p + 3) > p + 3 &&
              exists m :: 0 <= m < |AntecedentNouns| && OccursAt(l, AntecedentNouns[m].0, SpaceRunEnd(l, p + 3))
    ensures var l := ToLower(source);
            TheNounAt(source, p).Some? ==>
              var e := SpaceRunEnd(l, p + 3);
              var j := TheNounAt(source, p).value;
              OccursAt(l, AntecedentNouns[j].0, e) &&
              forall m :: 0 <= m < j ==> !OccursAt(l, AntecedentNouns[m].0, e)
  {
  }

  /** `상기\s+<noun>` matches at q. */
  predicate SanggiAt(translation: string, noun: string, q: nat) {
    OccursAt(translation, "상기", q) &&
    var e := SpaceRunEnd(translation, q + 2);
    e > q + 2 && OccursAt(translation, noun, e)
  }

  predicate HasSanggi(translation: string, noun: string) {
    exists q | 0 <= q <= |translation| :: SanggiAt(translation, noun, q)
  }

  function AntecedentViolation(noun: string): Violation {
    Violation(AntecedentBasis, FoundText(noun), noun, "상기 " + noun)
  }

  function AntecedentAt(source: string, translation: string, p: nat): (o: Option<Violation>)
    ensures o.Some? ==> o.value.rule == AntecedentBasis && Contains(translation, o.value.found) &&
                        !HasSanggi(translation, o.value.found)
  {
    match TheNounAt(source, p)
    case None => None
    case Some(j) =>
      var noun := AntecedentNouns[j].1;
      if Contains(translation, noun) && !HasSanggi(translation, noun) then Some(AntecedentViolation(noun))
      else None
  }

  function AntecedentAtFn(source: string, translation: string): nat -> Option<Violation> {
    (p: nat) => AntecedentAt(source, translation, p)
  }

  function AntecedentViolations(source: string, translation: string): (r: seq<Violation>)
    ensures forall v | v in r :: v.rule == AntecedentBasis && Contains(translation, v.found) &&
                                 !HasSanggi(translation, v.found)
    ensures From(r, 3)
  {
    var r := Collect(|source|, AntecedentAtFn(source, translation));
    CollectAll(|source|, AntecedentAtFn(source, translation),
               (v: Violation) => v.rule == AntecedentBasis && Contains(translation, v.found) &&
                                 !HasSanggi(translation, v.found));
    RuleFrom(r, AntecedentBasis);
    r
  }

  // ---------------------------------------------------------------------------
  // Check 4: claim ends with a noun phrase (check_claim_structure)

  const ClaimEndings: seq<string> := ["방법.", "장치.", "시스템.", "화합물.", "조성물.", "키트.", "용도."]

  predicate HasClaimEnding(text: string) {
    exists e | e in ClaimEndings :: EndsWith(Strip(text), e)
  }

  /** A claim is reported when its stripped text ends with none of the noun endings. */
  function ClaimStructureViolations(text: string, documentType: string): (r: seq<Violation>)
    ensures r != [] <==> documentType == ClaimType && !HasClaimEnding(text)
    ensures forall v | v in r :: v.rule == ClaimNounPhraseEnding
    ensures From(r, 4)
  {
    if documentType != ClaimType || HasClaimEnding(text) then []
    else [Violation(ClaimNounPhraseEnding, SentenceEnd, Last(Strip(text), 30), "... 방법. / ... 장치. 등")]
  }

  // ---------------------------------------------------------------------------
  // Check 5: punctuation (check_punctuation)

  /** The alternatives of `(로서|에서|에|를|을|이|가)\s*:` in order. */
  const Particles: seq<string> := ["로서", "에서", "에", "를", "을", "이", "가"]

  predicate ColonAfter(s: string, p: nat)
    requires p <= |s|
  {
    var e := SpaceRunEnd(s, p);
    e < |s| && s[e] == ':'
  }

  /** Alternative j of the colon pattern matches at p: the particle, whitespace, a colon. */
  predicate ParticleColonAt(s: string, p: nat, j: nat)
    requires j < |Particles|
  {
    OccursAt(s, Particles[j], p) && ColonAfter(s, p + |Particles[j]|)
  }

  /** The first alternative from j on that matches at p, as the regex engine tries them. */
  function FirstParticleColonAt(s: string, p: nat, j: nat): (r: Option<nat>)
    ensures r.Some? ==> j <= r.value < |Particles| && ParticleColonAt(s, p, r.value)
    ensures r.Some? ==> forall m :: j <= m < r.value ==> !ParticleColonAt(s, p, m)
    ensures r.None? ==> forall m :: j <= m < |Particles| ==> !ParticleColonAt(s, p, m)
    decreases |Particles| - j
  {
    if j >= |Particles| then None
    else if ParticleColonAt(s, p, j) then Some(j)
    else FirstParticleColonAt(s, p, j + 1)
  }

  /** The text `particle\s*:` matched at `p`: it starts at `p` and ends with the colon. */
  function ColonMatch(s: string, p: nat, j: nat): (found: string)
    requires j < |Particles| && ParticleColonAt(s, p, j)
    ensures OccursAt(s, found, p) && found != [] && found[|found| - 1] == ':'
  {
    s[p..SpaceRunEnd(s, p + |Particles[j]|) + 1]
  }

  /** A report at p exactly when some alternative matches there; it carries the text
      matched by the first such alternative and suggests that particle with a comma. */
  function ColonAt(s: string, p: nat): (o: Option<Violation>)
    ensures o.Some? <==> exists j | 0 <= j < |Particles| :: ParticleColonAt(s, p, j)
    ensures o.Some? ==> exists j | 0 <= j < |Particles| ::
                          ParticleColonAt(s, p, j) && (forall m | 0 <= m < j :: !ParticleColonAt(s, p, m)) &&
                          o.value.found == s[p..SpaceRunEnd(s, p + |Particles[j]|) + 1] &&
                          o.value.correct == Particles[j] + ","
    ensures o.Some? ==> o.value.rule == ColonAfterParticle && o.value.location == Position(p)
    ensures o.Some? ==> OccursAt(s, o.value.found, p) && o.value.found != [] &&
                        o.value.found[|o.value.found| - 1] == ':'
  {
    match FirstParticleColonAt(s, p, 0)
    case None => None
    case Some(j) => Some(Violation(ColonAfterParticle, Position(p), ColonMatch(s, p, j), Particles[j] + ","))
  }

  function ColonAtFn(s: string): nat -> Option<Violation> {
    (p: nat) => ColonAt(s, p)
  }

  const SemicolonViolation: Violation :=
    Violation(SemicolonAtListEnd, SentenceEnd, "... ;", "... (세미콜론 제거)")

  /** Every colon that follows a particle. */
  function ColonViolations(text: string): (r: seq<Violation>)
    ensures forall v | v in r :: v.rule == ColonAfterParticle
  {
    CollectAll(|text|, ColonAtFn(text), (v: Violation) => v.rule == ColonAfterParticle);
    Collect(|text|, ColonAtFn(text))
  }

  /** `re.search(r';\s*$', text.strip())`: the stripped text ends with a semicolon. */
  function SemicolonViolations(text: string): (r: seq<Violation>)
    ensures r != [] <==> EndsWith(Strip(text), ";")
    ensures forall v | v in r :: v == SemicolonViolation
  {
    if EndsWith(Strip(text), ";") then [SemicolonViolation] else []
  }

  /** check_punctuation: colons after particles (claims only), then the final semicolon. */
  function PunctuationViolations(text: string, documentType: string): (r: seq<Violation>)
    ensures From(r, 5)
    ensures documentType != ClaimType ==> forall v | v in r :: v.rule == SemicolonAtListEnd
  {
    var colons := if documentType == ClaimType then ColonViolations(text) else [];
    var semicolon := SemicolonViolations(text);
    RuleFrom(colons, ColonAfterParticle);
    RuleFrom(semicolon, SemicolonAtListEnd);
    AppendFrom(colons, semicolon, 5);
    colons + semicolon
  }

  // ---------------------------------------------------------------------------
  // Check 6: domain mistranslations (check_domain_terms)

  /** One entry of `domain_mistranslations`; `context` is "" where the entry has none. */
  datatype DomainRule = DomainRule(term: string, wrong: seq<string>, context: string, correct: string)

  const DomainMistranslations: seq<DomainRule> := [
    DomainRule("substrate", ["기판"], "화학", "기재"),
    DomainRule("detach", ["탈착하다"], "", "탈리하다"),
    DomainRule("fault", ["오류"], "기계/전기", "고장"),
    DomainRule("source", ["공급원"], "방사선", "선원"),
    DomainRule("communication", ["통신"], "유체", "연통"),
    DomainRule("distal end", ["말단"], "", "원위 단부"),
    DomainRule("proximal end", ["말단"], "", "근위 단부"),
    DomainRule("intake", ["흡기구"], "액체", "흡입구"),
    DomainRule("ground", ["지면"], "전기", "접지"),
    DomainRule("recite", ["암송", "열거"], "", "기술하다"),
    DomainRule("incubate", ["배양"], "", "정치"),
    DomainRule("adapted to", ["적합화된"], "", "~하도록 구성된")
  ]

  function DomainWrongAt(translation: string, rule: DomainRule, j: nat): (o: Option<Violation>)
    ensures o.Some? <==> j < |rule.wrong| && Contains(translation, rule.wrong[j])
    ensures o.Some? ==> o.value.rule == DomainMistranslation(rule.term, rule.context) &&
                        o.value.found == rule.wrong[j] && o.value.correct == rule.correct
  {
    if j < |rule.wrong| && Contains(translation, rule.wrong[j]) then
      Some(Violation(DomainMistranslation(rule.term, rule.context), FoundText(rule.wrong[j]),
                     rule.wrong[j], rule.correct))
    else None
  }

  /** The wrong renderings of a rule are looked for only when its English term is in
      the source: otherwise the rule's scan has no positions. */
  function DomainWidthFn(source: string, rules: seq<DomainRule>): nat -> nat {
    (i: nat) => if i < |rules| && Contains(ToLower(source), ToLower(rules[i].term)) then |rules[i].wrong| else 0
  }

  function DomainAtFn(translation: string, rules: seq<DomainRule>): nat -> nat -> Option<Violation> {
    (i: nat) => (j: nat) => if i < |rules| then DomainWrongAt(translation, rules[i], j) else None
  }

  /** The violations of a table of rules, in table order. */
  function DomainTableViolations(source: string, translation: string, rules: seq<DomainRule>)
    : (r: seq<Violation>)
    ensures forall v | v in r :: v.rule.DomainMistranslation? && Contains(translation, v.found)
  {
    TableScanAll(|rules|, DomainWidthFn(source, rules), DomainAtFn(translation, rules),
                 (v: Violation) => v.rule.DomainMistranslation? && Contains(translation, v.found));
    TableScan(|rules|, DomainWidthFn(source, rules), DomainAtFn(translation, rules))
  }

  lemma DomainFrom(vs: seq<Violation>)
    requires forall v | v in vs :: v.rule.DomainMistranslation?
    ensures From(vs, 6)
  {
  }

  /** check_domain_terms: the table above, in its order. */
  function DomainViolations(source: string, translation: string): (r: seq<Violation>)
    ensures From(r, 6)
  {
    var r := DomainTableViolations(source, translation, DomainMistranslations);
    DomainFrom(r);
    r
  }

  // ---------------------------------------------------------------------------
  // Check 7: standard terminology (check_standard_terminology)

  const ForbiddenEmbodiments: seq<string> := ["실시태양", "실시예", "구현예"]

  function EmbodimentViolation(f: string): Violation {
    Violation(EmbodimentForbiddenTerm(f), FoundText(f), f, "실시형태 (권장)")
  }

  function EmbodimentAt(translation: string, j: nat): (o: Option<Violation>)
    ensures o.Some? <==> j < |ForbiddenEmbodiments| && Contains(translation, ForbiddenEmbodiments[j])
    ensures o.Some? ==> o.value.rule == EmbodimentForbiddenTerm(o.value.found)
  {
    if j < |ForbiddenEmbodiments| && Contains(translation, ForbiddenEmbodiments[j]) then
      Some(EmbodimentViolation(ForbiddenEmbodiments[j]))
    else None
  }

  function EmbodimentAtFn(translation: string): nat -> Option<Violation> {
    (j: nat) => EmbodimentAt(translation, j)
  }

  const SubjectMatterViolation: Violation :=
    Violation(SubjectMatterMistranslation, FoundText("주제"), "주제", "대상물 또는 대상")

  /** check_standard_terminology: each forbidden embodiment term is reported exactly when
      it occurs, `주제` is reported exactly when it occurs, and nothing else is reported. */
  function StandardTermViolations(translation: string): (r: seq<Violation>)
    ensures From(r, 7)
    ensures forall v | v in r :: Contains(translation, v.found)
    ensures forall f | f in ForbiddenEmbodiments :: EmbodimentViolation(f) in r <==> Contains(translation, f)
    ensures SubjectMatterViolation in r <==> Contains(translation, "주제")
    ensures forall v | v in r :: v == SubjectMatterViolation ||
                                 exists f | f in ForbiddenEmbodiments :: v == EmbodimentViolation(f)
  {
    var embodiments := Collect(|ForbiddenEmbodiments|, EmbodimentAtFn(translation));
    var subject := if Contains(translation, "주제") then [SubjectMatterViolation] else [];
    EmbodimentScan(translation);
    EmbodimentFrom(embodiments);
    RuleFrom(subject, SubjectMatterMistranslation);
    AppendFrom(embodiments, subject, 7);
    embodiments + subject
  }

  /** The embodiment scan reports each forbidden term that occurs, and only those. */
  lemma EmbodimentScan(translation: string)
    ensures var embodiments := Collect(|ForbiddenEmbodiments|, EmbodimentAtFn(translation));
            (forall f | f in ForbiddenEmbodiments :: EmbodimentViolation(f) in embodiments <==> Contains(translation, f)) &&
            SubjectMatterViolation !in embodiments &&
            forall v | v in embodiments :: exists f | f in ForbiddenEmbodiments :: v == EmbodimentViolation(f)
  {
    var at := EmbodimentAtFn(translation);
    var embodiments := Collect(|ForbiddenEmbodiments|, at);
    forall f | f in ForbiddenEmbodiments
      ensures EmbodimentViolation(f) in embodiments <==> Contains(translation, f)
    {
      CollectMember(|ForbiddenEmbodiments|, at, EmbodimentViolation(f));
      var j :| 0 <= j < |ForbiddenEmbodiments| && ForbiddenEmbodiments[j] == f;
      assert at(j) == Some(EmbodimentViolation(f)) <==> Contains(translation, f);
    }
    forall v | v in embodiments
      ensures v != SubjectMatterViolation && exists f | f in ForbiddenEmbodiments :: v == EmbodimentViolation(f)
    {
      CollectMember(|ForbiddenEmbodiments|, at, v);
      var j :| 0 <= j < |ForbiddenEmbodiments| && at(j) == Some(v);
      assert v == EmbodimentViolation(ForbiddenEmbodiments[j]);
    }
  }

  lemma EmbodimentFrom(vs: seq<Violation>)
    requires forall v | v in vs :: v.rule.EmbodimentForbiddenTerm?
    ensures From(vs, 7)
  {
  }

  // ---------------------------------------------------------------------------
  // Check 8: numerical expressions (check_numerical_expressions)

  const MoreThanOneViolation: Violation :=
    Violation(MoreThanOneMistranslation, FoundText("하나 이상"), "하나(1개) 이상", "둘(2개) 이상 또는 하나(1개) 초과")
  const LessThanTwoViolation: Violation :=
    Violation(LessThanTwoMistranslation, FoundText("둘 이하"), "둘(2개) 이하", "하나(1개) 이하 또는 둘(2개) 미만")

  predicate MoreThanOneMistranslated(source: string, translation: string) {
    Contains(ToLower(source), "more than one") &&
    (Contains(translation, "하나(1개) 이상") || Contains(translation, "하나 이상"))
  }

  predicate LessThanTwoMistranslated(source: string, translation: string) {
    Contains(ToLower(source), "less than two") &&
    (Contains(translation, "둘(2개) 이하") || Contains(translation, "둘 이하"))
  }

  function NumericalViolations(source: string, translation: string): (r: seq<Violation>)
    ensures MoreThanOneViolation in r <==> MoreThanOneMistranslated(source, translation)
    ensures LessThanTwoViolation in r <==> LessThanTwoMistranslated(source, translation)
    ensures |r| <= 2
    ensures From(r, 8)
  {
    (if MoreThanOneMistranslated(source, translation) then [MoreThanOneViolation] else []) +
    (if LessThanTwoMistranslated(source, translation) then [LessThanTwoViolation] else [])
  }

  // ---------------------------------------------------------------------------
  // Check 9: transitional phrases (check_transitional_phrases)

  const AdaptedToViolation: Violation :=
    Violation(AdaptedToMistranslation, FoundEither("적합화된", "적응된"), "적합화된/적응된", "~하도록 구성된")

  predicate AdaptedToMistranslated(source: string, translation: string) {
    Contains(ToLower(source), "adapted to") &&
    (Contains(translation, "적합화된") || Contains(translation, "적응된"))
  }

  function TransitionalViolations(source: string, translation: string): (r: seq<Violation>)
    ensures r == [] || r == [AdaptedToViolation]
    ensures r != [] <==> AdaptedToMistranslated(source, translation)
    ensures From(r, 9)
  {
    if AdaptedToMistranslated(source, translation) then [AdaptedToViolation] else []
  }

  // ---------------------------------------------------------------------------
  // Check 10: method-claim structure (check_claim_noun_phrase_structure)

  /** `방법에\s*있어서,` matches at q. */
  predicate EoIsseoseoAt(text: string, q: nat) {
    OccursAt(text, "방법에", q) && OccursAt(text, "있어서,", SpaceRunEnd(text, q + 3))
  }

  /** `방법에\s*있어서,` occurs in text. */
  predicate HasMethodEoIsseoseo(text: string) {
    exists q: nat | q <= |text| :: EoIsseoseoAt(text, q)
  }

  predicate HasMethodPreamble(text: string) {
    Contains(text, "방법으로서,") || HasMethodEoIsseoseo(text)
  }

  /** The words of the four accepted endings `<word>\s*방법\.$`; only the
      `특성화되는` pattern has the optional comma `,?`. */
  const MethodEndingWords: seq<(string, bool)> :=
    [("포함하는", false), ("특성화되는", true), ("이루어지는", false), ("구성되는", false)]

  /** `w` occurs in `t` ending at index `e`. */
  predicate EndsAt(t: string, w: string, e: int) {
    e >= |w| && OccursAt(t, w, e - |w|)
  }

  /** `<word>,?\s*방법\.` matches the text before index `end`. */
  predicate MethodPatternEndsAt(t: string, end: nat, word: string, comma: bool) {
    end >= 3 && OccursAt(t, "방법.", end - 3) &&
    var u := SpaceRunStart(t, end - 3);
    EndsAt(t, word, u) || (comma && u >= 1 && t[u - 1] == ',' && EndsAt(t, word, u - 1))
  }

  /** One of the four patterns matches at an end of the text; like Python's `$`,
      an end is the end of the text or the position before a final newline. */
  predicate HasProperMethodEnding(text: string) {
    exists w | w in MethodEndingWords ::
      MethodPatternEndsAt(text, |text|, w.0, w.1) ||
      (|text| >= 1 && text[|text| - 1] == '\n' && MethodPatternEndsAt(text, |text| - 1, w.0, w.1))
  }

  function MethodPreambleViolation(text: string): Violation {
    Violation(MethodClaimPreamble, ClaimStart, Take(text, 50) + "...", "~방법으로서, ... 또는 ~방법에 있어서, ...")
  }

  function MethodEndingViolation(text: string): Violation {
    Violation(MethodClaimEndingStructure, ClaimEnd, Last(text, 50), "~를 포함하는 방법. 또는 ~특성화되는, 방법.")
  }

  /** A method claim is reported when it has neither method preamble. */
  function MethodPreambleViolations(text: string): (r: seq<Violation>)
    ensures r != [] <==> !HasMethodPreamble(text)
    ensures From(r, 10)
  {
    PreambleReportedWhen(!HasMethodPreamble(text), text)
  }

  function PreambleReportedWhen(bad: bool, text: string): (r: seq<Violation>)
    ensures r != [] <==> bad
    ensures From(r, 10)
  {
    if bad then [MethodPreambleViolation(text)] else []
  }

  /** The ending test fires when the stripped text ends with `방법.` but none of the
      accepted ending patterns matches. */
  predicate MethodEndingMisformed(text: string) {
    !HasProperMethodEnding(text) && EndsWith(Strip(text), "방법.")
  }

  function MethodEndingViolations(text: string): (r: seq<Violation>)
    ensures r != [] <==> MethodEndingMisformed(text)
    ensures From(r, 10)
  {
    EndingReportedWhen(MethodEndingMisformed(text), text)
  }

  function EndingReportedWhen(bad: bool, text: string): (r: seq<Violation>)
    ensures r != [] <==> bad
    ensures From(r, 10)
  {
    if bad then [MethodEndingViolation(text)] else []
  }

  /** check_claim_noun_phrase_structure: only claims that mention `방법` are examined. */
  function ClaimNounPhraseViolations(text: string, documentType: string): (r: seq<Violation>)
    ensures From(r, 10)
    ensures r != [] ==> documentType == ClaimType && Contains(text, "방법")
  {
    if documentType != ClaimType || !Contains(text, "방법") then [] else MethodClaimViolations(text)
  }

  /** The preamble test, then the ending test, of a method claim. */
  function MethodClaimViolations(text: string): (r: seq<Violation>)
    ensures From(r, 10)
  {
    AppendFrom(MethodPreambleViolations(text), MethodEndingViolations(text), 10);
    MethodPreambleViolations(text) + MethodEndingViolations(text)
  }

  // ---------------------------------------------------------------------------
  // check_all: the ten checks in their fixed order, and the verdict.

  function AllViolations(source: string, translation: string, termMapping: map<string, string>,
                         documentType: string, forbidden: ForbiddenTable): seq<Violation>
  {
    var claim := documentType == ClaimType;
    Concatenated(FormattingViolations(translation, documentType),
                 TerminologyViolations(translation, termMapping, forbidden),
                 AntecedentViolations(source, translation),
                 if claim then ClaimStructureViolations(translation, documentType) else [],
                 PunctuationViolations(translation, documentType),
                 DomainViolations(source, translation),
                 StandardTermViolations(translation),
                 NumericalViolations(source, translation),
                 TransitionalViolations(source, translation),
                 if claim then ClaimNounPhraseViolations(translation, documentType) else [])
  }

  /** The lists of checks 1 to 10, concatenated in that order. */
  function Concatenated(p1: seq<Violation>, p2: seq<Violation>, p3: seq<Violation>, p4: seq<Violation>,
                        p5: seq<Violation>, p6: seq<Violation>, p7: seq<Violation>, p8: seq<Violation>,
                        p9: seq<Violation>, p10: seq<Violation>): seq<Violation>
  {
    p1 + p2 + p3 + p4 + p5 + p6 + p7 + p8 + p9 + p10
  }

  /** `severity_counts` */
  datatype SeverityCounts = SeverityCounts(critical: nat, major: nat, minor: nat, neutral: nat)

  function CountSeverity(vs: seq<Violation>, s: Severity): nat {
    if vs == [] then 0
    else CountSeverity(vs[..|vs| - 1], s) + (if SeverityOf(vs[|vs| - 1].rule) == s then 1 else 0)
  }

  function CountsOf(vs: seq<Violation>): SeverityCounts {
    SeverityCounts(CountSeverity(vs, Critical), CountSeverity(vs, Major),
                   CountSeverity(vs, Minor), CountSeverity(vs, Neutral))
  }

  /** The dictionary check_all returns: the violations appear as their dictionaries. */
  datatype QAResult = QAResult(totalViolations: nat, severityCounts: SeverityCounts,
                               violations: seq<ViolationDict>, passed: bool)

  /** `[v.to_dict() for v in vs]` */
  function Dicts(vs: seq<Violation>): (ds: seq<ViolationDict>)
    ensures |ds| == |vs|
  {
    seq(|vs|, i requires 0 <= i < |vs| => ToDict(vs[i]))
  }

  function Verdict(vs: seq<Violation>): QAResult {
    var counts := CountsOf(vs);
    QAResult(|vs|, counts, Dicts(vs), counts.critical == 0 && counts.major == 0)
  }
}
