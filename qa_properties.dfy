// What the QA engine of src/qa_checker.py promises about its results: which
// check reports which rule and in what order, when a claim's ending is
// reported, how the severity tally decides the verdict, what each scanning
// check reports, that the suggested corrections pass their own rule, and how
// the report lays out the violations.
module QaProperties {
  import opened Options
  import opened Text
  import opened QaRules
  import opened QaChecker

  predicate UpTo(vs: seq<Violation>, k: nat) {
    forall v :: v in vs ==> CheckOf(v.rule) <= k
  }

  predicate InCheckOrder(vs: seq<Violation>) {
    forall i, j :: 0 <= i < j < |vs| ==> CheckOf(vs[i].rule) <= CheckOf(vs[j].rule)
  }

  lemma AppendInOrder(a: seq<Violation>, b: seq<Violation>, k: nat)
    requires InCheckOrder(a) && UpTo(a, k) && From(b, k)
    ensures InCheckOrder(a + b) && UpTo(a + b, k)
  {
    var c := a + b;
    forall i, j | 0 <= i < j < |c| ensures CheckOf(c[i].rule) <= CheckOf(c[j].rule) {
      if j < |a| {
      } else if i < |a| {
        assert c[i] in a && c[j] == b[j - |a|] && c[j] in b;
      } else {
        assert c[i] == b[i - |a|] && c[i] in b && c[j] == b[j - |a|] && c[j] in b;
      }
    }
  }

  /** Concatenating the lists of checks 1 to 10 keeps the check order. */
  lemma PartsInCheckOrder(p1: seq<Violation>, p2: seq<Violation>, p3: seq<Violation>, p4: seq<Violation>,
                          p5: seq<Violation>, p6: seq<Violation>, p7: seq<Violation>, p8: seq<Violation>,
                          p9: seq<Violation>, p10: seq<Violation>)
    requires From(p1, 1) && From(p2, 2) && From(p3, 3) && From(p4, 4) && From(p5, 5)
    requires From(p6, 6) && From(p7, 7) && From(p8, 8) && From(p9, 9) && From(p10, 10)
    ensures InCheckOrder(Concatenated(p1, p2, p3, p4, p5, p6, p7, p8, p9, p10))
  {
    assert InCheckOrder(p1) by {
      forall i, j | 0 <= i < j < |p1| ensures CheckOf(p1[i].rule) <= CheckOf(p1[j].rule) {
        assert p1[i] in p1 && p1[j] in p1;
      }
    }
    AppendInOrder(p1, p2, 2);
    AppendInOrder(p1 + p2, p3, 3);
    AppendInOrder(p1 + p2 + p3, p4, 4);
    AppendInOrder(p1 + p2 + p3 + p4, p5, 5);
    AppendInOrder(p1 + p2 + p3 + p4 + p5, p6, 6);
    AppendInOrder(p1 + p2 + p3 + p4 + p5 + p6, p7, 7);
    AppendInOrder(p1 + p2 + p3 + p4 + p5 + p6 + p7, p8, 8);
    AppendInOrder(p1 + p2 + p3 + p4 + p5 + p6 + p7 + p8, p9, 9);
    AppendInOrder(p1 + p2 + p3 + p4 + p5 + p6 + p7 + p8 + p9, p10, 10);
  }

  /** check_all lists the violations check by check, in the order 1 to 10. */
  lemma ViolationsInCheckOrder(source: string, translation: string, termMapping: map<string, string>,
                               documentType: string, forbidden: ForbiddenTable)
    ensures InCheckOrder(AllViolations(source, translation, termMapping, documentType, forbidden))
  {
    var claim := documentType == ClaimType;
    PartsInCheckOrder(FormattingViolations(translation, documentType),
                      TerminologyViolations(translation, termMapping, forbidden),
                      AntecedentViolations(source, translation),
                      if claim then ClaimStructureViolations(translation, documentType) else [],
                      PunctuationViolations(translation, documentType),
                      DomainViolations(source, translation),
                      StandardTermViolations(translation),
                      NumericalViolations(source, translation),
                      TransitionalViolations(source, translation),
                      if claim then ClaimNounPhraseViolations(translation, documentType) else []);
  }

  predicate NoClaimRules(vs: seq<Violation>) {
    forall v | v in vs :: !ClaimOnly(v.rule)
  }

  /** The checks other than 1, 4, 5 and 10 never report a claim-only rule. */
  lemma FromNoClaimRules(vs: seq<Violation>, k: nat)
    requires From(vs, k) && k != 1 && k != 4 && k != 5 && k != 10
    ensures NoClaimRules(vs)
  {
  }

  lemma PartsNoClaimRules(p1: seq<Violation>, p2: seq<Violation>, p3: seq<Violation>, p5: seq<Violation>,
                          p6: seq<Violation>, p7: seq<Violation>, p8: seq<Violation>, p9: seq<Violation>)
    requires NoClaimRules(p1) && From(p2, 2) && From(p3, 3) && NoClaimRules(p5)
    requires From(p6, 6) && From(p7, 7) && From(p8, 8) && From(p9, 9)
    ensures NoClaimRules(Concatenated(p1, p2, p3, [], p5, p6, p7, p8, p9, []))
  {
    FromNoClaimRules(p2, 2);
    FromNoClaimRules(p3, 3);
    FromNoClaimRules(p6, 6);
    FromNoClaimRules(p7, 7);
    FromNoClaimRules(p8, 8);
    FromNoClaimRules(p9, 9);
  }

  /** Outside claims the formatting check has no final-period test. */
  lemma FormattingNoClaimRules(translation: string, documentType: string)
    requires documentType != ClaimType
    ensures NoClaimRules(FormattingViolations(translation, documentType))
  {
    assert ClaimEndingViolations(translation, documentType) == [];
  }

  /** Outside claims the punctuation check reports only the final semicolon. */
  lemma PunctuationNoClaimRules(translation: string, documentType: string)
    requires documentType != ClaimType
    ensures NoClaimRules(PunctuationViolations(translation, documentType))
  {
  }

  /** For any document that is not a claim none of the claim-specific rules is reported. */
  lemma NonClaimSkipsClaimRules(source: string, translation: string, termMapping: map<string, string>,
                                documentType: string, forbidden: ForbiddenTable)
    requires documentType != ClaimType
    ensures NoClaimRules(AllViolations(source, translation, termMapping, documentType, forbidden))
  {
    FormattingNoClaimRules(translation, documentType);
    PunctuationNoClaimRules(translation, documentType);
    PartsNoClaimRules(FormattingViolations(translation, documentType),
                      TerminologyViolations(translation, termMapping, forbidden),
                      AntecedentViolations(source, translation),
                      PunctuationViolations(translation, documentType),
                      DomainViolations(source, translation),
                      StandardTermViolations(translation),
                      NumericalViolations(source, translation),
                      TransitionalViolations(source, translation));
  }

  /** A violation of check 1 in the concatenated lists comes from the first list. */
  lemma FirstPartHolds(p1: seq<Violation>, p2: seq<Violation>, p3: seq<Violation>, p4: seq<Violation>,
                       p5: seq<Violation>, p6: seq<Violation>, p7: seq<Violation>, p8: seq<Violation>,
                       p9: seq<Violation>, p10: seq<Violation>, v: Violation)
    requires From(p2, 2) && From(p3, 3) && From(p4, 4) && From(p5, 5)
    requires From(p6, 6) && From(p7, 7) && From(p8, 8) && From(p9, 9) && From(p10, 10)
    ensures v in Concatenated(p1, p2, p3, p4, p5, p6, p7, p8, p9, p10) && CheckOf(v.rule) == 1 <==> v in p1 && CheckOf(v.rule) == 1
  {
  }

  /** The violations of `vs` that carry `rule`, in their order. */
  function WithRule(vs: seq<Violation>, rule: Rule): seq<Violation> {
    if vs == [] then []
    else WithRule(vs[..|vs| - 1], rule) + if vs[|vs| - 1].rule == rule then [vs[|vs| - 1]] else []
  }

  lemma {:induction false} WithRuleAppend(a: seq<Violation>, b: seq<Violation>, rule: Rule)
    ensures WithRule(a + b, rule) == WithRule(a, rule) + WithRule(b, rule)
    decreases |b|
  {
    if b == [] {
      assert a + b == a;
    } else {
      var b' := b[..|b| - 1];
      assert (a + b)[..|a + b| - 1] == a + b';
      WithRuleAppend(a, b', rule);
    }
  }

  lemma {:induction false} WithRuleNone(vs: seq<Violation>, rule: Rule)
    requires forall v | v in vs :: v.rule != rule
    ensures WithRule(vs, rule) == []
    decreases |vs|
  {
    if vs != [] {
      assert forall v | v in vs[..|vs| - 1] :: v in vs;
      WithRuleNone(vs[..|vs| - 1], rule);
    }
  }

  lemma WithRuleOne(v: Violation, rule: Rule)
    requires v.rule == rule
    ensures WithRule([v], rule) == [v]
  {
    assert [v][..0] == [];
  }

  /** A list of check k holds no violation of a rule of another check. */
  lemma FromWithRule(vs: seq<Violation>, k: nat, rule: Rule)
    requires From(vs, k) && CheckOf(rule) != k
    ensures WithRule(vs, rule) == []
  {
    WithRuleNone(vs, rule);
  }

  /** Only the first list can contribute a rule of check 1. */
  lemma FirstPartWithRule(p1: seq<Violation>, p2: seq<Violation>, p3: seq<Violation>, p4: seq<Violation>,
                          p5: seq<Violation>, p6: seq<Violation>, p7: seq<Violation>, p8: seq<Violation>,
                          p9: seq<Violation>, p10: seq<Violation>, rule: Rule)
    requires CheckOf(rule) == 1
    requires From(p2, 2) && From(p3, 3) && From(p4, 4) && From(p5, 5)
    requires From(p6, 6) && From(p7, 7) && From(p8, 8) && From(p9, 9) && From(p10, 10)
    ensures WithRule(Concatenated(p1, p2, p3, p4, p5, p6, p7, p8, p9, p10), rule) == WithRule(p1, rule)
  {
    var q2 := p1 + p2;
    var q3 := q2 + p3;
    var q4 := q3 + p4;
    var q5 := q4 + p5;
    var q6 := q5 + p6;
    var q7 := q6 + p7;
    var q8 := q7 + p8;
    var q9 := q8 + p9;
    var q10 := q9 + p10;
    AppendNoRule(p1, p2, 2, rule);
    AppendNoRule(q2, p3, 3, rule);
    AppendNoRule(q3, p4, 4, rule);
    AppendNoRule(q4, p5, 5, rule);
    AppendNoRule(q5, p6, 6, rule);
    AppendNoRule(q6, p7, 7, rule);
    AppendNoRule(q7, p8, 8, rule);
    AppendNoRule(q8, p9, 9, rule);
    AppendNoRule(q9, p10, 10, rule);
    assert Concatenated(p1, p2, p3, p4, p5, p6, p7, p8, p9, p10) == q10;
  }

  /** Appending a list of another check leaves the reports of a rule unchanged. */
  lemma AppendNoRule(a: seq<Violation>, b: seq<Violation>, k: nat, rule: Rule)
    requires From(b, k) && CheckOf(rule) != k
    ensures WithRule(a + b, rule) == WithRule(a, rule)
  {
    FromWithRule(b, k, rule);
    WithRuleAppend(a, b, rule);
    assert WithRule(a, rule) + [] == WithRule(a, rule);
  }

  /** Of check_formatting's reports, the claim-ending ones are those of the final-period test. */
  lemma FormattingClaimEndings(text: string, documentType: string)
    ensures WithRule(FormattingViolations(text, documentType), ClaimEnding) ==
            ClaimEndingViolations(text, documentType)
  {
    var temperatures := UnitViolations(text, TemperatureRule);
    var percentages := UnitViolations(text, PercentRule);
    var ending := ClaimEndingViolations(text, documentType);
    var seqIds := SeqIdViolations(text);
    assert FormattingViolations(text, documentType) == temperatures + percentages + ending + seqIds;
    WithRuleNone(temperatures, ClaimEnding);
    WithRuleNone(percentages, ClaimEnding);
    if ending != [] {
      WithRuleOne(ending[0], ClaimEnding);
      assert ending == [ending[0]];
    }
    WithRuleNone(seqIds, ClaimEnding);
    WithRuleAppend(temperatures, percentages, ClaimEnding);
    WithRuleAppend(temperatures + percentages, ending, ClaimEnding);
    WithRuleAppend(temperatures + percentages + ending, seqIds, ClaimEnding);
  }

  lemma FifthPartHolds(p1: seq<Violation>, p2: seq<Violation>, p3: seq<Violation>, p4: seq<Violation>,
                       p5: seq<Violation>, p6: seq<Violation>, p7: seq<Violation>, p8: seq<Violation>,
                       p9: seq<Violation>, p10: seq<Violation>, v: Violation)
    requires From(p1, 1) && From(p2, 2) && From(p3, 3) && From(p4, 4)
    requires From(p6, 6) && From(p7, 7) && From(p8, 8) && From(p9, 9) && From(p10, 10)
    ensures v in Concatenated(p1, p2, p3, p4, p5, p6, p7, p8, p9, p10) && CheckOf(v.rule) == 5 <==> v in p5 && CheckOf(v.rule) == 5
  {
  }

  /** A claim is reported for its ending exactly when its stripped text does not end with a
      period, and then exactly once. */
  lemma ClaimEndingReportedIff(source: string, translation: string, termMapping: map<string, string>,
                               forbidden: ForbiddenTable)
    ensures (exists v | v in AllViolations(source, translation, termMapping, ClaimType, forbidden) ::
               v.rule == ClaimEnding) <==>
            !EndsWith(Strip(translation), ".")
    ensures |WithRule(AllViolations(source, translation, termMapping, ClaimType, forbidden), ClaimEnding)| ==
            if EndsWith(Strip(translation), ".") then 0 else 1
  {
    var all := AllViolations(source, translation, termMapping, ClaimType, forbidden);
    var p1 := FormattingViolations(translation, ClaimType);
    var ending := ClaimEndingViolations(translation, ClaimType);
    forall v: Violation | v.rule == ClaimEnding ensures v in all <==> v in p1 {
      FirstPartHolds(p1, TerminologyViolations(translation, termMapping, forbidden),
                     AntecedentViolations(source, translation),
                     ClaimStructureViolations(translation, ClaimType),
                     PunctuationViolations(translation, ClaimType),
                     DomainViolations(source, translation),
                     StandardTermViolations(translation),
                     NumericalViolations(source, translation),
                     TransitionalViolations(source, translation),
                     ClaimNounPhraseViolations(translation, ClaimType), v);
    }
    if !EndsWith(Strip(translation), ".") {
      assert ending[0] in ending;
      assert ending[0] in all;
    }
    FirstPartWithRule(p1, TerminologyViolations(translation, termMapping, forbidden),
                      AntecedentViolations(source, translation),
                      ClaimStructureViolations(translation, ClaimType),
                      PunctuationViolations(translation, ClaimType),
                      DomainViolations(source, translation),
                      StandardTermViolations(translation),
                      NumericalViolations(source, translation),
                      TransitionalViolations(source, translation),
                      ClaimNounPhraseViolations(translation, ClaimType), ClaimEnding);
    FormattingClaimEndings(translation, ClaimType);
  }

  // ---------------------------------------------------------------------------
  // The severity tally and the verdict

  lemma {:induction false} CountsSumToTotal(vs: seq<Violation>)
    ensures CountSeverity(vs, Critical) + CountSeverity(vs, Major) + CountSeverity(vs, Minor) +
            CountSeverity(vs, Neutral) == |vs|
  {
    if vs != [] {
      CountsSumToTotal(vs[..|vs| - 1]);
    }
  }

  lemma {:induction false} CountZeroIff(vs: seq<Violation>, s: Severity)
    ensures CountSeverity(vs, s) == 0 <==> forall v :: v in vs ==> SeverityOf(v.rule) != s
  {
    if vs != [] {
      var init := vs[..|vs| - 1];
      CountZeroIff(init, s);
      assert vs == init + [vs[|vs| - 1]];
    }
  }

  lemma {:induction false} CountAppend(a: seq<Violation>, b: seq<Violation>, s: Severity)
    ensures CountSeverity(a + b, s) == CountSeverity(a, s) + CountSeverity(b, s)
    decreases |b|
  {
    if b != [] {
      var init := b[..|b| - 1];
      var c := a + b;
      assert c[..|c| - 1] == a + init;
      assert c[|c| - 1] == b[|b| - 1];
      CountAppend(a, init, s);
    } else {
      assert a + b == a;
    }
  }

  /** The verdict's counts add up to the number of violations, and a result passes
      exactly when no violation is critical or major. */
  lemma VerdictIff(vs: seq<Violation>)
    ensures var r := Verdict(vs);
            r.severityCounts.critical + r.severityCounts.major + r.severityCounts.minor +
            r.severityCounts.neutral == r.totalViolations
    ensures Verdict(vs).passed <==>
            forall v :: v in vs ==> SeverityOf(v.rule) != Critical && SeverityOf(v.rule) != Major
  {
    CountsSumToTotal(vs);
    CountZeroIff(vs, Critical);
    CountZeroIff(vs, Major);
  }

  predicate NoCritical(vs: seq<Violation>) {
    forall v | v in vs :: SeverityOf(v.rule) != Critical
  }

  /** Only check 9 reports a critical rule. */
  lemma FromNoCritical(vs: seq<Violation>, k: nat)
    requires From(vs, k) && k != 9
    ensures NoCritical(vs)
  {
  }

  /** When only the list of check 9 can hold critical violations, the concatenation has as
      many critical violations as that list. */
  lemma PartsCriticalCount(p1: seq<Violation>, p2: seq<Violation>, p3: seq<Violation>, p4: seq<Violation>,
                           p5: seq<Violation>, p6: seq<Violation>, p7: seq<Violation>, p8: seq<Violation>,
                           p9: seq<Violation>, p10: seq<Violation>)
    requires From(p1, 1) && From(p2, 2) && From(p3, 3) && From(p4, 4) && From(p5, 5)
    requires From(p6, 6) && From(p7, 7) && From(p8, 8) && From(p10, 10)
    ensures CountSeverity(Concatenated(p1, p2, p3, p4, p5, p6, p7, p8, p9, p10), Critical) ==
            CountSeverity(p9, Critical)
  {
    var before := p1 + p2 + p3 + p4 + p5 + p6 + p7 + p8;
    FromNoCritical(p1, 1);
    FromNoCritical(p2, 2);
    FromNoCritical(p3, 3);
    FromNoCritical(p4, 4);
    FromNoCritical(p5, 5);
    FromNoCritical(p6, 6);
    FromNoCritical(p7, 7);
    FromNoCritical(p8, 8);
    FromNoCritical(p10, 10);
    CountZeroIff(before, Critical);
    CountZeroIff(p10, Critical);
    CountAppend(before, p9, Critical);
    CountAppend(before + p9, p10, Critical);
  }

  /** The only critical rule is the 'adapted to' mistranslation, so a result has at
      most one critical violation, and it has one exactly when that mistranslation is present. */
  lemma CriticalCountIsAdaptedTo(source: string, translation: string, termMapping: map<string, string>,
                                 documentType: string, forbidden: ForbiddenTable)
    ensures var r := Verdict(AllViolations(source, translation, termMapping, documentType, forbidden));
            r.severityCounts.critical == if AdaptedToMistranslated(source, translation) then 1 else 0
    ensures AdaptedToMistranslated(source, translation) ==>
              !Verdict(AllViolations(source, translation, termMapping, documentType, forbidden)).passed
  {
    var claim := documentType == ClaimType;
    TransitionalCriticalCount(source, translation);
    PartsCriticalCount(FormattingViolations(translation, documentType),
                       TerminologyViolations(translation, termMapping, forbidden),
                       AntecedentViolations(source, translation),
                       if claim then ClaimStructureViolations(translation, documentType) else [],
                       PunctuationViolations(translation, documentType),
                       DomainViolations(source, translation),
                       StandardTermViolations(translation),
                       NumericalViolations(source, translation),
                       TransitionalViolations(source, translation),
                       if claim then ClaimNounPhraseViolations(translation, documentType) else []);
  }

  lemma TransitionalCriticalCount(source: string, translation: string)
    ensures CountSeverity(TransitionalViolations(source, translation), Critical) ==
            if AdaptedToMistranslated(source, translation) then 1 else 0
  {
    var p9 := TransitionalViolations(source, translation);
    if p9 != [] {
      assert p9[..0] == [];
    }
  }

  // ---------------------------------------------------------------------------
  // What the scanning checks report

  /** Entry i of the forbidden table has its rendering j in the text, and `v` is what
      check_terminology reports for it: the rendering with the configured correct term,
      or "확인 필요" when the term mapping has none. */
  predicate ForbiddenReported(text: string, termMapping: map<string, string>, forbidden: ForbiddenTable,
                              i: int, j: int, v: Violation)
  {
    0 <= i < |forbidden| && 0 <= j < |forbidden[i].1| &&
    var term := forbidden[i].0;
    var kr := forbidden[i].1[j];
    Contains(text, kr) &&
    v == Violation(ForbiddenTerm(term, kr), FoundText(kr), kr,
                   if term in termMapping then termMapping[term] else UnresolvedTerm)
  }

  /** The (entry, rendering) pairs of the forbidden table whose report is v. */
  function ReportingPairs(text: string, termMapping: map<string, string>, forbidden: ForbiddenTable,
                          v: Violation): set<(nat, nat)>
  {
    set i: nat, j: nat | i < |forbidden| && j < |forbidden[i].1| &&
                         ForbiddenReported(text, termMapping, forbidden, i, j, v) :: (i, j)
  }

  /** check_terminology reports exactly the forbidden renderings that occur in the text,
      one violation for each (entry, rendering) pair found. */
  lemma TerminologyReports(text: string, termMapping: map<string, string>, forbidden: ForbiddenTable,
                           v: Violation)
    ensures v in TerminologyViolations(text, termMapping, forbidden) <==>
            exists i, j :: ForbiddenReported(text, termMapping, forbidden, i, j, v)
    ensures multiset(TerminologyViolations(text, termMapping, forbidden))[v] ==
            |ReportingPairs(text, termMapping, forbidden, v)|
  {
    TerminologyCount(text, termMapping, forbidden, v);
    var at := ForbiddenAtFn(text, termMapping, forbidden);
    TableScanMember(|forbidden|, ForbiddenWidthFn(forbidden), at, v);
    if v in TerminologyViolations(text, termMapping, forbidden) {
      var i: nat, j: nat :| i < |forbidden| && j < ForbiddenWidthFn(forbidden)(i) && at(i)(j) == Some(v);
      ForbiddenAtReported(text, termMapping, forbidden, i, j, v);
    }
    if exists i, j :: ForbiddenReported(text, termMapping, forbidden, i, j, v) {
      var i, j :| ForbiddenReported(text, termMapping, forbidden, i, j, v);
      ForbiddenAtReported(text, termMapping, forbidden, i, j, v);
    }
  }

  lemma TerminologyCount(text: string, termMapping: map<string, string>, forbidden: ForbiddenTable,
                         v: Violation)
    ensures multiset(TerminologyViolations(text, termMapping, forbidden))[v] ==
            |ReportingPairs(text, termMapping, forbidden, v)|
  {
    var width, at := ForbiddenWidthFn(forbidden), ForbiddenAtFn(text, termMapping, forbidden);
    TableScanCount(|forbidden|, width, at, v);
    forall i: nat, j: nat | i < |forbidden|
      ensures j < width(i) && at(i)(j) == Some(v) <==> ForbiddenReported(text, termMapping, forbidden, i, j, v)
    {
      ForbiddenAtReported(text, termMapping, forbidden, i, j, v);
    }
    assert ReportingPairs(text, termMapping, forbidden, v) == PairHits(|forbidden|, width, at, v);
  }

  lemma ForbiddenAtReported(text: string, termMapping: map<string, string>, forbidden: ForbiddenTable,
                            i: nat, j: nat, v: Violation)
    requires i < |forbidden|
    ensures j < ForbiddenWidthFn(forbidden)(i) && ForbiddenAtFn(text, termMapping, forbidden)(i)(j) == Some(v) <==>
            ForbiddenReported(text, termMapping, forbidden, i, j, v)
  {
  }

  /** Rule i of a domain table has its English term in the source, ignoring case, and
      its wrong rendering j in the translation, and `v` is the violation reported for it. */
  predicate DomainReported(source: string, translation: string, rules: seq<DomainRule>, i: int, j: int,
                           v: Violation)
  {
    0 <= i < |rules| && 0 <= j < |rules[i].wrong| &&
    var rule := rules[i];
    Contains(ToLower(source), ToLower(rule.term)) && Contains(translation, rule.wrong[j]) &&
    v == Violation(DomainMistranslation(rule.term, rule.context), FoundText(rule.wrong[j]),
                   rule.wrong[j], rule.correct)
  }

  /** check_domain_terms reports exactly the wrong renderings of the rules whose term is in the source. */
  lemma DomainReports(source: string, translation: string, rules: seq<DomainRule>, v: Violation)
    ensures v in DomainTableViolations(source, translation, rules) <==>
            exists i, j :: DomainReported(source, translation, rules, i, j, v)
  {
    var at := DomainAtFn(translation, rules);
    TableScanMember(|rules|, DomainWidthFn(source, rules), at, v);
    if v in DomainTableViolations(source, translation, rules) {
      var i: nat, j: nat :| i < |rules| && j < DomainWidthFn(source, rules)(i) && at(i)(j) == Some(v);
      DomainAtReported(source, translation, rules, i, j, v);
    }
    if exists i, j :: DomainReported(source, translation, rules, i, j, v) {
      var i, j :| DomainReported(source, translation, rules, i, j, v);
      DomainAtReported(source, translation, rules, i, j, v);
    }
  }

  lemma DomainAtReported(source: string, translation: string, rules: seq<DomainRule>, i: nat, j: nat,
                         v: Violation)
    requires i < |rules|
    ensures j < DomainWidthFn(source, rules)(i) && DomainAtFn(translation, rules)(i)(j) == Some(v) <==>
            DomainReported(source, translation, rules, i, j, v)
  {
  }

  /** `the <noun>` starts at p in the source, the Korean noun j occurs in the translation
      and nowhere in it is preceded by `상기`, and `v` is the violation reported for it. */
  predicate AntecedentReported(source: string, translation: string, p: int, j: nat, v: Violation) {
    0 <= p < |source| && TheNounAt(source, p) == Some(j) &&
    var noun := AntecedentNouns[j].1;
    Contains(translation, noun) && !HasSanggi(translation, noun) && v == AntecedentViolation(noun)
  }

  /** The positions of the source whose `the <noun>` match is reported as v. */
  function ReportingMatches(source: string, translation: string, v: Violation): set<nat> {
    set p: nat | p < |source| && MatchReported(source, translation, p, v)
  }

  /** The `the <noun>` match at p is reported as v. */
  predicate MatchReported(source: string, translation: string, p: nat, v: Violation) {
    exists j: nat | j < |AntecedentNouns| :: AntecedentReported(source, translation, p, j, v)
  }

  /** check_antecedent_basis reports exactly the nouns introduced with `the` in the source
      that the translation never introduces with `상기`, one violation for each such match. */
  lemma AntecedentReports(source: string, translation: string, v: Violation)
    ensures v in AntecedentViolations(source, translation) <==>
            exists p, j :: AntecedentReported(source, translation, p, j, v)
    ensures multiset(AntecedentViolations(source, translation))[v] == |ReportingMatches(source, translation, v)|
  {
    AntecedentCount(source, translation, v);
    if v in AntecedentViolations(source, translation) {
      ReportedAntecedentHasMatch(source, translation, v);
    }
    if exists p, j :: AntecedentReported(source, translation, p, j, v) {
      var p, j :| AntecedentReported(source, translation, p, j, v);
      MatchedAntecedentReported(source, translation, p, j, v);
    }
  }

  lemma AntecedentCount(source: string, translation: string, v: Violation)
    ensures multiset(AntecedentViolations(source, translation))[v] == |ReportingMatches(source, translation, v)|
  {
    var at := AntecedentAtFn(source, translation);
    CollectCount(|source|, at, v);
    forall p: nat | p < |source|
      ensures at(p) == Some(v) <==> MatchReported(source, translation, p, v)
    {
      if at(p) == Some(v) {
        assert AntecedentReported(source, translation, p, TheNounAt(source, p).value, v);
      }
    }
    assert ReportingMatches(source, translation, v) == Hits(|source|, at, v);
  }

  lemma ReportedAntecedentHasMatch(source: string, translation: string, v: Violation)
    requires v in AntecedentViolations(source, translation)
    ensures exists p, j :: AntecedentReported(source, translation, p, j, v)
  {
    var at := AntecedentAtFn(source, translation);
    CollectMember(|source|, at, v);
    var p :| 0 <= p < |source| && at(p) == Some(v);
    var j := TheNounAt(source, p).value;
    assert AntecedentReported(source, translation, p, j, v);
  }

  lemma MatchedAntecedentReported(source: string, translation: string, p: int, j: nat, v: Violation)
    requires AntecedentReported(source, translation, p, j, v)
    ensures v in AntecedentViolations(source, translation)
  {
    var at := AntecedentAtFn(source, translation);
    CollectMember(|source|, at, v);
    assert at(p) == Some(v);
  }


  /** A `서열번호` match starts at p in the text and is not spelled canonically, and `v` is
      the violation reported for it. */
  predicate SeqIdReported(s: string, p: int, v: Violation) {
    0 <= p < |s| && SeqIdMatchAt(s, p) && SeqIdMatch(s, p) != SeqIdCanonical(s, p) &&
    v == Violation(SeqIdFormat, Position(p), SeqIdMatch(s, p), SeqIdCanonical(s, p))
  }

  /** check_all reports a sequence number exactly when the translation has a match that is
      not spelled `서열번호 <N>`, whatever the document type. */
  lemma SeqIdReports(source: string, translation: string, termMapping: map<string, string>,
                     documentType: string, forbidden: ForbiddenTable, v: Violation)
    ensures v in AllViolations(source, translation, termMapping, documentType, forbidden) && v.rule == SeqIdFormat <==>
            exists p :: SeqIdReported(translation, p, v)
  {
    if v.rule == SeqIdFormat {
      var claim := documentType == ClaimType;
      FirstPartHolds(FormattingViolations(translation, documentType),
                     TerminologyViolations(translation, termMapping, forbidden),
                     AntecedentViolations(source, translation),
                     if claim then ClaimStructureViolations(translation, documentType) else [],
                     PunctuationViolations(translation, documentType),
                     DomainViolations(source, translation),
                     StandardTermViolations(translation),
                     NumericalViolations(source, translation),
                     TransitionalViolations(source, translation),
                     if claim then ClaimNounPhraseViolations(translation, documentType) else [], v);
      FormattingSeqIds(translation, documentType, v);
      SeqIdScanReports(translation, v);
    }
  }

  /** Of check_formatting's reports, the sequence-number ones are those of the sequence scan. */
  lemma FormattingSeqIds(text: string, documentType: string, v: Violation)
    requires v.rule == SeqIdFormat
    ensures v in FormattingViolations(text, documentType) <==> v in SeqIdViolations(text)
  {
    assert FormattingViolations(text, documentType) ==
           UnitViolations(text, TemperatureRule) + UnitViolations(text, PercentRule) +
           ClaimEndingViolations(text, documentType) + SeqIdViolations(text);
  }

  lemma SeqIdScanReports(s: string, v: Violation)
    ensures v in SeqIdViolations(s) <==> exists p :: SeqIdReported(s, p, v)
  {
    var at := SeqIdAtFn(s);
    CollectMember(|s|, at, v);
    forall p | 0 <= p < |s| ensures at(p) == Some(v) <==> SeqIdReported(s, p, v) {
      SeqIdAtReported(s, p, v);
    }
  }

  lemma SeqIdAtReported(s: string, p: nat, v: Violation)
    requires p < |s|
    ensures SeqIdAt(s, p) == Some(v) <==> SeqIdReported(s, p, v)
  {
  }

  /** Alternative j of `(로서|에서|에|를|을|이|가)\s*:` is the first to match at p in the text,
      and `v` is the violation reported for it: the matched text, and the particle with a comma. */
  predicate ColonReported(s: string, p: int, j: int, v: Violation) {
    0 <= p < |s| && 0 <= j < |Particles| && ParticleColonAt(s, p, j) &&
    (forall m | 0 <= m < j :: !ParticleColonAt(s, p, m)) &&
    v == Violation(ColonAfterParticle, Position(p), s[p..SpaceRunEnd(s, p + |Particles[j]|) + 1], Particles[j] + ",")
  }

  /** For a claim, check_all reports a colon after a particle exactly at the matches of the
      pattern, each with its first matching alternative. */
  lemma ColonReports(source: string, translation: string, termMapping: map<string, string>,
                     forbidden: ForbiddenTable, v: Violation)
    ensures v in AllViolations(source, translation, termMapping, ClaimType, forbidden) && v.rule == ColonAfterParticle <==>
            exists p, j :: ColonReported(translation, p, j, v)
  {
    if v.rule == ColonAfterParticle {
      ClaimColons(source, translation, termMapping, forbidden, v);
      PunctuationColons(translation, v);
      ColonScanReports(translation, v);
    }
  }

  /** For a claim, a colon-after-particle report of check_all is one of check_punctuation's. */
  lemma ClaimColons(source: string, translation: string, termMapping: map<string, string>,
                    forbidden: ForbiddenTable, v: Violation)
    requires v.rule == ColonAfterParticle
    ensures v in AllViolations(source, translation, termMapping, ClaimType, forbidden) <==>
            v in PunctuationViolations(translation, ClaimType)
  {
    assert CheckOf(v.rule) == 5;
    FifthPartHolds(FormattingViolations(translation, ClaimType),
                   TerminologyViolations(translation, termMapping, forbidden),
                   AntecedentViolations(source, translation),
                   ClaimStructureViolations(translation, ClaimType),
                   PunctuationViolations(translation, ClaimType),
                   DomainViolations(source, translation),
                   StandardTermViolations(translation),
                   NumericalViolations(source, translation),
                   TransitionalViolations(source, translation),
                   ClaimNounPhraseViolations(translation, ClaimType), v);
  }

  /** For a claim, check_punctuation's colon reports are those of the colon scan. */
  lemma PunctuationColons(text: string, v: Violation)
    requires v.rule == ColonAfterParticle
    ensures v in PunctuationViolations(text, ClaimType) <==> v in ColonViolations(text)
  {
    assert PunctuationViolations(text, ClaimType) == ColonViolations(text) + SemicolonViolations(text);
  }

  /** Every colon after a particle in a claim is reported at its position. */
  lemma ParticleColonReported(source: string, translation: string, termMapping: map<string, string>,
                              forbidden: ForbiddenTable, p: nat, j: nat)
    requires p < |translation| && j < |Particles| && ParticleColonAt(translation, p, j)
    ensures exists v :: v in AllViolations(source, translation, termMapping, ClaimType, forbidden) &&
                        v.rule == ColonAfterParticle && v.location == Position(p)
  {
    var v := ColonAt(translation, p).value;
    var j' :| 0 <= j' < |Particles| && ParticleColonAt(translation, p, j') &&
              (forall m | 0 <= m < j' :: !ParticleColonAt(translation, p, m)) &&
              v.found == translation[p..SpaceRunEnd(translation, p + |Particles[j']|) + 1] &&
              v.correct == Particles[j'] + ",";
    assert ColonReported(translation, p, j', v);
    ColonReports(source, translation, termMapping, forbidden, v);
  }

  lemma ColonScanReports(s: string, v: Violation)
    ensures v in ColonViolations(s) <==> exists p, j :: ColonReported(s, p, j, v)
  {
    var at := ColonAtFn(s);
    CollectMember(|s|, at, v);
    if v in ColonViolations(s) {
      var p :| 0 <= p < |s| && at(p) == Some(v);
      ColonAtHasMatch(s, p, v);
    }
    if exists p, j :: ColonReported(s, p, j, v) {
      var p, j :| ColonReported(s, p, j, v);
      ColonAtReported(s, p, j, v);
      assert at(p) == Some(v);
    }
  }

  lemma ColonAtHasMatch(s: string, p: nat, v: Violation)
    requires p < |s| && ColonAt(s, p) == Some(v)
    ensures ColonReported(s, p, FirstParticleColonAt(s, p, 0).value, v)
  {
  }

  /** The first matching alternative is unique, so a match's report is determined by it. */
  lemma ColonAtReported(s: string, p: nat, j: nat, v: Violation)
    requires ColonReported(s, p, j, v)
    ensures ColonAt(s, p) == Some(v)
  {
    FirstParticleColonIs(s, p, j);
    assert ColonMatch(s, p, j) == v.found;
  }

  lemma FirstParticleColonIs(s: string, p: nat, j: nat)
    requires j < |Particles| && ParticleColonAt(s, p, j) && forall m | 0 <= m < j :: !ParticleColonAt(s, p, m)
    ensures FirstParticleColonAt(s, p, 0) == Some(j)
  {
    var r := FirstParticleColonAt(s, p, 0);
    assert r.Some?;
    assert !(r.value < j);
    assert !(j < r.value);
  }

  // ---------------------------------------------------------------------------
  // The corrections the checks suggest pass the same rule

  lemma {:induction false} DigitRunEndIs(s: string, p: int, e: int)
    requires 0 <= p <= e <= |s|
    requires forall k :: p <= k < e ==> IsDigit(s[k])
    requires e == |s| || !IsDigit(s[e])
    ensures DigitRunEnd(s, p) == e
    decreases e - p
  {
    if p < e {
      DigitRunEndIs(s, p + 1, e);
    }
  }

  /** The correction of a temperature or percent violation, `<digits> <unit>`, has no violation of its own. */
  lemma UnitCorrectionIsClean(s: string, rule: UnitRule, p: nat)
    requires rule == TemperatureRule || rule == PercentRule
    requires UnitAt(s, rule, p).Some?
    ensures UnitViolations(UnitAt(s, rule, p).value.correct, rule) == []
  {
    var d := DigitRunEnd(s, p);
    var digits := s[p..d];
    var c := digits + " " + [rule.unit];
    assert c == UnitAt(s, rule, p).value.correct;
    var m := |digits|;
    assert m >= 1 && c[m] == ' ' && c[m + 1] == rule.unit && |c| == m + 2;
    forall k | 0 <= k < m ensures IsDigit(c[k]) {
      assert c[k] == s[p + k];
    }
    DigitRunEndIs(c, 0, m);
    assert SpaceRunEnd(c, m + 1) == m + 1;
    forall q: nat | q < |c| ensures UnitAtFn(c, rule)(q) == None {
      if q == 0 {
        assert UnitWellSpaced(c, 0, rule.unit);
      } else if q < m {
        assert IsDigit(c[q - 1]);
      } else {
        assert !IsDigit(c[q]);
      }
    }
    CollectNone(|c|, UnitAtFn(c, rule));
  }

  /** The correction of an antecedent violation, `상기 <noun>`, supplies the missing `상기`. */
  lemma AntecedentCorrectionHasSanggi(noun: string)
    requires noun != [] && !IsSpace(noun[0])
    ensures HasSanggi("상기 " + noun, noun)
  {
    var t := "상기 " + noun;
    assert OccursAt(t, "상기", 0);
    assert SpaceRunEnd(t, 2) == 3 by {
      assert IsSpace(t[2]) && !IsSpace(t[3]);
      assert SpaceRunEnd(t, 3) == 3;
    }
    assert t[3..3 + |noun|] == noun;
    assert SanggiAt(t, noun, 0);
  }

  // ---------------------------------------------------------------------------
  // The report

  /** The blocks of violations j+1 to k, numbered as in the report. */
  function BlocksBetween(vs: seq<ViolationDict>, j: nat, k: nat): seq<string>
    requires j <= k <= |vs|
    decreases k
  {
    if k == j then [] else BlocksBetween(vs, j, k - 1) + ViolationBlock(k, vs[k - 1])
  }

  /** The blocks of the first k violations are those of the first j followed by the rest. */
  lemma {:induction false} BlocksSplit(vs: seq<ViolationDict>, j: nat, k: nat)
    requires j <= k <= |vs|
    ensures BlocksUpTo(vs, k) == BlocksUpTo(vs, j) + BlocksBetween(vs, j, k)
    decreases k
  {
    if k == j {
      assert BlocksUpTo(vs, j) + [] == BlocksUpTo(vs, j);
    } else {
      BlocksSplit(vs, j, k - 1);
      AppendAssoc(BlocksUpTo(vs, j), BlocksBetween(vs, j, k - 1), ViolationBlock(k, vs[k - 1]));
    }
  }

  lemma AppendAssoc<T>(a: seq<T>, b: seq<T>, c: seq<T>)
    ensures a + b + c == a + (b + c)
  {
  }

  /** The report is its header, the details heading, the blocks of the
      violations before violation i, the block of violation i (numbered
      from 1), the blocks of those after it, and the closing rule. */
  lemma ReportListsViolation(result: QAResult, i: nat)
    requires i < |result.violations|
    ensures var vs := result.violations;
            ReportLines(result) ==
            ReportHeader(result) +
            (DetailsHeading + ((BlocksUpTo(vs, i) + ViolationBlock(i + 1, vs[i])) + BlocksBetween(vs, i + 1, |vs|))) +
            [Rule60()]
  {
    LaidOutListsViolation(ReportHeader(result), result.violations, i);
  }

  lemma LaidOutListsViolation(header: seq<string>, vs: seq<ViolationDict>, i: nat)
    requires i < |vs|
    ensures LaidOut(header, vs) ==
            header +
            (DetailsHeading + ((BlocksUpTo(vs, i) + ViolationBlock(i + 1, vs[i])) + BlocksBetween(vs, i + 1, |vs|))) +
            [Rule60()]
  {
    BlocksSplit(vs, i + 1, |vs|);
  }

  // ---------------------------------------------------------------------------
  // A worked example

  /** A method claim without a method preamble gets the preamble violation. */
  lemma MissingPreambleReported(text: string)
    requires Contains(text, "방법") && !HasMethodPreamble(text)
    ensures MethodPreambleViolation(text) in ClaimNounPhraseViolations(text, ClaimType)
    ensures SeverityOf(MethodPreambleViolation(text).rule) == Major
  {
    PreambleViolationIsMajor(text);
    assert MethodPreambleViolations(text) == [MethodPreambleViolation(text)];
  }

  lemma PreambleViolationIsMajor(text: string)
    ensures SeverityOf(MethodPreambleViolation(text).rule) == Major
  {
  }

  /** A result with a major violation fails. */
  lemma MajorFails(vs: seq<Violation>, v: Violation)
    requires v in vs && SeverityOf(v.rule) == Major
    ensures !Verdict(vs).passed
  {
    CountZeroIff(vs, Major);
  }

  /** A method claim without a method preamble fails the check, whatever else it gets right. */
  lemma MethodClaimWithoutPreambleFails(source: string, text: string, termMapping: map<string, string>,
                                        forbidden: ForbiddenTable)
    requires Contains(text, "방법") && !HasMethodPreamble(text)
    ensures var all := AllViolations(source, text, termMapping, ClaimType, forbidden);
            MethodPreambleViolation(text) in all && !Verdict(all).passed
  {
    MissingPreambleReported(text);
    ConcatenatedFails(FormattingViolations(text, ClaimType),
                      TerminologyViolations(text, termMapping, forbidden),
                      AntecedentViolations(source, text),
                      ClaimStructureViolations(text, ClaimType),
                      PunctuationViolations(text, ClaimType),
                      DomainViolations(source, text),
                      StandardTermViolations(text),
                      NumericalViolations(source, text),
                      TransitionalViolations(source, text),
                      ClaimNounPhraseViolations(text, ClaimType), MethodPreambleViolation(text));
  }

  lemma ConcatenatedFails(p1: seq<Violation>, p2: seq<Violation>, p3: seq<Violation>, p4: seq<Violation>,
                          p5: seq<Violation>, p6: seq<Violation>, p7: seq<Violation>, p8: seq<Violation>,
                          p9: seq<Violation>, p10: seq<Violation>, v: Violation)
    requires v in p10 && SeverityOf(v.rule) == Major
    ensures var all := Concatenated(p1, p2, p3, p4, p5, p6, p7, p8, p9, p10);
            v in all && !Verdict(all).passed
  {
    MajorFails(Concatenated(p1, p2, p3, p4, p5, p6, p7, p8, p9, p10), v);
  }

  /** "상기 화합물을 포함하는 방법." has its period, its noun-phrase ending and its `상기`,
      but neither `방법으로서,` nor `방법에 있어서,`, so it fails as a method claim. */
  lemma ExampleClaimLacksPreamble()
    ensures var t := "상기 화합물을 포함하는 방법.";
            Contains(t, "방법") && !HasMethodPreamble(t)
  {
    var t := "상기 화합물을 포함하는 방법.";
    assert OccursAt(t, "방법", 13);
    forall j | 0 <= j < |t| ensures t[j] != "방법으로서,"[2] && t[j] != "방법에"[2] {
    }
    NotContainsByChar(t, "방법으로서,", 2);
    NotContainsByChar(t, "방법에", 2);
  }

  /** The checker's own example, check 3: "A method comprising the compound" names
      the compound with `the`, and "화합물을 포함하는 방법" uses it without `상기`. */
  lemma ModuleExampleAntecedent()
    ensures AntecedentViolation("화합물") in
            AntecedentViolations("A method comprising the compound", "화합물을 포함하는 방법")
  {
    ExampleTheCompound();
    ExampleNoSanggi();
    MatchedAntecedentReported("A method comprising the compound", "화합물을 포함하는 방법", 20, 0,
                              AntecedentViolation("화합물"));
  }

  lemma ExampleTheCompound()
    ensures TheNounAt("A method comprising the compound", 20) == Some(0)
  {
    var l := ToLower("A method comprising the compound");
    assert l[20] == 't' && l[21] == 'h' && l[22] == 'e' && l[23] == ' ';
    assert l[24] == 'c' && l[25] == 'o' && l[26] == 'm' && l[27] == 'p';
    assert l[28] == 'o' && l[29] == 'u' && l[30] == 'n' && l[31] == 'd';
    assert OccursAt(l, "the", 20);
    assert SpaceRunEnd(l, 23) == 24;
    assert OccursAt(l, "compound", 24);
  }

  lemma ExampleNoSanggi()
    ensures Contains("화합물을 포함하는 방법", "화합물")
    ensures !HasSanggi("화합물을 포함하는 방법", "화합물")
  {
    var t := "화합물을 포함하는 방법";
    assert OccursAt(t, "화합물", 0);
    forall j | 0 <= j < |t| ensures t[j] != "상기"[0] {
    }
    NotContainsByChar(t, "상기", 0);
  }

  /** ... and so the example fails as a claim. */
  lemma ModuleExampleFails(termMapping: map<string, string>, forbidden: ForbiddenTable)
    ensures var all := AllViolations("A method comprising the compound", "화합물을 포함하는 방법",
                                     termMapping, ClaimType, forbidden);
            AntecedentViolation("화합물") in all && !Verdict(all).passed
  {
    ModuleExampleAntecedent();
    AntecedentFails("A method comprising the compound", "화합물을 포함하는 방법",
                    termMapping, ClaimType, forbidden, AntecedentViolation("화합물"));
  }

  /** A missing `상기` fails the whole check, whatever the document type. */
  lemma AntecedentFails(source: string, translation: string, termMapping: map<string, string>,
                        documentType: string, forbidden: ForbiddenTable, v: Violation)
    requires v in AntecedentViolations(source, translation)
    ensures var all := AllViolations(source, translation, termMapping, documentType, forbidden);
            v in all && !Verdict(all).passed
  {
    var all := AllViolations(source, translation, termMapping, documentType, forbidden);
    assert v in all;
    MajorFails(all, v);
  }
}
