/** What parse_document guarantees about the sections it saves, proved over
    any sequence of line kinds in which headers carry a section key (the
    kinds Classify gives), and then for the kinds of a document's lines. */
module SectionProperties {
  import opened Options
  import opened Text
  import opened SectionParser

  /** Every header kind names a list of the dictionary. */
  predicate WellKinded(kinds: seq<LineKind>) {
    forall j :: 0 <= j < |kinds| ==> kinds[j].Header? ==> IsSectionKey(kinds[j].sectionType)
  }

  /** Line `p` can open a section of type `t`: a header of that type, or a
      numbered line inside claims. */
  predicate OpensAs(kinds: seq<LineKind>, p: nat, t: SectionType)
    requires p < |kinds|
  {
    (kinds[p].Header? && kinds[p].sectionType == t) || (kinds[p] == Numbered && t == ClaimsSection)
  }

  /** The first line of a section's content: the header line itself is not part of it. */
  function ContentFrom(kinds: seq<LineKind>, start: nat): nat
    requires start < |kinds|
  {
    if kinds[start].Header? then start + 1 else start
  }

  /** No line strictly between `a` and `b` is a header, nor, inside claims, a numbered line. */
  predicate Unbroken(kinds: seq<LineKind>, a: nat, b: nat, inClaims: bool)
    requires b <= |kinds|
  {
    forall j :: a < j < b ==> !kinds[j].Header? && !(inClaims && kinds[j] == Numbered)
  }

  /** No line before `n` is a header. */
  predicate NoHeaderBefore(kinds: seq<LineKind>, n: nat)
    requires n <= |kinds|
  {
    forall j :: 0 <= j < n ==> !kinds[j].Header?
  }

  /** A saved section as parse_document saves it: a non-empty range of lines
      opened by a header (or a claim number), content the stripped text of
      the lines after the header up to its end line, no header inside, and
      closed either by the next header (whose text is its heading), by the
      next claim number (a claim, with no heading) or by the end of the
      document. */
  predicate Good(lines: seq<string>, kinds: seq<LineKind>, s: PatentSection)
    requires |kinds| == |lines|
  {
    0 <= s.startLine <= s.endLine < |lines| &&
    !NoHeaderBefore(kinds, s.startLine + 1) &&
    ContentFrom(kinds, s.startLine) <= s.endLine + 1 &&
    s.content != "" &&
    s.content == BufferText(lines[ContentFrom(kinds, s.startLine)..s.endLine + 1]) &&
    if s.sectionType == ClaimSection then
      OpensAs(kinds, s.startLine, ClaimsSection) &&
      Unbroken(kinds, s.startLine, s.endLine + 1, true) &&
      s.heading == "" &&
      (s.endLine + 1 == |lines| || kinds[s.endLine + 1] == Numbered)
    else
      OpensAs(kinds, s.startLine, s.sectionType) &&
      Unbroken(kinds, s.startLine, s.endLine + 1, s.sectionType == ClaimsSection) &&
      ((s.endLine + 1 == |lines| && s.heading == "" && s.sectionType != ClaimsSection) ||
       (s.endLine + 1 < |lines| && kinds[s.endLine + 1].Header? &&
        s.heading == kinds[s.endLine + 1].text))
  }

  /** Each saved section ends before the next one starts. */
  predicate Ordered(saved: seq<PatentSection>) {
    forall a, b :: 0 <= a < b < |saved| ==> saved[a].endLine < saved[b].startLine
  }

  /** What holds of the loop's state after the first n lines. */
  predicate Inv(lines: seq<string>, kinds: seq<LineKind>, n: nat, st: ParseState)
    requires |kinds| == |lines| && n <= |lines|
  {
    (st.current.None? ==> st.saved == [] && NoHeaderBefore(kinds, n)) &&
    (st.current.Some? ==>
       0 <= st.start < n &&
       OpensAs(kinds, st.start, st.current.value) &&
       !NoHeaderBefore(kinds, st.start + 1) &&
       st.buffer == lines[ContentFrom(kinds, st.start)..n] &&
       Unbroken(kinds, st.start, n, st.current.value == ClaimsSection) &&
       forall a :: 0 <= a < |st.saved| ==> st.saved[a].endLine < st.start) &&
    (forall a :: 0 <= a < |st.saved| ==> Good(lines, kinds, st.saved[a])) &&
    Ordered(st.saved)
  }

  lemma InitialInv(lines: seq<string>, kinds: seq<LineKind>)
    requires |kinds| == |lines|
    ensures Inv(lines, kinds, 0, Initial)
  {
  }

  /** Appending a good section that starts after every saved one ends keeps the order. */
  lemma AppendGood(lines: seq<string>, kinds: seq<LineKind>, saved: seq<PatentSection>, r: PatentSection)
    requires |kinds| == |lines|
    requires forall a :: 0 <= a < |saved| ==> Good(lines, kinds, saved[a])
    requires Ordered(saved)
    requires forall a :: 0 <= a < |saved| ==> saved[a].endLine < r.startLine
    requires Good(lines, kinds, r)
    ensures forall a :: 0 <= a < |saved + [r]| ==> Good(lines, kinds, (saved + [r])[a])
    ensures Ordered(saved + [r])
  {
    var s' := saved + [r];
    forall a | 0 <= a < |s'| ensures Good(lines, kinds, s'[a]) {
      if a < |saved| {
        assert s'[a] == saved[a];
      }
    }
  }

  lemma StepBlank(lines: seq<string>, kinds: seq<LineKind>, i: nat, st: ParseState)
    requires |kinds| == |lines| && i < |lines|
    requires Inv(lines, kinds, i, st)
    requires kinds[i] == Blank
    ensures Inv(lines, kinds, i + 1, Step(st, i, lines[i], kinds[i]))
  {
    if st.current.Some? {
      assert lines[ContentFrom(kinds, st.start)..i + 1] == st.buffer + [lines[i]];
    }
  }

  lemma StepPlain(lines: seq<string>, kinds: seq<LineKind>, i: nat, st: ParseState)
    requires |kinds| == |lines| && i < |lines|
    requires Inv(lines, kinds, i, st)
    requires kinds[i] == Plain || (kinds[i] == Numbered && st.current != Some(ClaimsSection))
    ensures Inv(lines, kinds, i + 1, Step(st, i, lines[i], kinds[i]))
  {
    if st.current.Some? {
      assert lines[ContentFrom(kinds, st.start)..i + 1] == st.buffer + [lines[i]];
    }
  }

  /** The section a header line closes is good. */
  lemma ClosedSectionGood(lines: seq<string>, kinds: seq<LineKind>, i: nat, st: ParseState)
    requires |kinds| == |lines| && i < |lines| && WellKinded(kinds)
    requires Inv(lines, kinds, i, st)
    requires kinds[i].Header? && st.current.Some?
    requires st.buffer != [] && BufferText(st.buffer) != ""
    ensures Good(lines, kinds, SectionRecord(st.current.value, BufferText(st.buffer), st.start, i - 1, kinds[i].text))
  {
    assert IsSectionKey(st.current.value) by {
      if kinds[st.start].Header? {
        assert WellKinded(kinds);
      }
    }
  }

  lemma StepHeader(lines: seq<string>, kinds: seq<LineKind>, i: nat, st: ParseState)
    requires |kinds| == |lines| && i < |lines| && WellKinded(kinds)
    requires Inv(lines, kinds, i, st)
    requires kinds[i].Header?
    ensures Inv(lines, kinds, i + 1, Step(st, i, lines[i], kinds[i]))
  {
    var saved := if st.current.Some? && st.buffer != [] then
                   WithSection(st.saved, st.current.value, BufferText(st.buffer), st.start, i - 1, kinds[i].text)
                 else st.saved;
    assert Step(st, i, lines[i], kinds[i]) == ParseState(Some(kinds[i].sectionType), i, [], saved);
    HeaderKeepsSaved(lines, kinds, i, st);
    assert !NoHeaderBefore(kinds, i + 1) by { assert kinds[i].Header?; }
    assert ContentFrom(kinds, i) == i + 1;
    assert lines[i + 1..i + 1] == [];
    OpenedInv(lines, kinds, i, kinds[i].sectionType, [], saved);
  }

  /** The state right after line i opens a section of type t. */
  lemma OpenedInv(lines: seq<string>, kinds: seq<LineKind>, i: nat, t: SectionType,
                  buffer: seq<string>, saved: seq<PatentSection>)
    requires |kinds| == |lines| && i < |lines|
    requires OpensAs(kinds, i, t) && !NoHeaderBefore(kinds, i + 1)
    requires buffer == lines[ContentFrom(kinds, i)..i + 1]
    requires forall a :: 0 <= a < |saved| ==> Good(lines, kinds, saved[a])
    requires Ordered(saved) && forall a :: 0 <= a < |saved| ==> saved[a].endLine < i
    ensures Inv(lines, kinds, i + 1, ParseState(Some(t), i, buffer, saved))
  {
  }

  /** The sections saved after a header line are good, in order, and end before it. */
  lemma HeaderKeepsSaved(lines: seq<string>, kinds: seq<LineKind>, i: nat, st: ParseState)
    requires |kinds| == |lines| && i < |lines| && WellKinded(kinds)
    requires Inv(lines, kinds, i, st)
    requires kinds[i].Header?
    ensures var saved := if st.current.Some? && st.buffer != [] then
                           WithSection(st.saved, st.current.value, BufferText(st.buffer), st.start, i - 1, kinds[i].text)
                         else st.saved;
            (forall a :: 0 <= a < |saved| ==> Good(lines, kinds, saved[a])) && Ordered(saved) &&
            (forall a :: 0 <= a < |saved| ==> saved[a].endLine < i)
  {
    if st.current.Some? && st.buffer != [] && BufferText(st.buffer) != "" {
      var r := SectionRecord(st.current.value, BufferText(st.buffer), st.start, i - 1, kinds[i].text);
      ClosedSectionGood(lines, kinds, i, st);
      AppendGood(lines, kinds, st.saved, r);
      var saved := st.saved + [r];
      forall a | 0 <= a < |saved| ensures saved[a].endLine < i {
        if a < |st.saved| {
          assert saved[a] == st.saved[a];
        }
      }
    }
  }

  /** The claim a claim number line closes is good. */
  lemma ClosedClaimGood(lines: seq<string>, kinds: seq<LineKind>, i: nat, st: ParseState)
    requires |kinds| == |lines| && i < |lines|
    requires Inv(lines, kinds, i, st)
    requires kinds[i] == Numbered && st.current == Some(ClaimsSection)
    requires st.buffer != [] && BufferText(st.buffer) != ""
    ensures Good(lines, kinds, PatentSection(ClaimSection, BufferText(st.buffer), st.start, i - 1, ""))
  {
  }

  lemma StepClaimNumber(lines: seq<string>, kinds: seq<LineKind>, i: nat, st: ParseState)
    requires |kinds| == |lines| && i < |lines|
    requires Inv(lines, kinds, i, st)
    requires kinds[i] == Numbered && st.current == Some(ClaimsSection)
    ensures Inv(lines, kinds, i + 1, Step(st, i, lines[i], kinds[i]))
  {
    var saved := if st.buffer != [] then WithClaim(st.saved, BufferText(st.buffer), st.start, i - 1)
                 else st.saved;
    assert Step(st, i, lines[i], kinds[i]) == ParseState(st.current, i, [lines[i]], saved);
    ClaimKeepsSaved(lines, kinds, i, st);
    assert !NoHeaderBefore(kinds, i + 1) by {
      var j :| 0 <= j < st.start + 1 && kinds[j].Header?;
    }
    assert ContentFrom(kinds, i) == i;
    SliceOfOne(lines, i);
    OpenedInv(lines, kinds, i, ClaimsSection, [lines[i]], saved);
  }

  lemma SliceOfOne<T>(s: seq<T>, i: nat)
    requires i < |s|
    ensures s[i..i + 1] == [s[i]]
  {
  }

  /** The sections saved after a claim number line are good, in order, and end before it. */
  lemma ClaimKeepsSaved(lines: seq<string>, kinds: seq<LineKind>, i: nat, st: ParseState)
    requires |kinds| == |lines| && i < |lines|
    requires Inv(lines, kinds, i, st)
    requires kinds[i] == Numbered && st.current == Some(ClaimsSection)
    ensures var saved := if st.buffer != [] then WithClaim(st.saved, BufferText(st.buffer), st.start, i - 1)
                         else st.saved;
            (forall a :: 0 <= a < |saved| ==> Good(lines, kinds, saved[a])) && Ordered(saved) &&
            (forall a :: 0 <= a < |saved| ==> saved[a].endLine < i)
  {
    if st.buffer != [] && BufferText(st.buffer) != "" {
      var r := PatentSection(ClaimSection, BufferText(st.buffer), st.start, i - 1, "");
      ClosedClaimGood(lines, kinds, i, st);
      AppendGood(lines, kinds, st.saved, r);
      var saved := st.saved + [r];
      forall a | 0 <= a < |saved| ensures saved[a].endLine < i {
        if a < |st.saved| {
          assert saved[a] == st.saved[a];
        }
      }
    }
  }

  lemma StepInv(lines: seq<string>, kinds: seq<LineKind>, i: nat, st: ParseState)
    requires |kinds| == |lines| && i < |lines| && WellKinded(kinds)
    requires Inv(lines, kinds, i, st)
    ensures Inv(lines, kinds, i + 1, Step(st, i, lines[i], kinds[i]))
  {
    match kinds[i]
    case Blank => StepBlank(lines, kinds, i, st);
    case Header(_, _) => StepHeader(lines, kinds, i, st);
    case Numbered =>
      if st.current == Some(ClaimsSection) {
        StepClaimNumber(lines, kinds, i, st);
      } else {
        StepPlain(lines, kinds, i, st);
      }
    case Plain => StepPlain(lines, kinds, i, st);
  }

  lemma {:induction false} RunInv(lines: seq<string>, kinds: seq<LineKind>, n: nat)
    requires |kinds| == |lines| && n <= |lines| && WellKinded(kinds)
    ensures Inv(lines, kinds, n, Run(lines, kinds, n))
  {
    if n > 0 {
      RunInv(lines, kinds, n - 1);
      StepInv(lines, kinds, n - 1, Run(lines, kinds, n - 1));
    }
  }

  /** After the final saving every section is good and they are in order. */
  lemma FinishGood(lines: seq<string>, kinds: seq<LineKind>, st: ParseState)
    requires |kinds| == |lines| && WellKinded(kinds)
    requires Inv(lines, kinds, |lines|, st)
    ensures var saved := Finish(st, |lines|);
            (forall a :: 0 <= a < |saved| ==> Good(lines, kinds, saved[a])) && Ordered(saved)
  {
    var n := |lines|;
    if st.current.Some? && st.buffer != [] {
      var content := BufferText(st.buffer);
      if content != "" {
        var t := st.current.value;
        assert IsSectionKey(t) by { if kinds[st.start].Header? { assert WellKinded(kinds); } }
        var r := if t == ClaimsSection then PatentSection(ClaimSection, content, st.start, n - 1, "")
                 else SectionRecord(t, content, st.start, n - 1, "");
        assert Good(lines, kinds, r);
        AppendGood(lines, kinds, st.saved, r);
      }
    }
  }

  lemma KindsWellKinded(lines: seq<string>)
    ensures WellKinded(Kinds(lines))
  {
  }

  /** Every section parse_document saves is good, and each ends before the
      next one starts (so start lines strictly increase). */
  lemma SavedSectionsGood(text: string)
    ensures var lines := Split(text, '\n'); var saved := SavedSections(text);
            (forall a :: 0 <= a < |saved| ==> Good(lines, Kinds(lines), saved[a])) && Ordered(saved)
  {
    var lines := Split(text, '\n');
    KindsWellKinded(lines);
    RunInv(lines, Kinds(lines), |lines|);
    FinishGood(lines, Kinds(lines), Run(lines, Kinds(lines), |lines|));
  }

  /** Non-blank lines before the first header belong to no section: every
      saved section starts at or after the first header line. */
  lemma BeforeFirstHeaderDropped(text: string, h: nat)
    requires var lines := Split(text, '\n'); h <= |lines| && NoHeaderBefore(Kinds(lines), h)
    ensures forall s :: s in SavedSections(text) ==> h <= s.startLine
  {
    var lines := Split(text, '\n');
    SavedSectionsGood(text);
    var saved := SavedSections(text);
    forall s | s in saved ensures h <= s.startLine {
      var a :| 0 <= a < |saved| && saved[a] == s;
      assert Good(lines, Kinds(lines), s);
    }
  }

  /** With no header line the loop never leaves its initial section and
      nothing is saved. */
  lemma {:induction false} NoHeaderRun(lines: seq<string>, kinds: seq<LineKind>, n: nat)
    requires |kinds| == |lines| && n <= |lines|
    requires NoHeaderBefore(kinds, n)
    ensures Run(lines, kinds, n).current.None? && Run(lines, kinds, n).saved == []
  {
    if n > 0 {
      NoHeaderRun(lines, kinds, n - 1);
    }
  }

  /** A document without a header line parses to four empty lists. */
  lemma NoHeaderNoSections(text: string)
    requires var lines := Split(text, '\n'); NoHeaderBefore(Kinds(lines), |lines|)
    ensures Parse(text) == NoSections
  {
    var lines := Split(text, '\n');
    NoHeaderRun(lines, Kinds(lines), |lines|);
  }

  /** A line whose stripped text matches a header pattern is a header (it
      opens a section), never a claim number line. */
  lemma HeaderBeforeClaimNumber(line: string)
    requires Strip(line) != "" && DetectSectionHeader(Strip(line)).Some?
    ensures Classify(line) == Header(DetectSectionHeader(Strip(line)).value, Strip(line))
    ensures Classify(line) != Numbered
  {
  }

  // ---------------------------------------------------------------------------
  // Nothing after the first header is lost

  /** A buffer holding a non-blank line has non-empty stripped text, so closing it saves a section. */
  lemma BufferTextKept(buffer: seq<string>, k: nat)
    requires k < |buffer| && !AllSpace(buffer[k])
    ensures BufferText(buffer) != ""
  {
    JoinNotAllSpace(buffer, "\n", k);
    StripEmptyIff(Join(buffer, "\n"));
  }

  /** Some saved section starts on line p and reaches line j. */
  predicate SavedSpan(saved: seq<PatentSection>, p: int, j: int) {
    exists a :: 0 <= a < |saved| && saved[a].startLine == p && p <= j <= saved[a].endLine
  }

  /** Before line n the section opened on line p, which holds line j, is either
      saved already or still open with a non-blank line in its buffer. */
  predicate Kept(st: ParseState, p: int, j: int, n: int) {
    SavedSpan(st.saved, p, j) ||
    (st.current.Some? && st.start == p && p <= j < n &&
     exists k :: 0 <= k < |st.buffer| && !AllSpace(st.buffer[k]))
  }

  lemma SavedSpanGrows(saved: seq<PatentSection>, extra: seq<PatentSection>, p: int, j: int)
    requires SavedSpan(saved, p, j)
    ensures SavedSpan(saved + extra, p, j)
  {
    var a :| 0 <= a < |saved| && saved[a].startLine == p && p <= j <= saved[a].endLine;
    assert (saved + extra)[a] == saved[a];
  }

  lemma SavedSpanLast(saved: seq<PatentSection>, r: PatentSection, p: int, j: int)
    requires r.startLine == p && p <= j <= r.endLine
    ensures SavedSpan(saved + [r], p, j)
  {
    assert (saved + [r])[|saved|] == r;
  }

  /** Saving record r, or nothing, keeps what was saved; saving r keeps what r holds. */
  lemma WithSpan(saved: seq<PatentSection>, saved': seq<PatentSection>, r: PatentSection, p: int, j: int)
    requires saved' == saved || saved' == saved + [r]
    requires SavedSpan(saved, p, j) || (saved' == saved + [r] && r.startLine == p && p <= j <= r.endLine)
    ensures SavedSpan(saved', p, j)
  {
    if SavedSpan(saved, p, j) {
      SavedSpanGrows(saved, saved'[|saved|..], p, j);
      assert saved' == saved + saved'[|saved|..];
    } else {
      SavedSpanLast(saved, r, p, j);
    }
  }

  /** Appending a line to the open buffer keeps a kept line kept. */
  lemma AppendKept(st: ParseState, line: string, p: int, j: int, n: int)
    requires Kept(st, p, j, n)
    ensures Kept(st.(buffer := st.buffer + [line]), p, j, n + 1)
  {
    if !SavedSpan(st.saved, p, j) {
      var k :| 0 <= k < |st.buffer| && !AllSpace(st.buffer[k]);
      assert (st.buffer + [line])[k] == st.buffer[k];
    }
  }

  /** One line of the loop never loses a kept line. */
  lemma KeptStep(st: ParseState, i: int, line: string, kind: LineKind, p: int, j: int)
    requires Kept(st, p, j, i)
    ensures Kept(Step(st, i, line, kind), p, j, i + 1)
  {
    var st' := Step(st, i, line, kind);
    var pending := !SavedSpan(st.saved, p, j);
    if pending && st.buffer != [] {
      var k :| 0 <= k < |st.buffer| && !AllSpace(st.buffer[k]);
      BufferTextKept(st.buffer, k);
    }
    var content := BufferText(st.buffer);
    match kind
    case Blank =>
      if st.current.Some? {
        AppendKept(st, line, p, j, i);
      }
    case Plain =>
      AppendKept(st, line, p, j, i);
    case Numbered =>
      if st.current == Some(ClaimsSection) {
        if st.buffer != [] {
          WithSpan(st.saved, st'.saved, PatentSection(ClaimSection, content, st.start, i - 1, ""), p, j);
        }
      } else {
        AppendKept(st, line, p, j, i);
      }
    case Header(t, text) =>
      if st.current.Some? && st.buffer != [] {
        WithSpan(st.saved, st'.saved, SectionRecord(st.current.value, content, st.start, i - 1, text), p, j);
      }
  }

  lemma {:induction false} KeptRun(lines: seq<string>, kinds: seq<LineKind>, p: int, j: int, m: nat, n: nat)
    requires |kinds| == |lines| && m <= n <= |lines|
    requires Kept(Run(lines, kinds, m), p, j, m)
    ensures Kept(Run(lines, kinds, n), p, j, n)
    decreases n
  {
    if n > m {
      KeptRun(lines, kinds, p, j, m, n - 1);
      KeptStep(Run(lines, kinds, n - 1), n - 1, lines[n - 1], kinds[n - 1], p, j);
    }
  }

  /** The saving after the loop closes the open section, so a kept line ends up saved. */
  lemma KeptFinish(st: ParseState, n: int, p: int, j: int)
    requires Kept(st, p, j, n)
    ensures SavedSpan(Finish(st, n), p, j)
  {
    if st.current.Some? && st.buffer != [] {
      if !SavedSpan(st.saved, p, j) {
        var k :| 0 <= k < |st.buffer| && !AllSpace(st.buffer[k]);
        BufferTextKept(st.buffer, k);
      }
      var content := BufferText(st.buffer);
      if st.current.value == ClaimsSection {
        WithSpan(st.saved, Finish(st, n), PatentSection(ClaimSection, content, st.start, n - 1, ""), p, j);
      } else {
        WithSpan(st.saved, Finish(st, n), SectionRecord(st.current.value, content, st.start, n - 1, ""), p, j);
      }
    }
  }

  /** A line that is not blank does not consist of whitespace only. */
  lemma NonBlankLine(line: string)
    requires Classify(line) != Blank
    ensures !AllSpace(line)
  {
    StripEmptyIff(line);
  }

  /** A line kept after the first m lines ends up in a good saved section opened on line p. */
  lemma KeptSaved(lines: seq<string>, kinds: seq<LineKind>, p: int, j: int, m: nat)
    requires |kinds| == |lines| && m <= |lines| && WellKinded(kinds)
    requires Kept(Run(lines, kinds, m), p, j, m)
    ensures exists s :: s in Finish(Run(lines, kinds, |lines|), |lines|) && s.startLine == p && p <= j <= s.endLine &&
                        Good(lines, kinds, s)
  {
    var st := Run(lines, kinds, |lines|);
    KeptRun(lines, kinds, p, j, m, |lines|);
    KeptFinish(st, |lines|, p, j);
    var saved := Finish(st, |lines|);
    var a :| 0 <= a < |saved| && saved[a].startLine == p && p <= j <= saved[a].endLine;
    RunInv(lines, kinds, |lines|);
    FinishGood(lines, kinds, st);
    assert saved[a] in saved;
  }

  /** A non-blank line that is not a header, read while a section is open, is kept. */
  lemma ReadKept(st: ParseState, j: int, line: string, kind: LineKind)
    requires st.current.Some? && st.start <= j && !AllSpace(line) && (kind == Plain || kind == Numbered)
    ensures Kept(Step(st, j, line, kind), Step(st, j, line, kind).start, j, j + 1)
  {
    var st1 := Step(st, j, line, kind);
    assert st1.buffer[|st1.buffer| - 1] == line;
  }

  /** After a header line the loop always has a section open, opened on an earlier line. */
  lemma OpenAfterHeader(lines: seq<string>, kinds: seq<LineKind>, h: nat, n: nat)
    requires |kinds| == |lines| && WellKinded(kinds) && h < n <= |lines| && kinds[h].Header?
    ensures Run(lines, kinds, n).current.Some? && 0 <= Run(lines, kinds, n).start < n
  {
    RunInv(lines, kinds, n);
    assert !NoHeaderBefore(kinds, n);
  }

  /** ContentLineKept over any well-kinded line kinds. */
  lemma ContentLineKeptIn(lines: seq<string>, kinds: seq<LineKind>, h: nat, j: nat)
    requires |kinds| == |lines| && WellKinded(kinds)
    requires h < j < |lines| && kinds[h].Header? && (kinds[j] == Plain || kinds[j] == Numbered) && !AllSpace(lines[j])
    ensures exists s :: s in Finish(Run(lines, kinds, |lines|), |lines|) && 0 <= s.startLine <= j <= s.endLine &&
                        ContentFrom(kinds, s.startLine) <= j
  {
    var p := ReadAfterHeader(lines, kinds, h, j);
    var s := KeptContent(lines, kinds, p, j, j + 1);
  }

  /** A kept line that is not a header lies in the content of the saved section holding it. */
  lemma KeptContent(lines: seq<string>, kinds: seq<LineKind>, p: int, j: int, m: nat) returns (s: PatentSection)
    requires |kinds| == |lines| && m <= |lines| && WellKinded(kinds)
    requires Kept(Run(lines, kinds, m), p, j, m) && 0 <= j < |lines| && !kinds[j].Header?
    ensures s in Finish(Run(lines, kinds, |lines|), |lines|) && 0 <= s.startLine <= j <= s.endLine &&
            ContentFrom(kinds, s.startLine) <= j
  {
    KeptSaved(lines, kinds, p, j, m);
    s :| s in Finish(Run(lines, kinds, |lines|), |lines|) && s.startLine == p && p <= j <= s.endLine &&
         Good(lines, kinds, s);
  }

  /** Reading line j after a header keeps it, in the section opened on line p. */
  lemma ReadAfterHeader(lines: seq<string>, kinds: seq<LineKind>, h: nat, j: nat) returns (p: int)
    requires |kinds| == |lines| && WellKinded(kinds)
    requires h < j < |lines| && kinds[h].Header? && (kinds[j] == Plain || kinds[j] == Numbered) && !AllSpace(lines[j])
    ensures Kept(Run(lines, kinds, j + 1), p, j, j + 1)
  {
    OpenAfterHeader(lines, kinds, h, j);
    var st := Run(lines, kinds, j);
    assert Run(lines, kinds, j + 1) == Step(st, j, lines[j], kinds[j]);
    ReadKept(st, j, lines[j], kinds[j]);
    p := Step(st, j, lines[j], kinds[j]).start;
  }

  /** Every line after the first header that is neither blank nor a header is
      kept: it lies in a saved section, at or after the first line of that
      section's content, so the section's content is taken from it. */
  lemma ContentLineKept(text: string, h: nat, j: nat)
    requires var lines := Split(text, '\n');
             h < j < |lines| && Kinds(lines)[h].Header? && Kinds(lines)[j] != Blank && !Kinds(lines)[j].Header?
    ensures exists s :: s in SavedSections(text) && 0 <= s.startLine <= j <= s.endLine &&
                        ContentFrom(Kinds(Split(text, '\n')), s.startLine) <= j
  {
    var lines := Split(text, '\n');
    KindsWellKinded(lines);
    NonBlankLine(lines[j]);
    ContentLineKeptIn(lines, Kinds(lines), h, j);
  }

  /** NumberedLineOpensClaim over any well-kinded line kinds. */
  lemma NumberedOpensIn(lines: seq<string>, kinds: seq<LineKind>, i: nat)
    requires |kinds| == |lines| && WellKinded(kinds)
    requires i < |lines| && kinds[i] == Numbered && !AllSpace(lines[i])
    requires Run(lines, kinds, i).current == Some(ClaimsSection)
    ensures exists s :: s in Finish(Run(lines, kinds, |lines|), |lines|) && s.startLine == i &&
                        i <= s.endLine < |lines| &&
                        (s.sectionType == ClaimsSection || s.sectionType == ClaimSection) &&
                        s.content == BufferText(lines[i..s.endLine + 1])
  {
    var st1 := Run(lines, kinds, i + 1);
    assert st1.start == i && st1.buffer == [lines[i]];
    assert st1.buffer[0] == lines[i];
    KeptSaved(lines, kinds, i, i, i + 1);
  }

  /** A claim number line inside the claims section opens a claim: parse_document
      puts a section starting on that line into the claims list, and its content
      is the stripped text from that line to the section's end. */
  lemma NumberedLineOpensClaim(text: string, i: nat)
    requires var lines := Split(text, '\n');
             i < |lines| && Kinds(lines)[i] == Numbered && Run(lines, Kinds(lines), i).current == Some(ClaimsSection)
    ensures exists s :: s in Parse(text).claims && s.startLine == i && i <= s.endLine < |Split(text, '\n')| &&
                        s.content == BufferText(Split(text, '\n')[i..s.endLine + 1])
  {
    var lines := Split(text, '\n');
    KindsWellKinded(lines);
    NonBlankLine(lines[i]);
    NumberedOpensIn(lines, Kinds(lines), i);
    var s :| s in SavedSections(text) && s.startLine == i && i <= s.endLine < |lines| &&
             (s.sectionType == ClaimsSection || s.sectionType == ClaimSection) &&
             s.content == BufferText(lines[i..s.endLine + 1]);
    GroupedMembers(SavedSections(text), s);
  }

  // ---------------------------------------------------------------------------
  // The four lists

  /** The lists hold exactly the saved sections, each on the list of its type. */
  lemma {:induction false} GroupedMembers(saved: seq<PatentSection>, r: PatentSection)
    ensures r in Grouped(saved).title <==> r in saved && r.sectionType == TitleSection
    ensures r in Grouped(saved).abstracts <==> r in saved && r.sectionType == AbstractSection
    ensures r in Grouped(saved).claims <==>
            r in saved && (r.sectionType == ClaimsSection || r.sectionType == ClaimSection)
    ensures r in Grouped(saved).specification <==> r in saved && r.sectionType == SpecificationSection
  {
    if saved != [] {
      var init := saved[..|saved| - 1];
      GroupedMembers(init, r);
      assert saved == init + [saved[|saved| - 1]];
    }
  }

  /** Every section of the result of parse_document satisfies Good. */
  lemma ParsedSectionsGood(text: string, r: PatentSection)
    requires var p := Parse(text); r in p.title + p.abstracts + p.claims + p.specification
    ensures var lines := Split(text, '\n'); Good(lines, Kinds(lines), r)
  {
    GroupedMembers(SavedSections(text), r);
    SavedSectionsGood(text);
    var saved := SavedSections(text);
    var a :| 0 <= a < |saved| && saved[a] == r;
  }
}

/** What reconstruct_document and _translate_header guarantee. */
module ReconstructProperties {
  import opened Text
  import opened SectionParser

  // ---------------------------------------------------------------------------
  // The sort

  predicate SortedByStart(s: seq<Translated>) {
    forall i, j :: 0 <= i < j < |s| ==> s[i].0.startLine <= s[j].0.startLine
  }

  /** The pairs of `s` whose section starts on line `k`, in their order in `s`. */
  function WithStart(s: seq<Translated>, k: int): seq<Translated> {
    if s == [] then []
    else WithStart(s[..|s| - 1], k) + (if s[|s| - 1].0.startLine == k then [s[|s| - 1]] else [])
  }

  lemma {:induction false} InsertSorted(x: Translated, s: seq<Translated>)
    requires SortedByStart(s)
    ensures SortedByStart(Insert(x, s))
  {
    if s != [] && s[|s| - 1].0.startLine > x.0.startLine {
      var init := s[..|s| - 1];
      var last := s[|s| - 1];
      InsertSorted(x, init);
      var r := Insert(x, init);
      InsertPermutes(x, init);
      forall i | 0 <= i < |r| ensures r[i].0.startLine <= last.0.startLine {
        assert r[i] in multiset(r);
        assert r[i] in multiset(init) || r[i] == x;
        if r[i] != x {
          var j :| 0 <= j < |init| && init[j] == r[i];
          assert s[j] == init[j];
        }
      }
    }
  }

  /** The insertion adds `x` and loses nothing. */
  lemma {:induction false} InsertPermutes(x: Translated, s: seq<Translated>)
    ensures multiset(Insert(x, s)) == multiset(s) + multiset{x}
  {
    if s != [] && s[|s| - 1].0.startLine > x.0.startLine {
      InsertPermutes(x, s[..|s| - 1]);
      assert s == s[..|s| - 1] + [s[|s| - 1]];
    }
  }

  /** The sort is a permutation. */
  lemma {:induction false} SortPermutes(s: seq<Translated>)
    ensures multiset(SortByStart(s)) == multiset(s)
  {
    if s != [] {
      SortPermutes(s[..|s| - 1]);
      InsertPermutes(s[|s| - 1], SortByStart(s[..|s| - 1]));
      assert s == s[..|s| - 1] + [s[|s| - 1]];
    }
  }

  lemma {:induction false} SortSorted(s: seq<Translated>)
    ensures SortedByStart(SortByStart(s))
  {
    if s != [] {
      SortSorted(s[..|s| - 1]);
      InsertSorted(s[|s| - 1], SortByStart(s[..|s| - 1]));
    }
  }

  lemma WithStartAppend(s: seq<Translated>, x: Translated, k: int)
    ensures WithStart(s + [x], k) == WithStart(s, k) + (if x.0.startLine == k then [x] else [])
  {
    assert (s + [x])[..|s|] == s;
  }

  /** Inserting `x` puts it after every pair with its start line. */
  lemma {:induction false} InsertWithStart(x: Translated, s: seq<Translated>, k: int)
    ensures WithStart(Insert(x, s), k) == WithStart(s, k) + (if x.0.startLine == k then [x] else [])
  {
    if s == [] {
      WithStartAppend([], x, k);
    } else if s[|s| - 1].0.startLine <= x.0.startLine {
      WithStartAppend(s, x, k);
    } else {
      var init := s[..|s| - 1];
      var last := s[|s| - 1];
      InsertWithStart(x, init, k);
      WithStartAppend(Insert(x, init), last, k);
      assert s == init + [last];
      WithStartAppend(init, last, k);
    }
  }

  /** The sort is stable: the pairs with any one start line keep their order. */
  lemma {:induction false} SortStable(s: seq<Translated>, k: int)
    ensures WithStart(SortByStart(s), k) == WithStart(s, k)
  {
    if s != [] {
      var init := s[..|s| - 1];
      SortStable(init, k);
      InsertWithStart(s[|s| - 1], SortByStart(init), k);
      assert s == init + [s[|s| - 1]];
      WithStartAppend(init, s[|s| - 1], k);
    }
  }

  /** The pairs reconstruct_document lays out: every collected pair, each as
      often as collected, sorted stably by start line. */
  lemma LaidOutOrder(groups: seq<(string, seq<Translated>)>, k: int)
    ensures var all := Flattened(groups); var sorted := SortByStart(all);
            multiset(sorted) == multiset(all) && SortedByStart(sorted) &&
            WithStart(sorted, k) == WithStart(all, k)
  {
    SortSorted(Flattened(groups));
    SortPermutes(Flattened(groups));
    SortStable(Flattened(groups), k);
  }

  // ---------------------------------------------------------------------------
  // The layout

  lemma {:induction false} RenderedPrefix(items: seq<Translated>, n: nat)
    requires n <= |items|
    ensures |Rendered(items[..n])| <= |Rendered(items)|
    ensures Rendered(items)[..|Rendered(items[..n])|] == Rendered(items[..n])
  {
    if n < |items| {
      var init := items[..|items| - 1];
      assert init[..n] == items[..n];
      RenderedPrefix(init, n);
      assert items[..|items|] == items;
    } else {
      assert items[..n] == items;
    }
  }

  /** The i-th pair's lines come right after those of the pairs before it:
      its translated heading and a blank line when it has a heading, then
      its text and a blank line. */
  lemma RenderedHoldsBlock(items: seq<Translated>, i: nat)
    requires i < |items|
    ensures var at := |Rendered(items[..i])|; var block := Block(items[i]);
            at + |block| <= |Rendered(items)| && Rendered(items)[at..at + |block|] == block
  {
    RenderedPrefix(items, i + 1);
    assert items[..i + 1][..i] == items[..i];
    var pre := Rendered(items[..i]);
    var block := Block(items[i]);
    assert Rendered(items[..i + 1]) == pre + block;
    assert Rendered(items)[|pre|..|pre| + |block|] == (pre + block)[|pre|..];
  }

  // ---------------------------------------------------------------------------
  // _translate_header

  /** The "BRIEF DESCRIPTION OF THE DRAWINGS" entry is never used: any header
      containing it contains "DESCRIPTION", an earlier key. */
  lemma {:induction false} NotDrawingsFrom(u: string, header: string, k: nat)
    requires k <= 9
    requires k == 9 ==> !Contains(u, HeaderTranslations[8].0)
    ensures TranslateFrom(u, header, HeaderTranslations, k) == HeaderTranslations[9].1 ==>
            header == HeaderTranslations[9].1
    decreases 9 - k
  {
    var t := HeaderTranslations;
    if k == 9 {
      if Contains(u, t[9].0) {
        DrawingsKeyHasDescription();
        ContainsInner(u, t[9].0, t[8].0, 6);
      }
    } else if !Contains(u, t[k].0) {
      NotDrawingsFrom(u, header, k + 1);
    } else {
      assert t[k].1[0] != t[9].1[0];
    }
  }

  lemma DrawingsKeyHasDescription()
    ensures OccursAt(HeaderTranslations[9].0, HeaderTranslations[8].0, 6)
  {
    var brief, rest := "BRIEF ", " OF THE DRAWINGS";
    assert HeaderTranslations[9].0 == brief + HeaderTranslations[8].0 + rest;
    assert (brief + HeaderTranslations[8].0 + rest)[6..17] == HeaderTranslations[8].0;
  }

  lemma DrawingsNeverTranslated(header: string)
    ensures TranslateHeader(header) == "도면의 간단한 설명" ==> header == "도면의 간단한 설명"
  {
    NotDrawingsFrom(ToUpper(header), header, 0);
  }
}
