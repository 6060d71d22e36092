// The section parser of src/section_parser.py.
//
// `parse_document` is a loop over the lines of a document that keeps the
// current section, the line it started on and a buffer of its lines, and
// files each finished section into one of four lists. Here that loop is
// specified as a fold (`Run`) over the lines, each line first classified
// (`Classify`) as blank, a section header, a claim number or plain text;
// ParseDocument performs the loop of the source on a SectionLists object
// and is proved to produce the lists the fold describes. The record of every
// saved section, in the order the source saves them, is kept by the fold
// (`saved`): the four lists are that record split by section type.
//
// A `re.match` of a header pattern is modelled by the words it requires at
// the start of the line: each pattern of the source is a fixed word, or
// words separated by whitespace, followed by optional parts that can match
// the empty string, so the pattern matches exactly when the line opens with
// one of the word sequences listed for it.
module SectionParser {
  import opened Options
  import opened Text

  /** The values of `section_type`: the types of the sections saved, and of a
      single claim. TypeName gives each its string. */
  datatype SectionType = TitleSection | AbstractSection | ClaimsSection | ClaimSection | SpecificationSection

  function TypeName(t: SectionType): string {
    match t
    case TitleSection => "title"
    case AbstractSection => "abstract"
    case ClaimsSection => "claims"
    case ClaimSection => "claim"
    case SpecificationSection => "specification"
  }

  /** PatentSection. Line numbers are Python ints (an end line can be -1 only
      for a section that is never saved). */
  datatype PatentSection = PatentSection(sectionType: SectionType, content: string,
                                         startLine: int, endLine: int, heading: string)

  /** The dictionary parse_document returns: exactly its four keys (`abstracts` is
      the list under the key 'abstract'). */
  datatype Sections = Sections(title: seq<PatentSection>, abstracts: seq<PatentSection>,
                               claims: seq<PatentSection>, specification: seq<PatentSection>)

  /** The types that name a list of the dictionary (all but a single claim). */
  predicate IsSectionKey(t: SectionType) {
    !t.ClaimSection?
  }

  // ---------------------------------------------------------------------------
  // _detect_section_header

  /** The header patterns of one section type, each as the word sequences it
      accepts at the start of the upper-cased line. */
  datatype HeaderGroup = HeaderGroup(group: PatternGroup, alternatives: seq<seq<string>>)

  /** The keys of `section_patterns`. */
  datatype PatternGroup = TitleGroup | AbstractGroup | ClaimsGroup | BackgroundGroup
                        | SummaryGroup | DescriptionGroup | DrawingsGroup

  /** `section_patterns`, in the order of the dictionary. */
  const SectionPatterns: seq<HeaderGroup> := [
    HeaderGroup(TitleGroup, [["TITLE"], ["INVENTION", "TITLE"]]),
    HeaderGroup(AbstractGroup, [["ABSTRACT"], ["TECHNICAL", "ABSTRACT"]]),
    HeaderGroup(ClaimsGroup, [["CLAIM"], ["WHAT", "IS", "CLAIMED"], ["WE", "CLAIM"], ["I", "CLAIM"]]),
    HeaderGroup(BackgroundGroup, [["BACKGROUND"], ["FIELD"]]),
    HeaderGroup(SummaryGroup, [["SUMMARY"], ["BRIEF", "SUMMARY"]]),
    HeaderGroup(DescriptionGroup, [["DETAILED", "DESCRIPTION"], ["DESCRIPTION"]]),
    HeaderGroup(DrawingsGroup, [["BRIEF", "DESCRIPTION", "OF", "THE", "DRAWING"],
                            ["BRIEF", "DESCRIPTION", "OF", "DRAWING"],
                            ["DESCRIPTION", "OF", "THE", "DRAWING"],
                            ["DESCRIPTION", "OF", "DRAWING"]])
  ]

  /** `s` opens with `words`, consecutive words separated by at least one
      whitespace character (`W1\s+W2\s+...`). */
  predicate Opens(s: string, words: seq<string>)
    decreases |words|
  {
    if words == [] then true
    else
      StartsWith(s, words[0]) &&
      (|words| == 1 ||
       (|words[0]| < |s| && IsSpace(s[|words[0]|]) &&
        Opens(s[SpaceRunEnd(s, |words[0]|)..], words[1..])))
  }

  predicate GroupMatches(u: string, g: HeaderGroup) {
    exists j | 0 <= j < |g.alternatives| :: Opens(u, g.alternatives[j])
  }

  /** Background, summary, description and drawings are all filed as specification. */
  function Collapsed(g: PatternGroup): (t: SectionType)
    ensures IsSectionKey(t)
    ensures t == SpecificationSection <==>
            g == BackgroundGroup || g == SummaryGroup || g == DescriptionGroup || g == DrawingsGroup
  {
    match g
    case TitleGroup => TitleSection
    case AbstractGroup => AbstractSection
    case ClaimsGroup => ClaimsSection
    case _ => SpecificationSection
  }

  /** The first group, from index k on, whose patterns match `u`. */
  function DetectFrom(u: string, k: nat): (r: Option<SectionType>)
    requires k <= |SectionPatterns|
    ensures r.None? <==> forall j :: k <= j < |SectionPatterns| ==> !GroupMatches(u, SectionPatterns[j])
    ensures r.Some? ==> IsSectionKey(r.value)
    ensures r.Some? ==>
              exists j :: k <= j < |SectionPatterns| && GroupMatches(u, SectionPatterns[j]) &&
                          r.value == Collapsed(SectionPatterns[j].group) &&
                          forall m :: k <= m < j ==> !GroupMatches(u, SectionPatterns[m])
    decreases |SectionPatterns| - k
  {
    if k == |SectionPatterns| then None
    else if GroupMatches(u, SectionPatterns[k]) then Some(Collapsed(SectionPatterns[k].group))
    else DetectFrom(u, k + 1)
  }

  /** _detect_section_header: the section type of the first group (in table
      order) with a pattern matching the upper-cased line, collapsed; None when
      no pattern matches. Upper-casing is the ASCII one of Text.ToUpper. */
  function DetectSectionHeader(line: string): (r: Option<SectionType>)
    ensures r.Some? ==> IsSectionKey(r.value)
  {
    DetectFrom(ToUpper(line), 0)
  }

  // ---------------------------------------------------------------------------
  // The claim number pattern `^\s*(?:Claim\s+)?(\d+)\.\s+`

  /** At `p`: one or more digits, a period and a whitespace character. */
  predicate NumberedAt(s: string, p: nat)
    requires p <= |s|
  {
    var e := DigitRunEnd(s, p);
    p < e && e + 1 < |s| && s[e] == '.' && IsSpace(s[e + 1])
  }

  /** `re.match(claim_number_pattern, s)` on a stripped line (no leading
      whitespace, so the leading `\s*` matches nothing). */
  predicate IsClaimNumberLine(s: string) {
    NumberedAt(s, 0) ||
    (StartsWith(s, "Claim") && 5 < |s| && IsSpace(s[5]) && NumberedAt(s, SpaceRunEnd(s, 5)))
  }

  // ---------------------------------------------------------------------------
  // The loop of parse_document as a fold

  /** What the loop body does with a line is decided by its kind. */
  datatype LineKind =
    | Blank                                    // strips to ""
    | Header(sectionType: SectionType, text: string) // a section header; text is the stripped line
    | Numbered                                 // not a header, matches the claim number pattern
    | Plain

  function Classify(line: string): (k: LineKind)
    ensures k.Header? ==> IsSectionKey(k.sectionType) && k.text == Strip(line) && k.text != ""
    ensures k == Blank <==> Strip(line) == ""
  {
    var s := Strip(line);
    if s == "" then Blank
    else match DetectSectionHeader(s)
      case Some(t) => Header(t, s)
      case None => if IsClaimNumberLine(s) then Numbered else Plain
  }

  function Kinds(lines: seq<string>): (ks: seq<LineKind>)
    ensures |ks| == |lines|
    ensures forall j :: 0 <= j < |lines| ==> ks[j] == Classify(lines[j])
  {
    seq(|lines|, j requires 0 <= j < |lines| => Classify(lines[j]))
  }

  /** The record _save_section appends: title, abstract and claims keep their
      type, anything else is filed as specification. */
  function SectionRecord(sectionType: SectionType, content: string, startLine: int, endLine: int,
                         heading: string): (r: PatentSection)
    ensures IsSectionKey(sectionType) ==> r.sectionType == sectionType
    ensures IsSectionKey(r.sectionType)
  {
    var t := if sectionType in {TitleSection, AbstractSection, ClaimsSection} then sectionType
             else SpecificationSection;
    PatentSection(t, content, startLine, endLine, heading)
  }

  /** _save_section on the record of saved sections: nothing for empty content. */
  function WithSection(saved: seq<PatentSection>, sectionType: SectionType, content: string,
                       startLine: int, endLine: int, heading: string): seq<PatentSection>
  {
    if content == "" then saved else saved + [SectionRecord(sectionType, content, startLine, endLine, heading)]
  }

  /** _save_claim on the record of saved sections. */
  function WithClaim(saved: seq<PatentSection>, content: string, startLine: int,
                     endLine: int): seq<PatentSection>
  {
    if content == "" then saved else saved + [PatentSection(ClaimSection, content, startLine, endLine, "")]
  }

  /** The loop's variables `current_section`, `section_start` and
      `section_content`, and the sections saved so far, in order. */
  datatype ParseState = ParseState(current: Option<SectionType>, start: int, buffer: seq<string>,
                                   saved: seq<PatentSection>)

  const Initial: ParseState := ParseState(None, 0, [], [])

  /** `'\n'.join(section_content).strip()` */
  function BufferText(buffer: seq<string>): string {
    Strip(Join(buffer, "\n"))
  }

  /** One iteration of the loop, for line `i` of kind `kind`. */
  function Step(st: ParseState, i: int, line: string, kind: LineKind): ParseState {
    match kind
    case Blank =>
      if st.current.Some? then st.(buffer := st.buffer + [line]) else st
    case Header(t, text) =>
      var saved := if st.current.Some? && st.buffer != [] then
                     WithSection(st.saved, st.current.value, BufferText(st.buffer), st.start, i - 1, text)
                   else st.saved;
      ParseState(Some(t), i, [], saved)
    case Numbered =>
      if st.current == Some(ClaimsSection) then
        var saved := if st.buffer != [] then WithClaim(st.saved, BufferText(st.buffer), st.start, i - 1)
                     else st.saved;
        ParseState(st.current, i, [line], saved)
      else st.(buffer := st.buffer + [line])
    case Plain =>
      st.(buffer := st.buffer + [line])
  }

  /** The state after the first n lines, each of the kind `kinds` gives it. */
  function Run(lines: seq<string>, kinds: seq<LineKind>, n: nat): ParseState
    requires |kinds| == |lines| && n <= |lines|
  {
    if n == 0 then Initial
    else Step(Run(lines, kinds, n - 1), n - 1, lines[n - 1], kinds[n - 1])
  }

  /** The saving after the loop: the open section, ending on the last line. */
  function Finish(st: ParseState, n: int): seq<PatentSection> {
    if st.current.Some? && st.buffer != [] then
      if st.current.value == ClaimsSection then WithClaim(st.saved, BufferText(st.buffer), st.start, n - 1)
      else WithSection(st.saved, st.current.value, BufferText(st.buffer), st.start, n - 1, "")
    else st.saved
  }

  /** Every section parse_document saves, in the order it saves them. */
  function SavedSections(text: string): seq<PatentSection> {
    var lines := Split(text, '\n');
    Finish(Run(lines, Kinds(lines), |lines|), |lines|)
  }

  /** A saved section's record goes to the list of its type; a claim ('claim')
      and a claims section closed by a header ('claims') both go to claims. */
  function Filed(s: Sections, r: PatentSection): Sections {
    match r.sectionType
    case TitleSection => s.(title := s.title + [r])
    case AbstractSection => s.(abstracts := s.abstracts + [r])
    case ClaimsSection => s.(claims := s.claims + [r])
    case ClaimSection => s.(claims := s.claims + [r])
    case SpecificationSection => s.(specification := s.specification + [r])
  }

  const NoSections: Sections := Sections([], [], [], [])

  /** The four lists that saving the sections of `saved` in order builds. */
  function Grouped(saved: seq<PatentSection>): Sections {
    if saved == [] then NoSections
    else Filed(Grouped(saved[..|saved| - 1]), saved[|saved| - 1])
  }

  /** parse_document */
  function Parse(text: string): Sections {
    Grouped(SavedSections(text))
  }

  // ---------------------------------------------------------------------------
  // The source's loop

  /** The `sections` dictionary that parse_document fills through
      _save_section and _save_claim. */
  class SectionLists {
    var title: seq<PatentSection>
    var abstracts: seq<PatentSection>
    var claims: seq<PatentSection>
    var specification: seq<PatentSection>

    constructor ()
      ensures Value() == NoSections
    {
      title, abstracts, claims, specification := [], [], [], [];
    }

    function Value(): Sections
      reads this
    {
      Sections(title, abstracts, claims, specification)
    }

    /** _save_section */
    method SaveSection(sectionType: SectionType, content: string, startLine: int, endLine: int, heading: string)
      modifies this
      ensures content == "" ==> Value() == old(Value())
      ensures content != "" ==>
                Value() == Filed(old(Value()), SectionRecord(sectionType, content, startLine, endLine, heading))
    {
      if content == "" {
        return;
      }
      if sectionType in {TitleSection, AbstractSection, ClaimsSection} {
        var r := PatentSection(sectionType, content, startLine, endLine, heading);
        if sectionType == TitleSection {
          title := title + [r];
        } else if sectionType == AbstractSection {
          abstracts := abstracts + [r];
        } else {
          claims := claims + [r];
        }
      } else {
        specification := specification + [PatentSection(SpecificationSection, content, startLine, endLine, heading)];
      }
    }

    /** _save_claim */
    method SaveClaim(content: string, startLine: int, endLine: int)
      modifies this
      ensures content == "" ==> Value() == old(Value())
      ensures content != "" ==> Value() == Filed(old(Value()), PatentSection(ClaimSection, content, startLine, endLine, ""))
    {
      if content == "" {
        return;
      }
      claims := claims + [PatentSection(ClaimSection, content, startLine, endLine, "")];
    }
  }

  lemma GroupedAppend(saved: seq<PatentSection>, r: PatentSection)
    ensures Grouped(saved + [r]) == Filed(Grouped(saved), r)
  {
    assert (saved + [r])[..|saved|] == saved;
  }

  lemma GroupedWithSection(saved: seq<PatentSection>, sectionType: SectionType, content: string,
                           startLine: int, endLine: int, heading: string)
    ensures content != "" ==>
              Grouped(WithSection(saved, sectionType, content, startLine, endLine, heading)) ==
              Filed(Grouped(saved), SectionRecord(sectionType, content, startLine, endLine, heading))
    ensures content == "" ==> WithSection(saved, sectionType, content, startLine, endLine, heading) == saved
  {
    if content != "" {
      GroupedAppend(saved, SectionRecord(sectionType, content, startLine, endLine, heading));
    }
  }

  lemma GroupedWithClaim(saved: seq<PatentSection>, content: string, startLine: int, endLine: int)
    ensures content != "" ==>
              Grouped(WithClaim(saved, content, startLine, endLine)) ==
              Filed(Grouped(saved), PatentSection(ClaimSection, content, startLine, endLine, ""))
    ensures content == "" ==> WithClaim(saved, content, startLine, endLine) == saved
  {
    if content != "" {
      GroupedAppend(saved, PatentSection(ClaimSection, content, startLine, endLine, ""));
    }
  }

  /** The body of parse_document's loop for line `i`. */
  method ParseLine(sections: SectionLists, current: Option<SectionType>, sectionStart: int,
                   sectionContent: seq<string>, ghost saved: seq<PatentSection>, i: int, line: string)
    returns (current': Option<SectionType>, sectionStart': int, sectionContent': seq<string>,
             ghost saved': seq<PatentSection>)
    requires sections.Value() == Grouped(saved)
    modifies sections
    ensures ParseState(current', sectionStart', sectionContent', saved') ==
            Step(ParseState(current, sectionStart, sectionContent, saved), i, line, Classify(line))
    ensures sections.Value() == Grouped(saved')
  {
    current', sectionStart', sectionContent', saved' := current, sectionStart, sectionContent, saved;
    var lineStripped := Strip(line);
    if lineStripped == "" {
      if current.Some? {
        sectionContent' := sectionContent + [line];
      }
      return;
    }
    var detected := DetectSectionHeader(lineStripped);
    if detected.Some? {
      if current.Some? && sectionContent != [] {
        var content := Strip(Join(sectionContent, "\n"));
        sections.SaveSection(current.value, content, sectionStart, i - 1, lineStripped);
        GroupedWithSection(saved, current.value, content, sectionStart, i - 1, lineStripped);
        saved' := WithSection(saved, current.value, content, sectionStart, i - 1, lineStripped);
      }
      current' := detected;
      sectionStart' := i;
      sectionContent' := [];
    } else if current == Some(ClaimsSection) {
      if IsClaimNumberLine(lineStripped) {
        if sectionContent != [] {
          var content := Strip(Join(sectionContent, "\n"));
          sections.SaveClaim(content, sectionStart, i - 1);
          GroupedWithClaim(saved, content, sectionStart, i - 1);
          saved' := WithClaim(saved, content, sectionStart, i - 1);
        }
        sectionStart' := i;
        sectionContent' := [line];
      } else {
        sectionContent' := sectionContent + [line];
      }
    } else {
      sectionContent' := sectionContent + [line];
    }
  }

  /** parse_document: the loop of the source, on the lines of `text.split('\n')`. */
  method ParseDocument(text: string) returns (sections: SectionLists)
    ensures fresh(sections)
    ensures sections.Value() == Parse(text)
  {
    var lines := Split(text, '\n');
    sections := new SectionLists();
    var current, sectionStart, sectionContent, saved := ParseLines(sections, lines);
    FinishSections(sections, current, sectionStart, sectionContent, saved, |lines|);
    ParseOfRun(text, ParseState(current, sectionStart, sectionContent, saved));
  }

  /** The loop of parse_document over `lines`, from the initial state. */
  method ParseLines(sections: SectionLists, lines: seq<string>)
    returns (current: Option<SectionType>, sectionStart: int, sectionContent: seq<string>,
             ghost saved: seq<PatentSection>)
    requires sections.Value() == NoSections
    modifies sections
    ensures Run(lines, Kinds(lines), |lines|) == ParseState(current, sectionStart, sectionContent, saved)
    ensures sections.Value() == Grouped(saved)
  {
    ghost var kinds := Kinds(lines);
    current, sectionStart, sectionContent, saved := None, 0, [], [];
    var i := 0;
    while i < |lines|
      invariant 0 <= i <= |lines|
      invariant Run(lines, kinds, i) == ParseState(current, sectionStart, sectionContent, saved)
      invariant sections.Value() == Grouped(saved)
    {
      current, sectionStart, sectionContent, saved :=
        ParseLine(sections, current, sectionStart, sectionContent, saved, i, lines[i]);
      RunNext(lines, i);
      i := i + 1;
    }
  }

  /** The state after line i is the step from the state before it. */
  lemma RunNext(lines: seq<string>, i: nat)
    requires i < |lines|
    ensures Run(lines, Kinds(lines), i + 1) == Step(Run(lines, Kinds(lines), i), i, lines[i], Classify(lines[i]))
  {
  }

  lemma ParseOfRun(text: string, st: ParseState)
    requires var lines := Split(text, '\n'); st == Run(lines, Kinds(lines), |lines|)
    ensures Parse(text) == Grouped(Finish(st, |Split(text, '\n')|))
  {
  }

  /** The saving after parse_document's loop. */
  method FinishSections(sections: SectionLists, current: Option<SectionType>, sectionStart: int,
                        sectionContent: seq<string>, ghost saved: seq<PatentSection>, n: int)
    requires sections.Value() == Grouped(saved)
    modifies sections
    ensures sections.Value() == Grouped(Finish(ParseState(current, sectionStart, sectionContent, saved), n))
  {
    if current.Some? && sectionContent != [] {
      var content := Strip(Join(sectionContent, "\n"));
      if current.value == ClaimsSection {
        sections.SaveClaim(content, sectionStart, n - 1);
        GroupedWithClaim(saved, content, sectionStart, n - 1);
      } else {
        sections.SaveSection(current.value, content, sectionStart, n - 1, "");
        GroupedWithSection(saved, current.value, content, sectionStart, n - 1, "");
      }
    }
  }

  // ---------------------------------------------------------------------------
  // get_document_type_from_section

  /** `type_mapping.get(section_type, 'specification')` */
  function DocumentTypeFromSection(sectionType: string): (r: string)
    ensures r == "claim" <==> sectionType == "claim" || sectionType == "claims"
    ensures r == "abstract" <==> sectionType == "abstract"
    ensures r != "claim" && r != "abstract" ==> r == "specification"
  {
    if sectionType == "title" then "specification"
    else if sectionType == "abstract" then "abstract"
    else if sectionType == "claim" then "claim"
    else if sectionType == "claims" then "claim"
    else if sectionType == "specification" then "specification"
    else "specification"
  }

  // ---------------------------------------------------------------------------
  // _translate_header

  /** `translations`, in the order of the dictionary. */
  const HeaderTranslations: seq<(string, string)> := [
    ("TITLE", "발명의 명칭"),
    ("ABSTRACT", "요약서"),
    ("CLAIMS", "청구범위"),
    ("CLAIM", "청구항"),
    ("BACKGROUND", "발명의 배경"),
    ("FIELD", "기술분야"),
    ("SUMMARY", "발명의 요약"),
    ("DETAILED DESCRIPTION", "발명의 상세한 설명"),
    ("DESCRIPTION", "설명"),
    ("BRIEF DESCRIPTION OF THE DRAWINGS", "도면의 간단한 설명")
  ]

  /** The Korean name of the first entry, from index k on, whose English key
      occurs in `u`. */
  function TranslateFrom(u: string, header: string, table: seq<(string, string)>, k: nat): (r: string)
    requires k <= |table|
    ensures (forall j :: k <= j < |table| ==> !Contains(u, table[j].0)) ==> r == header
    ensures forall j :: (k <= j < |table| && Contains(u, table[j].0) &&
                         (forall m :: k <= m < j ==> !Contains(u, table[m].0))) ==> r == table[j].1
    decreases |table| - k
  {
    if k == |table| then header
    else if Contains(u, table[k].0) then table[k].1
    else TranslateFrom(u, header, table, k + 1)
  }

  /** _translate_header */
  function TranslateHeader(header: string): string {
    TranslateFrom(ToUpper(header), header, HeaderTranslations, 0)
  }

  // ---------------------------------------------------------------------------
  // reconstruct_document

  /** One `(original_section, translated_text)` pair. */
  type Translated = (PatentSection, string)

  /** The pairs of `translated_sections`, list after list in the order of the
      dictionary. */
  function Flattened(groups: seq<(string, seq<Translated>)>): seq<Translated> {
    if groups == [] then [] else Flattened(groups[..|groups| - 1]) + groups[|groups| - 1].1
  }

  /** Inserting `x` after every element whose start line is at most its own. */
  function Insert(x: Translated, s: seq<Translated>): (r: seq<Translated>)
    ensures |r| == |s| + 1
  {
    if s == [] then [x]
    else if s[|s| - 1].0.startLine <= x.0.startLine then s + [x]
    else Insert(x, s[..|s| - 1]) + [s[|s| - 1]]
  }

  /** `all_sections.sort(key=lambda x: x[0].start_line)`: Python's sort is
      stable, as is this insertion sort. */
  function SortByStart(s: seq<Translated>): (r: seq<Translated>)
    ensures |r| == |s|
  {
    if s == [] then []
    else Insert(s[|s| - 1], SortByStart(s[..|s| - 1]))
  }

  /** The lines one pair contributes: the translated heading and a blank line
      when the section has a heading, then the text and a blank line. */
  function Block(p: Translated): seq<string> {
    (if p.0.heading != "" then [TranslateHeader(p.0.heading), ""] else []) + [p.1, ""]
  }

  function Rendered(items: seq<Translated>): seq<string> {
    if items == [] then [] else Rendered(items[..|items| - 1]) + Block(items[|items| - 1])
  }

  /** reconstruct_document */
  function Reconstruct(groups: seq<(string, seq<Translated>)>): string {
    Join(Rendered(SortByStart(Flattened(groups))), "\n")
  }

  /** The loops of reconstruct_document that collect the pairs. */
  method CollectPairs(groups: seq<(string, seq<Translated>)>) returns (all: seq<Translated>)
    ensures all == Flattened(groups)
  {
    all := [];
    var g := 0;
    while g < |groups|
      invariant 0 <= g <= |groups|
      invariant all == Flattened(groups[..g])
    {
      var items := groups[g].1;
      var j := 0;
      while j < |items|
        invariant 0 <= j <= |items|
        invariant all == Flattened(groups[..g]) + items[..j]
      {
        all := all + [items[j]];
        j := j + 1;
      }
      assert groups[..g + 1][..g] == groups[..g];
      assert items[..j] == items;
      g := g + 1;
    }
    assert groups[..g] == groups;
  }

  lemma RenderedNext(items: seq<Translated>, i: nat)
    requires i < |items|
    ensures Rendered(items[..i + 1]) == Rendered(items[..i]) + Block(items[i])
  {
    assert items[..i + 1][..i] == items[..i];
  }

  /** The layout loop of reconstruct_document: for each pair, in order, its
      translated heading and a blank line when it has a heading, then its text
      and a blank line. */
  method RenderPairs(all: seq<Translated>) returns (result: seq<string>)
    ensures result == Rendered(all)
  {
    result := [];
    var i := 0;
    while i < |all|
      invariant 0 <= i <= |all|
      invariant result == Rendered(all[..i])
    {
      var p := all[i];
      var block: seq<string> := [];
      if p.0.heading != "" {
        block := [TranslateHeader(p.0.heading), ""];
      }
      block := block + [p.1, ""];
      assert block == Block(p);
      RenderedNext(all, i);
      result := result + block;
      i := i + 1;
    }
    assert all[..i] == all;
  }

  /** reconstruct_document: collect, sort by start line, and lay out. */
  method ReconstructDocument(groups: seq<(string, seq<Translated>)>) returns (doc: string)
    ensures doc == Reconstruct(groups)
  {
    var all := CollectPairs(groups);
    all := SortByStart(all);
    var result := RenderPairs(all);
    doc := Join(result, "\n");
  }
}
