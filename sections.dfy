/**
 * The section segmenter of `extract_pdf_sections` (utils.py): each page's text
 * is cut into lines, every stripped line is either a heading or a body line,
 * and the body lines collected under a heading become one section of that page.
 * The PDF reader is not modelled: a document is the sequence of its page texts,
 * a page without text being the empty string.
 */
module Sections {
  import opened Wrappers
  import opened Strings

  /** One record of the result: `section_title`, `section_text`, `page_number`. */
  datatype Section = Section(title: string, text: string, pageNumber: nat)

  // ---------------------------------------------------------------------------
  // The heading test: the pattern of utils.py:17 and the token limit of line 28.
  // ---------------------------------------------------------------------------

  predicate IsUpper(c: char) { 'A' <= c <= 'Z' }

  predicate IsLowerLetter(c: char) { 'a' <= c <= 'z' }

  /** The character class `[A-Z\s\-:&']`. */
  predicate IsCapsChar(c: char) {
    IsUpper(c) || IsSpace(c) || c == '-' || c == ':' || c == '&' || c == '\''
  }

  /** First alternative, `[A-Z][A-Z\s\-:&']{6,}`, matched against the whole line. */
  predicate IsCapsLine(s: string) {
    |s| >= 7 && IsUpper(s[0]) && forall i :: 1 <= i < |s| ==> IsCapsChar(s[i])
  }

  /** A word `[A-Z][a-z]+`. */
  predicate IsCapWord(w: string) {
    |w| >= 2 && IsUpper(w[0]) && forall i :: 1 <= i < |w| ==> IsLowerLetter(w[i])
  }

  /** Second alternative, `([A-Z][a-z]+ ){1,4}[A-Z][a-z]+`, matched against the whole
      line: two to five such words, each pair separated by exactly one space. */
  predicate IsTitleCasePhrase(s: string) {
    var ws := Split(s, ' ');
    2 <= |ws| <= 5 && forall i :: 0 <= i < |ws| ==> IsCapWord(ws[i])
  }

  /** A heading has at most this many whitespace-separated tokens. */
  const MaxHeadingTokens: nat := 10

  /** The heading test applied to a stripped line. */
  predicate IsHeading(s: string) {
    (IsCapsLine(s) || IsTitleCasePhrase(s)) && TokenCount(s) <= MaxHeadingTokens
  }

  /** A title-case phrase has one token per word, so never more than five. */
  lemma TitleCasePhraseTokens(s: string)
    requires IsTitleCasePhrase(s)
    ensures TokenCount(s) == |Split(s, ' ')| <= 5
  {
    var ws := Split(s, ' ');
    forall i | 0 <= i < |ws| ensures ws[i] != [] && NoSpace(ws[i]) {
      assert IsCapWord(ws[i]);
    }
    JoinSplit(s, ' ');
    TokenCountJoin(ws);
  }

  /** The token limit only ever rejects lines of the first alternative: a line is a
      heading exactly when it is a title-case phrase, or an upper-case line of at
      most ten tokens. */
  lemma HeadingTokenLimit(s: string)
    ensures IsHeading(s) <==> IsTitleCasePhrase(s) || (IsCapsLine(s) && TokenCount(s) <= MaxHeadingTokens)
  {
    if IsTitleCasePhrase(s) {
      TitleCasePhraseTokens(s);
    }
  }

  /** A heading is never the empty line. */
  lemma HeadingNonEmpty(s: string)
    requires IsHeading(s)
    ensures s != []
  {
  }

  // ---------------------------------------------------------------------------
  // The line loop of utils.py:20-46 as a fold over the lines of one page.
  // ---------------------------------------------------------------------------

  /** The loop state of one page: `cur_section_title`, `cur_section_text`, and the
      sections this page has emitted so far. */
  datatype Scan = Scan(title: Option<string>, body: seq<string>, out: seq<Section>)

  /** The state at the top of every page (utils.py:23-24). */
  const PageStart: Scan := Scan(None, [], [])

  /** Python truthiness of `cur_section_title`: set and non-empty. */
  predicate HasTitle(title: Option<string>) {
    title.Some? && title.value != []
  }

  /** The test `cur_section_title and cur_section_text` (utils.py:30, 41). */
  predicate Pending(title: Option<string>, body: seq<string>) {
    HasTitle(title) && body != []
  }

  /** The record built at utils.py:31-35 and 42-46: the collected lines joined with
      line feeds, then stripped. */
  function MakeSection(title: string, body: seq<string>, page: nat): Section {
    Section(title, Strip(Join(body, '\n')), page)
  }

  /** A stripped line, classified by the heading test (utils.py:26-28). */
  datatype Line = Heading(text: string) | Body(text: string)

  function Classify(line: string): Line {
    var s := Strip(line);
    if IsHeading(s) then Heading(s) else Body(s)
  }

  /** Every line of a page, classified. */
  function ClassifyAll(lines: seq<string>): (ls: seq<Line>)
    ensures |ls| == |lines|
    decreases |lines|
  {
    if lines == [] then []
    else ClassifyAll(lines[..|lines| - 1]) + [Classify(lines[|lines| - 1])]
  }

  lemma ClassifyAllSnoc(lines: seq<string>, j: nat)
    requires j < |lines|
    ensures ClassifyAll(lines[..j + 1]) == ClassifyAll(lines[..j]) + [Classify(lines[j])]
  {
    assert lines[..j + 1][..j] == lines[..j];
  }

  /** One iteration of the line loop (utils.py:28-39). The accumulator is cleared
      only when a section is emitted. */
  function Step(st: Scan, line: Line, page: nat): Scan {
    match line
    case Heading(s) =>
      if Pending(st.title, st.body) then Scan(Some(s), [], st.out + [MakeSection(st.title.value, st.body, page)])
      else Scan(Some(s), st.body, st.out)
    case Body(s) => Scan(st.title, st.body + [s], st.out)
  }

  /** The line loop run over the classified lines `ls`, from state `st`. */
  function Feed(st: Scan, ls: seq<Line>, page: nat): Scan
    decreases |ls|
  {
    if ls == [] then st
    else Step(Feed(st, ls[..|ls| - 1], page), ls[|ls| - 1], page)
  }

  /** Feeding one more line is one more step. */
  lemma FeedSnoc(st: Scan, ls: seq<Line>, line: Line, page: nat)
    ensures Feed(st, ls + [line], page) == Step(Feed(st, ls, page), line, page)
  {
    assert (ls + [line])[..|ls|] == ls;
  }

  /** The end-of-page flush (utils.py:41-46). */
  function EndPage(st: Scan, page: nat): seq<Section> {
    if Pending(st.title, st.body) then st.out + [MakeSection(st.title.value, st.body, page)]
    else st.out
  }

  /** All sections a page of classified lines `ls` emits, before the final filter. */
  function RunPage(ls: seq<Line>, page: nat): seq<Section> {
    EndPage(Feed(PageStart, ls, page), page)
  }

  /** All sections a page of raw lines emits, before the final filter. */
  function ScanLines(lines: seq<string>, page: nat): seq<Section> {
    RunPage(ClassifyAll(lines), page)
  }

  /** The sections of page number `page` whose text is `text`. */
  function PageSections(text: string, page: nat): seq<Section> {
    ScanLines(Split(text, '\n'), page)
  }

  /** The `sections` list after the page loop: page `i` (1-based) contributes
      `PageSections(pages[i - 1], i)`. */
  function ScanPages(pages: seq<string>): seq<Section>
    decreases |pages|
  {
    if pages == [] then []
    else ScanPages(pages[..|pages| - 1]) + PageSections(pages[|pages| - 1], |pages|)
  }

  /** One more page appends its own sections, numbered with its position. */
  lemma ScanPagesSnoc(pages: seq<string>, i: nat)
    requires i < |pages|
    ensures ScanPages(pages[..i + 1]) == ScanPages(pages[..i]) + PageSections(pages[i], i + 1)
  {
    assert pages[..i + 1][..i] == pages[..i];
  }

  // ---------------------------------------------------------------------------
  // The final filter (utils.py:48) and the whole function.
  // ---------------------------------------------------------------------------

  /** Sections must have more than this many characters of text. */
  const MinSectionText: nat := 40

  predicate Substantial(sec: Section) {
    |sec.text| > MinSectionText && sec.title != []
  }

  /** The list comprehension of utils.py:48. */
  function KeepSubstantial(secs: seq<Section>): (r: seq<Section>)
    ensures forall k :: 0 <= k < |r| ==> Substantial(r[k])
    ensures |r| <= |secs|
    decreases |secs|
  {
    if secs == [] then []
    else
      var init := KeepSubstantial(secs[..|secs| - 1]);
      var last := secs[|secs| - 1];
      if Substantial(last) then init + [last] else init
  }

  /** The filter keeps exactly the substantial sections. */
  lemma {:induction false} KeepSubstantialMembers(secs: seq<Section>)
    ensures forall x :: x in KeepSubstantial(secs) <==> x in secs && Substantial(x)
    decreases |secs|
  {
    if secs != [] {
      var init := secs[..|secs| - 1];
      KeepSubstantialMembers(init);
      assert secs == init + [secs[|secs| - 1]];
    }
  }

  /** `extract_pdf_sections` on a document given by its page texts. */
  function SegmentPages(pages: seq<string>): seq<Section> {
    KeepSubstantial(ScanPages(pages))
  }

  /** The line loop of utils.py:23-46 over the lines of page number `page`: the
      sections this page adds to the result, in the order it adds them. */
  method ScanPageLines(lines: seq<string>, page: nat) returns (sections: seq<Section>)
    ensures sections == ScanLines(lines, page)
  {
    sections := [];
    var curText: seq<string> := [];
    var curTitle: Option<string> := None;
    var j := 0;
    while j < |lines|
      invariant 0 <= j <= |lines|
      invariant Feed(PageStart, ClassifyAll(lines[..j]), page) == Scan(curTitle, curText, sections)
    {
      ClassifyAllSnoc(lines, j);
      FeedSnoc(PageStart, ClassifyAll(lines[..j]), Classify(lines[j]), page);
      var striped := Strip(lines[j]);
      if IsHeading(striped) {
        if curTitle.Some? && curTitle.value != [] && curText != [] {
          sections := sections + [MakeSection(curTitle.value, curText, page)];
          curText := [];
        }
        curTitle := Some(striped);
      } else {
        curText := curText + [striped];
      }
      j := j + 1;
    }
    assert lines[..j] == lines;
    if curTitle.Some? && curTitle.value != [] && curText != [] {
      sections := sections + [MakeSection(curTitle.value, curText, page)];
    }
  }

  /** The page loop of utils.py:20-46 followed by the filter of line 48. */
  method ExtractSections(pages: seq<string>) returns (result: seq<Section>)
    ensures result == SegmentPages(pages)
  {
    var sections: seq<Section> := [];
    var i := 0;
    while i < |pages|
      invariant 0 <= i <= |pages|
      invariant sections == ScanPages(pages[..i])
    {
      var lines := Split(pages[i], '\n');
      var pageSections := ScanPageLines(lines, i + 1);
      ScanPagesSnoc(pages, i);
      sections := sections + pageSections;
      i := i + 1;
    }
    assert pages[..i] == pages;
    result := KeepSubstantial(sections);
  }
}
