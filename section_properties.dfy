/**
 * What `extract_pdf_sections` (utils.py) promises about its output, proved about
 * the segmenter of module Sections: where titles come from, the page numbers,
 * the order of the sections, the independence of pages and the edge cases of
 * the line loop.
 */
module SectionProperties {
  import opened Wrappers
  import opened Strings
  import opened Sections

  // ---------------------------------------------------------------------------
  // Subsequences.
  // ---------------------------------------------------------------------------

  /** `a` is `b` with some elements left out, the rest in their order. */
  predicate IsSubseq<T(==)>(a: seq<T>, b: seq<T>)
    decreases |b|
  {
    if a == [] then true
    else if b == [] then false
    else (a[|a| - 1] == b[|b| - 1] && IsSubseq(a[..|a| - 1], b[..|b| - 1])) || IsSubseq(a, b[..|b| - 1])
  }

  lemma IsSubseqSnoc<T>(a: seq<T>, b: seq<T>, x: T)
    requires IsSubseq(a, b)
    ensures IsSubseq(a + [x], b + [x])
  {
    assert (a + [x])[..|a|] == a;
    assert (b + [x])[..|b|] == b;
  }

  lemma IsSubseqExtend<T>(a: seq<T>, b: seq<T>, x: T)
    requires IsSubseq(a, b)
    ensures IsSubseq(a, b + [x])
  {
    assert (b + [x])[..|b|] == b;
  }

  lemma {:induction false} IsSubseqRefl<T>(a: seq<T>)
    ensures IsSubseq(a, a)
    decreases |a|
  {
    if a != [] {
      IsSubseqRefl(a[..|a| - 1]);
    }
  }

  lemma {:induction false} IsSubseqTrans<T>(a: seq<T>, b: seq<T>, c: seq<T>)
    requires IsSubseq(a, b) && IsSubseq(b, c)
    ensures IsSubseq(a, c)
    decreases |c|
  {
    if a != [] {
      var c' := c[..|c| - 1];
      if IsSubseq(b, c') {
        IsSubseqTrans(a, b, c');
      } else {
        var b' := b[..|b| - 1];
        if a[|a| - 1] == b[|b| - 1] && IsSubseq(a[..|a| - 1], b') {
          IsSubseqTrans(a[..|a| - 1], b', c');
        } else {
          IsSubseqTrans(a, b', c');
        }
      }
    }
  }

  lemma IsSubseqDropLast<T>(a: seq<T>, x: T, b: seq<T>)
    requires IsSubseq(a + [x], b)
    ensures IsSubseq(a, b)
  {
    IsSubseqRefl(a);
    IsSubseqExtend(a, a, x);
    IsSubseqTrans(a, a + [x], b);
  }

  lemma {:induction false} IsSubseqLength<T>(a: seq<T>, b: seq<T>)
    requires IsSubseq(a, b)
    ensures |a| <= |b|
    decreases |b|
  {
    if a != [] {
      if a[|a| - 1] == b[|b| - 1] && IsSubseq(a[..|a| - 1], b[..|b| - 1]) {
        IsSubseqLength(a[..|a| - 1], b[..|b| - 1]);
      } else {
        IsSubseqLength(a, b[..|b| - 1]);
      }
    }
  }

  lemma {:induction false} IsSubseqMembers<T>(a: seq<T>, b: seq<T>)
    requires IsSubseq(a, b)
    ensures forall i :: 0 <= i < |a| ==> a[i] in b
    decreases |b|
  {
    if a != [] {
      var a' := a[..|a| - 1];
      var b' := b[..|b| - 1];
      if a[|a| - 1] == b[|b| - 1] && IsSubseq(a', b') {
        IsSubseqMembers(a', b');
        forall i | 0 <= i < |a| ensures a[i] in b {
          if i < |a| - 1 {
            assert a[i] == a'[i];
            assert a'[i] in b';
          } else {
            assert a[i] == b[|b| - 1];
          }
        }
      } else {
        IsSubseqMembers(a, b');
        forall i | 0 <= i < |a| ensures a[i] in b {
          assert a[i] in b';
        }
      }
    }
  }

  // ---------------------------------------------------------------------------
  // Titles and heading lines.
  // ---------------------------------------------------------------------------

  /** The titles of `secs`, in order. */
  function Titles(secs: seq<Section>): (ts: seq<string>)
    ensures |ts| == |secs|
    decreases |secs|
  {
    if secs == [] then [] else Titles(secs[..|secs| - 1]) + [secs[|secs| - 1].title]
  }

  lemma TitlesSnoc(secs: seq<Section>, x: Section)
    ensures Titles(secs + [x]) == Titles(secs) + [x.title]
  {
    assert (secs + [x])[..|secs|] == secs;
  }

  function OptList(t: Option<string>): seq<string> {
    if t.Some? then [t.value] else []
  }

  /** The texts of the headings among `ls`, in order. */
  function HeadingTexts(ls: seq<Line>): seq<string>
    decreases |ls|
  {
    if ls == [] then []
    else
      var init := HeadingTexts(ls[..|ls| - 1]);
      if ls[|ls| - 1].Heading? then init + [ls[|ls| - 1].text] else init
  }

  /** The stripped lines of a page that pass the heading test, top to bottom. */
  function HeadingLines(lines: seq<string>): seq<string>
    decreases |lines|
  {
    if lines == [] then []
    else
      var init := HeadingLines(lines[..|lines| - 1]);
      var s := Strip(lines[|lines| - 1]);
      if IsHeading(s) then init + [s] else init
  }

  /** Each heading line is a stripped line of the page that passes the heading test. */
  lemma {:induction false} HeadingLineMeans(lines: seq<string>, t: string)
    requires t in HeadingLines(lines)
    ensures IsHeading(t) && StrippedLineOf(t, lines)
    decreases |lines|
  {
    var lines' := lines[..|lines| - 1];
    var s := Strip(lines[|lines| - 1]);
    if IsHeading(s) && t == s {
      assert Strip(lines[|lines| - 1]) == t;
    } else {
      assert t in HeadingLines(lines');
      HeadingLineMeans(lines', t);
      var j :| 0 <= j < |lines'| && Strip(lines'[j]) == t;
      assert lines'[j] == lines[j];
    }
  }

  /** `t` is the stripped form of one of `lines`. */
  predicate StrippedLineOf(t: string, lines: seq<string>) {
    exists k :: 0 <= k < |lines| && Strip(lines[k]) == t
  }

  lemma {:induction false} HeadingTextsOfClassified(lines: seq<string>)
    ensures HeadingTexts(ClassifyAll(lines)) == HeadingLines(lines)
    decreases |lines|
  {
    if lines != [] {
      var init := lines[..|lines| - 1];
      var ls := ClassifyAll(lines);
      HeadingTextsOfClassified(init);
      assert ls[..|ls| - 1] == ClassifyAll(init);
    }
  }

  // ---------------------------------------------------------------------------
  // One page.
  // ---------------------------------------------------------------------------

  /** The titles emitted so far, then the current title, are headings of the page
      in their top-to-bottom order. */
  lemma {:induction false} FeedFollowsHeadings(ls: seq<Line>, page: nat)
    ensures var f := Feed(PageStart, ls, page); IsSubseq(Titles(f.out) + OptList(f.title), HeadingTexts(ls))
    decreases |ls|
  {
    if ls != [] {
      var init := ls[..|ls| - 1];
      var line := ls[|ls| - 1];
      var f0 := Feed(PageStart, init, page);
      FeedFollowsHeadings(init, page);
      var before := Titles(f0.out) + OptList(f0.title);
      if line.Heading? {
        if Pending(f0.title, f0.body) {
          TitlesSnoc(f0.out, MakeSection(f0.title.value, f0.body, page));
          IsSubseqSnoc(before, HeadingTexts(init), line.text);
        } else {
          if f0.title.Some? {
            IsSubseqDropLast(Titles(f0.out), f0.title.value, HeadingTexts(init));
          } else {
            assert before == Titles(f0.out);
          }
          IsSubseqSnoc(Titles(f0.out), HeadingTexts(init), line.text);
        }
      }
    }
  }

  /** Every section in `secs` carries page number `page`. */
  predicate OnPage(secs: seq<Section>, page: nat) {
    forall k :: 0 <= k < |secs| ==> secs[k].pageNumber == page
  }

  /** Every section a page emits carries that page's number. */
  lemma {:induction false} FeedPageNumber(ls: seq<Line>, page: nat)
    ensures OnPage(Feed(PageStart, ls, page).out, page)
    decreases |ls|
  {
    if ls != [] {
      var f0 := Feed(PageStart, ls[..|ls| - 1], page);
      FeedPageNumber(ls[..|ls| - 1], page);
      var f := Step(f0, ls[|ls| - 1], page);
      assert f.out == f0.out || f.out == f0.out + [MakeSection(f0.title.value, f0.body, page)];
    }
  }

  /** What one page emits: sections numbered with the page, titled by the
      page's headings in their top-to-bottom order. */
  lemma RunPageFollowsHeadings(ls: seq<Line>, page: nat)
    ensures IsSubseq(Titles(RunPage(ls, page)), HeadingTexts(ls))
    ensures OnPage(RunPage(ls, page), page)
  {
    var f := Feed(PageStart, ls, page);
    FeedFollowsHeadings(ls, page);
    FeedPageNumber(ls, page);
    if Pending(f.title, f.body) {
      TitlesSnoc(f.out, MakeSection(f.title.value, f.body, page));
    } else if f.title.Some? {
      IsSubseqDropLast(Titles(f.out), f.title.value, HeadingTexts(ls));
    }
  }

  lemma {:induction false} TitlesAt(secs: seq<Section>, k: nat)
    requires k < |secs|
    ensures Titles(secs)[k] == secs[k].title
    decreases |secs|
  {
    if k < |secs| - 1 {
      TitlesAt(secs[..|secs| - 1], k);
    }
  }

  lemma TitlesWithin(secs: seq<Section>, heads: seq<string>)
    requires IsSubseq(Titles(secs), heads)
    ensures forall k :: 0 <= k < |secs| ==> secs[k].title in heads
  {
    var ts := Titles(secs);
    IsSubseqMembers(ts, heads);
    forall k | 0 <= k < |secs| ensures secs[k].title in heads {
      TitlesAt(secs, k);
      assert ts[k] in heads;
    }
  }

  /** The sections of one page: numbered with the page, and titled by heading
      lines of the page in their top-to-bottom order, so never more of them than
      the page has heading lines. */
  lemma PageSectionsFollowHeadings(text: string, page: nat)
    ensures var secs := PageSections(text, page);
      var heads := HeadingLines(Split(text, '\n'));
      && IsSubseq(Titles(secs), heads)
      && |secs| <= |heads|
      && OnPage(secs, page)
      && forall k :: 0 <= k < |secs| ==> secs[k].title in heads
  {
    var lines := Split(text, '\n');
    RunPageFollowsHeadings(ClassifyAll(lines), page);
    HeadingTextsOfClassified(lines);
    TitlesWithin(PageSections(text, page), HeadingLines(lines));
    IsSubseqLength(Titles(PageSections(text, page)), HeadingLines(lines));
  }

  /** The filter keeps titles in their order. */
  lemma {:induction false} KeepSubstantialTitles(secs: seq<Section>)
    ensures IsSubseq(Titles(KeepSubstantial(secs)), Titles(secs))
    decreases |secs|
  {
    if secs != [] {
      var init := secs[..|secs| - 1];
      var last := secs[|secs| - 1];
      KeepSubstantialTitles(init);
      assert secs == init + [last];
      TitlesSnoc(init, last);
      if Substantial(last) {
        TitlesSnoc(KeepSubstantial(init), last);
        IsSubseqSnoc(Titles(KeepSubstantial(init)), Titles(init), last.title);
      } else {
        IsSubseqExtend(Titles(KeepSubstantial(init)), Titles(init), last.title);
      }
    }
  }

  /** The sections of one page that survive the filter are still in the order of
      their headings. */
  lemma KeptSectionsFollowHeadings(text: string, page: nat)
    ensures IsSubseq(Titles(KeepSubstantial(PageSections(text, page))), HeadingLines(Split(text, '\n')))
  {
    PageSectionsFollowHeadings(text, page);
    KeepSubstantialTitles(PageSections(text, page));
    IsSubseqTrans(Titles(KeepSubstantial(PageSections(text, page))), Titles(PageSections(text, page)),
      HeadingLines(Split(text, '\n')));
  }

  // ---------------------------------------------------------------------------
  // Edge cases of the line loop.
  // ---------------------------------------------------------------------------

  predicate NoHeading(ls: seq<Line>) {
    forall k :: 0 <= k < |ls| ==> ls[k].Body?
  }

  /** The texts of `ls`, in order. */
  function Texts(ls: seq<Line>): seq<string>
    decreases |ls|
  {
    if ls == [] then [] else Texts(ls[..|ls| - 1]) + [ls[|ls| - 1].text]
  }

  lemma {:induction false} FeedAppend(st: Scan, a: seq<Line>, b: seq<Line>, page: nat)
    ensures Feed(st, a + b, page) == Feed(Feed(st, a, page), b, page)
    decreases |b|
  {
    if b == [] {
      assert a + b == a;
    } else {
      assert (a + b)[..|a + b| - 1] == a + b[..|b| - 1];
      FeedAppend(st, a, b[..|b| - 1], page);
    }
  }

  /** Lines that are not headings only extend the accumulator. */
  lemma {:induction false} FeedBodyLines(st: Scan, ls: seq<Line>, page: nat)
    requires NoHeading(ls)
    ensures Feed(st, ls, page) == Scan(st.title, st.body + Texts(ls), st.out)
    decreases |ls|
  {
    if ls != [] {
      FeedBodyLines(st, ls[..|ls| - 1], page);
    }
  }

  /** The lines above a page's first heading are not dropped: they stay in the
      accumulator and open the body of that heading's section, which the next
      heading or the end of the page emits. */
  lemma OrphanLinesJoinFirstSection(pre: seq<Line>, h: string, mid: seq<Line>, next: string, page: nat)
    requires NoHeading(pre) && NoHeading(mid)
    ensures Feed(PageStart, pre + [Heading(h)] + mid, page) == Scan(Some(h), Texts(pre) + Texts(mid), [])
    ensures var first := if h != [] && Texts(pre) + Texts(mid) != [] then [MakeSection(h, Texts(pre) + Texts(mid), page)] else [];
      && EndPage(Feed(PageStart, pre + [Heading(h)] + mid, page), page) == first
      && Feed(PageStart, pre + [Heading(h)] + mid + [Heading(next)], page).out == first
  {
    FeedBodyLines(PageStart, pre, page);
    FeedAppend(PageStart, pre, [Heading(h)], page);
    assert Feed(PageStart, pre + [Heading(h)], page) == Scan(Some(h), Texts(pre), []);
    FeedAppend(PageStart, pre + [Heading(h)], mid, page);
    FeedBodyLines(Scan(Some(h), Texts(pre), []), mid, page);
    FeedSnoc(PageStart, pre + [Heading(h)] + mid, Heading(next), page);
  }

  /** Consecutive headings with nothing pending between them emit nothing: each
      replaces the title of the one before. */
  lemma {:induction false} HeadingRunEmitsNothing(st: Scan, hs: seq<Line>, page: nat)
    requires st.body == [] && hs != []
    requires forall k :: 0 <= k < |hs| ==> hs[k].Heading?
    ensures Feed(st, hs, page) == Scan(Some(hs[|hs| - 1].text), [], st.out)
    decreases |hs|
  {
    if |hs| > 1 {
      HeadingRunEmitsNothing(st, hs[..|hs| - 1], page);
    }
  }

  /** A heading on the last line of a page adds no section of its own, except
      when the page has no earlier non-empty title: then it takes the pending
      orphan lines as its body. */
  lemma TrailingHeading(st: Scan, h: string, page: nat)
    ensures HasTitle(st.title) ==> EndPage(Step(st, Heading(h), page), page) == EndPage(st, page)
    ensures !HasTitle(st.title) ==>
      EndPage(Step(st, Heading(h), page), page) ==
        (if h != [] && st.body != [] then st.out + [MakeSection(h, st.body, page)] else st.out)
  {
  }

  // ---------------------------------------------------------------------------
  // Across pages.
  // ---------------------------------------------------------------------------

  /** `secs` with every page number raised by `k`. */
  function Shift(secs: seq<Section>, k: nat): (r: seq<Section>)
    ensures |r| == |secs|
    decreases |secs|
  {
    if secs == [] then []
    else
      var last := secs[|secs| - 1];
      Shift(secs[..|secs| - 1], k) + [Section(last.title, last.text, last.pageNumber + k)]
  }

  lemma {:induction false} ShiftAppend(a: seq<Section>, b: seq<Section>, k: nat)
    ensures Shift(a + b, k) == Shift(a, k) + Shift(b, k)
    decreases |b|
  {
    if b == [] {
      assert a + b == a;
    } else {
      assert (a + b)[..|a + b| - 1] == a + b[..|b| - 1];
      ShiftAppend(a, b[..|b| - 1], k);
    }
  }

  function ShiftScan(st: Scan, k: nat): Scan {
    Scan(st.title, st.body, Shift(st.out, k))
  }

  /** The page number only labels what a page emits. */
  lemma {:induction false} FeedShift(st: Scan, ls: seq<Line>, page: nat, k: nat)
    ensures Feed(ShiftScan(st, k), ls, page + k) == ShiftScan(Feed(st, ls, page), k)
    decreases |ls|
  {
    if ls != [] {
      var f0 := Feed(st, ls[..|ls| - 1], page);
      FeedShift(st, ls[..|ls| - 1], page, k);
      if ls[|ls| - 1].Heading? && Pending(f0.title, f0.body) {
        ShiftAppend(f0.out, [MakeSection(f0.title.value, f0.body, page)], k);
      }
    }
  }

  lemma RunPageShift(ls: seq<Line>, page: nat, later: nat)
    requires page <= later
    ensures RunPage(ls, later) == Shift(RunPage(ls, page), later - page)
  {
    var k := later - page;
    FeedShift(PageStart, ls, page, k);
    assert page + k == later;
    var f := Feed(PageStart, ls, page);
    if Pending(f.title, f.body) {
      ShiftAppend(f.out, [MakeSection(f.title.value, f.body, page)], k);
    }
  }

  /** A page's sections depend on its number only through their labels. */
  lemma PageSectionsShift(text: string, page: nat, later: nat)
    requires page <= later
    ensures PageSections(text, later) == Shift(PageSections(text, page), later - page)
  {
    RunPageShift(ClassifyAll(Split(text, '\n')), page, later);
  }

  /** The page loop of utils.py:20 with the per-page segmenter `seg`: page `i`
      (1-based) contributes `seg(pages[i - 1], i)`. */
  function ConcatPages(seg: (string, nat) -> seq<Section>, pages: seq<string>): seq<Section>
    decreases |pages|
  {
    if pages == [] then [] else ConcatPages(seg, pages[..|pages| - 1]) + seg(pages[|pages| - 1], |pages|)
  }

  lemma {:induction false} ScanPagesIsConcat(pages: seq<string>)
    ensures ScanPages(pages) == ConcatPages(PageSections, pages)
    decreases |pages|
  {
    if pages != [] {
      ScanPagesIsConcat(pages[..|pages| - 1]);
    }
  }

  /** `seg` uses its page number only as a label. */
  ghost predicate Relabels(seg: (string, nat) -> seq<Section>) {
    forall t: string, p: nat, q: nat :: p <= q ==> seg(t, q) == Shift(seg(t, p), q - p)
  }

  lemma PageSectionsRelabels()
    ensures Relabels(PageSections)
  {
    forall t: string, p: nat, q: nat | p <= q ensures PageSections(t, q) == Shift(PageSections(t, p), q - p) {
      PageSectionsShift(t, p, q);
    }
  }

  lemma {:induction false} ConcatPagesAppend(seg: (string, nat) -> seq<Section>, p1: seq<string>, p2: seq<string>)
    requires Relabels(seg)
    ensures ConcatPages(seg, p1 + p2) == ConcatPages(seg, p1) + Shift(ConcatPages(seg, p2), |p1|)
    decreases |p2|
  {
    if p2 == [] {
      assert p1 + p2 == p1;
    } else {
      var q := p2[..|p2| - 1];
      var x := p2[|p2| - 1];
      assert (p1 + p2)[..|p1 + p2| - 1] == p1 + q;
      assert (p1 + p2)[|p1 + p2| - 1] == x;
      var own := seg(x, |p2|);
      var front := ConcatPages(seg, q);
      assert ConcatPages(seg, p1 + p2) == ConcatPages(seg, p1 + q) + seg(x, |p1| + |p2|);
      assert ConcatPages(seg, p2) == front + own;
      ConcatPagesAppend(seg, p1, q);
      assert seg(x, |p1| + |p2|) == Shift(own, |p1|);
      ShiftAppend(front, own, |p1|);
    }
  }

  lemma ScanPagesAppend(p1: seq<string>, p2: seq<string>)
    ensures ScanPages(p1 + p2) == ScanPages(p1) + Shift(ScanPages(p2), |p1|)
  {
    PageSectionsRelabels();
    ConcatPagesAppend(PageSections, p1, p2);
    ScanPagesIsConcat(p1 + p2);
    ScanPagesIsConcat(p1);
    ScanPagesIsConcat(p2);
  }

  lemma {:induction false} KeepSubstantialAppend(a: seq<Section>, b: seq<Section>)
    ensures KeepSubstantial(a + b) == KeepSubstantial(a) + KeepSubstantial(b)
    decreases |b|
  {
    if b == [] {
      assert a + b == a;
    } else {
      assert (a + b)[..|a + b| - 1] == a + b[..|b| - 1];
      KeepSubstantialAppend(a, b[..|b| - 1]);
    }
  }

  lemma {:induction false} KeepSubstantialShift(secs: seq<Section>, k: nat)
    ensures KeepSubstantial(Shift(secs, k)) == Shift(KeepSubstantial(secs), k)
    decreases |secs|
  {
    if secs != [] {
      var init := secs[..|secs| - 1];
      var last := secs[|secs| - 1];
      var moved := Section(last.title, last.text, last.pageNumber + k);
      var shifted := Shift(secs, k);
      KeepSubstantialShift(init, k);
      assert shifted == Shift(init, k) + [moved];
      assert shifted[..|shifted| - 1] == Shift(init, k);
      assert shifted[|shifted| - 1] == moved;
      assert Substantial(moved) == Substantial(last);
      if Substantial(last) {
        assert KeepSubstantial(secs) == KeepSubstantial(init) + [last];
        ShiftAppend(KeepSubstantial(init), [last], k);
      } else {
        assert KeepSubstantial(secs) == KeepSubstantial(init);
      }
    }
  }

  /** No title and no body line carries over from one page to the next: the
      sections of a document made of two runs of pages are those of the first
      run followed by those of the second run, renumbered after the first. */
  lemma SegmentPagesAppend(p1: seq<string>, p2: seq<string>)
    ensures SegmentPages(p1 + p2) == SegmentPages(p1) + Shift(SegmentPages(p2), |p1|)
  {
    ScanPagesAppend(p1, p2);
    KeepSubstantialAppend(ScanPages(p1), Shift(ScanPages(p2), |p1|));
    KeepSubstantialShift(ScanPages(p2), |p1|);
  }

  /** One more page adds exactly that page's surviving sections, numbered with
      its 1-based position. */
  lemma SegmentPagesSnoc(pages: seq<string>, text: string)
    ensures SegmentPages(pages + [text]) == SegmentPages(pages) + KeepSubstantial(PageSections(text, |pages| + 1))
  {
    assert (pages + [text])[..|pages|] == pages;
    KeepSubstantialAppend(ScanPages(pages), PageSections(text, |pages| + 1));
  }

  /** What every per-page result of `seg` satisfies: the page's own number, and
      titles among the page's heading lines. */
  ghost predicate FromOwnPage(seg: (string, nat) -> seq<Section>) {
    forall t: string, p: nat :: OnPage(seg(t, p), p) && TitledFrom(seg(t, p), t)
  }

  predicate TitledFrom(secs: seq<Section>, text: string) {
    forall k :: 0 <= k < |secs| ==> secs[k].title in HeadingLines(Split(text, '\n'))
  }

  /** `sec` comes from a page of `pages` and is titled by a heading line of it. */
  predicate FromItsPage(sec: Section, pages: seq<string>) {
    1 <= sec.pageNumber <= |pages| && sec.title in HeadingLines(Split(pages[sec.pageNumber - 1], '\n'))
  }

  lemma PageSectionsFromOwnPage()
    ensures FromOwnPage(PageSections)
  {
    forall t: string, p: nat ensures OnPage(PageSections(t, p), p) && TitledFrom(PageSections(t, p), t) {
      PageSectionsFollowHeadings(t, p);
    }
  }

  lemma {:induction false} ConcatPagesOrigin(seg: (string, nat) -> seq<Section>, pages: seq<string>)
    requires FromOwnPage(seg)
    ensures forall k :: 0 <= k < |ConcatPages(seg, pages)| ==> FromItsPage(ConcatPages(seg, pages)[k], pages)
    decreases |pages|
  {
    if pages != [] {
      var init := pages[..|pages| - 1];
      var text := pages[|pages| - 1];
      ConcatPagesOrigin(seg, init);
      var a: seq<Section> := ConcatPages(seg, init);
      var b: seq<Section> := seg(text, |pages|);
      assert OnPage(b, |pages|) && TitledFrom(b, text);
      forall k | 0 <= k < |a + b| ensures FromItsPage((a + b)[k], pages) {
        if k < |a| {
          assert FromItsPage(a[k], init);
          assert pages[a[k].pageNumber - 1] == init[a[k].pageNumber - 1];
        } else {
          assert (a + b)[k] == b[k - |a|];
        }
      }
    }
  }

  /** Every section before the filter comes from a page of the document and is
      titled by a heading line of that page. */
  lemma ScanPagesOrigin(pages: seq<string>)
    ensures forall k :: 0 <= k < |ScanPages(pages)| ==> FromItsPage(ScanPages(pages)[k], pages)
  {
    PageSectionsFromOwnPage();
    ConcatPagesOrigin(PageSections, pages);
    ScanPagesIsConcat(pages);
  }

  lemma FromItsPageMeans(sec: Section, pages: seq<string>)
    requires FromItsPage(sec, pages)
    ensures IsHeading(sec.title) && StrippedLineOf(sec.title, Split(pages[sec.pageNumber - 1], '\n'))
  {
    HeadingLineMeans(Split(pages[sec.pageNumber - 1], '\n'), sec.title);
  }

  /** Every returned section has more than 40 characters of text, a title that
      is a stripped line of its own page passing the heading test, and the
      1-based number of a page of the document. */
  lemma SectionsComeFromTheirPage(pages: seq<string>)
    ensures var r := SegmentPages(pages);
      forall k :: 0 <= k < |r| ==>
        && |r[k].text| > MinSectionText && r[k].title != []
        && 1 <= r[k].pageNumber <= |pages|
        && IsHeading(r[k].title)
        && StrippedLineOf(r[k].title, Split(pages[r[k].pageNumber - 1], '\n'))
  {
    var secs := ScanPages(pages);
    var r := SegmentPages(pages);
    ScanPagesOrigin(pages);
    KeepSubstantialMembers(secs);
    forall k | 0 <= k < |r| ensures FromItsPage(r[k], pages) {
      assert r[k] in secs;
    }
    forall k | 0 <= k < |r|
      ensures IsHeading(r[k].title) && StrippedLineOf(r[k].title, Split(pages[r[k].pageNumber - 1], '\n'))
    {
      FromItsPageMeans(r[k], pages);
    }
  }

  predicate PagesNondecreasing(secs: seq<Section>) {
    forall i, j :: 0 <= i <= j < |secs| ==> secs[i].pageNumber <= secs[j].pageNumber
  }

  lemma {:induction false} ConcatPagesNondecreasing(seg: (string, nat) -> seq<Section>, pages: seq<string>)
    requires forall t: string, p: nat :: OnPage(seg(t, p), p)
    ensures var secs := ConcatPages(seg, pages);
      PagesNondecreasing(secs) && forall k :: 0 <= k < |secs| ==> 1 <= secs[k].pageNumber <= |pages|
    decreases |pages|
  {
    if pages != [] {
      var init := pages[..|pages| - 1];
      ConcatPagesNondecreasing(seg, init);
      var a: seq<Section> := ConcatPages(seg, init);
      var b: seq<Section> := seg(pages[|pages| - 1], |pages|);
      assert OnPage(b, |pages|);
      forall i, j | 0 <= i <= j < |a + b| ensures (a + b)[i].pageNumber <= (a + b)[j].pageNumber {
        if j < |a| {
        } else if i < |a| {
          assert (a + b)[j] == b[j - |a|];
        } else {
          assert (a + b)[j] == b[j - |a|];
          assert (a + b)[i] == b[i - |a|];
        }
      }
      forall k | 0 <= k < |a + b| ensures 1 <= (a + b)[k].pageNumber <= |pages| {
        if k >= |a| {
          assert (a + b)[k] == b[k - |a|];
        }
      }
    }
  }

  lemma {:induction false} KeepSubstantialNondecreasing(secs: seq<Section>)
    requires PagesNondecreasing(secs)
    ensures PagesNondecreasing(KeepSubstantial(secs))
    decreases |secs|
  {
    if secs != [] {
      var init := secs[..|secs| - 1];
      var last := secs[|secs| - 1];
      KeepSubstantialNondecreasing(init);
      var r0 := KeepSubstantial(init);
      KeepSubstantialMembers(init);
      if Substantial(last) {
        forall i | 0 <= i < |r0| ensures r0[i].pageNumber <= last.pageNumber {
          assert r0[i] in init;
          var j :| 0 <= j < |init| && init[j] == r0[i];
          assert secs[j] == init[j];
        }
        var r := r0 + [last];
        forall i, j | 0 <= i <= j < |r| ensures r[i].pageNumber <= r[j].pageNumber {
          if j < |r0| {
            assert r[i] == r0[i] && r[j] == r0[j];
          } else if i < |r0| {
            assert r[i] == r0[i];
          }
        }
      }
    }
  }

  /** Page numbers never decrease along the output. */
  lemma PageNumbersNondecreasing(pages: seq<string>)
    ensures PagesNondecreasing(SegmentPages(pages))
  {
    PageSectionsFromOwnPage();
    ConcatPagesNondecreasing(PageSections, pages);
    ScanPagesIsConcat(pages);
    KeepSubstantialNondecreasing(ScanPages(pages));
  }
}
