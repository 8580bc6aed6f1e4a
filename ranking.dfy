/**
 * The ranking part of `main` (persona_intelligence.py:44-86): one scored record
 * per extracted section of every document found, a stable sort by descending
 * score, and the two slices written out as `extracted_sections` (the first five,
 * numbered from 1) and `subsection_analysis` (the first ten).
 */
module Ranking {
  import opened Wrappers
  import opened Sections
  import opened Scoring

  /** An entry of `ranked_sections` (persona_intelligence.py:62-68); `score` is
      the value stored under `importance_rank`. */
  datatype RankedSection = RankedSection(
    document: string, sectionTitle: string, pageNumber: nat, score: nat, refinedText: string)

  /** An input document: its file name, and its page texts when the file exists. */
  datatype Document = Document(filename: string, pages: Option<seq<string>>)

  /** An entry of `extracted_sections` (persona_intelligence.py:74-79). */
  datatype ExtractedSection = ExtractedSection(
    document: string, sectionTitle: string, importanceRank: nat, pageNumber: nat)

  /** An entry of `subsection_analysis` (persona_intelligence.py:82-86). */
  datatype SubsectionAnalysis = SubsectionAnalysis(document: string, refinedText: string, pageNumber: nat)

  /** The summarizer, `summarize_text(text, prompt)`, is a parameter of the model. */
  type Summarizer = (string, string) -> string

  // ---------------------------------------------------------------------------
  // The accumulation loop (persona_intelligence.py:50-68).
  // ---------------------------------------------------------------------------

  /** The record appended for section `sec` of document `filename`. */
  function Record(filename: string, sec: Section, summarize: Summarizer, prompt: string, job: string): RankedSection {
    var summary := summarize(sec.text, prompt);
    RankedSection(filename, sec.title, sec.pageNumber, Score(Some(sec.title), Some(summary), job), summary)
  }

  /** The records of the sections `secs` of document `filename`, in order. */
  function RecordsOf(filename: string, secs: seq<Section>, summarize: Summarizer, prompt: string, job: string)
    : (rs: seq<RankedSection>)
    ensures |rs| == |secs|
    decreases |secs|
  {
    if secs == [] then []
    else
      var init := RecordsOf(filename, secs[..|secs| - 1], summarize, prompt, job);
      init + [Record(filename, secs[|secs| - 1], summarize, prompt, job)]
  }

  lemma RecordsOfSnoc(filename: string, secs: seq<Section>, k: nat, summarize: Summarizer, prompt: string, job: string)
    requires k < |secs|
    ensures RecordsOf(filename, secs[..k + 1], summarize, prompt, job)
      == RecordsOf(filename, secs[..k], summarize, prompt, job) + [Record(filename, secs[k], summarize, prompt, job)]
  {
    assert secs[..k + 1][..k] == secs[..k];
  }

  /** The record at position `k` is the one of section `k`. */
  lemma {:induction false} RecordsOfAt(filename: string, secs: seq<Section>, k: nat, summarize: Summarizer, prompt: string, job: string)
    requires k < |secs|
    ensures RecordsOf(filename, secs, summarize, prompt, job)[k] == Record(filename, secs[k], summarize, prompt, job)
    decreases |secs|
  {
    if k < |secs| - 1 {
      var init := secs[..|secs| - 1];
      RecordsOfAt(filename, init, k, summarize, prompt, job);
      assert init[k] == secs[k];
    }
  }

  /** The records one document contributes: none when its file is missing. */
  function DocumentRecords(doc: Document, summarize: Summarizer, prompt: string, job: string): seq<RankedSection> {
    if doc.pages.None? then []
    else RecordsOf(doc.filename, SegmentPages(doc.pages.value), summarize, prompt, job)
  }

  /** `ranked_sections` after the loop over `docs`. */
  function CollectedRecords(docs: seq<Document>, summarize: Summarizer, prompt: string, job: string)
    : seq<RankedSection>
    decreases |docs|
  {
    if docs == [] then []
    else
      var init := CollectedRecords(docs[..|docs| - 1], summarize, prompt, job);
      init + DocumentRecords(docs[|docs| - 1], summarize, prompt, job)
  }

  lemma CollectedRecordsSnoc(docs: seq<Document>, d: nat, summarize: Summarizer, prompt: string, job: string)
    requires d < |docs|
    ensures CollectedRecords(docs[..d + 1], summarize, prompt, job)
      == CollectedRecords(docs[..d], summarize, prompt, job) + DocumentRecords(docs[d], summarize, prompt, job)
  {
    assert docs[..d + 1][..d] == docs[..d];
  }

  /** The inner loop of persona_intelligence.py:56-68: one record per section
      of document `filename`, in order. */
  method RecordSections(filename: string, sections: seq<Section>, summarize: Summarizer, prompt: string, job: string)
    returns (records: seq<RankedSection>)
    ensures records == RecordsOf(filename, sections, summarize, prompt, job)
  {
    records := [];
    var k := 0;
    while k < |sections|
      invariant 0 <= k <= |sections|
      invariant records == RecordsOf(filename, sections[..k], summarize, prompt, job)
    {
      var summary := summarize(sections[k].text, prompt);
      var score := Score(Some(sections[k].title), Some(summary), job);
      RecordsOfSnoc(filename, sections, k, summarize, prompt, job);
      records := records + [RankedSection(filename, sections[k].title, sections[k].pageNumber, score, summary)];
      k := k + 1;
    }
    assert sections[..k] == sections;
  }

  /** The document loop of persona_intelligence.py:50-68: documents whose file is
      missing are skipped, the others add the records of their sections. */
  method CollectRanked(docs: seq<Document>, summarize: Summarizer, prompt: string, job: string)
    returns (ranked: seq<RankedSection>)
    ensures ranked == CollectedRecords(docs, summarize, prompt, job)
  {
    ranked := [];
    var d := 0;
    while d < |docs|
      invariant 0 <= d <= |docs|
      invariant ranked == CollectedRecords(docs[..d], summarize, prompt, job)
    {
      var doc := docs[d];
      CollectedRecordsSnoc(docs, d, summarize, prompt, job);
      if doc.pages.Some? {
        var sections := ExtractSections(doc.pages.value);
        var records := RecordSections(doc.filename, sections, summarize, prompt, job);
        ranked := ranked + records;
      }
      d := d + 1;
    }
    assert docs[..d] == docs;
  }

  /** One record per section of a document, in order, each carrying that
      section's title and page and its summary. */
  lemma RecordsFollowSections(filename: string, secs: seq<Section>, summarize: Summarizer, prompt: string, job: string)
    ensures var rs := RecordsOf(filename, secs, summarize, prompt, job);
      forall k :: 0 <= k < |secs| ==>
        && rs[k].document == filename
        && rs[k].sectionTitle == secs[k].title
        && rs[k].pageNumber == secs[k].pageNumber
        && rs[k].refinedText == summarize(secs[k].text, prompt)
        && rs[k].score == Score(Some(secs[k].title), Some(rs[k].refinedText), job)
    decreases |secs|
  {
    forall k | 0 <= k < |secs| {
      RecordsOfAt(filename, secs, k, summarize, prompt, job);
    }
  }

  /** The records of consecutive runs of documents are concatenated. */
  lemma {:induction false} CollectedRecordsAppend(d1: seq<Document>, d2: seq<Document>, summarize: Summarizer, prompt: string, job: string)
    ensures CollectedRecords(d1 + d2, summarize, prompt, job)
      == CollectedRecords(d1, summarize, prompt, job) + CollectedRecords(d2, summarize, prompt, job)
    decreases |d2|
  {
    if d2 == [] {
      assert d1 + d2 == d1;
    } else {
      var init := d2[..|d2| - 1];
      assert (d1 + d2)[..|d1 + d2| - 1] == d1 + init;
      CollectedRecordsAppend(d1, init, summarize, prompt, job);
    }
  }

  /** A missing document is skipped; one that exists adds one record per
      section it yields. */
  lemma DocumentContribution(docs: seq<Document>, doc: Document, summarize: Summarizer, prompt: string, job: string)
    ensures doc.pages.None? ==>
      CollectedRecords(docs + [doc], summarize, prompt, job) == CollectedRecords(docs, summarize, prompt, job)
    ensures doc.pages.Some? ==>
      |CollectedRecords(docs + [doc], summarize, prompt, job)|
        == |CollectedRecords(docs, summarize, prompt, job)| + |SegmentPages(doc.pages.value)|
  {
    assert (docs + [doc])[..|docs|] == docs;
  }

  // ---------------------------------------------------------------------------
  // The stable sort of persona_intelligence.py:71.
  // ---------------------------------------------------------------------------

  predicate NonIncreasing(s: seq<RankedSection>) {
    forall i, j :: 0 <= i < j < |s| ==> s[i].score >= s[j].score
  }

  /** `x` placed in front of the first element whose score is not above its own. */
  function Insert(x: RankedSection, t: seq<RankedSection>): (r: seq<RankedSection>)
    ensures |r| == |t| + 1
    ensures multiset(r) == multiset(t) + multiset{x}
    decreases |t|
  {
    if t == [] || t[0].score <= x.score then [x] + t
    else
      assert t == [t[0]] + t[1..];
      [t[0]] + Insert(x, t[1..])
  }

  /** `sorted(s, key=lambda x: -x["importance_rank"])`, as an insertion sort. */
  function SortByScore(s: seq<RankedSection>): (r: seq<RankedSection>)
    ensures |r| == |s|
    ensures multiset(r) == multiset(s)
    decreases |s|
  {
    if s == [] then []
    else
      assert s == [s[0]] + s[1..];
      Insert(s[0], SortByScore(s[1..]))
  }

  /** The inserted record lands in front, or the old first record stays there. */
  lemma InsertHead(x: RankedSection, t: seq<RankedSection>)
    requires t != []
    ensures Insert(x, t)[0] == x || Insert(x, t)[0] == t[0]
  {
  }

  lemma {:induction false} InsertNonIncreasing(x: RankedSection, t: seq<RankedSection>)
    requires NonIncreasing(t)
    ensures NonIncreasing(Insert(x, t))
    decreases |t|
  {
    if t != [] && t[0].score > x.score {
      var tail := t[1..];
      var rest := Insert(x, tail);
      InsertNonIncreasing(x, tail);
      assert rest[0].score <= t[0].score by {
        if tail != [] {
          InsertHead(x, tail);
          assert tail[0] == t[1];
        }
      }
      var r := [t[0]] + rest;
      forall i, j | 0 <= i < j < |r| ensures r[i].score >= r[j].score {
        assert r[j] == rest[j - 1];
        if i > 0 {
          assert r[i] == rest[i - 1];
        } else if j > 1 {
          assert rest[0].score >= rest[j - 1].score;
        }
      }
    }
  }

  /** The sorted records never increase in score. */
  lemma {:induction false} SortNonIncreasing(s: seq<RankedSection>)
    ensures NonIncreasing(SortByScore(s))
    decreases |s|
  {
    if s != [] {
      SortNonIncreasing(s[1..]);
      InsertNonIncreasing(s[0], SortByScore(s[1..]));
    }
  }

  /** The records of `s` whose score is `v`, in their order in `s`. */
  function WithScore(s: seq<RankedSection>, v: nat): seq<RankedSection>
    decreases |s|
  {
    if s == [] then []
    else (if s[0].score == v then [s[0]] else []) + WithScore(s[1..], v)
  }

  lemma {:induction false} InsertWithScore(x: RankedSection, t: seq<RankedSection>, v: nat)
    ensures WithScore(Insert(x, t), v) == (if x.score == v then [x] else []) + WithScore(t, v)
    decreases |t|
  {
    if t == [] || t[0].score <= x.score {
      assert ([x] + t)[1..] == t;
    } else {
      var r := [t[0]] + Insert(x, t[1..]);
      assert r[1..] == Insert(x, t[1..]);
      InsertWithScore(x, t[1..], v);
    }
  }

  /** Stability: records with equal scores keep their original relative order. */
  lemma {:induction false} SortIsStable(s: seq<RankedSection>, v: nat)
    ensures WithScore(SortByScore(s), v) == WithScore(s, v)
    decreases |s|
  {
    if s != [] {
      SortIsStable(s[1..], v);
      InsertWithScore(s[0], SortByScore(s[1..]), v);
    }
  }

  lemma {:induction false} WithScoreMembers(s: seq<RankedSection>, v: nat, y: RankedSection)
    ensures y in WithScore(s, v) <==> y in s && y.score == v
    decreases |s|
  {
    if s != [] {
      WithScoreMembers(s[1..], v, y);
      assert s == [s[0]] + s[1..];
    }
  }

  /** What the filter of the tail is, given the filter of the whole. */
  lemma WithScoreTail(s: seq<RankedSection>, v: nat)
    requires s != []
    ensures WithScore(s[1..], v) == if s[0].score == v then WithScore(s, v)[1..] else WithScore(s, v)
  {
    var w := WithScore(s[1..], v);
    if s[0].score == v {
      assert ([s[0]] + w)[1..] == w;
    } else {
      assert [] + w == w;
    }
  }

  lemma FirstIsHighest(s: seq<RankedSection>, y: RankedSection)
    requires NonIncreasing(s) && y in s
    ensures y.score <= s[0].score
  {
    var j :| 0 <= j < |s| && s[j] == y;
  }

  lemma NonIncreasingTail(s: seq<RankedSection>)
    requires NonIncreasing(s) && s != []
    ensures NonIncreasing(s[1..])
  {
    forall i, j | 0 <= i < j < |s[1..]| ensures s[1..][i].score >= s[1..][j].score {
      assert s[1..][i] == s[i + 1] && s[1..][j] == s[j + 1];
    }
  }

  /** Two score-ordered sequences holding, score by score, the same records in
      the same order are equal. */
  lemma {:induction false} SortedOrderIsUnique(a: seq<RankedSection>, b: seq<RankedSection>)
    requires NonIncreasing(a) && NonIncreasing(b)
    requires forall v: nat :: WithScore(a, v) == WithScore(b, v)
    ensures a == b
    decreases |a| + |b|
  {
    if a == [] || b == [] {
      if a != [] {
        WithScoreMembers(a, a[0].score, a[0]);
        assert false;
      } else if b != [] {
        WithScoreMembers(b, b[0].score, b[0]);
        assert false;
      }
    } else {
      var m := a[0].score;
      WithScoreMembers(b, b[0].score, b[0]);
      WithScoreMembers(a, b[0].score, b[0]);
      FirstIsHighest(a, b[0]);
      WithScoreMembers(a, m, a[0]);
      WithScoreMembers(b, m, a[0]);
      FirstIsHighest(b, a[0]);
      assert b[0].score == m;
      assert WithScore(a, m) == [a[0]] + WithScore(a[1..], m);
      assert WithScore(b, m) == [b[0]] + WithScore(b[1..], m);
      assert WithScore(a, m) == WithScore(b, m);
      assert WithScore(a, m)[0] == a[0] && WithScore(b, m)[0] == b[0];
      forall v: nat ensures WithScore(a[1..], v) == WithScore(b[1..], v) {
        assert WithScore(a, v) == WithScore(b, v);
        WithScoreTail(a, v);
        WithScoreTail(b, v);
      }
      NonIncreasingTail(a);
      NonIncreasingTail(b);
      SortedOrderIsUnique(a[1..], b[1..]);
      assert a == [a[0]] + a[1..] && b == [b[0]] + b[1..];
    }
  }

  /** The sort is Python's stable sort by descending score: the only order that
      never increases in score and keeps equal-score records in input order. */
  lemma SortIsPythonSorted(s: seq<RankedSection>, t: seq<RankedSection>)
    requires NonIncreasing(t)
    requires forall v: nat :: WithScore(t, v) == WithScore(s, v)
    ensures t == SortByScore(s)
  {
    SortNonIncreasing(s);
    forall v: nat ensures WithScore(t, v) == WithScore(SortByScore(s), v) {
      SortIsStable(s, v);
    }
    SortedOrderIsUnique(t, SortByScore(s));
  }

  // ---------------------------------------------------------------------------
  // The two slices (persona_intelligence.py:72-86).
  // ---------------------------------------------------------------------------

  function Min(a: nat, b: nat): nat {
    if a <= b then a else b
  }

  /** What the output lists hold for the records `ranked`: the first five sorted
      records numbered from 1, and the first ten with their summaries. */
  predicate RankedOutput(ranked: seq<RankedSection>, extracted: seq<ExtractedSection>, analysis: seq<SubsectionAnalysis>) {
    var sorted := SortByScore(ranked);
    && |extracted| == Min(5, |ranked|)
    && |analysis| == Min(10, |ranked|)
    && (forall i :: 0 <= i < |extracted| ==>
          extracted[i] == ExtractedSection(sorted[i].document, sorted[i].sectionTitle, i + 1, sorted[i].pageNumber))
    && (forall i :: 0 <= i < |analysis| ==>
          analysis[i] == SubsectionAnalysis(sorted[i].document, sorted[i].refinedText, sorted[i].pageNumber))
  }

  /** The sort and the two loops of persona_intelligence.py:71-86. */
  method RankSections(ranked: seq<RankedSection>) returns (extracted: seq<ExtractedSection>, analysis: seq<SubsectionAnalysis>)
    ensures RankedOutput(ranked, extracted, analysis)
  {
    var sorted := SortByScore(ranked);
    var top := Min(5, |sorted|);
    extracted := [];
    var i := 0;
    while i < top
      invariant 0 <= i <= top
      invariant |extracted| == i
      invariant forall k :: 0 <= k < i ==>
        extracted[k] == ExtractedSection(sorted[k].document, sorted[k].sectionTitle, k + 1, sorted[k].pageNumber)
    {
      var sec := sorted[i];
      extracted := extracted + [ExtractedSection(sec.document, sec.sectionTitle, i + 1, sec.pageNumber)];
      i := i + 1;
    }
    var more := Min(10, |sorted|);
    analysis := [];
    var j := 0;
    while j < more
      invariant 0 <= j <= more
      invariant |analysis| == j
      invariant forall k :: 0 <= k < j ==>
        analysis[k] == SubsectionAnalysis(sorted[k].document, sorted[k].refinedText, sorted[k].pageNumber)
    {
      var sec := sorted[j];
      analysis := analysis + [SubsectionAnalysis(sec.document, sec.refinedText, sec.pageNumber)];
      j := j + 1;
    }
  }

  /** The first entries of `subsection_analysis` are the records behind
      `extracted_sections`, in the same order; ranks run 1, 2, ... and follow
      non-increasing scores. */
  lemma ExtractedAgreesWithAnalysis(ranked: seq<RankedSection>, extracted: seq<ExtractedSection>, analysis: seq<SubsectionAnalysis>)
    requires RankedOutput(ranked, extracted, analysis)
    ensures |extracted| <= |analysis|
    ensures forall i :: 0 <= i < |extracted| ==>
      && extracted[i].document == analysis[i].document
      && extracted[i].pageNumber == analysis[i].pageNumber
      && extracted[i].importanceRank == i + 1
    ensures forall i, j :: 0 <= i < j < |extracted| ==>
      SortByScore(ranked)[i].score >= SortByScore(ranked)[j].score
  {
    SortNonIncreasing(ranked);
  }

  /** `main` without its input and output: the records of all documents found,
      ranked into the two output lists. */
  method RankDocuments(docs: seq<Document>, summarize: Summarizer, prompt: string, job: string)
    returns (extracted: seq<ExtractedSection>, analysis: seq<SubsectionAnalysis>)
    ensures RankedOutput(CollectedRecords(docs, summarize, prompt, job), extracted, analysis)
  {
    var ranked := CollectRanked(docs, summarize, prompt, job);
    extracted, analysis := RankSections(ranked);
  }
}
