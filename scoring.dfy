/**
 * `IMPORTANCE_KEYWORDS` and `score_importance` (persona_intelligence.py): a
 * section's score counts the keywords found, ignoring case, in its title, text
 * and the job description together, plus those found in the title alone.
 */
module Scoring {
  import opened Wrappers
  import opened Strings

  /** The keyword list of persona_intelligence.py:9-13. */
  const ImportanceKeywords: seq<string> := [
    "itinerary", "things to do", "activities", "adventure", "nightlife",
    "culture", "cuisine", "food", "restaurant", "tips", "advice", "packing",
    "hotel", "transport", "must-see", "group", "travel"
  ]

  lemma ImportanceKeywordsCount()
    ensures |ImportanceKeywords| == 17
  {
  }

  /** Python's `s or ""` on an optional string. */
  function OrEmpty(s: Option<string>): string {
    s.GetOr("")
  }

  /** `kw.lower() in text.lower()`. */
  predicate Found(text: string, kw: string) {
    Contains(Lower(text), Lower(kw))
  }

  /** `sum(kw.lower() in text.lower() for kw in kws)`. */
  function KeywordHits(kws: seq<string>, text: string): (n: nat)
    ensures n <= |kws|
    decreases |kws|
  {
    if kws == [] then 0
    else KeywordHits(kws[..|kws| - 1], text) + (if Found(text, kws[|kws| - 1]) then 1 else 0)
  }

  /** The text searched by the first sum (persona_intelligence.py:17). */
  function Combined(title: Option<string>, text: Option<string>, job: string): string {
    OrEmpty(title) + " " + OrEmpty(text) + " " + job
  }

  /** `score_importance(section_title, section_text, persona_job)`. */
  function Score(title: Option<string>, text: Option<string>, job: string): (score: nat)
    ensures score <= 2 * |ImportanceKeywords|
  {
    KeywordHits(ImportanceKeywords, Combined(title, text, job)) + KeywordHits(ImportanceKeywords, OrEmpty(title))
  }

  /** The score never exceeds 34, twice the number of keywords. */
  lemma ScoreBounds(title: Option<string>, text: Option<string>, job: string)
    ensures 0 <= Score(title, text, job) <= 34
  {
    ImportanceKeywordsCount();
  }

  /** A `None` title or text counts as the empty string. */
  lemma MissingPartsAreEmpty(title: Option<string>, text: Option<string>, job: string)
    ensures Score(None, text, job) == Score(Some(""), text, job)
    ensures Score(title, None, job) == Score(title, Some(""), job)
  {
  }

  /** The positions of the true entries of `bs`. */
  function TruePositions(bs: seq<bool>): set<nat> {
    set i: nat | i < |bs| && bs[i]
  }

  /** How many entries of `bs` are true. */
  function CountTrue(bs: seq<bool>): nat
    decreases |bs|
  {
    if bs == [] then 0 else CountTrue(bs[..|bs| - 1]) + (if bs[|bs| - 1] then 1 else 0)
  }

  lemma {:induction false} CountTrueIsSize(bs: seq<bool>)
    ensures CountTrue(bs) == |TruePositions(bs)|
    decreases |bs|
  {
    if bs != [] {
      var n := |bs| - 1;
      var init := bs[..n];
      CountTrueIsSize(init);
      var before := TruePositions(init);
      assert n !in before;
      if bs[n] {
        assert TruePositions(bs) == before + {n};
      } else {
        assert TruePositions(bs) == before;
      }
    }
  }

  /** For each keyword of `kws`, whether it is found in `text`. */
  function FoundFlags(kws: seq<string>, text: string): (fs: seq<bool>)
    ensures |fs| == |kws|
    decreases |kws|
  {
    if kws == [] then [] else FoundFlags(kws[..|kws| - 1], text) + [Found(text, kws[|kws| - 1])]
  }

  lemma {:induction false} FoundFlagsAt(kws: seq<string>, text: string, i: nat)
    requires i < |kws|
    ensures FoundFlags(kws, text)[i] == Found(text, kws[i])
    decreases |kws|
  {
    if i < |kws| - 1 {
      FoundFlagsAt(kws[..|kws| - 1], text, i);
      assert kws[..|kws| - 1][i] == kws[i];
    }
  }

  lemma {:induction false} KeywordHitsCountsFlags(kws: seq<string>, text: string)
    ensures KeywordHits(kws, text) == CountTrue(FoundFlags(kws, text))
    decreases |kws|
  {
    if kws != [] {
      var fs := FoundFlags(kws, text);
      KeywordHitsCountsFlags(kws[..|kws| - 1], text);
      assert fs[..|fs| - 1] == FoundFlags(kws[..|kws| - 1], text);
    }
  }

  /** The positions of the keywords of `kws` found in `text`. */
  ghost function FoundAt(kws: seq<string>, text: string): set<nat> {
    set i: nat | i < |kws| && Found(text, kws[i])
  }

  /** Each keyword adds one when found, however often it occurs, and nothing
      otherwise: the count is the number of keywords found. */
  lemma KeywordHitsCountsFound(kws: seq<string>, text: string)
    ensures KeywordHits(kws, text) == |FoundAt(kws, text)|
  {
    var fs := FoundFlags(kws, text);
    KeywordHitsCountsFlags(kws, text);
    CountTrueIsSize(fs);
    forall i: nat | i < |kws| ensures fs[i] == Found(text, kws[i]) {
      FoundFlagsAt(kws, text, i);
    }
    assert TruePositions(fs) == FoundAt(kws, text);
  }

  /** Finding more keywords never lowers the count. */
  lemma {:induction false} KeywordHitsMonotone(kws: seq<string>, a: string, b: string)
    requires forall i :: 0 <= i < |kws| && Found(a, kws[i]) ==> Found(b, kws[i])
    ensures KeywordHits(kws, a) <= KeywordHits(kws, b)
    decreases |kws|
  {
    if kws != [] {
      KeywordHitsMonotone(kws[..|kws| - 1], a, b);
    }
  }

  /** Texts where the same keywords are found get the same count. */
  lemma KeywordHitsDependOnFoundOnly(kws: seq<string>, a: string, b: string)
    requires forall i :: 0 <= i < |kws| ==> (Found(a, kws[i]) <==> Found(b, kws[i]))
    ensures KeywordHits(kws, a) == KeywordHits(kws, b)
  {
    KeywordHitsMonotone(kws, a, b);
    KeywordHitsMonotone(kws, b, a);
  }

  /** A keyword found in an infix of a text is found in the text. */
  lemma FoundWithin(pre: string, mid: string, post: string, kw: string)
    requires Found(mid, kw)
    ensures Found(pre + mid + post, kw)
  {
    LowerConcat(pre + mid, post);
    LowerConcat(pre, mid);
    ContainsWithin(Lower(pre), Lower(mid), Lower(post), Lower(kw));
  }

  /** The title bonus never exceeds the first sum, since the title begins the
      combined text; so the score is at most twice the first sum. */
  lemma TitleBonusAtMostBase(title: Option<string>, text: Option<string>, job: string)
    ensures KeywordHits(ImportanceKeywords, OrEmpty(title)) <= KeywordHits(ImportanceKeywords, Combined(title, text, job))
    ensures Score(title, text, job) <= 2 * KeywordHits(ImportanceKeywords, Combined(title, text, job))
  {
    var t := OrEmpty(title);
    var rest := " " + OrEmpty(text) + " " + job;
    assert Combined(title, text, job) == [] + t + rest;
    forall i | 0 <= i < |ImportanceKeywords| && Found(t, ImportanceKeywords[i])
      ensures Found(Combined(title, text, job), ImportanceKeywords[i])
    {
      FoundWithin([], t, rest, ImportanceKeywords[i]);
    }
    KeywordHitsMonotone(ImportanceKeywords, t, Combined(title, text, job));
  }

  /** Putting more words in front of a title never lowers its score: every
      keyword occurrence of the old title and of the old combined text survives. */
  lemma PrefixingTitleNeverLowers(prefix: string, title: string, text: Option<string>, job: string)
    ensures Score(Some(title), text, job) <= Score(Some(prefix + title), text, job)
  {
    var before := Combined(Some(title), text, job);
    var after := Combined(Some(prefix + title), text, job);
    assert after == prefix + before + [];
    assert prefix + title == prefix + title + [];
    forall i | 0 <= i < |ImportanceKeywords| && Found(before, ImportanceKeywords[i])
      ensures Found(after, ImportanceKeywords[i])
    {
      FoundWithin(prefix, before, [], ImportanceKeywords[i]);
    }
    forall i | 0 <= i < |ImportanceKeywords| && Found(title, ImportanceKeywords[i])
      ensures Found(prefix + title, ImportanceKeywords[i])
    {
      FoundWithin(prefix, title, [], ImportanceKeywords[i]);
    }
    KeywordHitsMonotone(ImportanceKeywords, before, after);
    KeywordHitsMonotone(ImportanceKeywords, title, prefix + title);
  }
}
