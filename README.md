# Section extraction and importance ranking, in Dafny

This project models the core of a batch "document intelligence" script that works for a persona and a job to be done. The core has two parts.

**The section segmenter `extract_pdf_sections` (utils.py).**
- Each page's text is split on line feeds and every line is stripped.
- A line is a heading when it matches one of two patterns and has at most ten tokens:
  - an upper-case run of at least seven characters;
  - a title-case phrase of two to five words.
- Body lines accumulate under the current heading. They are emitted as a `(title, text, pageNumber)` section when the next heading comes or the page ends.
- The title and the accumulator start afresh on every page.
- A final filter keeps the sections with more than 40 characters of text and a non-empty title.

**The scoring and ranking of `persona_intelligence.py`.**
- `score_importance` counts two things:
  - the 17 keywords found, ignoring case, in `title + " " + text + " " + job`;
  - the keywords found in the title alone.
- `main` builds one record per section of every document that exists, scored on the section's summary.
- It then sorts the records by descending score with Python's stable `sorted`.
- It writes out the first five, numbered 1 to 5, as `extracted_sections` and the first ten as `subsection_analysis`.

**Modules.**
- `Wrappers` (`wrappers.dfy`): `Option`.
- `Strings` (`strings.dfy`): the Python string built-ins the core uses, on ASCII. These are `strip`, `split(sep)`, `split()`, `join`, `lower` and `in`.
- `Sections` (`sections.dfy`): the heading test, and the segmenter as a fold over classified lines (`Feed` of `Step`, then `EndPage`). Also the methods `ScanPageLines` and `ExtractSections`, whose loops are proved equal to that fold.
- `SectionProperties` (`section_properties.dfy`): what is proved about the segmenter:
  - where titles come from;
  - page numbers and order;
  - independence of pages;
  - the edge cases of the line loop.
- `Scoring` (`scoring.dfy`): `IMPORTANCE_KEYWORDS` and `score_importance`.
- `Ranking` (`ranking.dfy`): the accumulation loop, the stable sort and the two slices.

**Behaviours of `extract_pdf_sections` and `score_importance` that are easy to misread.**
- Body lines that come before a page's first heading are not discarded. The accumulator is cleared only when a section is emitted (utils.py:36), so these lines join the body of the page's first heading.
  - The title of a section is therefore always a heading of its page, but its text can begin above that heading (`OrphanLinesJoinFirstSection`).
  - For the same reason, a heading at the bottom of a page emits a section when orphan lines are pending and no earlier heading exists on the page (`TrailingHeading`).
  - Likewise, two adjacent headings do emit when orphan lines are pending. On the page `x`, `ABCDEFG`, `HIJKLMN`, the second heading emits the first with body `x` (`OrphanLinesJoinFirstSection` with nothing between the two headings). Only from an empty accumulator does a run of headings emit nothing (`HeadingRunEmitsNothing`).
- Adding a keyword occurrence to a title can lower the score when the keyword is appended.
  - Title `food things`, text `to do` and an empty job score 3: "things to do" and "food" in the combined text, plus "food" in the title.
  - The title `food things food` scores 2, because the multi-word keyword "things to do" no longer spans the title and the text.
  - What does hold is proved: putting words in front of a title never lowers its score (`PrefixingTitleNeverLowers`).

## Model

| member | source | states |
|---|---|---|
| Strings.Split | adobe_hackathon_1b_backup/src/utils.py:22 | `s.split(sep)`: the pieces between the occurrences of `sep`, always at least one |
| Strings.Join | adobe_hackathon_1b_backup/src/utils.py:33 | `sep.join(ws)`: the pieces with one separator between each pair |
| Strings.TokenCount | adobe_hackathon_1b_backup/src/utils.py:28 | `len(s.split())`: the number of maximal runs of non-whitespace |
| Sections.IsCapsLine | adobe_hackathon_1b_backup/src/utils.py:17 | the first alternative of the pattern over the whole line: an upper-case letter followed by six or more of A-Z, whitespace, `-`, `:`, `&`, `'` |
| Sections.IsTitleCasePhrase | adobe_hackathon_1b_backup/src/utils.py:17 | the second alternative over the whole line: two to five words `[A-Z][a-z]+`, separated by single spaces |
| Sections.IsHeading | adobe_hackathon_1b_backup/src/utils.py:17-28 | the heading test: either alternative, and at most ten tokens |
| Sections.MakeSection | adobe_hackathon_1b_backup/src/utils.py:31-35 | the record built from the title, the body lines joined with line feeds and stripped, and the page number |
| Sections.Step | adobe_hackathon_1b_backup/src/utils.py:28-39 | one iteration: a heading emits the pending section when a title and body lines exist, clears the body only then, and becomes the title; any other line is appended to the body |
| Sections.Feed | adobe_hackathon_1b_backup/src/utils.py:25-39 | the line loop over a page's classified lines |
| Sections.EndPage | adobe_hackathon_1b_backup/src/utils.py:41-46 | the end-of-page flush of the pending section |
| Sections.PageSections | adobe_hackathon_1b_backup/src/utils.py:22-46 | the sections one page's text emits, starting from no title and an empty body |
| Sections.ScanPages | adobe_hackathon_1b_backup/src/utils.py:20-46 | the sections of all pages in page order, page `i` numbered `i`, before the filter |
| Sections.SegmentPages | adobe_hackathon_1b_backup/src/utils.py:20-48 | `extract_pdf_sections` on a document's page texts: the sections of all pages, filtered |
| Scoring.Found | adobe_hackathon_1b_backup/src/persona_intelligence.py:18 | `kw.lower() in text.lower()` |
| Scoring.Combined | adobe_hackathon_1b_backup/src/persona_intelligence.py:17 | the combined text: title, text and job, each `None` read as `""`, separated by single spaces |
| Ranking.Record | adobe_hackathon_1b_backup/src/persona_intelligence.py:60-68 | the record of one section: document name, title, page, the summary of the section's text, and the score of the title with that summary |
| Ranking.CollectedRecords | adobe_hackathon_1b_backup/src/persona_intelligence.py:50-68 | `ranked_sections` after the loop: the records of the documents found, in document-then-section order |
| Ranking.RankedOutput | adobe_hackathon_1b_backup/src/persona_intelligence.py:71-86 | what the two output lists hold: the first min(5, n) sorted records ranked from 1, and the first min(10, n) with their summaries |
| Strings.IsSpace | adobe_hackathon_1b_backup/src/utils.py:17-28 | the whitespace set behind `strip()`, `split()` and the regex `\s`: Python's `isspace` on ASCII, codes 9-13, 28-31 and 32 |
| Strings.LowerChar | adobe_hackathon_1b_backup/src/persona_intelligence.py:18 | `lower()` of one character: `A`-`Z` to `a`-`z`, every other character unchanged |
| Sections.Classify | adobe_hackathon_1b_backup/src/utils.py:26-28 | a line stripped, then marked as a heading or a body line by the heading test |
| Sections.ClassifyAll | adobe_hackathon_1b_backup/src/utils.py:25-28 | every line of a page stripped and classified, in order |
| Sections.HasTitle | adobe_hackathon_1b_backup/src/utils.py:30 | Python truthiness of `cur_section_title`: set and non-empty |
| Sections.Pending | adobe_hackathon_1b_backup/src/utils.py:30 | the test `cur_section_title and cur_section_text` of lines 30 and 41 |
| Sections.RunPage | adobe_hackathon_1b_backup/src/utils.py:23-46 | one page's line loop over classified lines, started from the per-page reset `PageStart` (no title, empty body, lines 23-24), then the end-of-page flush |
| Sections.ScanLines | adobe_hackathon_1b_backup/src/utils.py:23-46 | `RunPage` on a page's raw lines, classified |
| Sections.Substantial | adobe_hackathon_1b_backup/src/utils.py:48 | the condition of the comprehension: text longer than 40 characters and a non-empty title |
| Scoring.OrEmpty | adobe_hackathon_1b_backup/src/persona_intelligence.py:17-20 | `s or ""` on an optional string |
| Ranking.DocumentRecords | adobe_hackathon_1b_backup/src/persona_intelligence.py:53-68 | the records one document adds: none when its file is missing, otherwise one per section `extract_pdf_sections` returns |
| Strings.Strip | adobe_hackathon_1b_backup/src/utils.py:26 | the result is an infix of the line with only whitespace removed before and after it, and it neither starts nor ends with whitespace |
| Strings.JoinSplit | adobe_hackathon_1b_backup/src/utils.py:22 | joining the pieces of `text.split('\n')` with line feeds gives the page text back |
| Strings.SplitPiecesOmitSeparator | adobe_hackathon_1b_backup/src/utils.py:22 | no line of a page contains a line feed |
| Strings.TokenCountJoin | adobe_hackathon_1b_backup/src/utils.py:28 | `len(s.split())` of non-empty, whitespace-free words joined by single spaces is the number of words |
| Strings.Lower | adobe_hackathon_1b_backup/src/persona_intelligence.py:18 | `lower()` keeps the length and lowers each ASCII letter in place |
| Strings.Contains | adobe_hackathon_1b_backup/src/persona_intelligence.py:18 | `kw in text` holds exactly when `kw` occurs as a contiguous infix of `text` |
| Strings.ContainsWithin | adobe_hackathon_1b_backup/src/persona_intelligence.py:17-18 | a substring of a part of the combined text is a substring of the whole |
| Sections.TitleCasePhraseTokens | adobe_hackathon_1b_backup/src/utils.py:17 | a line matching the title-case alternative has one token per word, so at most five |
| Sections.HeadingTokenLimit | adobe_hackathon_1b_backup/src/utils.py:17-28 | a stripped line is a heading exactly when it is a title-case phrase, or an upper-case line of at most ten tokens; the limit only ever rejects upper-case lines |
| Sections.HeadingNonEmpty | adobe_hackathon_1b_backup/src/utils.py:17 | no heading is the empty line |
| Sections.ClassifyAllSnoc | adobe_hackathon_1b_backup/src/utils.py:25-28 | classifying one more line appends its classification |
| Sections.FeedSnoc | adobe_hackathon_1b_backup/src/utils.py:25-39 | running the line loop over one more line is one more iteration |
| Sections.ScanPagesSnoc | adobe_hackathon_1b_backup/src/utils.py:20-46 | one more page appends exactly its own sections, numbered with its 1-based position |
| Sections.KeepSubstantial | adobe_hackathon_1b_backup/src/utils.py:48 | every kept section has more than 40 characters of text and a non-empty title, and the result is never longer than the input |
| Sections.KeepSubstantialMembers | adobe_hackathon_1b_backup/src/utils.py:48 | the filter keeps exactly the sections with text longer than 40 and a non-empty title |
| Sections.ScanPageLines | adobe_hackathon_1b_backup/src/utils.py:23-46 | the line loop with its end-of-page flush emits exactly the sections of the fold over the page's classified lines |
| Sections.ExtractSections | adobe_hackathon_1b_backup/src/utils.py:20-48 | the page loop followed by the filter returns exactly `SegmentPages(pages)` |
| SectionProperties.IsSubseqTrans | adobe_hackathon_1b_backup/src/utils.py:31-46 | a subsequence of a subsequence is a subsequence; serves `RunPageFollowsHeadings` and `KeptSectionsFollowHeadings` (order of emitted titles) |
| SectionProperties.IsSubseqLength | adobe_hackathon_1b_backup/src/utils.py:31-46 | a subsequence is never longer; serves the per-page section count of `PageSectionsFollowHeadings` |
| SectionProperties.IsSubseqMembers | adobe_hackathon_1b_backup/src/utils.py:31-46 | every element of a subsequence belongs to the sequence; serves `TitlesWithin` and the origin lemmas |
| SectionProperties.HeadingLineMeans | adobe_hackathon_1b_backup/src/utils.py:25-28 | every heading line of a page passes the heading test and is the stripped form of one of the page's lines |
| SectionProperties.HeadingTextsOfClassified | adobe_hackathon_1b_backup/src/utils.py:26-28 | the headings of the classified lines are the page's heading lines |
| SectionProperties.FeedFollowsHeadings | adobe_hackathon_1b_backup/src/utils.py:28-39 | the titles emitted so far, followed by the current title, are a subsequence of the headings seen |
| SectionProperties.FeedPageNumber | adobe_hackathon_1b_backup/src/utils.py:31-35 | every section the loop emits carries the page's number |
| SectionProperties.RunPageFollowsHeadings | adobe_hackathon_1b_backup/src/utils.py:23-46 | a page's section titles are its headings in top-to-bottom order with some left out, and all carry the page's number |
| SectionProperties.PageSectionsFollowHeadings | adobe_hackathon_1b_backup/src/utils.py:22-46 | a page emits at most as many sections as it has heading lines, titled by those lines in their order, all on that page |
| SectionProperties.KeptSectionsFollowHeadings | adobe_hackathon_1b_backup/src/utils.py:22-48 | the sections of a page that survive the filter are titled by the page's heading lines in their order |
| SectionProperties.KeepSubstantialTitles | adobe_hackathon_1b_backup/src/utils.py:48 | the filter keeps the surviving titles in their order |
| SectionProperties.FeedAppend | adobe_hackathon_1b_backup/src/utils.py:25-39 | running the loop over two runs of lines is running it over the first, then the second |
| SectionProperties.FeedBodyLines | adobe_hackathon_1b_backup/src/utils.py:38-39 | body lines, blank ones included, are appended stripped to the accumulator and change nothing else |
| SectionProperties.OrphanLinesJoinFirstSection | adobe_hackathon_1b_backup/src/utils.py:23-46 | lines before a page's first heading stay in the accumulator; the first section is that heading with the joined and stripped lines before and after it, emitted at the next heading or the end of page |
| SectionProperties.HeadingRunEmitsNothing | adobe_hackathon_1b_backup/src/utils.py:30-37 | with an empty accumulator, consecutive headings with nothing between them emit nothing, and only the last one stays as title (with pending orphan lines the second heading does emit, see `OrphanLinesJoinFirstSection`) |
| SectionProperties.TrailingHeading | adobe_hackathon_1b_backup/src/utils.py:30-46 | a heading that ends a page after a titled section emits only that section; with no earlier title it emits the pending orphan lines under itself |
| SectionProperties.ShiftAppend | adobe_hackathon_1b_backup/src/utils.py:34 | renumbering pages distributes over concatenation; serves `FeedShift`, `ConcatPagesAppend` and `KeepSubstantialShift` |
| SectionProperties.FeedShift | adobe_hackathon_1b_backup/src/utils.py:25-39 | the page number plays no part in the loop other than labelling the emitted sections |
| SectionProperties.RunPageShift | adobe_hackathon_1b_backup/src/utils.py:23-46 | a page segmented under a later number gives the same sections renumbered |
| SectionProperties.PageSectionsShift | adobe_hackathon_1b_backup/src/utils.py:20-46 | a page's text segmented as page `later` gives its sections as page `page`, renumbered by the difference |
| SectionProperties.ScanPagesIsConcat | adobe_hackathon_1b_backup/src/utils.py:20-46 | the sections before the filter are the pages' sections concatenated in page order, page `i` numbered `i` |
| SectionProperties.PageSectionsRelabels | adobe_hackathon_1b_backup/src/utils.py:20-46 | every page's segmentation depends on its number only through the labels |
| SectionProperties.ConcatPagesAppend | adobe_hackathon_1b_backup/src/utils.py:20-46 | for any page segmenter that relabels, two runs of pages give the first run's sections, then the second's renumbered |
| SectionProperties.ScanPagesAppend | adobe_hackathon_1b_backup/src/utils.py:20-46 | before the filter, two runs of pages give the first run's sections followed by the second's renumbered after the first |
| SectionProperties.KeepSubstantialAppend | adobe_hackathon_1b_backup/src/utils.py:48 | the filter distributes over concatenation |
| SectionProperties.KeepSubstantialShift | adobe_hackathon_1b_backup/src/utils.py:48 | the filter commutes with renumbering pages |
| SectionProperties.SegmentPagesAppend | adobe_hackathon_1b_backup/src/utils.py:20-48 | no title or body carries over a page boundary: a document's sections are those of its first pages followed by those of the rest, renumbered |
| SectionProperties.SegmentPagesSnoc | adobe_hackathon_1b_backup/src/utils.py:20-48 | one more page adds exactly its own surviving sections, numbered with its 1-based position |
| SectionProperties.PageSectionsFromOwnPage | adobe_hackathon_1b_backup/src/utils.py:22-46 | every page's sections carry its number and are titled by its heading lines |
| SectionProperties.ConcatPagesOrigin | adobe_hackathon_1b_backup/src/utils.py:20-46 | for any page segmenter whose sections come from their own page, every section comes from the page its number names |
| SectionProperties.ScanPagesOrigin | adobe_hackathon_1b_backup/src/utils.py:20-46 | every section before the filter is numbered with a page of the document and titled by a heading line of that page |
| SectionProperties.FromItsPageMeans | adobe_hackathon_1b_backup/src/utils.py:26-37 | a title from a page's heading lines passes the heading test and is a stripped line of that page |
| SectionProperties.SectionsComeFromTheirPage | adobe_hackathon_1b_backup/src/utils.py:20-48 | every returned section has more than 40 characters of text, a non-empty title, a page number between 1 and the page count, and a title that passes the heading test and is a stripped line of that page |
| SectionProperties.ConcatPagesNondecreasing | adobe_hackathon_1b_backup/src/utils.py:20-46 | pages taken in order with their own numbers give non-decreasing page numbers between 1 and the page count |
| SectionProperties.KeepSubstantialNondecreasing | adobe_hackathon_1b_backup/src/utils.py:48 | the filter keeps page numbers non-decreasing |
| SectionProperties.PageNumbersNondecreasing | adobe_hackathon_1b_backup/src/utils.py:20-48 | the returned sections are in non-decreasing page order |
| Scoring.ImportanceKeywordsCount | adobe_hackathon_1b_backup/src/persona_intelligence.py:9-13 | there are 17 keywords |
| Scoring.KeywordHits | adobe_hackathon_1b_backup/src/persona_intelligence.py:18 | a sum over the keywords is at most their number |
| Scoring.Score | adobe_hackathon_1b_backup/src/persona_intelligence.py:15-21 | the score is at most twice the number of keywords |
| Scoring.ScoreBounds | adobe_hackathon_1b_backup/src/persona_intelligence.py:9-21 | the score lies between 0 and 34 |
| Scoring.MissingPartsAreEmpty | adobe_hackathon_1b_backup/src/persona_intelligence.py:17-20 | a `None` title or text scores as the empty string |
| Scoring.CountTrueIsSize | adobe_hackathon_1b_backup/src/persona_intelligence.py:18 | counting true flags one by one counts the set of their positions; serves `KeywordHitsCountsFound` |
| Scoring.FoundFlagsAt | adobe_hackathon_1b_backup/src/persona_intelligence.py:18 | flag `i` says whether keyword `i` is found; serves `KeywordHitsCountsFound` |
| Scoring.KeywordHitsCountsFlags | adobe_hackathon_1b_backup/src/persona_intelligence.py:18 | the sum counts the true flags; serves `KeywordHitsCountsFound` |
| Scoring.KeywordHitsCountsFound | adobe_hackathon_1b_backup/src/persona_intelligence.py:18-20 | each sum is the number of distinct keywords found, each adding one however often it occurs |
| Scoring.KeywordHitsMonotone | adobe_hackathon_1b_backup/src/persona_intelligence.py:18 | a text in which at least the same keywords are found counts at least as many |
| Scoring.KeywordHitsDependOnFoundOnly | adobe_hackathon_1b_backup/src/persona_intelligence.py:18 | texts in which the same keywords are found count the same |
| Scoring.FoundWithin | adobe_hackathon_1b_backup/src/persona_intelligence.py:17-18 | a keyword found, ignoring case, in a part of the combined text is found in the whole |
| Scoring.TitleBonusAtMostBase | adobe_hackathon_1b_backup/src/persona_intelligence.py:17-20 | the title bonus never exceeds the first sum, so the score is at most twice the first sum |
| Scoring.PrefixingTitleNeverLowers | adobe_hackathon_1b_backup/src/persona_intelligence.py:17-20 | putting words in front of a title never lowers its score |
| Ranking.RecordsOf | adobe_hackathon_1b_backup/src/persona_intelligence.py:58-68 | one record per section |
| Ranking.RecordsOfSnoc | adobe_hackathon_1b_backup/src/persona_intelligence.py:58-68 | one more section appends its record |
| Ranking.RecordsOfAt | adobe_hackathon_1b_backup/src/persona_intelligence.py:58-68 | record `k` is the record of section `k` |
| Ranking.CollectedRecordsSnoc | adobe_hackathon_1b_backup/src/persona_intelligence.py:50-68 | one more document appends its records |
| Ranking.RecordSections | adobe_hackathon_1b_backup/src/persona_intelligence.py:58-68 | the inner loop appends exactly one record per section, in section order |
| Ranking.CollectRanked | adobe_hackathon_1b_backup/src/persona_intelligence.py:50-68 | the document loop builds exactly the records of all documents found, in document-then-section order |
| Ranking.RecordsFollowSections | adobe_hackathon_1b_backup/src/persona_intelligence.py:58-68 | record `k` carries the document name, section `k`'s title and page, the summary of section `k`'s text, and the score of the title with that summary |
| Ranking.CollectedRecordsAppend | adobe_hackathon_1b_backup/src/persona_intelligence.py:50-68 | the records of two runs of documents are those of the first run followed by those of the second |
| Ranking.DocumentContribution | adobe_hackathon_1b_backup/src/persona_intelligence.py:50-57 | a missing document adds no record; one that exists adds one record per extracted section |
| Ranking.Insert | adobe_hackathon_1b_backup/src/persona_intelligence.py:71 | insertion adds exactly the one record |
| Ranking.SortByScore | adobe_hackathon_1b_backup/src/persona_intelligence.py:71 | the sorted records are a permutation of the records |
| Ranking.InsertHead | adobe_hackathon_1b_backup/src/persona_intelligence.py:71 | insertion puts the new record or the old first record in front; serves `InsertNonIncreasing` |
| Ranking.InsertNonIncreasing | adobe_hackathon_1b_backup/src/persona_intelligence.py:71 | insertion keeps the scores non-increasing |
| Ranking.SortNonIncreasing | adobe_hackathon_1b_backup/src/persona_intelligence.py:71 | the sorted scores never increase |
| Ranking.InsertWithScore | adobe_hackathon_1b_backup/src/persona_intelligence.py:71 | insertion puts the new record before every earlier record of equal score |
| Ranking.SortIsStable | adobe_hackathon_1b_backup/src/persona_intelligence.py:71 | records of equal score keep their original relative order |
| Ranking.WithScoreMembers | adobe_hackathon_1b_backup/src/persona_intelligence.py:71 | the records of a given score are exactly the records with that score |
| Ranking.WithScoreTail | adobe_hackathon_1b_backup/src/persona_intelligence.py:71 | dropping the first record drops it from its score's records only; serves `SortedOrderIsUnique` |
| Ranking.FirstIsHighest | adobe_hackathon_1b_backup/src/persona_intelligence.py:71 | in non-increasing order the first record has the highest score; serves `SortedOrderIsUnique` |
| Ranking.NonIncreasingTail | adobe_hackathon_1b_backup/src/persona_intelligence.py:71 | the tail of a non-increasing sequence is non-increasing; serves `SortedOrderIsUnique` |
| Ranking.SortedOrderIsUnique | adobe_hackathon_1b_backup/src/persona_intelligence.py:71 | two non-increasing orders that keep every score's records in the same order are equal |
| Ranking.SortIsPythonSorted | adobe_hackathon_1b_backup/src/persona_intelligence.py:71 | any order that never increases in score and keeps equal scores in input order is the sort's result, so the sort is Python's stable `sorted` by `-score` |
| Ranking.RankSections | adobe_hackathon_1b_backup/src/persona_intelligence.py:71-86 | `extracted_sections` has min(5, n) entries, entry `i` ranked `i + 1` with the document, title and page of the `i`-th sorted record; `subsection_analysis` has min(10, n) entries with the document, summary and page of the `i`-th sorted record |
| Ranking.ExtractedAgreesWithAnalysis | adobe_hackathon_1b_backup/src/persona_intelligence.py:73-86 | the listed entries of `subsection_analysis` begin with the records of `extracted_sections` in the same order, ranks run 1, 2, ... and the ranked records' scores never increase |
| Ranking.RankDocuments | adobe_hackathon_1b_backup/src/persona_intelligence.py:50-86 | the two output lists are the top five and top ten of the sorted records of all documents found |

## Left out

- PDF reading: `pdfplumber.open` and `page.extract_text()` (utils.py:19-21). A document is given as the sequence of its page texts, and a page without text is the empty string (the source's `or ""`).
- The summarizer: summarizer.py is not part of this model. `summarize_text` is a function parameter (`Summarizer`) that the model does not interpret.
- Input and output of `main`:
  - loading the JSON inputs and the persona prompts;
  - the unknown-persona exit;
  - `os.makedirs`, the `print` diagnostics, the output JSON and its timestamp.
  The composed prompt is a parameter, and the file-existence test becomes a document whose pages are `None`.
- Exceptions: a raise from `page.extract_text()` or `summarize_text` ends the whole run in the source. In the model the page texts are given and `Summarizer` is total, so no failure path exists.
- Unicode: whitespace, case and the regex character classes are those of ASCII only. `str.isspace` is restricted to codes 9-13, 28-31 and 32; `lower` changes only `A`-`Z`.
- The regex engine: the heading pattern is a hand-written predicate with the same two alternatives, anchored at both ends.
- The unused variables `last_section`, `last_title` and `page_num` (utils.py:12-14).
- Sections.ExtractSections: the line loop of one page is the separate method `ScanPageLines`, which returns that page's sections. In the source both loops sit in one function and append to a single list, so the model does not capture that sharing.
- Ranking.CollectRanked: the inner loop over a document's sections is the separate method `RecordSections`, for the same reason.
- Strings.Split: states only that there is at least one piece. The lemmas `JoinSplit` and `SplitPiecesOmitSeparator` give the rest.
- Concrete evaluations, such as a full keyword score on a given string or the end-to-end report for one page, are not stated. Every property is proved for all inputs instead.
