# Span collection, ranking and result building — a Dafny model

This project models the list-processing core of `adobe_1b_solution/process_collection.py`, a batch job that does three things:

- It extracts text spans from a list of PDF documents.
- It ranks the spans by lexical similarity to a query built from a persona role and a task.
- It writes the ten best spans as a structured result.

The model covers the three steps around the library calls:

- **Collection** (`Collection`): each configured document is parsed in configuration order. Every span is tagged with its document's filename, and the tagged spans are appended to one flat sequence.
- **Ranking** (`Ranking`): the query is `role + " " + task`. Each score from the scorer is attached to the span at the same index. The spans are then sorted by descending score with a stable sort, so equal-score spans keep their collection order. Python's `sorted(..., reverse=True)` behaves this way.
- **Result building** (`Results`): the first ten ranked spans are kept. They feed two parallel views: `extracted_sections` (document, title cut to 100 characters, rank `i + 1`, page) and `subsection_analysis` (document, full text, page). A metadata block echoes the configured filenames in configuration order, the role, the task and the timestamp.
- **The whole run** (`Pipeline`): these three steps composed.

Records are immutable datatypes (`Records`). In `run` and `rank_content` of process_collection.py, a span is a dictionary that gains a `document` key and later a `score` key. Here each stage wraps the previous record: `Part`, then `Item`, then `ScoredItem`. So "only the new key changes" is a statement that the wrapped value is equal.

Three things are parameters, because their behaviour lives outside this file:

- the PDF parser `parse: string -> seq<Part>`;
- the TF-IDF/cosine scorer `similarity: (query, texts) -> seq<real>`;
- the clock reading `timestamp`.

Scores are `real`s. They stand for any totally ordered key, and no general property depends on their values; only the two worked examples (`OneDocumentMiddleLowest`, `ThreeSpanScenario`) assume a score order. The sort is a functional insertion sort.

Stability is stated with `WithScore(s, v)`, the subsequence of entries that score `v`. The ranked output and the scored input have the same `WithScore` for every `v`. `StableSortUnique` then shows that sortedness plus this property determines the result. So `SortDesc` is the only stable descending order of its input.

## Model

| member | source | states |
|---|---|---|
| Collection.Tag | adobe_1b_solution/process_collection.py:48-49 | tagging keeps every parsed span, in order, and sets its document to the source filename |
| Collection.Collect | adobe_1b_solution/process_collection.py:44-50 | every collected span is tagged with the filename of one of the configured documents |
| Collection.CollectAppend | adobe_1b_solution/process_collection.py:44-50 | collecting a concatenated document list gives the concatenation of the two collections, so each document contributes independently and in list order |
| Collection.CollectLocates | adobe_1b_solution/process_collection.py:44-50 | span `k` of document `j` is at position (spans of documents before `j`) + `k`, tagged with document `j`'s filename, so document order and within-document order are both kept |
| Collection.CollectOrigin | adobe_1b_solution/process_collection.py:44-50 | every collected span is span `m` of some configured document `j`, at exactly that position, so the collection holds nothing else |
| Collection.CollectSpans | adobe_1b_solution/process_collection.py:44-50 | the nested loop (per document, per span: tag, then extend) computes the reference collection `Collect` |
| Collection.CollectWellFormed | adobe_1b_solution/process_collection.py:11-23 | if the parser keeps its promise (non-empty stripped text, pages numbered from 1), every collected span keeps it too |
| Records.Filenames | adobe_1b_solution/process_collection.py:57 | the filename list has one entry per configured document, in configuration order |
| Ranking.Query | adobe_1b_solution/process_collection.py:27 | the query is the role, one space, then the task, and both parts can be read back from it |
| Ranking.Texts | adobe_1b_solution/process_collection.py:28 | one text per span, in span order: entry `k` is the text of span `k` |
| Ranking.Attach | adobe_1b_solution/process_collection.py:32-33 | item `k` receives `scores[k]`, and its text, page, size, flags and document are unchanged |
| Ranking.AttachRoundTrip | adobe_1b_solution/process_collection.py:32-33 | removing the scores from the scored items gives back the items, and reading the scores gives back the score list |
| Ranking.Insert | adobe_1b_solution/process_collection.py:34 | insertion makes the sequence one longer, and the result starts with either the new entry or the old head |
| Ranking.InsertSorted | adobe_1b_solution/process_collection.py:34 | inserting into a non-increasing sequence keeps it non-increasing |
| Ranking.InsertPermutes | adobe_1b_solution/process_collection.py:34 | insertion adds exactly the new entry to the multiset of entries |
| Ranking.InsertPermutesItems | adobe_1b_solution/process_collection.py:34 | with scores removed, insertion adds exactly the new entry's span to the multiset of spans |
| Ranking.InsertStable | adobe_1b_solution/process_collection.py:34 | insertion keeps every equal-score group in order and puts the new entry at the head of its own group |
| Ranking.SortDesc | adobe_1b_solution/process_collection.py:34 | the sort output is non-increasing in score and as long as its input |
| Ranking.SortDescPermutes | adobe_1b_solution/process_collection.py:34 | the sort output is a permutation of its input |
| Ranking.SortDescPermutesItems | adobe_1b_solution/process_collection.py:34 | with scores removed, the sort output is a permutation of the input spans |
| Ranking.SortDescStable | adobe_1b_solution/process_collection.py:34 | for every score value, the entries with that score come out in their input order |
| Ranking.StableSortUnique | adobe_1b_solution/process_collection.py:34 | two non-increasing sequences with the same equal-score groups are equal, so a stable descending sort has exactly one possible result |
| Ranking.RankContent | adobe_1b_solution/process_collection.py:26-34 | the ranked list has as many entries as the input, scores never increase between adjacent entries, it is a permutation of the scored spans and of the input spans, and equal-score spans keep their collection order |
| Pipeline.RankedFromItems | adobe_1b_solution/process_collection.py:34 | every ranked entry is one of the spans given to the ranker |
| Pipeline.RankedWellFormed | adobe_1b_solution/process_collection.py:32-34 | ranking only reorders spans and adds scores, so if every input span is well formed, every ranked span is too |
| Results.Take | adobe_1b_solution/process_collection.py:53 | the slice `s[:n]` is the prefix of `s` of length `min(n, len(s))` |
| Results.Title | adobe_1b_solution/process_collection.py:65 | a section title is a prefix of the text, at most 100 characters long: the whole text when that fits, otherwise exactly 100 characters |
| Results.SectionsFrom | adobe_1b_solution/process_collection.py:62-70 | section `i` takes its document, cut title and page from span `i` and has rank `rank + i` |
| Results.Subsections | adobe_1b_solution/process_collection.py:71-78 | subsection `i` takes its document, full text and page from span `i` |
| Results.Build | adobe_1b_solution/process_collection.py:53-79 | both views hold `min(10, len(ranked))` entries; ranks run 1..N; entry `i` of both views comes from `ranked[i]`, with the title a prefix of the paired text; the metadata lists the configured filenames in configuration order, with role, task and timestamp |
| Results.BuildFromWellFormed | adobe_1b_solution/process_collection.py:62-78 | if every ranked span is well formed, every output entry has page number at least 1, a non-empty title, and a non-empty text with no whitespace at either end |
| Results.MetadataIgnoresRanking | adobe_1b_solution/process_collection.py:56-61 | the metadata does not depend on which spans were ranked or in what order |
| Pipeline.Run | adobe_1b_solution/process_collection.py:36-79 | a whole run gives a well-formed output with `min(10, n)` entries for `n` collected spans, metadata echoing the configuration, and only configured documents named |
| Pipeline.RunKeepsBest | adobe_1b_solution/process_collection.py:52-53 | the output shows the first `min(10, n)` ranked spans: entry `i` of both views carries `ranked[i]`'s document, page and text (the title cut to 100 characters, rank `i + 1`), and each of them scores at least as high as every ranked span left out |
| Pipeline.RunPagesPositive | adobe_1b_solution/process_collection.py:11-23 | with a parser that keeps its promise, every output entry has page number at least 1, a non-empty title, and a non-empty text with no whitespace at either end |
| Pipeline.OneDocumentMiddleLowest | adobe_1b_solution/process_collection.py:44-78 | for one document with three spans where the middle one scores strictly lowest: three entries are output, the last entry is the middle span (document, text and page), and the first entry is one of the other two spans (document, text and page) |
| Pipeline.ThreeSpanScenario | adobe_1b_solution/process_collection.py:52-78 | for one document with three spans where the middle one scores strictly lowest: all three are output, that span is last with rank 3, and the first title is one of the other two |

## Left out

- PDF extraction (`parse_pdf`, lines 8-24): it walks PyMuPDF page and block dictionaries, a foreign library. It is the uninterpreted parameter `parse`. The promise it makes (stripped, non-empty text and pages from 1, lines 16-20) is the predicate `WellFormedPart`, which is assumed where it is used and not derived. Stripped means no character at either end is one `str.strip()` removes; `IsWhitespace` lists those characters.
- TF-IDF vectorisation and cosine similarity (lines 29-31; the query on line 27 and the text list on line 28 are modelled): these are scikit-learn computations on floating point. They are the parameter `similarity`. The library's failures are not modelled: an empty vocabulary, or zero spans, makes the vectoriser or the similarity call raise. With zero spans the model simply produces empty result lists.
- Ranking.RankContent: requires the scorer to return exactly one score per span. The library always does. The Python would fail on a mismatch: an `IndexError`, or a `KeyError` in the sort. The model does not treat that as an error path.
- Loading the configuration JSON (lines 37-38) and writing the output (lines 81-82), path joining (line 46), the fixed default paths and `mkdir` (lines 84-92): I/O plumbing. Picking out the role, task and document list (lines 40-42) is modelled by `Config`. Only the `KeyError` a missing key raises there is not modelled.
- The timestamp `datetime.now().isoformat()` (line 60): the clock is the opaque string parameter `timestamp`.
- In-place mutation: `rank_content` writes the score into the caller's dictionaries (line 33). The model returns new records instead. The difference is not observable, because the unranked list is not read again.
- Results.Build: the output's JSON formatting (two-space indent, non-ASCII kept) is not modelled.
- Characters are Dafny `char`s. Python slices strings by code point, so `Title` counts one `char` per code point. No encoding is modelled.
