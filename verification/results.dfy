/**
 The result builder: keep the first ten ranked spans and build two parallel
 views of them, plus a metadata block that echoes the configuration.

 - `extracted_sections[i]`: document, the text cut to its first 100
   characters, importance rank `i + 1`, page;
 - `subsection_analysis[i]`: document, the full text, page;
 - metadata: the configured filenames in configuration order, the persona
   role, the task and the processing timestamp (a parameter here, since
   `run` in process_collection.py reads the clock).
 */
module Results {
  import opened Records

  /** How many ranked spans make it into the output. */
  const TopCount: nat := 10

  /** How many characters of a span's text its section title keeps. */
  const TitleLength: nat := 100

  datatype Section = Section(document: string, sectionTitle: string, importanceRank: int, pageNumber: int)

  datatype Subsection = Subsection(document: string, refinedText: string, pageNumber: int)

  datatype Metadata = Metadata(inputDocuments: seq<string>, persona: string, jobToBeDone: string, processingTimestamp: string)

  datatype Output = Output(metadata: Metadata, extractedSections: seq<Section>, subsectionAnalysis: seq<Subsection>)

  function Min(a: int, b: int): int {
    if a <= b then a else b
  }

  /** The slice `s[:n]` for a non-negative `n`: the longest prefix of `s`
      no longer than `n`. Asking for more than `s` holds yields all of it. */
  function Take<T>(s: seq<T>, n: nat): (r: seq<T>)
    ensures |r| == Min(n, |s|)
    ensures r <= s
  {
    if |s| <= n then s else s[..n]
  }

  /** A section title: the text cut hard after `TitleLength` characters,
      with no ellipsis and no regard for word boundaries. */
  function Title(text: string): (r: string)
    ensures r <= text
    ensures |r| <= TitleLength
    ensures |text| <= TitleLength ==> r == text
    ensures |text| > TitleLength ==> |r| == TitleLength
  {
    Take(text, TitleLength)
  }

  /** The `extracted_sections` entries for `top`, the first one carrying
      importance rank `rank`. */
  function SectionsFrom(top: seq<ScoredItem>, rank: int): (r: seq<Section>)
    ensures |r| == |top|
    ensures forall i :: 0 <= i < |top| ==>
      r[i] == Section(top[i].item.document, Title(top[i].item.part.text), rank + i, top[i].item.part.page)
  {
    if |top| == 0 then []
    else
      [Section(top[0].item.document, Title(top[0].item.part.text), rank, top[0].item.part.page)]
      + SectionsFrom(top[1..], rank + 1)
  }

  /** The `subsection_analysis` entries for `top`, one per span, in order. */
  function Subsections(top: seq<ScoredItem>): (r: seq<Subsection>)
    ensures |r| == |top|
    ensures forall i :: 0 <= i < |top| ==>
      r[i] == Subsection(top[i].item.document, top[i].item.part.text, top[i].item.part.page)
  {
    if |top| == 0 then []
    else [Subsection(top[0].item.document, top[0].item.part.text, top[0].item.part.page)]
         + Subsections(top[1..])
  }

  /** A section and a subsection describe the same span: same document and
      page, and the title is the cut-down text. */
  predicate Paired(s: Section, a: Subsection) {
    && s.document == a.document
    && s.pageNumber == a.pageNumber
    && s.sectionTitle == Title(a.refinedText)
  }

  /** The shape every output has: two views of equal length, at most
      `TopCount` long, paired position by position, ranks running 1, 2, ... */
  predicate WellFormedOutput(o: Output) {
    && |o.extractedSections| == |o.subsectionAnalysis| <= TopCount
    && forall i :: 0 <= i < |o.extractedSections| ==>
         && o.extractedSections[i].importanceRank == i + 1
         && Paired(o.extractedSections[i], o.subsectionAnalysis[i])
  }

  /** Build the output from the ranked spans: the views are well formed, hold
      `min(10, |ranked|)` entries, entry `i` of each comes from `ranked[i]`,
      and the metadata depends only on the configuration and timestamp. */
  function Build(ranked: seq<ScoredItem>, cfg: Config, timestamp: string): (o: Output)
    ensures WellFormedOutput(o)
    ensures |o.extractedSections| == Min(TopCount, |ranked|)
    ensures forall i :: 0 <= i < |o.subsectionAnalysis| ==>
      o.subsectionAnalysis[i] == Subsection(ranked[i].item.document, ranked[i].item.part.text, ranked[i].item.part.page)
    ensures |o.metadata.inputDocuments| == |cfg.documents|
    ensures forall j :: 0 <= j < |cfg.documents| ==> o.metadata.inputDocuments[j] == cfg.documents[j].filename
    ensures o.metadata.persona == cfg.role && o.metadata.jobToBeDone == cfg.task
    ensures o.metadata.processingTimestamp == timestamp
  {
    var top := Take(ranked, TopCount);
    Output(
      Metadata(Filenames(cfg.documents), cfg.role, cfg.task, timestamp),
      SectionsFrom(top, 1),
      Subsections(top))
  }

  /** Spans that keep the parser's promise (non-empty stripped text, pages
      from 1) give output entries with a page number of at least 1, a
      non-empty title and a non-empty stripped text. */
  lemma BuildFromWellFormed(ranked: seq<ScoredItem>, cfg: Config, timestamp: string)
    requires forall i :: 0 <= i < |ranked| ==> WellFormedPart(ranked[i].item.part)
    ensures var o := Build(ranked, cfg, timestamp);
            forall i :: 0 <= i < |o.extractedSections| ==>
              && 1 <= o.extractedSections[i].pageNumber
              && 0 < |o.extractedSections[i].sectionTitle|
              && 0 < |o.subsectionAnalysis[i].refinedText|
              && Stripped(o.subsectionAnalysis[i].refinedText)
  {
    var o := Build(ranked, cfg, timestamp);
    forall i | 0 <= i < |o.extractedSections|
      ensures 1 <= o.extractedSections[i].pageNumber
      ensures 0 < |o.extractedSections[i].sectionTitle|
      ensures 0 < |o.subsectionAnalysis[i].refinedText|
      ensures Stripped(o.subsectionAnalysis[i].refinedText)
    {
      assert WellFormedPart(ranked[i].item.part);
      assert Paired(o.extractedSections[i], o.subsectionAnalysis[i]);
    }
  }

  /** The metadata does not depend on the ranking: two builds from the same
      configuration and timestamp carry the same metadata whatever spans
      they rank. */
  lemma MetadataIgnoresRanking(r1: seq<ScoredItem>, r2: seq<ScoredItem>, cfg: Config, timestamp: string)
    ensures Build(r1, cfg, timestamp).metadata == Build(r2, cfg, timestamp).metadata
  {
  }
}
