/**
 One run of the pipeline, end to end: collect the spans of the configured
 documents, rank them against the persona and task, build the output.

 The parser, the scorer and the clock are parameters; reading the
 configuration and writing the output file are not modelled.
 */
module Pipeline {
  import opened Records
  import opened Collection
  import opened Ranking
  import opened Results

  /** The scorer returns one score per collected span, as the library's
      cosine similarity does for the query against every span. */
  predicate ScorerFits(cfg: Config, parse: string -> seq<Part>, similarity: Similarity) {
    var data := Collect(cfg.documents, parse);
    |similarity(Query(cfg.role, cfg.task), Texts(data))| == |data|
  }

  /** Every span the ranker returns is one of the spans it was given. */
  lemma RankedFromItems(items: seq<Item>, role: string, task: string, similarity: Similarity)
    requires |similarity(Query(role, task), Texts(items))| == |items|
    ensures forall i :: 0 <= i < |items| ==> RankContent(items, role, task, similarity)[i].item in items
  {
    var r := RankContent(items, role, task, similarity);
    UnscoredAt(r);
    forall i | 0 <= i < |items|
      ensures r[i].item in items
    {
      assert Unscored(r)[i] == r[i].item;
      assert r[i].item in multiset(Unscored(r));
    }
  }

  /** The whole run. The output is well formed, echoes the configuration in
      its metadata, holds `min(10, n)` entries for `n` collected spans, and
      names only configured documents. */
  function Run(cfg: Config, parse: string -> seq<Part>, similarity: Similarity, timestamp: string): (o: Output)
    requires ScorerFits(cfg, parse, similarity)
    ensures WellFormedOutput(o)
    ensures o.metadata == Metadata(Filenames(cfg.documents), cfg.role, cfg.task, timestamp)
    ensures |o.extractedSections| == Min(TopCount, |Collect(cfg.documents, parse)|)
    ensures forall i :: 0 <= i < |o.subsectionAnalysis| ==> o.subsectionAnalysis[i].document in Filenames(cfg.documents)
  {
    var data := Collect(cfg.documents, parse);
    var ranked := RankContent(data, cfg.role, cfg.task, similarity);
    RankedFromItems(data, cfg.role, cfg.task, similarity);
    Build(ranked, cfg, timestamp)
  }

  /** The output keeps the best-scored spans: the score of every span that
      made it into the output is at least that of every span left out. */
  lemma RunKeepsBest(cfg: Config, parse: string -> seq<Part>, similarity: Similarity, timestamp: string)
    requires ScorerFits(cfg, parse, similarity)
    ensures var ranked := RankContent(Collect(cfg.documents, parse), cfg.role, cfg.task, similarity);
            var o := Run(cfg, parse, similarity, timestamp);
            && |o.subsectionAnalysis| == Min(TopCount, |ranked|)
            && (forall i :: 0 <= i < |o.subsectionAnalysis| ==>
                  && o.subsectionAnalysis[i]
                     == Subsection(ranked[i].item.document, ranked[i].item.part.text, ranked[i].item.part.page)
                  && o.extractedSections[i]
                     == Section(ranked[i].item.document, Title(ranked[i].item.part.text), i + 1, ranked[i].item.part.page))
            && (forall i, j :: 0 <= i < |o.subsectionAnalysis| <= j < |ranked| ==>
                  ranked[i].score >= ranked[j].score)
  {
  }

  /** Ranking only reorders spans, so well-formed spans stay well formed. */
  lemma RankedWellFormed(items: seq<Item>, role: string, task: string, similarity: Similarity)
    requires |similarity(Query(role, task), Texts(items))| == |items|
    requires forall k :: 0 <= k < |items| ==> WellFormedPart(items[k].part)
    ensures forall i :: 0 <= i < |items| ==> WellFormedPart(RankContent(items, role, task, similarity)[i].item.part)
  {
    var r := RankContent(items, role, task, similarity);
    RankedFromItems(items, role, task, similarity);
    forall i | 0 <= i < |items|
      ensures WellFormedPart(r[i].item.part)
    {
      var k :| 0 <= k < |items| && items[k] == r[i].item;
    }
  }

  /** With a parser that keeps its promise (non-empty stripped text, pages
      from 1), every output entry has a page number of at least 1, a
      non-empty title and a non-empty stripped text. */
  lemma RunPagesPositive(cfg: Config, parse: string -> seq<Part>, similarity: Similarity, timestamp: string)
    requires ScorerFits(cfg, parse, similarity)
    requires forall j :: 0 <= j < |cfg.documents| ==> AllWellFormed(parse(cfg.documents[j].filename))
    ensures var o := Run(cfg, parse, similarity, timestamp);
            forall i :: 0 <= i < |o.extractedSections| ==>
              && 1 <= o.extractedSections[i].pageNumber
              && 0 < |o.extractedSections[i].sectionTitle|
              && 0 < |o.subsectionAnalysis[i].refinedText|
              && Stripped(o.subsectionAnalysis[i].refinedText)
  {
    var data := Collect(cfg.documents, parse);
    CollectWellFormed(cfg.documents, parse);
    RankedWellFormed(data, cfg.role, cfg.task, similarity);
    var ranked := RankContent(data, cfg.role, cfg.task, similarity);
    BuildFromWellFormed(ranked, cfg, timestamp);
    assert Run(cfg, parse, similarity, timestamp) == Build(ranked, cfg, timestamp);
  }

  /** Sorting three entries whose middle one scores strictly lowest puts
      that one last and one of the other two first. */
  lemma SortThreeMiddleLowest(x: seq<ScoredItem>)
    requires |x| == 3 && x[1].score < x[0].score && x[1].score < x[2].score
    ensures SortDesc(x)[2] == x[1]
    ensures SortDesc(x)[0] == x[0] || SortDesc(x)[0] == x[2]
    ensures SortDesc(x)[1] == x[0] || SortDesc(x)[1] == x[2]
  {
    assert x[1..][1..] == [x[2]];
    assert SortDesc([x[2]]) == [x[2]];
    assert Insert(x[1], [x[2]]) == [x[2], x[1]];
    assert SortDesc(x[1..]) == [x[2], x[1]];
    if x[0].score < x[2].score {
      assert Insert(x[0], [x[1]]) == [x[0], x[1]];
    }
  }

  /** One document with three spans, the middle one scoring strictly
      lowest: all three spans are output, the low scorer last and one of the
      other two first. */
  lemma OneDocumentMiddleLowest(cfg: Config, parse: string -> seq<Part>, similarity: Similarity, timestamp: string)
    requires |cfg.documents| == 1
    requires var parts := parse(cfg.documents[0].filename);
             && |parts| == 3
             && var s := similarity(Query(cfg.role, cfg.task), [parts[0].text, parts[1].text, parts[2].text]);
                |s| == 3 && s[1] < s[0] && s[1] < s[2]
    ensures ScorerFits(cfg, parse, similarity)
    ensures var parts := parse(cfg.documents[0].filename);
            var o := Run(cfg, parse, similarity, timestamp);
            var name := cfg.documents[0].filename;
            && |o.subsectionAnalysis| == 3
            && o.subsectionAnalysis[2] == Subsection(name, parts[1].text, parts[1].page)
            && (|| o.subsectionAnalysis[0] == Subsection(name, parts[0].text, parts[0].page)
                || o.subsectionAnalysis[0] == Subsection(name, parts[2].text, parts[2].page))
  {
    var name := cfg.documents[0].filename;
    var parts := parse(name);
    var data := Collect(cfg.documents, parse);
    assert cfg.documents[1..] == [];
    assert Collect(cfg.documents[1..], parse) == [];
    assert data == Tag(parts, name) + [];
    assert data == Tag(parts, name);
    assert Texts(data) == [parts[0].text, parts[1].text, parts[2].text];
    var s := similarity(Query(cfg.role, cfg.task), Texts(data));
    var scored := Attach(data, s);
    SortThreeMiddleLowest(scored);
    var ranked := RankContent(data, cfg.role, cfg.task, similarity);
    assert ranked == SortDesc(scored);
    assert Run(cfg, parse, similarity, timestamp) == Build(ranked, cfg, timestamp);
  }

  /** A small worked scenario: one document with three spans on page 1, the
      middle one scoring strictly below the other two. All three spans are
      output, the low scorer last with rank 3, and the first section is one
      of the two others. */
  lemma ThreeSpanScenario(parse: string -> seq<Part>, similarity: Similarity, timestamp: string)
    requires parse("guide.pdf") == [
      Part("Plan a 7-day trip to Paris", 1, 12.0, 0),
      Part("Random unrelated filler text", 1, 12.0, 0),
      Part("Travel Planner itinerary for Paris", 1, 12.0, 0)]
    requires var s := similarity("Travel Planner Plan a trip", [
      "Plan a 7-day trip to Paris",
      "Random unrelated filler text",
      "Travel Planner itinerary for Paris"]);
      |s| == 3 && s[1] < s[0] && s[1] < s[2]
    ensures var cfg := Config("Travel Planner", "Plan a trip", [DocumentRef("guide.pdf")]);
            ScorerFits(cfg, parse, similarity) &&
            var o := Run(cfg, parse, similarity, timestamp);
            && |o.extractedSections| == 3
            && o.extractedSections[0].sectionTitle in {"Plan a 7-day trip to Paris", "Travel Planner itinerary for Paris"}
            && o.extractedSections[2].sectionTitle == "Random unrelated filler text"
            && o.extractedSections[2].importanceRank == 3
            && o.metadata.inputDocuments == ["guide.pdf"]
  {
    var cfg := Config("Travel Planner", "Plan a trip", [DocumentRef("guide.pdf")]);
    assert Query(cfg.role, cfg.task) == "Travel Planner Plan a trip";
    OneDocumentMiddleLowest(cfg, parse, similarity, timestamp);
    var o := Run(cfg, parse, similarity, timestamp);
    assert Paired(o.extractedSections[0], o.subsectionAnalysis[0]);
    assert Paired(o.extractedSections[2], o.subsectionAnalysis[2]);
    assert Filenames(cfg.documents) == ["guide.pdf"];
  }
}
