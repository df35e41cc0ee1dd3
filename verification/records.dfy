/**
 Records that flow through the collection pipeline: the span a document
 parser produces, the same span once it is tagged with its document, the
 tagged span once the ranker has scored it, and the run configuration.

 In process_collection.py these are dictionaries that gain keys as they move along
 (`document` after collection, `score` after ranking); here each stage is
 its own immutable datatype wrapping the previous one, so that "nothing but
 the new key changes" is a statement about the wrapped value.
 */
module Records {

  /** One text span as the document parser returns it: stripped text, the
      1-based page it sits on, and the font size and style flags, which are
      carried along but never read downstream. */
  datatype Part = Part(text: string, page: int, size: real, flags: int)

  /** A parsed span tagged with the filename of the document it came from. */
  datatype Item = Item(part: Part, document: string)

  /** A tagged span together with the relevance score the ranker gave it. */
  datatype ScoredItem = ScoredItem(item: Item, score: real)

  /** One entry of the configuration's `documents` list. */
  datatype DocumentRef = DocumentRef(filename: string)

  /** The parts of the input configuration the pipeline reads: the persona
      role, the job-to-be-done task and the ordered document list. */
  datatype Config = Config(role: string, task: string, documents: seq<DocumentRef>)

  /** The characters Python's `str.strip()` removes from both ends of a
      string: the Unicode whitespace characters, including the ASCII
      separators U+001C to U+001F. */
  predicate IsWhitespace(c: char) {
    || ('\U{0009}' <= c <= '\U{000D}')
    || ('\U{001C}' <= c <= '\U{0020}')
    || c == '\U{0085}' || c == '\U{00A0}' || c == '\U{1680}'
    || ('\U{2000}' <= c <= '\U{200A}')
    || c == '\U{2028}' || c == '\U{2029}' || c == '\U{202F}' || c == '\U{205F}' || c == '\U{3000}'
  }

  /** Text with no whitespace at either end: what stripping leaves. */
  predicate Stripped(text: string) {
    0 < |text| ==> !IsWhitespace(text[0]) && !IsWhitespace(text[|text| - 1])
  }

  /** What the parser promises of every span: its text is stripped, spans
      whose stripped text is empty are skipped, and pages are numbered
      from 1. */
  predicate WellFormedPart(p: Part) {
    0 < |p.text| && Stripped(p.text) && 1 <= p.page
  }

  predicate AllWellFormed(parts: seq<Part>) {
    forall k :: 0 <= k < |parts| ==> WellFormedPart(parts[k])
  }

  /** The configured filenames, in configuration order. */
  function Filenames(docs: seq<DocumentRef>): (r: seq<string>)
    ensures |r| == |docs|
    ensures forall j :: 0 <= j < |docs| ==> r[j] == docs[j].filename
  {
    if |docs| == 0 then [] else [docs[0].filename] + Filenames(docs[1..])
  }
}
