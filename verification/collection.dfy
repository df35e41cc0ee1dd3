/**
 The span collector: for each configured document, in configuration order,
 parse it, tag every span with the document's filename and append the spans
 to one flat sequence.

 The parser itself (the PyMuPDF traversal of `parse_pdf` in
 process_collection.py) is not modelled; it
 is the parameter `parse`, a function from filename to the spans it yields.
 */
module Collection {
  import opened Records

  /** Every span of `parts` tagged with `filename`, order kept. */
  function Tag(parts: seq<Part>, filename: string): (r: seq<Item>)
    ensures |r| == |parts|
    ensures forall k :: 0 <= k < |r| ==> r[k] == Item(parts[k], filename)
  {
    if |parts| == 0 then [] else [Item(parts[0], filename)] + Tag(parts[1..], filename)
  }

  /** The reference definition of the collected sequence: the tagged spans
      of the first document, then those of the rest. */
  function Collect(docs: seq<DocumentRef>, parse: string -> seq<Part>): (r: seq<Item>)
    ensures forall k :: 0 <= k < |r| ==> r[k].document in Filenames(docs)
  {
    if |docs| == 0 then []
    else
      var rest := Collect(docs[1..], parse);
      assert forall k :: 0 <= k < |rest| ==> rest[k].document in Filenames(docs) by {
        assert Filenames(docs) == [docs[0].filename] + Filenames(docs[1..]);
      }
      Tag(parse(docs[0].filename), docs[0].filename) + rest
  }

  /** Collecting a concatenated document list is concatenating the two
      collections: documents contribute their spans independently and in
      list order. */
  lemma {:induction false} CollectAppend(a: seq<DocumentRef>, b: seq<DocumentRef>, parse: string -> seq<Part>)
    ensures Collect(a + b, parse) == Collect(a, parse) + Collect(b, parse)
  {
    if |a| == 0 {
      assert a + b == b;
    } else {
      assert (a + b)[0] == a[0];
      assert (a + b)[1..] == a[1..] + b;
      CollectAppend(a[1..], b, parse);
    }
  }

  /** Span `k` of document `j` sits in the collection right after the spans
      of the documents before `j`, tagged with document `j`'s filename. */
  lemma CollectLocates(docs: seq<DocumentRef>, parse: string -> seq<Part>, j: int, k: int)
    requires 0 <= j < |docs|
    requires 0 <= k < |parse(docs[j].filename)|
    ensures |Collect(docs[..j], parse)| + k < |Collect(docs, parse)|
    ensures Collect(docs, parse)[|Collect(docs[..j], parse)| + k]
         == Item(parse(docs[j].filename)[k], docs[j].filename)
  {
    var tail := [docs[j]] + docs[j + 1..];
    assert docs == docs[..j] + tail;
    CollectAppend(docs[..j], tail, parse);
    assert tail[0] == docs[j] && tail[1..] == docs[j + 1..];
  }

  /** The first `j + 1` documents collect to the first document's spans
      followed by the collection of the next `j`. */
  lemma CollectPrefixCons(docs: seq<DocumentRef>, parse: string -> seq<Part>, j: int)
    requires 0 <= j < |docs|
    ensures Collect(docs[..j + 1], parse)
         == Tag(parse(docs[0].filename), docs[0].filename) + Collect(docs[1..][..j], parse)
  {
    var pre := docs[..j + 1];
    assert pre[0] == docs[0] && pre[1..] == docs[1..][..j];
  }

  /** The document index and span index behind collected position `k`. */
  lemma {:induction false} CollectOriginAt(docs: seq<DocumentRef>, parse: string -> seq<Part>, k: int)
      returns (j: int, m: int)
    requires 0 <= k < |Collect(docs, parse)|
    ensures 0 <= j < |docs| && 0 <= m < |parse(docs[j].filename)|
    ensures k == |Collect(docs[..j], parse)| + m
    ensures Collect(docs, parse)[k] == Item(parse(docs[j].filename)[m], docs[j].filename)
  {
    var head := Tag(parse(docs[0].filename), docs[0].filename);
    var rest := Collect(docs[1..], parse);
    if k < |head| {
      j, m := 0, k;
      assert docs[..0] == [];
    } else {
      var j', m' := CollectOriginAt(docs[1..], parse, k - |head|);
      j, m := j' + 1, m';
      CollectPrefixCons(docs, parse, j');
      assert docs[1..][j'] == docs[j];
    }
  }

  /** Conversely, every collected span is span `m` of some configured
      document `j`, at the position `CollectLocates` gives it: the collection
      holds nothing else. */
  lemma CollectOrigin(docs: seq<DocumentRef>, parse: string -> seq<Part>, k: int)
    requires 0 <= k < |Collect(docs, parse)|
    ensures exists j, m ::
      && 0 <= j < |docs|
      && 0 <= m < |parse(docs[j].filename)|
      && k == |Collect(docs[..j], parse)| + m
      && Collect(docs, parse)[k] == Item(parse(docs[j].filename)[m], docs[j].filename)
  {
    var j, m := CollectOriginAt(docs, parse, k);
  }

  /** The collection loop of `run` in process_collection.py, one document at a time and one
      span at a time, computes the reference collection. */
  method CollectSpans(docs: seq<DocumentRef>, parse: string -> seq<Part>) returns (data: seq<Item>)
    ensures data == Collect(docs, parse)
  {
    data := [];
    for i := 0 to |docs|
      invariant data == Collect(docs[..i], parse)
    {
      var filename := docs[i].filename;
      var parts := parse(filename);
      var tagged: seq<Item> := [];
      for k := 0 to |parts|
        invariant |tagged| == k
        invariant forall n :: 0 <= n < k ==> tagged[n] == Item(parts[n], filename)
      {
        tagged := tagged + [Item(parts[k], filename)];
      }
      assert tagged == Tag(parts, filename);
      CollectAppend(docs[..i], [docs[i]], parse);
      assert docs[..i + 1] == docs[..i] + [docs[i]];
      assert [docs[i]][1..] == [];
      data := data + tagged;
    }
    assert docs[..|docs|] == docs;
  }

  /** Collection keeps the parser's promise: if every configured document
      parses to well-formed spans, every collected span is well formed. */
  lemma {:induction false} CollectWellFormed(docs: seq<DocumentRef>, parse: string -> seq<Part>)
    requires forall j :: 0 <= j < |docs| ==> AllWellFormed(parse(docs[j].filename))
    ensures forall k :: 0 <= k < |Collect(docs, parse)| ==> WellFormedPart(Collect(docs, parse)[k].part)
  {
    if |docs| > 0 {
      assert forall j :: 0 <= j < |docs[1..]| ==> docs[1..][j] == docs[j + 1];
      CollectWellFormed(docs[1..], parse);
    }
  }
}
