/**
 * The retrieval-augmented context builder of `RAGModule`: the passages returned
 * by the vector store's similarity search are rendered as numbered blocks and
 * concatenated in the order the search returned them.
 */
module RagService {
  import opened PyText

  /** A retrieved passage (LangChain's `Document`): its text and its metadata. */
  datatype Document = Document(pageContent: string, metadata: map<string, string>)

  /** The vector store's similarity search: the `k` passages most similar to a query.
      The index itself is outside the model. */
  type Search = (string, nat) -> seq<Document>

  /** How many passages `generate_context` asks for (the default `k` of `get_similar_cases`). */
  const SimilarCases: nat := 5

  /** The label shown for a passage: its `source` metadata, or `Sconosciuta` when it has none. */
  function SourceLabel(doc: Document): (shown: string)
    ensures "source" in doc.metadata ==> shown == doc.metadata["source"]
    ensures "source" !in doc.metadata ==> shown == "Sconosciuta"
  {
    if "source" in doc.metadata then doc.metadata["source"] else "Sconosciuta"
  }

  /** The block for the passage numbered `i`: a header line with the number and the source,
      then the passage text on lines of its own. */
  function Block(i: nat, doc: Document): (r: string)
    ensures StartsWith(r, "\nDocumento " + NatToString(i) + " (Fonte: ")
    ensures EndsWith(r, "):\n" + doc.pageContent + "\n")
    ensures |r| == 24 + |NatToString(i)| + |SourceLabel(doc)| + |doc.pageContent|
  {
    var head := "\nDocumento " + NatToString(i) + " (Fonte: ";
    var tail := "):\n" + doc.pageContent + "\n";
    var r := head + SourceLabel(doc) + tail;
    assert r[..|head|] == head;
    assert r[|r| - |tail|..] == tail;
    r
  }

  /** The text `build_context` has accumulated after the passages `docs`:
      each step appends the block of the next passage, numbered by its position from 1. */
  function Context(docs: seq<Document>): (r: string)
    ensures r == [] <==> docs == []
    ensures docs != [] ==> StartsWith(r, Block(1, docs[0]))
    ensures docs != [] ==> EndsWith(r, Block(|docs|, docs[|docs| - 1]))
    decreases |docs|
  {
    if docs == [] then ""
    else
      var init := Context(docs[..|docs| - 1]);
      var last := Block(|docs|, docs[|docs| - 1]);
      assert (init + last)[|init + last| - |last|..] == last;
      if |docs| == 1 then
        assert init + last == last;
        init + last
      else
        var first := Block(1, docs[0]);
        assert docs[..|docs| - 1][0] == docs[0];
        assert (init + last)[..|first|] == init[..|first|];
        init + last
  }

  /** The blocks of `docs`, first to last, numbered `first`, `first + 1`, ... */
  function NumberedFrom(docs: seq<Document>, first: nat): string
    decreases |docs|
  {
    if docs == [] then ""
    else Block(first, docs[0]) + NumberedFrom(docs[1..], first + 1)
  }

  lemma {:induction false} NumberedFromSnoc(docs: seq<Document>, first: nat, d: Document)
    ensures NumberedFrom(docs + [d], first) == NumberedFrom(docs, first) + Block(first + |docs|, d)
    decreases |docs|
  {
    if docs == [] {
      assert NumberedFrom([d], first) == Block(first, d) + NumberedFrom([], first + 1);
    } else {
      assert (docs + [d])[1..] == docs[1..] + [d];
      NumberedFromSnoc(docs[1..], first + 1, d);
    }
  }

  /** The context is the concatenation, in input order, of the blocks numbered 1 to n. */
  lemma {:induction false} ContextIsNumberedBlocks(docs: seq<Document>)
    ensures Context(docs) == NumberedFrom(docs, 1)
    decreases |docs|
  {
    if docs != [] {
      var init, last := docs[..|docs| - 1], docs[|docs| - 1];
      assert init + [last] == docs;
      calc {
        Context(docs);
        Context(init) + Block(|docs|, last);
        { ContextIsNumberedBlocks(init); }
        NumberedFrom(init, 1) + Block(1 + |init|, last);
        { NumberedFromSnoc(init, 1, last); }
        NumberedFrom(init + [last], 1);
      }
    }
  }

  /** `build_context(similar_docs)`. */
  method BuildContext(similarDocs: seq<Document>) returns (context: string)
    ensures context == Context(similarDocs)
  {
    context := "";
    var i := 0;
    while i < |similarDocs|
      invariant 0 <= i <= |similarDocs|
      invariant context == Context(similarDocs[..i])
    {
      assert similarDocs[..i + 1][..i] == similarDocs[..i];
      context := context + Block(i + 1, similarDocs[i]);
      i := i + 1;
    }
    assert similarDocs[..i] == similarDocs;
  }

  /** `generate_context(message)`: the context of the `SimilarCases` passages most similar to `message`. */
  method GenerateContext(search: Search, message: string) returns (context: string)
    ensures context == Context(search(message, SimilarCases))
  {
    var similarDocs := search(message, SimilarCases);
    context := BuildContext(similarDocs);
  }
}
