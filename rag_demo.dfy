/**
 * rag/rag_demo.py: the retrieval chain of the agent-article demo. Its
 * `format_docs` is written out again in that script; it is modelled here on
 * its own and shown to agree with the one of rag/rag.py.
 */
module RagDemo {
  import opened Common
  import Rag

  /** `"\n\n".join(doc.page_content for doc in docs)` in rag_demo.py. */
  function FormatDocs(docs: seq<Rag.Document>): (r: string)
    ensures |docs| == 0 ==> r == ""
    ensures |docs| == 1 ==> r == docs[0].pageContent
    ensures |docs| >= 1 ==> |r| == SumLengths(Rag.Contents(docs)) + 2 * (|docs| - 1)
  {
    var parts := Rag.Contents(docs);
    if |docs| == 0 then Join(parts, "\n\n")
    else JoinLength(parts, "\n\n"); Join(parts, "\n\n")
  }

  /** Both scripts build the same context from the same documents. */
  lemma SameAsRag(docs: seq<Rag.Document>)
    ensures FormatDocs(docs) == Rag.FormatDocs(docs)
  {
  }

  /**
   * The texts appear in input order with "\n\n" between consecutive ones
   * only: the k-th text starts at the same offset as in rag.py and, unless
   * it is the last, is followed by exactly one separator.
   */
  lemma FormatDocsLayout(docs: seq<Rag.Document>, k: nat)
    requires k < |docs|
    ensures Rag.Place(docs, k) + |docs[k].pageContent| <= |FormatDocs(docs)|
    ensures FormatDocs(docs)[Rag.Place(docs, k)..Rag.Place(docs, k) + |docs[k].pageContent|] == docs[k].pageContent
    ensures k + 1 < |docs| ==>
      && Rag.Place(docs, k) + |docs[k].pageContent| + 2 <= |FormatDocs(docs)|
      && FormatDocs(docs)[Rag.Place(docs, k) + |docs[k].pageContent|..Rag.Place(docs, k) + |docs[k].pageContent| + 2] == "\n\n"
  {
    SameAsRag(docs);
    Rag.FormatDocsLayout(docs, k);
  }
}
