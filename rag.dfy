/**
 * rag/rag.py: the retrieval chain of the civil-code question answerer. The
 * only logic the script owns is `format_docs`, which turns the retrieved
 * chunks into the prompt's context block.
 */
module Rag {
  import opened Common

  /** A retrieved chunk; only its text is used when building the prompt. */
  datatype Document = Document(pageContent: string)

  const Separator: string := "\n\n"

  function Contents(docs: seq<Document>): (r: seq<string>)
    ensures |r| == |docs|
    ensures forall k :: 0 <= k < |docs| ==> r[k] == docs[k].pageContent
  {
    if |docs| == 0 then [] else [docs[0].pageContent] + Contents(docs[1..])
  }

  /**
   * `"\n\n".join(doc.page_content for doc in docs)`: no documents give the
   * empty string, one document gives its text unchanged, and n >= 1
   * documents give their texts plus 2 * (n - 1) separator characters.
   */
  function FormatDocs(docs: seq<Document>): (r: string)
    ensures |docs| == 0 ==> r == ""
    ensures |docs| == 1 ==> r == docs[0].pageContent
    ensures |docs| >= 1 ==> |r| == SumLengths(Contents(docs)) + 2 * (|docs| - 1)
  {
    var parts := Contents(docs);
    if |docs| == 0 then Join(parts, Separator)
    else JoinLength(parts, Separator); Join(parts, Separator)
  }

  /**
   * The texts appear in input order: the k-th text starts at
   * `Offset(Contents(docs), "\n\n", k)` and, unless it is the last one, is
   * followed directly by "\n\n". With the length in `FormatDocs`'s contract
   * this pins down every character of the result, so there is no leading or
   * trailing separator.
   */
  lemma FormatDocsLayout(docs: seq<Document>, k: nat)
    requires k < |docs|
    ensures Place(docs, k) + |docs[k].pageContent| <= |FormatDocs(docs)|
    ensures FormatDocs(docs)[Place(docs, k)..Place(docs, k) + |docs[k].pageContent|] == docs[k].pageContent
    ensures k + 1 < |docs| ==>
      && Place(docs, k) + |docs[k].pageContent| + 2 <= |FormatDocs(docs)|
      && FormatDocs(docs)[Place(docs, k) + |docs[k].pageContent|..Place(docs, k) + |docs[k].pageContent| + 2] == Separator
  {
    var parts := Contents(docs);
    assert FormatDocs(docs) == Join(parts, Separator);
    assert parts[k] == docs[k].pageContent;
    JoinPartAt(parts, Separator, k);
    if k + 1 < |docs| {
      JoinSeparatorAt(parts, Separator, k);
    }
  }

  /** Where the k-th document's text starts in the formatted context. */
  function Place(docs: seq<Document>, k: nat): nat
    requires k <= |docs|
  {
    Offset(Contents(docs), Separator, k)
  }

  /** A further document extends the context by "\n\n" and its text. */
  lemma FormatDocsAppend(docs: seq<Document>, d: Document)
    requires |docs| >= 1
    ensures FormatDocs(docs + [d]) == FormatDocs(docs) + Separator + d.pageContent
  {
    assert Contents(docs + [d]) == Contents(docs) + [d.pageContent];
    JoinSnoc(Contents(docs), Separator, d.pageContent);
  }
}
