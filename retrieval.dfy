/**
 * What the front ends make of the documents a similarity search returns:
 * the context string handed to the language model and the list of
 * sources shown after the answer. The search itself is not modelled.
 */
module Retrieval {
  import opened Text

  /** A retrieved document: its text and its metadata (`source` is the page URL). */
  datatype Doc = Doc(pageContent: string, metadata: map<string, string>)

  /** Separator between documents in the context string. */
  const ContextSeparator := "\n\n"
  /** Source shown by the web front end when a document has no `source` metadata. */
  const TitleDefault := "title"
  /** Source shown by the command line when a document has no `source` metadata. */
  const UnknownDefault := "Unknown"

  /** The documents' texts, in retrieval order. */
  function PageContents(docs: seq<Doc>): (r: seq<string>)
    ensures |r| == |docs|
    ensures forall i :: 0 <= i < |docs| ==> r[i] == docs[i].pageContent
  {
    if docs == [] then [] else [docs[0].pageContent] + PageContents(docs[1..])
  }

  /** `"\n\n".join([doc.page_content for doc in docs])`. */
  function Context(docs: seq<Doc>): string {
    Join(PageContents(docs), ContextSeparator)
  }

  /** No documents give the empty context; one document gives its text alone. */
  lemma ContextOfFew(docs: seq<Doc>)
    requires |docs| <= 1
    ensures docs == [] ==> Context(docs) == ""
    ensures |docs| == 1 ==> Context(docs) == docs[0].pageContent
  {
  }

  /** Every retrieved text sits in the context at its retrieval position,
      between the earlier texts and the later ones, each boundary a blank line. */
  lemma ContextPieceAt(docs: seq<Doc>, i: nat)
    requires i < |docs|
    ensures Context(docs) ==
              (if i == 0 then "" else Context(docs[..i]) + ContextSeparator)
              + docs[i].pageContent
              + (if i == |docs| - 1 then "" else ContextSeparator + Context(docs[i + 1..]))
  {
    var parts := PageContents(docs);
    JoinPieceAt(parts, ContextSeparator, i);
    assert PageContents(docs[..i]) == parts[..i];
    assert PageContents(docs[i + 1..]) == parts[i + 1..];
  }

  /** A further document extends the context by a blank line and its text. */
  lemma ContextAppend(docs: seq<Doc>, d: Doc)
    requires docs != []
    ensures Context(docs + [d]) == Context(docs) + ContextSeparator + d.pageContent
  {
    assert PageContents(docs + [d]) == PageContents(docs) + [d.pageContent];
    JoinAppend(PageContents(docs), ContextSeparator, d.pageContent);
  }

  /** The context never drops text: its length is the texts' lengths plus one
      separator between each pair of neighbours. */
  lemma ContextLength(docs: seq<Doc>)
    ensures |Context(docs)| == TotalLength(PageContents(docs))
                               + (if docs == [] then 0 else 2 * (|docs| - 1))
  {
    JoinLength(PageContents(docs), ContextSeparator);
  }

  /** `doc.metadata.get("source", default)`. */
  function SourceOf(d: Doc, default: string): string {
    if "source" in d.metadata then d.metadata["source"] else default
  }

  /** The line shown for one retrieved document: `f"- {source}"`. */
  function SourceLine(d: Doc, default: string): string {
    "- " + SourceOf(d, default)
  }

  /** One source line per retrieved document, in retrieval order, duplicates kept. */
  function SourceLines(docs: seq<Doc>, default: string): (r: seq<string>)
    ensures |r| == |docs|
    ensures forall i :: 0 <= i < |docs| ==> r[i] == SourceLine(docs[i], default)
  {
    if docs == [] then [] else [SourceLine(docs[0], default)] + SourceLines(docs[1..], default)
  }

  /** Source lines distribute over concatenation: nothing is merged,
      dropped or reordered across the boundary. */
  lemma SourceLinesAppend(a: seq<Doc>, b: seq<Doc>, default: string)
    ensures SourceLines(a + b, default) == SourceLines(a, default) + SourceLines(b, default)
  {
    var l, r := SourceLines(a + b, default), SourceLines(a, default) + SourceLines(b, default);
    forall i | 0 <= i < |a| + |b| ensures l[i] == r[i] {
      if i < |a| { assert (a + b)[i] == a[i]; } else { assert (a + b)[i] == b[i - |a|]; }
    }
  }

  /** A document without `source` metadata is listed under the default, one
      with it under its own source, and either way by exactly one line. */
  lemma SourceLineOfOne(d: Doc, default: string)
    ensures "source" !in d.metadata ==> SourceLines([d], default) == ["- " + default]
    ensures "source" in d.metadata ==> SourceLines([d], default) == ["- " + d.metadata["source"]]
  {
  }

  /** Two documents from the same page give two equal lines: no de-duplication. */
  lemma SourcesNotDeduplicated(d: Doc, default: string)
    ensures SourceLines([d, d], default) == [SourceLine(d, default), SourceLine(d, default)]
  {
  }

  /** The loop at bin/scraper.py:133-136: one `"- <source>"` line appended per document. */
  method BuildSourcesList(docs: seq<Doc>, default: string) returns (lines: seq<string>)
    ensures |lines| == |docs|
    ensures forall i :: 0 <= i < |docs| ==> lines[i] == "- " + SourceOf(docs[i], default)
  {
    lines := [];
    for k := 0 to |docs|
      invariant lines == SourceLines(docs[..k], default)
    {
      assert docs[..k + 1] == docs[..k] + [docs[k]];
      SourceLinesAppend(docs[..k], [docs[k]], default);
      lines := lines + ["- " + SourceOf(docs[k], default)];
    }
    assert docs[..|docs|] == docs;
  }
}
