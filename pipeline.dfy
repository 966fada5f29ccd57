/**
 * The chatbot object of bin/scraper.py:23-94 and the order in which it
 * runs its opaque stages. Page loading, text splitting, indexing into the
 * vector store, similarity search and generation are not modelled; each
 * leaves one entry in an ordered log of effects, so that what ran, on
 * which URL and in which order can be stated.
 */
module Pipeline {
  import opened Retrieval

  /** The model a chatbot uses unless told otherwise (bin/scraper.py:28, app.py:18). */
  const DefaultModel := "llama3.2"

  /** One observable effect. `Echo` is a line written to the terminal. */
  datatype Step =
    | Load(url: string)
    | Split(url: string)
    | Index(url: string)
    | Retrieve(question: string)
    | Generate(question: string, context: string)
    | Echo(line: string)

  /** A stage of the indexing pipeline (as opposed to a query, a model call or output). */
  predicate IsStage(s: Step) {
    s.Load? || s.Split? || s.Index?
  }

  /** The documents a page load returned for `url`; their content is not modelled. */
  datatype Pages = PagesOf(url: string)
  /** The chunks the text splitter made of the pages of `url`. */
  datatype Chunks = ChunksOf(url: string)

  /** Similarity search: the documents returned for a question by a store
      into which the given URLs were indexed, in that order. */
  type Retriever = (seq<string>, string) -> seq<Doc>
  /** The prompt chain: the answer generated for a question and a context. */
  type Generator = (string, string) -> string

  /** `process_url` on one URL: load, then split, then index. */
  function UrlSteps(url: string): seq<Step> {
    [Load(url), Split(url), Index(url)]
  }

  /** `process_urls`: every URL's three stages, URL after URL. */
  function PipelineSteps(urls: seq<string>): (r: seq<Step>)
    ensures |r| == 3 * |urls|
  {
    if urls == [] then [] else UrlSteps(urls[0]) + PipelineSteps(urls[1..])
  }

  /** The URLs loaded in a log, in log order. */
  function LoadsOf(steps: seq<Step>): seq<string> {
    if steps == [] then []
    else (if steps[0].Load? then [steps[0].url] else []) + LoadsOf(steps[1..])
  }

  /** The URLs whose chunks were indexed in a log, in log order. */
  function IndexesOf(steps: seq<Step>): seq<string> {
    if steps == [] then []
    else (if steps[0].Index? then [steps[0].url] else []) + IndexesOf(steps[1..])
  }

  lemma {:induction false} LoadsOfAppend(a: seq<Step>, b: seq<Step>)
    ensures LoadsOf(a + b) == LoadsOf(a) + LoadsOf(b)
    ensures IndexesOf(a + b) == IndexesOf(a) + IndexesOf(b)
  {
    if a == [] {
      assert a + b == b;
    } else {
      assert (a + b)[0] == a[0];
      assert (a + b)[1..] == a[1..] + b;
      LoadsOfAppend(a[1..], b);
    }
  }

  lemma AppendAssoc<T>(a: seq<T>, b: seq<T>, c: seq<T>)
    ensures (a + b) + c == a + (b + c)
  {
  }

  /** A log without pipeline stages loads and indexes nothing. */
  lemma {:induction false} NoStagesNoLoads(steps: seq<Step>)
    requires forall i :: 0 <= i < |steps| ==> !IsStage(steps[i])
    ensures LoadsOf(steps) == [] && IndexesOf(steps) == []
  {
    if steps != [] {
      assert !IsStage(steps[0]);
      NoStagesNoLoads(steps[1..]);
    }
  }

  /** Processing a list of URLs is processing its two halves one after the other. */
  lemma {:induction false} PipelineStepsAppend(a: seq<string>, b: seq<string>)
    ensures PipelineSteps(a + b) == PipelineSteps(a) + PipelineSteps(b)
  {
    if a == [] {
      assert a + b == b;
    } else {
      assert (a + b)[0] == a[0];
      assert (a + b)[1..] == a[1..] + b;
      PipelineStepsAppend(a[1..], b);
    }
  }

  /** The pipeline does nothing but run stages. */
  lemma {:induction false} PipelineStepsAreStages(urls: seq<string>)
    ensures forall i :: 0 <= i < |PipelineSteps(urls)| ==> IsStage(PipelineSteps(urls)[i])
  {
    if urls != [] {
      PipelineStepsAreStages(urls[1..]);
    }
  }

  /** URL number `i` owns steps 3i, 3i+1 and 3i+2, which load, split and index it. */
  lemma {:induction false} PipelineStepsAt(urls: seq<string>, i: nat)
    requires i < |urls|
    ensures PipelineSteps(urls)[3 * i] == Load(urls[i])
    ensures PipelineSteps(urls)[3 * i + 1] == Split(urls[i])
    ensures PipelineSteps(urls)[3 * i + 2] == Index(urls[i])
  {
    if i > 0 {
      PipelineStepsAt(urls[1..], i - 1);
    }
  }

  lemma UrlStepsLoadAndIndexOnce(u: string)
    ensures LoadsOf(UrlSteps(u)) == [u] && IndexesOf(UrlSteps(u)) == [u]
  {
    var s := UrlSteps(u);
    assert s[1..] == [Split(u), Index(u)];
    assert s[1..][1..] == [Index(u)];
    assert s[1..][1..][1..] == [];
    assert LoadsOf(s[1..][1..]) == [] && IndexesOf(s[1..][1..]) == [u];
    assert LoadsOf(s[1..]) == [] && IndexesOf(s[1..]) == [u];
  }

  /** Each URL is loaded exactly once and indexed exactly once, in list
      order; a URL listed twice is processed twice. */
  lemma {:induction false} PipelineProcessesEachUrlOnce(urls: seq<string>)
    ensures LoadsOf(PipelineSteps(urls)) == urls
    ensures IndexesOf(PipelineSteps(urls)) == urls
  {
    if urls != [] {
      var u := urls[0];
      PipelineProcessesEachUrlOnce(urls[1..]);
      LoadsOfAppend(UrlSteps(u), PipelineSteps(urls[1..]));
      UrlStepsLoadAndIndexOnce(u);
    }
  }

  class Chatbot {
    /** The Ollama model name used for embeddings and generation. */
    const modelName: string
    /** The URLs whose chunks this chatbot's in-memory store holds, in indexing order. */
    var processed: seq<string>
    /** Everything this chatbot's run has done so far, in order. */
    var effects: seq<Step>

    /** A chatbot starts with an empty store (bin/scraper.py:28-35). */
    constructor (modelName: string)
      ensures this.modelName == modelName && processed == [] && effects == []
    {
      this.modelName := modelName;
      processed := [];
      effects := [];
    }

    method LoadPage(url: string) returns (pages: Pages)
      modifies this
      ensures pages == PagesOf(url)
      ensures effects == old(effects) + [Load(url)] && processed == old(processed)
    {
      pages := PagesOf(url);
      effects := effects + [Load(url)];
    }

    method SplitText(pages: Pages) returns (chunks: Chunks)
      modifies this
      ensures chunks == ChunksOf(pages.url)
      ensures effects == old(effects) + [Split(pages.url)] && processed == old(processed)
    {
      chunks := ChunksOf(pages.url);
      effects := effects + [Split(pages.url)];
    }

    /** Adding chunks to the store makes their URL one the store holds. */
    method IndexDocs(chunks: Chunks)
      modifies this
      ensures effects == old(effects) + [Index(chunks.url)]
      ensures processed == old(processed) + [chunks.url]
    {
      effects := effects + [Index(chunks.url)];
      processed := processed + [chunks.url];
    }

    /** `process_url`: the pages loaded from `url` are split and the chunks indexed. */
    method ProcessUrl(url: string)
      modifies this
      ensures effects == old(effects) + UrlSteps(url)
      ensures processed == old(processed) + [url]
    {
      var pages := LoadPage(url);
      var chunks := SplitText(pages);
      IndexDocs(chunks);
    }

    /** `process_urls`: `process_url` on each URL, in list order. */
    method ProcessUrls(urls: seq<string>)
      modifies this
      ensures effects == old(effects) + PipelineSteps(urls)
      ensures processed == old(processed) + urls
    {
      for k := 0 to |urls|
        invariant effects == old(effects) + PipelineSteps(urls[..k])
        invariant processed == old(processed) + urls[..k]
      {
        assert urls[..k + 1] == urls[..k] + [urls[k]];
        PipelineStepsAppend(urls[..k], [urls[k]]);
        ProcessUrl(urls[k]);
      }
      assert urls[..|urls|] == urls;
    }

    /** `retrieve_docs`: a similarity search over what this store holds. */
    method RetrieveDocs(question: string, retrieve: Retriever) returns (docs: seq<Doc>)
      modifies this
      ensures docs == retrieve(processed, question)
      ensures effects == old(effects) + [Retrieve(question)] && processed == old(processed)
    {
      docs := retrieve(processed, question);
      effects := effects + [Retrieve(question)];
    }

    /** `answer_question`: one call of the prompt chain on the question and the context. */
    method AnswerQuestion(question: string, context: string, generate: Generator)
      returns (answer: string)
      modifies this
      ensures answer == generate(question, context)
      ensures effects == old(effects) + [Generate(question, context)] && processed == old(processed)
    {
      answer := generate(question, context);
      effects := effects + [Generate(question, context)];
    }
  }
}
