/**
 * The `process-urls` and `query` commands of app.py. Each builds a fresh
 * chatbot, so nothing is kept between two invocations. Lines written with
 * `typer.echo` go into the same ordered log as the chatbot's stages,
 * which makes "processed before reporting" and "answer before sources"
 * statements about positions in one sequence.
 */
module Cli {
  import opened Text
  import opened Retrieval
  import opened Pipeline

  const SuccessLine := "All URLs processed successfully!"
  const NoInfoLine := "No relevant information found."
  const AnswerHeading := "\nAnswer:"
  const SourcesHeading := "\nSources:"

  /** `typer.echo(line)`: the line is added to the run's log. */
  method EchoLine(bot: Chatbot, line: string)
    modifies bot
    ensures bot.effects == old(bot.effects) + [Echo(line)] && bot.processed == old(bot.processed)
  {
    bot.effects := bot.effects + [Echo(line)];
  }

  /** Each line echoed, in order. */
  function EchoAll(lines: seq<string>): (r: seq<Step>)
    ensures |r| == |lines|
    ensures forall i :: 0 <= i < |lines| ==> r[i] == Echo(lines[i])
  {
    if lines == [] then [] else [Echo(lines[0])] + EchoAll(lines[1..])
  }

  // ---------------------------------------------------------------------
  // process-urls
  // ---------------------------------------------------------------------

  function ProcessUrlsHeader(urls: seq<string>, model: string): string {
    "Processing " + Decimal(|urls|) + " URLs with model " + model + "..."
  }

  /** The loop at app.py:26-28: announce a URL, then process it. */
  function AnnouncedSteps(urls: seq<string>): (r: seq<Step>)
    ensures |r| == 4 * |urls|
  {
    if urls == [] then []
    else [Echo("Processing " + urls[0])] + UrlSteps(urls[0]) + AnnouncedSteps(urls[1..])
  }

  /** The whole log of one `process-urls` run. */
  function ProcessUrlsEffects(urls: seq<string>, model: string): seq<Step> {
    [Echo(ProcessUrlsHeader(urls, model))] + AnnouncedSteps(urls) + [Echo(SuccessLine)]
  }

  lemma {:induction false} AnnouncedStepsAppend(a: seq<string>, b: seq<string>)
    ensures AnnouncedSteps(a + b) == AnnouncedSteps(a) + AnnouncedSteps(b)
  {
    if a == [] {
      assert a + b == b;
    } else {
      assert (a + b)[0] == a[0];
      assert (a + b)[1..] == a[1..] + b;
      AnnouncedStepsAppend(a[1..], b);
    }
  }

  /** URL number `i` is announced at step 4i and then loaded, split and indexed. */
  lemma {:induction false} AnnouncedStepsAt(urls: seq<string>, i: nat)
    requires i < |urls|
    ensures AnnouncedSteps(urls)[4 * i] == Echo("Processing " + urls[i])
    ensures AnnouncedSteps(urls)[4 * i + 1] == Load(urls[i])
    ensures AnnouncedSteps(urls)[4 * i + 2] == Split(urls[i])
    ensures AnnouncedSteps(urls)[4 * i + 3] == Index(urls[i])
  {
    if i > 0 {
      AnnouncedStepsAt(urls[1..], i - 1);
    }
  }

  lemma {:induction false} AnnouncedStepsLoadEachOnce(urls: seq<string>)
    ensures LoadsOf(AnnouncedSteps(urls)) == urls && IndexesOf(AnnouncedSteps(urls)) == urls
  {
    if urls != [] {
      var u := urls[0];
      var head := [Echo("Processing " + u)] + UrlSteps(u);
      AnnouncedStepsLoadEachOnce(urls[1..]);
      LoadsOfAppend(head, AnnouncedSteps(urls[1..]));
      LoadsOfAppend([Echo("Processing " + u)], UrlSteps(u));
      UrlStepsLoadAndIndexOnce(u);
      NoStagesNoLoads([Echo("Processing " + u)]);
    }
  }

  /** `process-urls` processes every URL exactly once, in the given order, and
      reports success only after the last one: the success line is the last
      entry, every load and every index comes before it. */
  lemma ProcessUrlsCommandOrder(urls: seq<string>, model: string)
    ensures var e := ProcessUrlsEffects(urls, model);
            && e[0] == Echo(ProcessUrlsHeader(urls, model))
            && e[|e| - 1] == Echo(SuccessLine)
            && LoadsOf(e) == urls && IndexesOf(e) == urls
            && forall i :: 0 <= i < |urls| ==>
                 e[4 * i + 1] == Echo("Processing " + urls[i]) && e[4 * i + 2] == Load(urls[i])
                 && e[4 * i + 3] == Split(urls[i]) && e[4 * i + 4] == Index(urls[i])
  {
    var e := ProcessUrlsEffects(urls, model);
    var head := [Echo(ProcessUrlsHeader(urls, model))];
    LoadsOfAppend(head + AnnouncedSteps(urls), [Echo(SuccessLine)]);
    LoadsOfAppend(head, AnnouncedSteps(urls));
    NoStagesNoLoads(head);
    NoStagesNoLoads([Echo(SuccessLine)]);
    AnnouncedStepsLoadEachOnce(urls);
    forall i | 0 <= i < |urls|
      ensures e[4 * i + 1] == Echo("Processing " + urls[i]) && e[4 * i + 2] == Load(urls[i])
           && e[4 * i + 3] == Split(urls[i]) && e[4 * i + 4] == Index(urls[i])
    {
      AnnouncedStepsAt(urls, i);
    }
  }

  /** The `process-urls` command (app.py:15-31), on a fresh chatbot. */
  method ProcessUrlsCommand(urls: seq<string>, model: string) returns (bot: Chatbot)
    ensures bot.modelName == model
    ensures bot.processed == urls
    ensures bot.effects == ProcessUrlsEffects(urls, model)
  {
    bot := new Chatbot(model);
    EchoLine(bot, ProcessUrlsHeader(urls, model));
    for k := 0 to |urls|
      invariant bot.processed == urls[..k]
      invariant bot.effects == [Echo(ProcessUrlsHeader(urls, model))] + AnnouncedSteps(urls[..k])
    {
      assert urls[..k + 1] == urls[..k] + [urls[k]];
      AnnouncedStepsAppend(urls[..k], [urls[k]]);
      EchoLine(bot, "Processing " + urls[k]);
      bot.ProcessUrl(urls[k]);
    }
    assert urls[..|urls|] == urls;
    EchoLine(bot, SuccessLine);
  }

  // ---------------------------------------------------------------------
  // query
  // ---------------------------------------------------------------------

  /** app.py:43-47: the URLs given with `--urls` are announced and processed, if any. */
  function QueryPrelude(urls: seq<string>): seq<Step> {
    if urls == [] then []
    else [Echo("Processing " + Decimal(|urls|) + " URLs before querying...")] + PipelineSteps(urls)
  }

  /** app.py:52-65: what follows the search, given the documents it returned. */
  function QueryOutcome(question: string, docs: seq<Doc>, generate: Generator): seq<Step> {
    if docs == [] then [Echo(NoInfoLine)]
    else
      [Generate(question, Context(docs)), Echo(AnswerHeading),
       Echo(generate(question, Context(docs))), Echo(SourcesHeading)]
      + EchoAll(SourceLines(docs, UnknownDefault))
  }

  /** The whole log of one `query` run. Its chatbot is fresh, so the search
      sees exactly the URLs given on this command line. */
  function QueryEffects(question: string, urls: seq<string>, retrieve: Retriever,
                        generate: Generator): seq<Step> {
    QueryPrelude(urls) + [Echo("Querying: " + question), Retrieve(question)]
    + QueryOutcome(question, retrieve(urls, question), generate)
  }

  /** Position of the search in the log of a `query` run. */
  function RetrievalIndex(urls: seq<string>): nat {
    |QueryPrelude(urls)| + 1
  }

  /** After the prelude, a `query` run searches, calls the model and prints, but runs no stage. */
  lemma QueryTailHasNoStages(question: string, docs: seq<Doc>, generate: Generator)
    ensures var tail := [Echo("Querying: " + question), Retrieve(question)]
                        + QueryOutcome(question, docs, generate);
            forall i :: 0 <= i < |tail| ==> !IsStage(tail[i])
  {
  }

  lemma QueryPreludeProcessesEachUrlOnce(urls: seq<string>)
    ensures LoadsOf(QueryPrelude(urls)) == urls && IndexesOf(QueryPrelude(urls)) == urls
  {
    if urls != [] {
      var announce := [Echo("Processing " + Decimal(|urls|) + " URLs before querying...")];
      NoStagesNoLoads(announce);
      LoadsOfAppend(announce, PipelineSteps(urls));
      PipelineProcessesEachUrlOnce(urls);
    }
  }

  /** Every URL given to `query` is loaded and indexed once, in order, and
      all of that happens before the search. */
  lemma QueryIndexesBeforeRetrieval(question: string, urls: seq<string>, retrieve: Retriever,
                                    generate: Generator)
    ensures var e := QueryEffects(question, urls, retrieve, generate);
            && RetrievalIndex(urls) < |e| && e[RetrievalIndex(urls)] == Retrieve(question)
            && LoadsOf(e) == urls && IndexesOf(e) == urls
            && forall i :: 0 <= i < |e| && IsStage(e[i]) ==> i < RetrievalIndex(urls)
  {
    var e := QueryEffects(question, urls, retrieve, generate);
    var pre := QueryPrelude(urls);
    var tail := [Echo("Querying: " + question), Retrieve(question)]
                + QueryOutcome(question, retrieve(urls, question), generate);
    AppendAssoc(pre, [Echo("Querying: " + question), Retrieve(question)],
                QueryOutcome(question, retrieve(urls, question), generate));
    assert e == pre + tail;
    QueryTailHasNoStages(question, retrieve(urls, question), generate);
    NoStagesNoLoads(tail);
    LoadsOfAppend(pre, tail);
    QueryPreludeProcessesEachUrlOnce(urls);
    forall i | |pre| <= i < |e| ensures !IsStage(e[i]) {
      assert e[i] == tail[i - |pre|];
    }
  }

  /** When the search returns nothing, `query` reports that no relevant
      information was found as its last line and never calls the model or
      prints an answer or sources. */
  lemma QueryEmptyRetrievalShortCircuits(question: string, urls: seq<string>,
                                        retrieve: Retriever, generate: Generator)
    requires retrieve(urls, question) == []
    ensures var e := QueryEffects(question, urls, retrieve, generate);
            && e[|e| - 1] == Echo(NoInfoLine)
            && (forall i :: 0 <= i < |e| ==> !e[i].Generate?)
            && Echo(AnswerHeading) !in e && Echo(SourcesHeading) !in e
  {
    var e := QueryEffects(question, urls, retrieve, generate);
    var pre := QueryPrelude(urls);
    var mid := [Echo("Querying: " + question), Retrieve(question)];
    assert e == pre + mid + [Echo(NoInfoLine)];
    PipelineStepsAreStages(urls);
    assert ("Querying: " + question)[0] == 'Q';
    forall i | 0 <= i < |e|
      ensures !e[i].Generate? && e[i] != Echo(AnswerHeading) && e[i] != Echo(SourcesHeading)
    {
      if i < |pre| {
        var announce := "Processing " + Decimal(|urls|) + " URLs before querying...";
        assert announce[0] == 'P';
        if i > 0 {
          assert e[i] == PipelineSteps(urls)[i - 1];
        }
      } else if i < |pre| + |mid| {
        assert e[i] == mid[i - |pre|];
      }
    }
  }

  /** When the search returns documents, the model is called once with the
      question and their context, then the answer section is printed, then
      the sources section with one line per document in retrieval order,
      each `"- <source>"` with `"Unknown"` for a missing source. */
  lemma QueryAnswerThenSources(question: string, urls: seq<string>,
                               retrieve: Retriever, generate: Generator)
    requires retrieve(urls, question) != []
    ensures var e := QueryEffects(question, urls, retrieve, generate);
            var docs := retrieve(urls, question);
            var r := RetrievalIndex(urls);
            && |e| == r + 5 + |docs|
            && e[r] == Retrieve(question)
            && e[r + 1] == Generate(question, Context(docs))
            && e[r + 2] == Echo(AnswerHeading)
            && e[r + 3] == Echo(generate(question, Context(docs)))
            && e[r + 4] == Echo(SourcesHeading)
            && forall i :: 0 <= i < |docs| ==>
                 e[r + 5 + i] == Echo("- " + SourceOf(docs[i], UnknownDefault))
  {
  }

  /** The `query` command (app.py:33-65), on a fresh chatbot. */
  method Query(question: string, urls: seq<string>, model: string,
               retrieve: Retriever, generate: Generator) returns (effects: seq<Step>)
    ensures effects == QueryEffects(question, urls, retrieve, generate)
  {
    var bot := new Chatbot(model);
    ProcessBeforeQuery(bot, urls);
    assert bot.processed == urls && bot.effects == QueryPrelude(urls);
    EchoLine(bot, "Querying: " + question);
    var docs := bot.RetrieveDocs(question, retrieve);
    ghost var searched := bot.effects;
    assert searched == QueryPrelude(urls) + [Echo("Querying: " + question), Retrieve(question)];
    if docs == [] {
      EchoLine(bot, NoInfoLine);
    } else {
      ReportAnswer(bot, question, docs, generate);
    }
    assert bot.effects == searched + QueryOutcome(question, docs, generate);
    effects := bot.effects;
  }

  /** app.py:43-47: announce and process the URLs given with `--urls`, if any. */
  method ProcessBeforeQuery(bot: Chatbot, urls: seq<string>)
    modifies bot
    ensures bot.effects == old(bot.effects) + QueryPrelude(urls)
    ensures bot.processed == old(bot.processed) + urls
  {
    if urls != [] {
      EchoLine(bot, "Processing " + Decimal(|urls|) + " URLs before querying...");
      ghost var announced := bot.effects;
      for k := 0 to |urls|
        invariant bot.processed == old(bot.processed) + urls[..k]
        invariant bot.effects == announced + PipelineSteps(urls[..k])
      {
        assert urls[..k + 1] == urls[..k] + [urls[k]];
        PipelineStepsAppend(urls[..k], [urls[k]]);
        bot.ProcessUrl(urls[k]);
      }
      assert urls[..|urls|] == urls;
    }
  }

  /** app.py:56-65: generate the answer from the context, print it, then the sources. */
  method ReportAnswer(bot: Chatbot, question: string, docs: seq<Doc>, generate: Generator)
    requires docs != []
    modifies bot
    ensures bot.effects == old(bot.effects) + QueryOutcome(question, docs, generate)
    ensures bot.processed == old(bot.processed)
  {
    var context := Context(docs);
    var answer := bot.AnswerQuestion(question, context, generate);
    EchoLine(bot, AnswerHeading);
    EchoLine(bot, answer);
    EchoLine(bot, SourcesHeading);
    ghost var heading := [Generate(question, context), Echo(AnswerHeading),
                          Echo(answer), Echo(SourcesHeading)];
    assert bot.effects == old(bot.effects) + heading;
    EchoSources(bot, docs);
    AppendAssoc(old(bot.effects), heading, EchoAll(SourceLines(docs, UnknownDefault)));
  }

  /** app.py:63-65: one `"- <source>"` line per retrieved document. */
  method EchoSources(bot: Chatbot, docs: seq<Doc>)
    modifies bot
    ensures bot.effects == old(bot.effects) + EchoAll(SourceLines(docs, UnknownDefault))
    ensures bot.processed == old(bot.processed)
  {
    ghost var start := bot.effects;
    for k := 0 to |docs|
      invariant |bot.effects| == |start| + k && bot.effects[..|start|] == start
      invariant forall i :: 0 <= i < k ==> bot.effects[|start| + i] == Echo(SourceLine(docs[i], UnknownDefault))
      invariant bot.processed == old(bot.processed)
    {
      EchoLine(bot, "- " + SourceOf(docs[k], UnknownDefault));
    }
    EchoedSourcesAre(start, bot.effects, docs);
  }

  lemma EchoedSourcesAre(start: seq<Step>, effects: seq<Step>, docs: seq<Doc>)
    requires |effects| == |start| + |docs| && effects[..|start|] == start
    requires forall i :: 0 <= i < |docs| ==>
               effects[|start| + i] == Echo(SourceLine(docs[i], UnknownDefault))
    ensures effects == start + EchoAll(SourceLines(docs, UnknownDefault))
  {
    var want := start + EchoAll(SourceLines(docs, UnknownDefault));
    forall i | 0 <= i < |want| ensures effects[i] == want[i] {
      if i < |start| {
        assert effects[..|start|][i] == start[i];
      }
    }
  }
}
