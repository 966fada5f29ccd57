/**
 * The interactive front end of bin/scraper.py:96-144. Streamlit runs the
 * whole script again on every interaction; each run sees the session
 * state (`urls`, `indexed`) left by the previous ones and at most one
 * button press or submitted question, which is modelled as one event.
 */
module Session {
  import opened Text
  import opened Retrieval
  import opened Pipeline

  datatype Option<T> = None | Some(value: T)

  /** Most URLs the add-URL form accepts (bin/scraper.py:105). */
  const MaxUrls := 5
  /** Heading shown above the sources of an answer (bin/scraper.py:138). */
  const SourcesTitle := "**Information retrieved from:**"

  /** `st.session_state`: the URLs added so far and whether they have been indexed. */
  datatype SessionState = SessionState(urls: seq<string>, indexed: bool)

  /** The state the first run creates (bin/scraper.py:100-103). */
  const Initial := SessionState([], false)

  /** What a user can do between two runs. */
  datatype Event =
    | AddPressed(input: string)        // "Add URL" with the text field's content
    | FinalizePressed                  // "Finalize Sites"
    | QuestionSubmitted(question: string)

  /** The text field and the "Add URL" button are on the page (bin/scraper.py:105). */
  predicate AddFormShown(s: SessionState) {
    |s.urls| < MaxUrls && !s.indexed
  }

  /** The "Finalize Sites" button is on the page (bin/scraper.py:116). */
  predicate FinalizeShown(s: SessionState) {
    |s.urls| > 0 && !s.indexed
  }

  /** The chat input is on the page (bin/scraper.py:122). */
  predicate ChatShown(s: SessionState) {
    s.indexed
  }

  /** What every reachable session satisfies. */
  predicate Inv(s: SessionState) {
    |s.urls| <= MaxUrls && (s.indexed ==> |s.urls| >= 1)
  }

  /** The session state after one event. A press on a control that is not
      on the page cannot happen, and is read as doing nothing. */
  function Next(s: SessionState, e: Event): (t: SessionState)
    ensures Inv(s) ==> Inv(t)
    ensures s.indexed ==> t == s
    ensures t.indexed <==> s.indexed || (e.FinalizePressed? && FinalizeShown(s))
    ensures |s.urls| <= |t.urls| <= |s.urls| + 1 && t.urls[..|s.urls|] == s.urls
  {
    match e
    case AddPressed(input) =>
      if AddFormShown(s) && Strip(input) != "" then s.(urls := s.urls + [Strip(input)]) else s
    case FinalizePressed =>
      if FinalizeShown(s) then s.(indexed := true) else s
    case QuestionSubmitted(_) => s
  }

  /** The session state after a series of events, first to last. */
  function Run(s: SessionState, events: seq<Event>): SessionState
    decreases events
  {
    if events == [] then s else Run(Next(s, events[0]), events[1..])
  }

  /** An add is accepted exactly when the form is shown and the input is not
      blank; the stripped input then goes at the end, even when it is
      already in the list. */
  lemma AddAcceptedIff(s: SessionState, input: string)
    ensures var t := Next(s, AddPressed(input));
            && (t != s <==> AddFormShown(s) && Strip(input) != "")
            && (t != s ==> t.urls == s.urls + [Strip(input)] && t.indexed == s.indexed)
  {
  }

  /** Finalizing is accepted exactly when there is a URL and the session is
      not yet indexed; afterwards it is indexed, with the same URLs. */
  lemma FinalizeAcceptedIff(s: SessionState)
    ensures var t := Next(s, FinalizePressed);
            && (t != s <==> FinalizeShown(s))
            && t.urls == s.urls && (FinalizeShown(s) ==> t.indexed)
  {
  }

  /** No series of events breaks the invariant. */
  lemma {:induction false} RunKeepsInv(s: SessionState, events: seq<Event>)
    requires Inv(s)
    ensures Inv(Run(s, events))
    decreases events
  {
    if events != [] {
      RunKeepsInv(Next(s, events[0]), events[1..]);
    }
  }

  /** Every reachable session holds at most five URLs, and at least one once indexed. */
  lemma ReachableSessionsAreValid(events: seq<Event>)
    ensures |Run(Initial, events).urls| <= MaxUrls
    ensures Run(Initial, events).indexed ==> |Run(Initial, events).urls| >= 1
  {
    RunKeepsInv(Initial, events);
  }

  /** Once indexed, nothing changes any more: the URLs are frozen and
      `indexed` is never reset. */
  lemma {:induction false} IndexedIsFinal(s: SessionState, events: seq<Event>)
    requires s.indexed
    ensures Run(s, events) == s
    decreases events
  {
    if events != [] {
      IndexedIsFinal(Next(s, events[0]), events[1..]);
    }
  }

  /** URLs are never removed or reordered: earlier entries stay a prefix,
      and an indexed session stays indexed. */
  lemma {:induction false} RunOnlyGrows(s: SessionState, events: seq<Event>)
    ensures |s.urls| <= |Run(s, events).urls|
    ensures Run(s, events).urls[..|s.urls|] == s.urls
    ensures s.indexed ==> Run(s, events).indexed
    decreases events
  {
    if events != [] {
      var t := Next(s, events[0]);
      RunOnlyGrows(t, events[1..]);
      var u := Run(t, events[1..]);
      assert u.urls[..|s.urls|] == u.urls[..|t.urls|][..|s.urls|];
    }
  }

  /** What one answered question puts on the page after the answer. */
  datatype ChatReply = ChatReply(answer: string, sourceBlocks: seq<string>)

  /** bin/scraper.py:137-139: the heading and the lines, only when there are lines. */
  function SourcesMarkdown(lines: seq<string>): seq<string> {
    if lines == [] then [] else [SourcesTitle, Join(lines, "\n")]
  }

  /** bin/scraper.py:128-139 for the documents a search returned. */
  function ChatTurn(question: string, docs: seq<Doc>, generate: Generator): ChatReply {
    ChatReply(generate(question, Context(docs)), SourcesMarkdown(SourceLines(docs, TitleDefault)))
  }

  /** The interactive path always calls the model, with the empty context when
      nothing was found, and shows sources exactly when something was found:
      one line per document, in retrieval order, `"title"` for a missing source. */
  lemma ChatTurnShowsSourcesIff(question: string, docs: seq<Doc>, generate: Generator)
    ensures ChatTurn(question, docs, generate).answer == generate(question, Context(docs))
    ensures docs == [] ==> ChatTurn(question, docs, generate).answer == generate(question, "")
    ensures ChatTurn(question, docs, generate).sourceBlocks != [] <==> docs != []
    ensures docs != [] ==>
              ChatTurn(question, docs, generate).sourceBlocks
                == [SourcesTitle, Join(SourceLines(docs, TitleDefault), "\n")]
  {
    if docs != [] {
      assert SourceLines(docs, TitleDefault) != [];
    }
  }

  /** bin/scraper.py:128-139 on the chatbot of the current run. */
  method AnswerChat(bot: Chatbot, question: string, retrieve: Retriever, generate: Generator)
    returns (reply: ChatReply)
    modifies bot
    ensures reply == ChatTurn(question, retrieve(old(bot.processed), question), generate)
    ensures bot.effects == old(bot.effects)
              + [Retrieve(question), Generate(question, Context(retrieve(old(bot.processed), question)))]
    ensures bot.processed == old(bot.processed)
  {
    var docs := bot.RetrieveDocs(question, retrieve);
    var context := Context(docs);
    var answer := bot.AnswerQuestion(question, context, generate);
    var sources := BuildSourcesList(docs, TitleDefault);
    assert sources == SourceLines(docs, TitleDefault);
    var blocks := if sources != [] then [SourcesTitle, Join(sources, "\n")] else [];
    reply := ChatReply(answer, blocks);
  }

  /** `st.session_state` of one browser session. */
  class App {
    var urls: seq<string>
    var indexed: bool

    function State(): SessionState
      reads this
    {
      SessionState(urls, indexed)
    }

    ghost predicate Valid()
      reads this
    {
      Inv(State())
    }

    constructor ()
      ensures Valid() && State() == Initial
    {
      urls := [];
      indexed := false;
    }

    /** bin/scraper.py:105-109: "Add URL" pressed with `input` in the text field. */
    method AddUrl(input: string) returns (accepted: bool)
      requires Valid()
      modifies this
      ensures Valid()
      ensures accepted <==> AddFormShown(old(State())) && Strip(input) != ""
      ensures urls == if accepted then old(urls) + [Strip(input)] else old(urls)
      ensures indexed == old(indexed)
      ensures State() == Next(old(State()), AddPressed(input))
    {
      accepted := false;
      if |urls| < MaxUrls && !indexed {
        var stripped := Strip(input);
        if input != "" && stripped != "" {
          urls := urls + [stripped];
          accepted := true;
        }
      }
    }

    /** bin/scraper.py:116-120: "Finalize Sites" pressed; the URLs are
        processed by `bot`, the chatbot of this run, and the session is indexed. */
    method Finalize(bot: Chatbot) returns (accepted: bool)
      requires Valid()
      modifies this, bot
      ensures Valid()
      ensures accepted <==> FinalizeShown(old(State()))
      ensures urls == old(urls) && indexed == (old(indexed) || accepted)
      ensures State() == Next(old(State()), FinalizePressed)
      ensures bot.effects == old(bot.effects) + (if accepted then PipelineSteps(urls) else [])
      ensures bot.processed == old(bot.processed) + (if accepted then urls else [])
    {
      accepted := |urls| > 0 && !indexed;
      if accepted {
        bot.ProcessUrls(urls);
        indexed := true;
      }
    }

    /** bin/scraper.py:122-139: a question submitted in the chat input,
        answered by `bot`, the chatbot of this run. */
    method Ask(bot: Chatbot, question: string, retrieve: Retriever, generate: Generator)
      returns (reply: Option<ChatReply>)
      requires Valid()
      modifies bot
      ensures reply.Some? <==> ChatShown(State()) && question != ""
      ensures reply.Some? ==>
                reply.value == ChatTurn(question, retrieve(old(bot.processed), question), generate)
      ensures bot.processed == old(bot.processed)
      ensures bot.effects == old(bot.effects) +
                (if reply.Some?
                 then [Retrieve(question), Generate(question, Context(retrieve(old(bot.processed), question)))]
                 else [])
    {
      if indexed && question != "" {
        var r := AnswerChat(bot, question, retrieve, generate);
        reply := Some(r);
      } else {
        reply := None;
      }
    }
  }

  /** What one run's chatbot did for an event. */
  function RerunSteps(s: SessionState, e: Event, store: seq<string>, retrieve: Retriever): seq<Step> {
    match e
    case FinalizePressed => if FinalizeShown(s) then PipelineSteps(s.urls) else []
    case QuestionSubmitted(q) =>
      if ChatShown(s) && q != "" then [Retrieve(q), Generate(q, Context(retrieve(store, q)))] else []
    case AddPressed(_) => []
  }

  /** The reply a run shows for an event. */
  function RerunReply(s: SessionState, e: Event, store: seq<string>, retrieve: Retriever,
                      generate: Generator): Option<ChatReply> {
    if e.QuestionSubmitted? && ChatShown(s) && e.question != ""
    then Some(ChatTurn(e.question, retrieve(store, e.question), generate))
    else None
  }

  /** One run of the script as written: line 97 builds a new chatbot, with an
      empty store, on every run. The chatbot that indexed the sites is gone
      by the time a question arrives, so the search sees an empty store. */
  method Rerun(app: App, e: Event, retrieve: Retriever, generate: Generator)
    returns (reply: Option<ChatReply>, steps: seq<Step>)
    requires app.Valid()
    modifies app
    ensures app.Valid()
    ensures app.State() == Next(old(app.State()), e)
    ensures reply == RerunReply(old(app.State()), e, [], retrieve, generate)
    ensures steps == RerunSteps(old(app.State()), e, [], retrieve)
  {
    var bot := new Chatbot(DefaultModel);
    reply := None;
    match e {
      case AddPressed(input) =>
        var _ := app.AddUrl(input);
      case FinalizePressed =>
        var _ := app.Finalize(bot);
      case QuestionSubmitted(q) =>
        reply := app.Ask(bot, q, retrieve, generate);
    }
    steps := bot.effects;
  }

  /** A chatbot kept across runs holds exactly the session's URLs once it is indexed. */
  ghost predicate Cached(app: App, bot: Chatbot)
    reads app, bot
  {
    bot.processed == if app.indexed then app.urls else []
  }

  /** One run with the chatbot kept across runs (for instance in the session
      state): a question is answered from the store built from the sites
      the session indexed. */
  method RerunCached(app: App, bot: Chatbot, e: Event, retrieve: Retriever, generate: Generator)
    returns (reply: Option<ChatReply>)
    requires app.Valid() && Cached(app, bot)
    modifies app, bot
    ensures app.Valid() && Cached(app, bot)
    ensures app.State() == Next(old(app.State()), e)
    ensures reply == RerunReply(old(app.State()), e, old(app.urls), retrieve, generate)
    ensures bot.effects == old(bot.effects) + RerunSteps(old(app.State()), e, old(app.urls), retrieve)
  {
    reply := None;
    match e {
      case AddPressed(input) =>
        var _ := app.AddUrl(input);
      case FinalizePressed =>
        var _ := app.Finalize(bot);
      case QuestionSubmitted(q) =>
        reply := app.Ask(bot, q, retrieve, generate);
    }
  }

  /** Adding one URL and finalizing indexes exactly that URL. */
  lemma AddThenFinalize(url: string)
    requires url != [] && Trimmed(url)
    ensures Run(Initial, [AddPressed(url), FinalizePressed]) == SessionState([url], true)
  {
    StripOfPadded([], url, []);
    assert [] + url + [] == url;
    var s1 := Next(Initial, AddPressed(url));
    assert s1 == SessionState([url], false);
    var events := [AddPressed(url), FinalizePressed];
    assert events[1..] == [FinalizePressed];
    assert [FinalizePressed][1..] == [];
    assert Run(s1, [FinalizePressed]) == Run(Next(s1, FinalizePressed), []);
  }

  /** As written, after any URL is added and the sites are finalized, a
      question is answered from the empty context and without sources,
      given that a search of an empty store finds nothing. */
  lemma AsWrittenChatIgnoresIndexedSites(url: string, question: string,
                                         retrieve: Retriever, generate: Generator)
    requires url != [] && Trimmed(url) && question != ""
    requires forall q :: retrieve([], q) == []
    ensures var s := Run(Initial, [AddPressed(url), FinalizePressed]);
            && s == SessionState([url], true)
            && RerunReply(s, QuestionSubmitted(question), [], retrieve, generate)
                 == Some(ChatReply(generate(question, ""), []))
  {
    AddThenFinalize(url);
    var docs := retrieve([], question);
    assert docs == [];
    assert Context(docs) == "";
    assert SourceLines(docs, TitleDefault) == [];
  }

  /** With the chatbot kept, the same session answers from a store that
      holds the finalized URL. */
  lemma CachedChatSeesIndexedSites(url: string, question: string,
                                   retrieve: Retriever, generate: Generator)
    requires url != [] && Trimmed(url) && question != ""
    ensures var s := Run(Initial, [AddPressed(url), FinalizePressed]);
            RerunReply(s, QuestionSubmitted(question), s.urls, retrieve, generate)
              == Some(ChatTurn(question, retrieve([url], question), generate))
  {
    AddThenFinalize(url);
  }
}
