# Web crawler chatbot: session, pipeline order and answer assembly

A Dafny model of the parts of the web crawler chatbot (a Streamlit page and a
Typer command line over one `WebCrawlerChatbot` class) that the repository
itself implements:

- the **interactive session**: the URL list (at most five, each stripped of
  surrounding whitespace, blanks ignored) and the `indexed` flag, changed by
  "Add URL" and "Finalize Sites" and never reset; each Streamlit run of the
  script is one event;
- the **pipeline order**: `process_url` loads, splits and indexes one URL;
  `process_urls`, the `process-urls` command and `query --urls` run it once
  per URL, in list order;
- the **answer assembly**: the context is the retrieved texts joined by a
  blank line, in retrieval order; the sources are one `- <source>` line per
  retrieved document, not de-duplicated, with `"title"` (web page) or
  `"Unknown"` (command line) when a document has no `source`; the command
  line stops with "No relevant information found." when nothing is
  retrieved, the web page calls the model anyway.

Page loading, splitting, indexing, similarity search and generation are
opaque. The chatbot keeps an ordered log of effects (`Pipeline.Step`): one
entry per stage, search, model call and echoed terminal line. Search is a
function of the URLs indexed into the chatbot's store and the question
(`Pipeline.Retriever`). Generation is a function of the question and the
context (`Pipeline.Generator`). The pipeline order, the empty-result short
circuit and "answer before sources" are then statements about positions in
that log.

Files: `text.dfy` (`str.strip`, `str.join`, `str(n)`), `retrieval.dfy`
(documents, context, source lines), `pipeline.dfy` (effects log, the
`Chatbot` class), `cli.dfy` (the two commands of app.py), `session.dfy` (the
session state machine, the `App` class, one run of the page).

Behaviour of the code worth noting:

- sources are not de-duplicated;
- the interactive path does not short-circuit when nothing is retrieved;
- the repository's code catches no exception around loading, splitting,
  indexing, search or generation;
- no chunking or similarity algorithm is modelled, since the repository
  takes both from libraries (see Left out).

## Model

| member | source | states |
|---|---|---|
| Text.Strip | bin/scraper.py:108-109 | the stripped input has no leading or trailing whitespace, and it is empty exactly when the input is all whitespace (so `new_url and new_url.strip()` is the test `Strip(input) != ""`) |
| Text.StripOfPadded | bin/scraper.py:109 | stripping a whitespace prefix, a trimmed middle and a whitespace suffix gives exactly the middle, so `Strip` is fully determined |
| Text.StripIsTrimmedSlice | bin/scraper.py:109 | the stored URL is a contiguous slice of the input with only whitespace cut on either side |
| Text.StripIdempotent | bin/scraper.py:109 | stripping a stored URL again leaves it unchanged |
| Text.JoinLength | bin/scraper.py:129 | `sep.join` loses no text: its length is the parts' lengths plus one separator between each pair of neighbours |
| Text.JoinSplitAt | app.py:56 | a join splits at any inner boundary into the join of the earlier parts, the separator and the join of the later parts |
| Text.JoinAppend | app.py:56 | one more part adds the separator and that part at the end |
| Text.JoinPieceAt | app.py:56 | each part sits at its own position, after the earlier parts and a separator, before a separator and the later parts |
| Text.Decimal | app.py:22 | the count in "Processing N URLs" is written as decimal digits with no leading zero |
| Text.DecimalRoundTrip | app.py:44 | reading those digits back gives the URL count |
| Retrieval.PageContents | bin/scraper.py:129 | one text per retrieved document, in retrieval order |
| Retrieval.ContextOfFew | bin/scraper.py:129-130 | no documents give the empty context, one document gives its text alone |
| Retrieval.ContextPieceAt | app.py:56 | each retrieved text appears in the context at its retrieval position, separated from its neighbours by `"\n\n"` |
| Retrieval.ContextAppend | bin/scraper.py:129 | a further document extends the context by `"\n\n"` and its text |
| Retrieval.ContextLength | app.py:56 | the context holds every retrieved text in full plus two characters per boundary |
| Retrieval.SourceLineOfOne | app.py:64 | a document without `source` metadata is listed as `- <default>`, one with it as `- <source>`, each by exactly one line |
| Retrieval.SourceLines | app.py:63-65 | exactly one `- <source>` line per document, line i for document i |
| Retrieval.SourceLinesAppend | app.py:63-65 | source lines of a concatenation are the concatenation of source lines: nothing is merged, dropped or reordered |
| Retrieval.BuildSourcesList | bin/scraper.py:133-136 | the loop builds one `- <source>` line per document, in order, with the default for a missing source |
| Pipeline.PipelineSteps | bin/scraper.py:93-94 | processing n URLs runs exactly 3n stages |
| Pipeline.PipelineStepsAppend | bin/scraper.py:93-94 | processing two lists one after the other is processing their concatenation |
| Pipeline.PipelineStepsAreStages | bin/scraper.py:89-94 | `process_urls` only loads, splits and indexes: no search, model call or output |
| Pipeline.PipelineStepsAt | bin/scraper.py:84-86 | URL i owns steps 3i, 3i+1 and 3i+2, which load, split and index that URL in that order |
| Pipeline.UrlStepsLoadAndIndexOnce | bin/scraper.py:79-87 | `process_url` loads its URL once and indexes it once |
| Pipeline.PipelineProcessesEachUrlOnce | bin/scraper.py:89-94 | the URLs loaded, and the URLs indexed, are exactly the input list in order; a duplicate is processed twice |
| Pipeline.Chatbot.constructor | bin/scraper.py:28-35 | a new chatbot has the given model, an empty store and has done nothing |
| Pipeline.Chatbot.LoadPage | bin/scraper.py:37-45 | one load of the URL, the store unchanged |
| Pipeline.Chatbot.SplitText | bin/scraper.py:47-58 | one split of the loaded pages, the store unchanged |
| Pipeline.Chatbot.IndexDocs | bin/scraper.py:60-65 | one indexing; the store then also holds the chunks of that URL |
| Pipeline.Chatbot.ProcessUrl | bin/scraper.py:79-87 | load, split and index of the URL, in that order, and the store gains that URL |
| Pipeline.Chatbot.ProcessUrls | bin/scraper.py:89-94 | the log grows by the pipeline steps of the list and the store gains the list, in order |
| Pipeline.Chatbot.RetrieveDocs | bin/scraper.py:67-70 | the documents are the search result over the URLs this store holds; one search is logged |
| Pipeline.Chatbot.AnswerQuestion | bin/scraper.py:72-77 | the answer is the model's output for the question and the context; one model call with exactly those is logged |
| Cli.EchoLine | app.py:22 | one `typer.echo` appends exactly that line to the log and leaves the store unchanged |
| Cli.EchoAll | app.py:63-65 | one echoed line per given line, line i at position i, nothing else |
| Cli.AnnouncedSteps | app.py:26-28 | the command's loop takes exactly four steps per URL (its announcement and its three stages); `AnnouncedStepsAt` gives their contents |
| Cli.AnnouncedStepsAt | app.py:26-28 | URL i is announced at step 4i and then loaded, split and indexed |
| Cli.AnnouncedStepsLoadEachOnce | app.py:25-28 | the command's loop loads and indexes every URL once, in order |
| Cli.ProcessUrlsCommandOrder | app.py:22-30 | the header comes first; every URL is announced, loaded, split and indexed once, in order; the success line comes last, after every indexing |
| Cli.ProcessUrlsCommand | app.py:15-31 | the command's log is exactly that sequence, and the returned chatbot's store holds exactly the given URLs |
| Cli.QueryIndexesBeforeRetrieval | app.py:43-50 | every URL given to `query` is loaded and indexed once, in order, and every stage comes before the single search |
| Cli.QueryEmptyRetrievalShortCircuits | app.py:52-54 | with no documents the last line is "No relevant information found.", and there is no model call, no answer heading and no sources heading |
| Cli.QueryAnswerThenSources | app.py:56-65 | with documents there is one model call with their context, then the answer heading, the answer, the sources heading and one `- <source>` line per document in retrieval order (`Unknown` if missing) |
| Cli.Query | app.py:33-65 | the command's log is exactly the prelude, the search and the outcome; its search sees exactly the URLs just given |
| Cli.ProcessBeforeQuery | app.py:43-47 | with URLs: an announcement and then the pipeline on each, in order; without URLs: nothing |
| Cli.ReportAnswer | app.py:56-65 | one model call, then the answer section, then the sources section |
| Cli.EchoSources | app.py:63-65 | one echoed `- <source>` line per document, in order |
| Session.Next | bin/scraper.py:105-120 | one event keeps the invariant, never unsets `indexed`, leaves an indexed session unchanged, adds at most one URL at the end, and sets `indexed` exactly on an accepted finalize |
| Session.AddAcceptedIff | bin/scraper.py:105-109 | an add changes the session exactly when fewer than five URLs are held, it is not indexed and the input is not blank; it then appends the stripped input, duplicates included |
| Session.FinalizeAcceptedIff | bin/scraper.py:116-120 | a finalize changes the session exactly when it holds a URL and is not indexed; it then becomes indexed with the same URLs |
| Session.RunKeepsInv | bin/scraper.py:100-122 | no series of events breaks "at most five URLs, and at least one once indexed" |
| Session.ReachableSessionsAreValid | bin/scraper.py:100-122 | every session reached from the first run has at most five URLs, and at least one if indexed |
| Session.IndexedIsFinal | bin/scraper.py:105-122 | once indexed, no series of events changes the URLs or resets `indexed` |
| Session.RunOnlyGrows | bin/scraper.py:100-122 | earlier URLs always stay a prefix of the list, and an indexed session stays indexed |
| Session.ChatTurnShowsSourcesIff | bin/scraper.py:128-139 | the model is always called with the context, the empty one when nothing was found; the sources heading and lines are shown exactly when documents were found |
| Session.AnswerChat | bin/scraper.py:128-139 | the reply is the chat turn over the search result of this run's store; one search then one model call are logged |
| Session.App.constructor | bin/scraper.py:100-103 | a new session has no URLs and is not indexed |
| Session.App.AddUrl | bin/scraper.py:105-109 | accepted exactly when the form is shown and the input is not blank; then the stripped input is appended, otherwise nothing changes |
| Session.App.Finalize | bin/scraper.py:116-120 | accepted exactly when a URL is held and the session is not indexed; then the URLs are processed in order by the run's chatbot and the session becomes indexed |
| Session.App.Ask | bin/scraper.py:122-139 | a reply exactly when the session is indexed and the question is non-empty, answered from this run's chatbot |
| Session.Rerun | bin/scraper.py:96-139 | one run of the page as written: the session moves by `Next`, and a question is answered from a new, empty store |
| Session.RerunCached | bin/scraper.py:96-139 | one run with the chatbot kept across runs: a question is answered from a store holding exactly the session's URLs |
| Session.AddThenFinalize | bin/scraper.py:105-120 | adding one URL and finalizing gives an indexed session holding that URL |
| Session.AsWrittenChatIgnoresIndexedSites | bin/scraper.py:97 | as written, after adding a URL and finalizing, a question gets the model's answer to the empty context and no sources |
| Session.CachedChatSeesIndexedSites | bin/scraper.py:116-130 | with the chatbot kept, the same question is answered from a store holding the finalized URL |

## Left out

- Text splitting (bin/scraper.py:51-56): the splitter is a library class whose algorithm is not in the repository; `Chatbot.SplitText` is an opaque stage, and the chunk size 1000, overlap 200 and start indices are not modelled.
- Vector store, embeddings and similarity search (bin/scraper.py:30-31, 64, 68): library code with unseen ranking, `k` and tie-breaking, over floating-point vectors; search is the uninterpreted `Retriever`.
- Prompt template and generation (bin/scraper.py:32-34, 77): an external model call with a template from a module that is not part of this model; generation is the uninterpreted `Generator`.
- Page loading (bin/scraper.py:44-45): browser and network I/O; `Chatbot.LoadPage` records the load only.
- Failures of loading, splitting, indexing, search or generation: the repository's code catches no exception; what the loader library does with a page that fails to load (bin/scraper.py:44-45) is not modelled, and the model has no failing stage.
- Streamlit rendering (`st.title`, `st.write` of the URL list at bin/scraper.py:111-114, `st.spinner`, `st.success`, `st.info`, `st.warning`, `st.chat_message`): UI output with no effect on state; of the chat turn only the answer and the sources blocks are modelled.
- Typer wiring, `typer.progressbar` and the `streamlit` command that starts a subprocess (app.py:11-13, 67-85): plumbing. The progress bar iterates the URLs in order, which is what the loops model.
- Logging throughout: no behavioural content.
- Retrieval.SourceOf: metadata values are modelled as strings; the code formats any value with an f-string.
- Text.Strip: the whitespace set is CPython's whole `str.isspace` set, written out as a fixed list of code points; it is not derived from the Unicode database.
- No persistence between two commands: each command builds a fresh chatbot (app.py:23, 41), so no store is shared between invocations.

## Findings

| source | as written | input that shows it | evidently intended | confidence | as-written member | corrected member |
|---|---|---|---|---|---|---|
| bin/scraper.py:97 | every run of the page builds a new chatbot with an empty in-memory store; the sites are indexed into the chatbot of the "Finalize Sites" run, which the next run drops | add `https://example.com`, press "Finalize Sites", then ask any question: the search runs on an empty store, the model gets the empty context and no sources are shown | the chatbot and its store kept across runs (for instance in the session state), so that questions are answered from the indexed sites, as the "All sites processed and indexed!" message promises | high that Streamlit re-runs the script per interaction and so rebuilds the chatbot; not executed | Session.AsWrittenChatIgnoresIndexedSites | Session.CachedChatSeesIndexedSites |
