# Deep Research Agent — a verified model

This project models the core of the Deep Research Agent: a React page where a
user submits a research topic, a FastAPI route that validates the topic, and a
Python pipeline. The pipeline searches the web, then reads and summarises
each hit into bullet points. It caches the summaries per URL and writes a
numbered source text for the final report.

The model has one module per part of the system:

- `Text`: the string primitives the system relies on.
  - Two whitespace sets: JavaScript's `trim` and `\s`, and Python's `str.strip`. They differ on U+FEFF, U+001C..U+001F and U+0085.
  - Python's `split('\n')` and `'\n'.join`, proved inverse to each other.
  - Decimal printing of the source numbers.
  - Substring containment.
- `ResearchTypes`: the records passed between the parts.
  - A search hit.
  - A source with its summary.
  - The research result with exactly the four response fields `query`, `search_results`, `sources` and `report`.
  - The outcome of a language-model call.
- `SerpMock`: the mock search client the agent imports. It is a fixed list of five hits built from the query and sliced with Python's slice semantics, negative bounds included.
- `SummaryCache`: `Context7Cache` as a class whose `entries` map is updated in place by `Set` and replaced by `Clear`.
- `Agent`:
  - the bullet extraction of `_summarize_source`;
  - the source-text builder of `_generate_report`, as nested loops proved equal to a recursive definition;
  - the research loop, as a `DeepResearchAgent.Research` method over the cache object, a `PageReader` object and a `Summariser` object. The reader and the summariser log the URLs they are asked about. The method is proved to match a value-level specification `Pipeline`: the same sources, the same final cache, and the same logs of reader and summariser calls, in order. The pipeline's properties are lemmas about `Pipeline`.
- `Server`: the `/research` route's validation and exception-to-status mapping, and `/cache/clear`.
- `Presenter`: the bullet cleaner of the page, and the projection of a result onto what the page shows.
- `Client`: `App`'s four state cells as a class.
  - `handleSubmit` is split at its `await`: `Submit` runs up to the request and `Resolve` runs after the request settles.
  - Both are proved against pure step functions.
  - A session model adds the number of requests in flight. It shows that the disabled input and button are what keep the page consistent.
- `Interplay`: lemmas that cross the layers, from a typed query to what the page shows.

These are parameters (oracles), not code:
- the search client (`Research` receives it; `SerpMock.Search` is the one the repository wires in);
- the page reader's answers (the `pages` of a `PageReader`);
- the two language-model calls (the `model` of a `Summariser`, and the report writer);
- the agent call as the route sees it.

Bullet cleaning on the page is not idempotent. The page's regex removes
exactly one leading dash, so `"--x"` cleans to `"-x"` and then to `"x"`.
`Presenter.CleanTwiceIff` gives the exact condition.

## Model

| member | source | states |
|---|---|---|
| Text.IsSpace | backend/agent.py:47 | the two whitespace sets: Python's `str.isspace` (removed by `strip`) and JavaScript's `trim` and `\s`; they share the ASCII blanks and Unicode space separators, only JavaScript has U+FEFF, only Python has U+001C..U+001F and U+0085 |
| Text.Trim | backend/agent.py:47 | `str.strip` (and JavaScript `trim`): the result is the input with exactly its leading whitespace cut off in front and only whitespace cut off behind; neither end of the result is whitespace, and it is empty exactly when the input is all whitespace |
| Text.TrimIdempotent | backend/main.py:55-59 | stripping an already stripped string changes nothing, for either whitespace set; so a query stripped before it reaches the route, or trimmed by the client, gets the same response and request as the raw one |
| Text.TrimStart | frontend/src/App.jsx:162 | `\s*` at the front: the removed prefix is all whitespace and the rest does not start with whitespace |
| Text.SplitLines | backend/agent.py:47 | `split('\n')` yields at least one piece and no piece contains a newline |
| Text.JoinSplitLines | backend/agent.py:47 | joining the split pieces with newlines gives back the text |
| Text.Join | backend/agent.py:47 | `'\n'.join`, the inverse of `split('\n')`, used to state the round trips of the split |
| Text.SplitLinesJoin | backend/agent.py:47 | splitting a join of newline-free pieces gives back the pieces |
| Text.SliceTo | backend/serp_mock.py:51 | Python's `[:n]`: a prefix, of length `min(n, len)` for `n >= 0`, and `len + n` (at least 0) for negative `n`; also `str(e)[:50]` of the failure bullet |
| Text.NatToString | backend/agent.py:59-60 | the printed source number is a nonempty digit string without a leading zero |
| Text.ParsePrinted | backend/agent.py:59-60 | reading the printed number back gives the number |
| SerpMock.MockResults | backend/serp_mock.py:23-49 | the fixed list has five hits |
| SerpMock.Search | backend/serp_mock.py:9-51 | the result is a prefix of the fixed list, with the first `min(5, max_results)` entries (`max_results` defaults to 5), and negative bounds drop from the end |
| SerpMock.UrlsIgnoreQuery | backend/serp_mock.py:23-49 | the number, order and URLs of the hits do not depend on the query |
| SerpMock.CannedHitsQuoteQuery | backend/serp_mock.py:24-48 | every canned title and snippet contains the query |
| SerpMock.HitsQuoteQuery | backend/serp_mock.py:24-51 | every returned title and snippet contains the query, whatever the bound |
| SerpMock.AgentBoundYieldsAll | backend/serp_mock.py:51 | with the agent's bound of 5 all five hits come back, so the no-results branch is unreachable in mock mode |
| SummaryCache.Context7Cache.constructor | backend/context7.py:12-24 | a missing or unreadable file gives an empty cache; a readable one gives its contents |
| SummaryCache.Context7Cache.Get | backend/context7.py:34-36 | `get` returns the stored entry, and `None` exactly when the URL is absent |
| SummaryCache.Context7Cache.Exists | backend/context7.py:47-49 | `exists` holds exactly when the URL is a key |
| SummaryCache.Context7Cache.Set | backend/context7.py:38-45 | the whole entry for the URL is replaced by the given title (default `""`) and summary; then it exists and `get` returns it; every other URL is unchanged |
| SummaryCache.Context7Cache.Clear | backend/context7.py:51-54 | afterwards no URL exists and every `get` is `None` |
| SummaryCache.ExistsIffGet | backend/context7.py:34-49 | `exists(u)` holds exactly when `get(u)` finds an entry |
| Agent.StripAll | backend/agent.py:47 | every line stripped, in order |
| Agent.DashLines | backend/agent.py:47 | the filter keeps no more lines than it is given, and every kept line starts with `-` |
| Agent.DashLinesAppend | backend/agent.py:47 | the filter distributes over concatenation, so line order is kept |
| Agent.DashLinesMembers | backend/agent.py:47 | a line is kept exactly when it is present and starts with `-` |
| Agent.KeptLines | backend/agent.py:47 | the comprehension keeps no more lines than it is given, and every kept line starts with `-` |
| Agent.KeptLinesAppend | backend/agent.py:47 | the comprehension distributes over concatenation, so line order is kept |
| Agent.KeptLinesMembers | backend/agent.py:47 | a string is kept exactly when it is the stripped form of a line whose stripped form starts with `-` |
| Agent.KeptLinesAreBullets | backend/agent.py:47 | each kept line starts with `-`, has no newline and does not end in whitespace |
| Agent.ExtractBullets | backend/agent.py:46-49 | the bullets are the first `min(7, kept)` kept lines in order, and each is a clean one-line bullet |
| Agent.ErrorBullet | backend/agent.py:51-53 | the failure bullet is the fixed prefix followed by a prefix of the error: the whole error when it has at most 50 characters, exactly 50 characters otherwise |
| Agent.SummarizeSource | backend/agent.py:28-53 | at most 7 bullets; a failed call gives exactly the failure bullet; a reply gives exactly the bullets extracted from its text, each clean |
| Agent.BulletLines | backend/agent.py:62-63 | each bullet followed by a newline, in order |
| Agent.Header | backend/agent.py:60 | the header line `**Source n: title**` after a blank line |
| Agent.UrlLine | backend/agent.py:61 | the `URL:` line |
| Agent.Block | backend/agent.py:60-63 | one source's block: header, URL line, bullet lines |
| Agent.SourcesTextFrom | backend/agent.py:59-63 | the blocks of a list of sources, numbered consecutively from a given number |
| Agent.SourcesText | backend/agent.py:58-63 | the blocks of all sources, numbered from 1 as `enumerate(sources, 1)` does |
| Agent.BulletLinesSnoc | backend/agent.py:62-63 | appending a bullet appends that bullet and a newline |
| Agent.BulletLinesJoin | backend/agent.py:62-63 | the bullet lines are the bullets joined by newlines with a final newline |
| Agent.SplitBulletLines | backend/agent.py:62-63 | splitting the bullet lines at newlines gives the bullets back, then an empty tail |
| Agent.SourcesTextAppend | backend/agent.py:58-63 | numbering continues across concatenated source lists |
| Agent.SourcesTextSnoc | backend/agent.py:59-63 | a further source adds its block, numbered one past the others |
| Agent.BlockInOrder | backend/agent.py:58-63 | source `k` appears as block `k + 1`, right after the blocks of the sources before it |
| Agent.BuildSourcesText | backend/agent.py:58-63 | the nested loops build exactly the numbered source text: header, URL line, one line per bullet |
| Agent.ReportText | backend/agent.py:84-88 | the report is the model's text, or the error prefix followed by the error |
| Agent.GenerateReport | backend/agent.py:55-88 | the report is the writer's answer on the query and the numbered source text |
| Agent.Visit | backend/agent.py:116-150 | one loop iteration: at most one source appended, copied from the hit; existing cache entries kept; the reader and the summariser asked about the hit's URL only when it is not cached |
| Agent.Pipeline | backend/agent.py:113-150 | the loop over all hits: no more sources, reads or summaries than hits |
| Agent.VisitCached | backend/agent.py:122-131 | a cached hit appends a source with the cached summary and changes nothing else: no read, no summary, no cache write |
| Agent.UnreadableVisitSkipped | backend/agent.py:134-137 | an uncached hit whose page is `None` or empty is only logged as read: no source, no cache entry, no summary |
| Agent.VisitSummarised | backend/agent.py:134-150 | an uncached hit with content is summarised, cached with its title and appended, and logged as read and summarised |
| Agent.DrawnExtend | backend/agent.py:115-137 | a hit that adds no source keeps the sources an in-order selection of the hits |
| Agent.DrawnSnoc | backend/agent.py:125-150 | a source copied from the latest hit extends the in-order selection |
| Agent.DrawnLength | backend/agent.py:113-150 | an in-order selection of hits has no more sources than hits |
| Agent.SourcesDrawnFromHits | backend/agent.py:113-150 | the sources are an in-order selection of the hits with title, URL and snippet copied, so there are no more sources than hits |
| Agent.CacheKeepsEntries | backend/agent.py:122-143 | entries present at the start are never replaced or removed |
| Agent.SourcesAreCached | backend/agent.py:140-150 | afterwards every source's URL is cached with the summary that source carries |
| Agent.NewEntriesAreSummaries | backend/agent.py:134-143 | every new entry belongs to a hit's URL and carries its title, the page was read and nonempty, and the entry holds the summariser's bullets for it |
| Agent.OraclesOnlyOnMisses | backend/agent.py:122-140 | the reader is only asked about URLs not cached at the start, and the summariser only about pages read; sources plus pages read equal hits plus pages summarised (these are the logs `Research` leaves on its reader and summariser) |
| Agent.AllCachedShortCircuits | backend/agent.py:122-131 | when every hit is cached nothing is read or summarised (so `Research` leaves the reader's and the summariser's logs unchanged), the cache is unchanged and each hit becomes a source with its cached summary |
| Agent.UnreadablePageSkipped | backend/agent.py:134-137 | an uncached URL whose page is `None` or empty yields no source and no cache entry |
| Agent.SummariesStayBounded | backend/agent.py:49 | with at most 7 bullets per starting entry, every source and every entry afterwards has at most 7 |
| Agent.PageReader.constructor | backend/agent.py:23 | a reader with the given answers and an empty log |
| Agent.PageReader.ReadUrl | backend/agent.py:134 | `read_url` returns the reader's answer for the URL and logs the URL |
| Agent.Summariser.constructor | backend/agent.py:25 | a summariser with the given model and an empty log |
| Agent.Summariser.Summarize | backend/agent.py:28-53 | `_summarize_source(content, title, url)` returns the bullets `SummarizeSource` derives from the model's answer on (content, title), and logs the URL |
| Agent.DeepResearchAgent.constructor | backend/agent.py:21-26 | the agent owns a freshly loaded cache and `max_sources = 5` |
| Agent.DeepResearchAgent.Research | backend/agent.py:90-165 | the query is echoed; empty search gives no sources, the fixed report, an unchanged cache and no reader or summariser call; otherwise the hits are returned unchanged, the sources, the new cache and the URLs passed to the reader and to the summariser (in order) are those of `Pipeline`, and the report is written from the source text |
| Server.AcceptedQuery | backend/main.py:55-56 | the query is rejected exactly when its stripped length is under 3 (an empty query included); otherwise the stripped query goes on |
| Server.ResearchRoute | backend/main.py:52-62 | a short query gives 400 with the fixed detail; otherwise the agent's result on the stripped query is returned with all four fields, or its exception gives 500 with `"Research failed: "` and the message |
| Server.RejectionIgnoresAgent | backend/main.py:55-56 | a rejected query gives the same 400 whatever the agent would do, so the agent is not consulted |
| Server.RouteSeesStrippedQuery | backend/main.py:55-59 | stripping the query beforehand changes no response |
| Server.ThreeCharacterBoundary | backend/main.py:55-56 | every query whose stripped length is 3 is accepted as its stripped form; every one whose stripped length is 2 is rejected |
| Server.ThreeCharactersAccepted | backend/main.py:55 | boundary examples: `"abc"` is accepted unchanged and `" ab "` is rejected |
| Server.ClearCache | backend/main.py:65-72 | the agent's cache is emptied and the success message returned |
| Presenter.CleanBullet | frontend/src/App.jsx:162 | one leading dash and the whitespace after it are removed; a bullet without a leading dash is unchanged |
| Presenter.CleanTwiceIff | frontend/src/App.jsx:162 | cleaning twice equals cleaning once exactly when the cleaned bullet does not start with `-` |
| Presenter.CleanTwiceDiffers | frontend/src/App.jsx:162 | `"--x"` cleans to `"-x"` and then to `"x"` |
| Presenter.CleanMarker | frontend/src/App.jsx:162 | a `"- "` marker before text not starting with whitespace is removed exactly |
| Presenter.CleanAll | frontend/src/App.jsx:159-164 | every key point is the cleaned bullet at the same position |
| Presenter.Cards | frontend/src/App.jsx:133-164 | one card per source in order, numbered consecutively, with its title, URL and cleaned points |
| Presenter.Present | frontend/src/App.jsx:116-188 | the page shows the query, "Found" as the number of search results, the sources in order numbered from 1 with cleaned points, and the report verbatim |
| Presenter.OneSourceOneCard | frontend/src/App.jsx:133-140 | one source gives exactly one card, numbered 1 |
| Presenter.MarkedAndPlainBullets | frontend/src/App.jsx:116-164 | the count shown is the hit count, not the source count, and only the marked bullet loses its marker |
| Client.IsBlank | frontend/src/App.jsx:12 | `!query.trim()`: the query is nothing but JavaScript whitespace |
| Client.IsOkStatus | frontend/src/App.jsx:27 | `response.ok`: the status is in 200..299 |
| Client.InputEnabled | frontend/src/App.jsx:67 | the input is enabled exactly when not loading |
| Client.SubmitEnabled | frontend/src/App.jsx:71 | the button is enabled exactly when not loading and the query is not blank |
| Client.RequestFor | frontend/src/App.jsx:19-25 | the request posts the trimmed query, which is nonempty and has no surrounding whitespace when the query is not blank |
| Client.Submitted | frontend/src/App.jsx:12-16 | a blank query changes nothing; otherwise loading starts and result and error are cleared |
| Client.Settle | frontend/src/App.jsx:18-34 | a failed fetch throws its message, a non-2xx status throws "Research failed" whatever the body, a 2xx body that does not parse throws exactly the parser's message; data comes only from a 2xx parsed body, and is that body |
| Client.Resolved | frontend/src/App.jsx:27-37 | loading ends; data sets the result and keeps the error; a throw sets the error and keeps the result |
| Client.App.constructor | frontend/src/App.jsx:4-7 | empty query, not loading, no result, no error |
| Client.App.SetQuery | frontend/src/App.jsx:64 | only the query changes |
| Client.App.Submit | frontend/src/App.jsx:9-25 | the state becomes `Submitted` of the old state, and the request is sent only for a non-blank query and carries the trimmed query |
| Client.App.Resolve | frontend/src/App.jsx:27-37 | the state becomes `Resolved` of the old state and the outcome |
| Client.RequestIgnoresSurroundingSpace | frontend/src/App.jsx:12-24 | trimming the query first changes neither the request nor the blank test |
| Client.FailedStatusHidesBody | frontend/src/App.jsx:27-34 | a non-2xx status shows exactly "Research failed" whatever the body, and after a submit the result is null |
| Client.SettlingSubmittedSetsOne | frontend/src/App.jsx:14-37 | after a submitted request settles, exactly one of result and error is set and loading is off |
| Client.SubmitWhileLoadingAccepted | frontend/src/App.jsx:12 | the handler does not test `loading`: a submit while loading clears the page and sends again |
| Client.Apply | frontend/src/App.jsx:9-71 | typing keeps the requests in flight, a non-blank press adds one, a settlement removes one |
| Client.GuardedStepConsistent | frontend/src/App.jsx:67-71 | an event the disabled input and button let through keeps the page consistent |
| Client.GuardedRunConsistent | frontend/src/App.jsx:67-71 | along every guarded run at most one request is in flight, exactly while loading, and result and error are never both set |
| Client.InitialConsistent | frontend/src/App.jsx:4-7 | the initial page is consistent |
| Client.UnguardedOverlapShowsBoth | frontend/src/App.jsx:9-38 | without the guards, two overlapping requests can leave both a result and an error shown, with loading off; the guards rule that run out |
| Interplay.Deliver | backend/main.py:52-62 | a route response reaches the page as status 200 with the result, or as its error status with a `detail` body |
| Interplay.RouteErrorsShowFixedMessage | frontend/src/App.jsx:27-34 | every 400 and 500 of the route is shown as "Research failed", never its detail, and the result is kept |
| Interplay.ReturnedResultShown | frontend/src/App.jsx:31-32 | the agent's result on the twice-trimmed query becomes the page's result, with no error |
| Interplay.ShortQueryFailsAfterClientAccepts | backend/main.py:55-56 | a query the button accepts but shorter than 3 after the server strips it ends as "Research failed", whatever the agent |
| Interplay.TwoLetterQueryIsSuch | frontend/src/App.jsx:71 | `"ab"` passes the client's guard and is too short for the route |
| Interplay.ErrorBulletShownWithoutMarker | frontend/src/App.jsx:162 | the agent's failure bullet is shown without its dash and space |

## Left out

- The real SerpAPI client (`backend/serp_client.py`) is not part of this model. `Research` takes the search client as a parameter; `SerpMock.Search` is the client the agent imports.
- The JinaAI reader (`backend/jina_client.py`) is not part of this model. A `PageReader` answers from a fixed function of the URL, and its 5000-character truncation is not modelled.
- Agent.UnreadablePageSkipped: the reader and the summariser answer the same for the same input within one run. A network reader can fail on one read of a URL and succeed on a later read of the same URL in the same hit list, which would then add a source and a cache entry. The model does not capture that. `Agent.UnreadableVisitSkipped` states the per-visit fact, which does not depend on it.
- Agent.DeepResearchAgent.Research: the reader and the summariser are parameters of `Research`, not fields the agent builds in its constructor.
- The Anthropic calls are oracles: the summariser on (content, title) and the writer on (query, source text), each returning text or a failure message. The prompt text around the source text is not modelled.
- File persistence of the cache (`_load_cache`, `_save_cache`), the `cached_at` timestamp and all `print` logging are left out. The loaded file is a constructor parameter.
- Agent.DeepResearchAgent.Research: entries of a loaded cache file are typed records. A malformed file entry without `summary`, which would raise inside `research`, is not modelled; the route's 500 path covers any such exception.
- Server.ClearCache: the 500 branch of `/cache/clear` is not modelled, because `clear` catches every save error and so never raises.
- FastAPI and CORS setup, `.env` loading, the startup key check, uvicorn and the `/` route are configuration and are left out. So is pydantic's validation of the request and response shapes; the query is always a string.
- The client posts to `/api/research` and the route is `/research`. The rewrite between them is done by a development proxy that is not part of this model.
- React's state scheduling, the JSX markup and styling, and JSON decoding are left out. A response body is either parsed JSON (the research result or a `{detail}` object) or a parse failure with its message. Other JSON values are not modelled.
- Agent.DeepResearchAgent.Research: each call is modelled as running alone. The `/research` handler is a plain `def`, so FastAPI may run two calls at once on the shared cache; the equalities with `Pipeline` and `CacheKeepsEntries` then hold for one call at a time only.
- Client.App.Submit: the handler captures the query of the render it belongs to. The model reads the current query, and the disabled input keeps them equal while a request is in flight.
