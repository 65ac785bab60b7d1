# Retrieval-augmented answering pipeline of the NvidiaNemoChatbot Flask app

This project models the request pipeline of `app.py` and proves properties of it in Dafny.
`send_message` checks the incoming message. `invoke_llm` then asks the language model, primed with a
fixed few-shot transcript, whether the query needs live data. Only when the model answers `FALSE`
(in any mix of cases) does `websearch` run. It drives a headless Chrome session to Google's first
organic result, quits the session in a `finally`, fetches the page and collapses its whitespace. It
turns any fetch or parse exception into an error sentence that stands in for the content.
`infer_llm` finally builds one of two answer prompts, depending on whether that context is empty.

The outside world is the `Pipeline.Env` datatype of abstract functions:
- the text-generation model, `(conversation, max_new_tokens) -> text`;
- whether Google's search box appears within the first wait;
- the first organic result a query gives within the second wait;
- what `requests.get` plus BeautifulSoup give for a URL.

The ghost `log` of a `Pipeline.World` object records each model call, the opening and quitting of a
browser session, the typing of the query, and each page fetch. The two browser waits and
`driver.get('https://www.google.com')` are not recorded.
Each Chrome session is a `Pipeline.Driver` object with a ghost `open` flag.
The imperative methods (`World.WebSearch`, `World.InvokeLlm`, `Endpoint.SendMessage`, …) are proved
to return the value, and append the calls, that ghost specification functions (`WebSearchRun`,
`InvokeRun`, `SendMessageRun`) give. The lemmas prove what the source promises about those functions.

Modules:
- `Wrappers`: Option and Result.
- `Whitespace`: `str.split()` and `' '.join`, with the full `str.isspace()` character set.
- `Prompts`: the classifier and answer conversations, and the `upper() == 'FALSE'` test.
- `Scraping`: page content or the error sentence.
- `Pipeline`: `websearch`, `query_analysis`, `infer_llm` and `invoke_llm`.
- `Endpoint`: `send_message`.

Three facts about `app.py` shape the model:
- the classifier may generate at most 5 new tokens (app.py:94), the answer at most 120 (app.py:110);
- a browser wait timeout is not caught in `websearch` (app.py:37-52) nor in `invoke_llm` (app.py:114-124), so it ends the request;
- the classifier transcript has 18 turns: the instruction, eight question/answer pairs and the query (app.py:73-92).

## Model

| member | source | states |
|---|---|---|
| `Whitespace.IsSpace` | app.py:64 | the characters `str.isspace()` accepts, which `split()` cuts at: TAB, LF, VT, FF, CR, 0x1C-0x1F, SPACE, 0x85, 0xA0, the Unicode space separators U+1680, U+2000-U+200A, U+202F, U+205F and U+3000, the line separator U+2028 and the paragraph separator U+2029; TAB, LF, CR and SPACE are whitespace, ASCII letters and digits are not |
| `Whitespace.WordEnd` | app.py:64 | the first word of a text ends at the first whitespace character, or at the end of the text |
| `Whitespace.Split` | app.py:64 | `str.split()` yields only non-empty words free of whitespace; with `SplitAtSpace` and `SplitWord` it is fixed completely: "" splits to no words, a word to itself, and a text cuts at every whitespace character |
| `Whitespace.SplitAtSpace` | app.py:64 | `split()` cuts at every whitespace character: `(a + c + b).split() == a.split() + b.split()` for any whitespace `c`, so a run of whitespace separates two words exactly as one character does |
| `Whitespace.SplitWord` | app.py:64 | a non-empty whitespace-free text splits into exactly itself |
| `Whitespace.Normalize` | app.py:64 | `' '.join(s.split())` has no whitespace at either end, no whitespace except single spaces, keeps exactly the visible characters of `s`, in order, and keeps its words: `r.split() == s.split()`, so each whitespace run between two words becomes one space |
| `Whitespace.Join` | app.py:64 | `' '.join(words)`: the words in order with one space between neighbours; its partners `SplitJoin` and `JoinNormalized` state what it promises |
| `Whitespace.SplitVisible` | app.py:64 | the words `split()` yields, laid end to end, are exactly the non-whitespace characters of the text, in order |
| `Whitespace.JoinVisible` | app.py:64 | `' '.join` of words adds no visible character and loses none |
| `Whitespace.JoinNormalized` | app.py:64 | `' '.join` of whitespace-free words has no leading or trailing whitespace and no two adjacent spaces |
| `Whitespace.SplitJoin` | app.py:64 | round trip: `' '.join(words).split() == words` for whitespace-free words |
| `Whitespace.JoinSplitNormalized` | app.py:64 | round trip: a text already in normal form is rebuilt exactly by `' '.join(t.split())` |
| `Whitespace.NormalizedIsFixpoint` | app.py:64 | a text is in normal form if and only if the clean-up leaves it unchanged |
| `Whitespace.NormalizeIdempotent` | app.py:64 | applying the clean-up twice gives the same text as applying it once |
| `Whitespace.NormalizeEmpty` | app.py:64 | the clean-up yields "" exactly when the text has no visible character |
| `Prompts.ClassifierConversation` | app.py:73-92 | the classifier conversation has 18 turns: the system instruction, eight user/assistant pairs whose first four answers are `FALSE` and last four `TRUE`, and the query as the final user turn |
| `Prompts.Instruction` | app.py:99-108 | the system instruction of `infer_llm`: the open-domain text exactly when the context is "", otherwise the knowledge-base text with the context between backticks, one character longer than prefix and context |
| `Prompts.SynthesisConversation` | app.py:99-108 | the answer conversation has two turns, system then user, the user turn is the query, and the open-domain instruction is chosen exactly when the context is "" |
| `Prompts.SynthesisContextVerbatim` | app.py:100 | the context sits verbatim between the backticks of the knowledge-base instruction and can be read back exactly |
| `Prompts.UpperChar` | app.py:119 | upper-casing one character leaves no lower-case ASCII letter, gives an upper-case letter exactly for an ASCII letter, and leaves every other character unchanged |
| `Prompts.Upper` | app.py:119 | `s.upper()` restricted to ASCII letters: the result has the length of `s`, changes only lower-case ASCII letters, and leaves no lower-case ASCII letter |
| `Prompts.RequestsRetrieval` | app.py:119 | `query_report.upper() == 'FALSE'`: a reply that asks for a search has exactly five characters and no surrounding space, since the reply is not stripped |
| `Prompts.RetrievalIsCaseInsensitiveFalse` | app.py:119 | a search is made if and only if the classifier's reply is five characters each equal to the upper- or lower-case letter of `FALSE` |
| `Prompts.NearMissesDoNotSearch` | app.py:119 | `false` and `False` trigger a search; "", `TRUE`, `unsure`, `FALSE.` and ` FALSE` silently do not |
| `Scraping.FailureDetail` | app.py:62-67 | the `try` around fetch and parse raises exactly when the fetch raised or the page has no `<body>`; a raised exception keeps its `str(e)`, a missing body gives the `AttributeError` text of `soup.body.get_text` on None |
| `Scraping.ScrapedContent` | app.py:54-69 | a fetched page's content is its body text in normal form with the same visible characters and the same words, each whitespace run between two words collapsed to one space; on any fetch or parse exception, or a page without a body, the content is non-empty, begins with `An error occurred while scraping the page: ` and continues with the exception's text |
| `Scraping.ScrapedContentEmpty` | app.py:62-69 | the content is "" exactly when the page was fetched and parsed and its body has no visible text; a failure never yields "" |
| `Scraping.ErrorSentenceLooksLikeContent` | app.py:64-67 | a page whose text is the error sentence for a normalised detail yields the same content as a real failure with that detail |
| `Pipeline.Verdict` | app.py:94-96 | the classifier's reply: the model's text for the 18-turn classifier conversation of the query with budget 5 |
| `Pipeline.BrowseRun` | app.py:35-52 | the browser half of `websearch`: open a session, time out on the search box or type the query, time out on the first result or take its `href`, then quit the session on every path |
| `Pipeline.WebSearchRun` | app.py:35-69 | `websearch`: the browser half, then, only when it gave a URL, one fetch and the scraped content; a timeout escapes with no fetch |
| `Pipeline.InferRun` | app.py:98-112 | `infer_llm`: one model call on the answer conversation for that query and context with budget 120, returning the model's text |
| `Pipeline.InvokeRun` | app.py:114-124 | `invoke_llm`: the classifier call; `websearch` only when the reply upper-cases to `FALSE`; then `infer_llm` with the scraped content or ""; an escaped timeout ends the request before the answer call |
| `Pipeline.WebSearchTrace` | app.py:35-69 | `websearch` opens a session, types the query only once the search box appeared, quits the session, and fetches the first result's URL only when both waits succeeded |
| `Pipeline.WebSearchReleasesSession` | app.py:35-55 | `websearch` begins by opening a browser session and quits it on every path before any page is fetched, leaving none open |
| `Pipeline.WebSearchOneSession` | app.py:35-52 | `websearch` opens exactly one browser session and quits it exactly once |
| `Pipeline.WebSearchFetchesOnSuccess` | app.py:37-55 | the page is fetched, once, if and only if neither wait timed out; a timeout escapes before the fetch |
| `Pipeline.InvokeReleasesSession` | app.py:114-124 | over the whole request, no browser session is open when a page is fetched, when the model runs, or at the end, also when a wait times out |
| `Pipeline.SearchExactlyOnFalse` | app.py:116-124 | one browser session is opened when the reply upper-cases to `FALSE` and none otherwise; without a search nothing is typed or fetched and the answer comes from the prompt for context "" |
| `Pipeline.TimeoutEndsRequest` | app.py:114-124 | the request fails exactly when a search was asked for and a wait timed out; then nothing is fetched and the classifier's is the only model call |
| `Pipeline.ScrapedContentReachesSynthesis` | app.py:117-124 | after a search that found a page, the answer is generated from exactly the content `websearch` returned, as the last call; an error sentence there always selects the knowledge-base instruction |
| `Pipeline.BlankPageAnswersOpenDomain` | app.py:64-69 | a page with no visible text scrapes to "" and the answer falls back to the open-domain prompt although a search was made |
| `Pipeline.ErrorIndistinguishableFromContent` | app.py:66-67 | the answer prompt built from a page whose text reads like the error sentence equals the one built from a real failure |
| `Pipeline.World.Generate` | app.py:94-96 | a model call returns what the model gives for that conversation and budget and records exactly that call |
| `Pipeline.World.Fetch` | app.py:55-63 | a fetch returns what the web gives for that URL and records exactly that call |
| `Pipeline.World.QueryAnalysis` | app.py:71-96 | `query_analysis` makes one model call, on the classifier conversation with budget 5, and returns its reply |
| `Pipeline.World.InferLlm` | app.py:98-112 | `infer_llm` makes one model call, on the answer conversation for that context with budget 120, and returns its reply |
| `Pipeline.World.WebSearch` | app.py:26-69 | `websearch` returns the scraped content or the wait timeout, and makes exactly the calls `WebSearchRun` lists |
| `Pipeline.World.InvokeLlm` | app.py:114-124 | `invoke_llm` returns the answer or the escaped timeout, and makes exactly the calls `InvokeRun` lists |
| `Pipeline.Driver.constructor` | app.py:35 | launching Chrome opens a session and records it |
| `Pipeline.Driver.AwaitSearchBox` | app.py:38-41 | the first wait succeeds exactly when the search box appears |
| `Pipeline.Driver.SubmitQuery` | app.py:42-43 | typing the query into the open session records it and leaves the session open |
| `Pipeline.Driver.AwaitFirstResult` | app.py:45-48 | the second wait gives the first organic result for the typed query, or times out |
| `Pipeline.Driver.Quit` | app.py:51-52 | `driver.quit()` closes the session and records it |
| `Endpoint.IsMissing` | app.py:131 | `not user_message`: a message field that is absent or a string counts as missing exactly when it is absent or "" |
| `Endpoint.SendMessageRun` | app.py:130-141 | `send_message`: 400 with "No message provided" and no pipeline call for a missing message; otherwise `invoke_llm`, then status 200 with the user's message and the answer, or status 500 when a timeout escaped |
| `Endpoint.SendMessage` | app.py:127-141 | `send_message` gives the reply `SendMessageRun` describes and makes exactly the pipeline's calls |
| `Endpoint.MissingMessageRejected` | app.py:130-132 | a missing or empty message gets status 400 and the pipeline is never called; any other message reaches it |
| `Endpoint.ReplyEchoesMessage` | app.py:134-141 | a successful reply has status 200 and lists the user's message first, then the system's answer; an escaped timeout gives status 500 |

## Left out

- Model loading (app.py:17-24): the text-generation pipeline is the abstract function `Env.generate`. An exception raised by the model is not modelled.
- Chrome options and the driver service (app.py:27-33) are configuration with no logic.
- A failure to launch Chrome (app.py:35, outside the `try`) is not modelled. Such a failure would open no session and propagate.
- Inside the `try`, only the two wait timeouts are modelled. Other Selenium errors, such as a failing `driver.get`, would also reach the `finally` and propagate.
- HTTP and HTML parsing (app.py:55-63) are abstract. `Env.fetch` gives either the exception's text (`str(e)`) or the `<body>` text that `get_text(separator=' ', strip=True)` extracts, None when there is no body. A missing body is given the detail of the `AttributeError` Python raises then. The user-agent header is not modelled.
- A first result without an `href` (app.py:48) hands `None` to `requests.get` (app.py:55), which always raises, so the content is then always the error sentence. The model leaves `Env.fetch(None)` open and also allows a page there; no proved property depends on that case.
- `torch.cuda.empty_cache()` (app.py:122) frees accelerator memory and has no observable logic.
- The Flask routing, `jsonify` and `app.run` (app.py:1, 15, 127-128, 143-144) are left out. A request body that is not JSON, or a `message` that is not a string, is not modelled: the message is an optional string.
- Debug `print` calls are left out.
- `Prompts.RetrievalIsCaseInsensitiveFalse`: `upper()` is modelled for ASCII letters only. Python also maps some other letters to ASCII: `'ſ'.upper()` is `'S'`, so a reply `falſe` would trigger a search in the source but not in this model.
- Concurrent requests sharing the one model instance are not modelled; each request runs alone.
