# NewsGenie request handling, modelled in Dafny

NewsGenie is a small Streamlit assistant (`app.py`). A request carries a
free-text query, an optional news category and a session id. If the category,
lower-cased, is one of seven fixed names, the request is answered at once with
a block of headlines for it. Otherwise it goes to an assistant. A LangGraph
agent answers when one is available; if it fails, the tool-bound call
`ai_with_tools.invoke` answers, unguarded. With no agent, the tool-bound call
is tried first. If it raises, the plain call `ai_assistant(...)` is tried, and
if that raises too, the answer is `(Fallback) Processed query: <query>`.
With no chat model, `ai_with_tools` is `ToolWrapper`. It scans the seven categories in order and answers with headlines for the first one whose
name occurs in the lower-cased message. When none occurs, `MockAssistant`
echoes the message. The news and search helpers use their foreign client when
it is configured and answers, and otherwise build a fixed list of sample
entries. Each answered request is put at the front of the log of the
browser session that sent it (`st.session_state.history`), newest first. The
session id is only a field of each entry. The page shows the first 20
entries of that log. A Clear button
empties it. An exception that leaves the request's `try` block is turned into an error
string, and nothing is logged for it.

The model has five modules:

- `Wrappers` (`wrappers.dfy`): `Option`.
- `Text` (`text.dfy`): the Python string builtins the code relies on:
  `lower`, `title` (as CPython computes it), `strip` (with Python's
  white-space set), `sub in s`, `sep.join`, `str(n)`.
- `News` (`news.dfy`): `get_news`, `search_web`, their mock lists, and the
  `- title (source)` headline block.
- `Tools` (`tools.dfy`): `MockAssistant.invoke` and `ToolWrapper.invoke`. The
  latter is an imperative scan with an early return, proved against the
  first-match function `FirstCategoryFrom`.
- `App` (`app.dfy`): `process_user_request` as a method over the `History`
  class (a `seq<Entry>` field), proved against the pure outcome function
  `Respond`. Also the Clear, Submit and Get Category News buttons.

Foreign calls are oracle values. `Env` holds three of them:

- `news`, a `Service` keyed by category: configured or not, plus, for each category, the articles returned or a failure;
- a `ChatBackend` for the chat model: the reply or exception of each call;
- an `Agent` for the LangGraph run.

The search client is a separate `Service`, keyed by query and count. It is a
parameter of `News.SearchWeb` only, not part of `Env`, because no modelled
request path calls `search_web`.

The request timestamp is a parameter.

Routing in `app.py` is only the category check and `ToolWrapper`'s substring
scan; there is no keyword router and no separate question-answering handler.
The interaction log is one in-memory list in Streamlit's per-browser-session
state. It is not keyed by session id: the id is only a field of each entry.
The one session-keyed store is the LangGraph agent's checkpointer
(`MemorySaver` on `news_session.db`, streamed with the session id,
app.py:176-178), which is left out with the rest of the LangGraph runtime.

`process_user_request` itself never raises: its outer `except Exception`
(app.py:209-210) turns anything raised in the `try` block into an error
string. An exception reaches that handler when the agent fails and the tool
call it falls back to (line 189) also raises, since that call is not guarded.
In that case the error string is returned and the log is not written.

## Model

| member | source | states |
|---|---|---|
| `Text.Lower` | app.py:168 | `lower()` keeps the length and maps each character to its lower-case form, leaving everything else alone |
| `Text.TitleAt` | app.py:171 | `title()` upper-cases a character that starts a word (first, or after an uncased character) and lower-cases every other |
| `Text.TitleIgnoresCase` | app.py:168-171 | title-casing the category gives the same text whether or not it was lower-cased first, so the header of a category request matches the titles `get_news` builds for the lower-cased name |
| `Text.TitleOfLowerWord` | app.py:134 | a lower-case category name is title-cased by capitalising its first letter only (`sports` becomes `Sports`) |
| `Text.Strip` | app.py:235-236 | `strip()` is a slice `s[a..b]` of the input with only white space before `a` and after `b`; it is empty exactly when the input is all white space, and otherwise neither starts nor ends with white space |
| `Text.Contains` | app.py:131 | `sub in s` fails for a `sub` longer than `s`, holds for every prefix of `s`, and holds for a `sub` that `s` is a prefix of only when the two are equal |
| `Text.StripIdempotent` | app.py:236 | stripping an already stripped query changes nothing |
| `Text.JoinLayout` | app.py:170 | in `sep.join(parts)` every part occurs at its offset, in order, followed by the separator unless it is last; the last part ends the text |
| `Text.OffsetStep` | app.py:170 | consecutive parts of a join start one part plus one separator apart |
| `Text.DecimalRoundTrip` | app.py:81 | the decimal text of `i+1` reads back as `i+1` |
| `Text.DecimalCanonical` | app.py:81 | the decimal text of a number starts with `0` exactly when the number is 0, so `str(i+1)` has no leading zero |
| `Text.DecimalInjective` | app.py:92 | different numbers have different decimal texts |
| `News.MockArticles` | app.py:80-81 | the fallback is exactly `max_articles` (5) articles; the i-th is titled `Sample <Title(category)> Headline <i+1>`, has source name `NewsGenie` and an empty url |
| `News.MockTitlesDistinct` | app.py:81 | no two sample headlines of one category share a title |
| `News.GetNews` | app.py:71-81 | the client's articles are returned when news is configured and the call succeeds; otherwise the five sample articles |
| `News.TitleText` | app.py:170 | a title renders verbatim; a missing title renders as `None` |
| `News.SourceName` | app.py:170 | a missing source gives the empty name; a non-empty name is the one the source carries |
| `News.ArticleLine` | app.py:170 | a line is `- `, then the title text at offset 2, then ` (` and the source name, and ends with `)`; its length is the two texts' lengths plus 5 |
| `News.Lines` | app.py:170 | one `- title (source name)` line per article, in article order, as the list comprehension builds them |
| `News.HeadlineBlockLayout` | app.py:170-171 | a headline block starts with `Top <Title> headlines:` and a blank line, then lists every article's line in order, separated by blank lines, and ends with the last line |
| `News.HeadlineNamesCategory` | app.py:171 | a headline block names its category, title-cased, right after `Top ` |
| `News.MockArticleLine` | app.py:170 | a sample article renders as `- Sample <Category> Headline <n> (NewsGenie)` |
| `News.MockSearchResults` | app.py:92 | the search fallback has exactly `max_results` results (none for a negative count); the i-th is titled `Mock result for <query> - <i+1>`, with an empty link |
| `News.MockSearchTitlesDistinct` | app.py:92 | no two mock search results for one query share a title |
| `News.SearchWeb` | app.py:84-92 | the client's results for that query and count are returned when search is configured and succeeds; otherwise the mock results |
| `News.SearchWebDefault` | app.py:84 | called without a count, the search fallback has five results |
| `Tools.MockInvoke` | app.py:96-98 | the mock answer is `(Mock) Answer to: ` followed by the last message's content verbatim; with no messages it is the prefix alone |
| `Tools.FirstCategoryFrom` | app.py:129-131 | the scan yields the first category, in list order, that occurs in the lowered text, or nothing when none occurs |
| `Tools.FirstCategoryExact` | app.py:129-134 | the scan's result is category k exactly when k occurs and no earlier category does, and is empty exactly when no category occurs |
| `Tools.ToolReply` | app.py:127-135 | the wrapper's answer is the headline block of the first category named in the lower-cased last message, or the mock assistant's answer when none is named |
| `Tools.ToolWrapperInvoke` | app.py:127-135 | the loop answers with the headline block of the first category named in the lower-cased last message, and with the mock assistant's answer when none is named |
| `App.ToolsCall` | app.py:189-194 | with no chat model the tool call always answers, with headlines for the first category named in the query or the mock echo otherwise; with a chat model it gives that model's tool-bound reply or exception |
| `App.DirectCall` | app.py:198 | with no chat model the plain call echoes the query; with one it gives that model's reply or exception |
| `App.Respond` | app.py:165-201 | a category request is answered with a block that starts with its headline header; a streamed agent answers with its last content or the no-response text; after a failed agent the tool-bound call's reply or exception is the outcome; without an agent the tool-bound call's reply answers when it replies, else the plain call's reply, else the fallback text, so the request is always answered; an exception reaches the outer handler only from the tool call after a failed agent |
| `App.MakeEntry` | app.py:204 | the entry keeps time, session, category and response; its query is the query, or the category when the query is empty, and is empty only when both are |
| `App.CategoryRequest` | app.py:167-171 | a request whose category lower-cases to one of the seven is answered with the headlines fetched for the lower-cased name, titled with that name |
| `App.MockCategoryRequest` | app.py:168-171 | without a news service, that answer contains each of the five sample headline lines of the category |
| `App.CategoryNamedInResponse` | app.py:171 | a lower-case category request is answered, and the answer names the category capitalised |
| `App.TechnologyCapitalised` | app.py:171 | `technology` capitalised is `Technology` |
| `App.TechnologyRequest` | app.py:168-171 | an empty query with category `technology` is answered, and the answer contains `Technology` |
| `App.QueryNamingCategory` | app.py:191-195 | outside a category request, with the mock assistant and no agent, the first category named in the query decides which headlines are returned |
| `App.QueryNamingNoCategory` | app.py:191-195 | in that setting, a query that names no category is echoed by the mock assistant |
| `App.RaisesExactly` | app.py:165-210 | an exception reaches the outer handler exactly when the request is not a category request, the agent failed, and the tool-bound chat call then raised; with the mock assistant it never does |
| `App.Recent` | app.py:252 | the history pane shows the first `min(20, n)` log entries, unchanged and in log order |
| `App.RecentAfterInsert` | app.py:207 | after an insert the pane shows the new entry first, then what it showed before, less its oldest entry when it was full |
| `App.History.constructor` | app.py:218-219 | the log starts empty |
| `App.History.Insert` | app.py:207 | the entry is placed at index 0 and all earlier entries keep their order |
| `App.History.Clear` | app.py:225-226 | Clear History leaves the log empty |
| `App.History.Shown` | app.py:251-252 | the pane is the recent view of the log, and is empty exactly when the log is |
| `App.InvokeTools` | app.py:194-195 | `ai_with_tools.invoke` runs `ToolWrapper` when there is no chat model, and otherwise gives the chat model's reply or exception |
| `App.ProcessUserRequest` | app.py:163-210 | on an answer it returns the answer and puts exactly one entry at the front of the log; the entry's query is the query, else the category, and its category is the category or `''`; on an exception raised in the `try` block it returns `Error processing request: <type>: <message>` and leaves the log unchanged |
| `App.SubmitRequest` | app.py:235-237 | Submit sends a request exactly when the stripped input or the category is non-empty; the query is the stripped input, falling back to the category, and is never empty |
| `App.BlankSubmitIgnored` | app.py:235 | white-space-only input with no category sends nothing |
| `App.CategoryNewsRequest` | app.py:243-244 | Get Category News sends `('', category)` exactly when a category is picked |
| `App.Press` | app.py:234-247 | a button press with no request changes nothing; otherwise it shows the response and updates the log as `process_user_request` does; through the buttons every logged entry names a query |

## Left out

- Streamlit presentation: page setup, sidebar notices, widgets, `st.markdown` of the response, expander labels, and the `(category request)` / `-` placeholders (app.py:32-37, app.py:215-259). Only the button guards, Clear, and the 20-entry view are modelled.
- Configuration: `load_dotenv`, `os.getenv` and the optional imports are folded into `Service.configured` and the `ChatBackend` / `Agent` choices (app.py:22-67, app.py:103-137).
- Foreign clients: `NewsApiClient`, `TavilySearchAPIWrapper`, `ChatOpenAI` and `bind_tools` are oracle outcomes. Turning their result into text (`result.get('content') if dict else str(result)`) is folded into the reply text.
- The LangGraph graph, `MemorySaver` (`news_session.db`) and the stream loop (app.py:140-159, app.py:174-190): only their outcome is modelled (last content, no event, or failure).
- `datetime.utcnow()`: the formatted timestamp is a parameter. `print` diagnostics are left out.
- Letter case: `lower` and `title` are modelled for ASCII letters. Non-ASCII case mappings (e.g. the Kelvin sign lower-casing to `k`) are not modelled.
- `News.SourceName`: a source whose `name` key holds an explicit null renders `None` in Python. The model gives it the same empty name as a missing key.
- Malformed client data (an article that is not a dictionary): the model treats client data as well-formed, so the only exception it lets reach the outer handler is the agent-failure path. In `app.py` the effect depends on where the bad article is formatted:
  - on the category path (app.py:170) and in the tool call after a failed agent (app.py:189, formatting at app.py:133), the raise reaches the outer handler, the error string is returned and nothing is logged;
  - on the no-agent path the raise happens inside `ToolWrapper.invoke` (app.py:133) and is caught at app.py:196. The mock assistant's echo (app.py:198) then answers, and that answer is logged.
- `search_web` is only handed to the agent as a tool (app.py:113). No modelled request path calls it.
- `ToolWrapper` is modelled as a module-level method. Its fields never change, and the assistant it wraps is always the mock assistant, because a model that has `bind_tools` is bound instead (app.py:116-137).
- Concurrency and Streamlit's script reruns: one request at a time. A `History` object stands for the log of one browser session; the sessions themselves and the `if 'history' not in st.session_state` initialisation are not modelled.
- Both test files exercise only the standard library and environment fixtures, not app logic.
