/**
 * How NewsGenie answers one request (`process_user_request`) and the
 * in-memory interaction log it keeps, with the Clear, Submit and Get
 * Category News buttons that drive it.
 *
 * The foreign runtimes a request may reach (a chat model, a LangGraph
 * agent) are oracle values in `Env`: each says what that runtime returned
 * or which exception it raised. The timestamp is an input.
 */
module App {
  import opened Wrappers
  import opened Text
  import opened News
  import opened Tools

  /** What a call produced: a reply text, or an exception with its type name and message. */
  datatype Reply = Replied(text: string) | Raised(typeName: string, message: string)

  /**
   * The assistant the application built at start-up. `MockOnly`: no chat
   * model, so `ai_assistant` is the mock assistant and `ai_with_tools` the
   * tool wrapper around it. `ChatModel`: a foreign chat model, with what its
   * tool-bound call (`ai_with_tools.invoke`) and its plain call
   * (`ai_assistant(...)`) would produce.
   */
  datatype ChatBackend =
    | MockOnly
    | ChatModel(toolsReply: Reply, directReply: Reply)

  /**
   * The LangGraph agent path: `NoAgent` when no agent (or no checkpointer)
   * is available; `Streamed(last)` when its stream ran, with the content of
   * its last event if there was one; `AgentFailed` when it raised.
   */
  datatype Agent = NoAgent | Streamed(last: Option<string>) | AgentFailed

  datatype Env = Env(news: NewsService, backend: ChatBackend, agent: Agent)

  /** One interaction of the log. */
  datatype Entry = Entry(time: string, session: string, query: string, category: string, response: string)

  /** How many of the newest entries the history pane shows. */
  const HistoryShown: nat := 20

  const NoAgentResponse: string := "(Agent) No response from agent stream."
  const FallbackPrefix: string := "(Fallback) Processed query: "
  const ErrorPrefix: string := "Error processing request: "

  /** `category and category.lower() in categories`. */
  predicate IsNewsCategory(category: string) {
    category != "" && Lower(category) in Categories
  }

  function UserMessage(query: string): seq<Message> {
    [Message("user", query)]
  }

  /** `ai_with_tools.invoke([user message])`. */
  function ToolsCall(query: string, env: Env): (r: Reply)
    ensures env.backend == MockOnly ==> r.Replied?
    ensures env.backend == MockOnly && NoMatch(Lower(query)) ==> r.text == MockPrefix + query
    ensures forall k: nat :: env.backend == MockOnly && IsFirstMatch(Lower(query), k) ==>
      r.text == HeadlineBlock(Categories[k], GetNews(Categories[k], env.news))
    ensures env.backend.ChatModel? ==> r == env.backend.toolsReply
  {
    match env.backend
    case MockOnly => Replied(ToolReply(UserMessage(query), env.news))
    case ChatModel(toolsReply, _) => toolsReply
  }

  /** `ai_assistant([user message])`. */
  function DirectCall(query: string, env: Env): (r: Reply)
    ensures env.backend == MockOnly ==> r == Replied(MockPrefix + query)
    ensures env.backend.ChatModel? ==> r == env.backend.directReply
  {
    match env.backend
    case MockOnly => Replied(MockInvoke(UserMessage(query)))
    case ChatModel(_, directReply) => directReply
  }

  /**
   * The outcome of the `try` block of `process_user_request`: the response,
   * or the exception that leaves it for the outer handler.
   */
  function Respond(query: string, category: string, env: Env): (r: Reply)
    ensures IsNewsCategory(category) ==>
      r.Replied? && HeadlineHeader(category) <= r.text
    ensures !IsNewsCategory(category) && env.agent.Streamed? ==>
      r == Replied(env.agent.last.GetOr(NoAgentResponse))
    ensures !IsNewsCategory(category) && env.agent == NoAgent ==> r.Replied?
    ensures !IsNewsCategory(category) && env.agent == NoAgent && env.backend.ChatModel? &&
            env.backend.toolsReply.Raised? && env.backend.directReply.Raised? ==>
      r == Replied(FallbackPrefix + query)
    ensures r.Raised? ==> env.agent == AgentFailed && r == ToolsCall(query, env)
    ensures !IsNewsCategory(category) && env.agent == AgentFailed ==> r == ToolsCall(query, env)
    ensures !IsNewsCategory(category) && !env.agent.Streamed? && ToolsCall(query, env).Replied? ==>
      r == ToolsCall(query, env)
    ensures !IsNewsCategory(category) && env.agent == NoAgent && ToolsCall(query, env).Raised? &&
            DirectCall(query, env).Replied? ==>
      r == DirectCall(query, env)
  {
    if IsNewsCategory(category) then
      Replied(HeadlineBlock(category, GetNews(Lower(category), env.news)))
    else
      match env.agent
      case Streamed(last) => Replied(last.GetOr(NoAgentResponse))
      case AgentFailed => ToolsCall(query, env)
      case NoAgent =>
        if ToolsCall(query, env).Replied? then ToolsCall(query, env)
        else if DirectCall(query, env).Replied? then DirectCall(query, env)
        else Replied(FallbackPrefix + query)
  }

  function ErrorText(typeName: string, message: string): string {
    ErrorPrefix + typeName + ": " + message
  }

  /** The string `process_user_request` returns for an outcome. */
  function ResponseText(outcome: Reply): string {
    match outcome
    case Replied(text) => text
    case Raised(typeName, message) => ErrorText(typeName, message)
  }

  /** The log entry of a request: query falls back to the category, the category to `''`. */
  function MakeEntry(time: string, session: string, query: string, category: string, response: string)
    : (e: Entry)
    ensures e.time == time && e.session == session && e.category == category && e.response == response
    ensures query != "" ==> e.query == query
    ensures query == "" ==> e.query == category
    ensures e.query == "" <==> query == "" && category == ""
  {
    Entry(time, session, if query != "" then query else category, category, response)
  }

  /** A category request is answered with headlines for the lower-cased category, titled alike. */
  lemma {:induction false} CategoryRequest(query: string, category: string, env: Env)
    requires IsNewsCategory(category)
    ensures Respond(query, category, env) ==
      Replied(HeadlineBlock(Lower(category), GetNews(Lower(category), env.news)))
  {
    TitleIgnoresCase(category, false);
  }

  /** Without a news service, a category request lists the sample headlines of that category. */
  lemma MockCategoryRequest(query: string, category: string, env: Env, i: nat)
    requires IsNewsCategory(category) && !Answers(env.news, Lower(category)) && i < MaxArticles
    ensures Contains(Respond(query, category, env).text,
                     "- " + MockTitle(Lower(category), i) + " (" + MockSourceName + ")")
  {
    CategoryRequest(query, category, env);
    var articles := GetNews(Lower(category), env.news);
    HeadlineBlockLayout(Lower(category), articles, i);
  }

  /** A category picked in lower case is named, capitalised, in the response. */
  lemma CategoryNamedInResponse(query: string, category: string, env: Env)
    requires IsNewsCategory(category) && AllLowerLetters(category)
    ensures Respond(query, category, env).Replied?
    ensures Contains(Respond(query, category, env).text, [UpperChar(category[0])] + category[1..])
  {
    TitleOfLowerWord(category);
    var articles := GetNews(Lower(category), env.news);
    HeadlineNamesCategory(category, articles);
    assert Respond(query, category, env) == Replied(HeadlineBlock(category, articles));
  }

  lemma TechnologyCapitalised()
    ensures [UpperChar("technology"[0])] + "technology"[1..] == "Technology"
  {
  }

  /** Picking "technology" with an empty query answers with a block naming "Technology". */
  lemma TechnologyRequest(env: Env)
    ensures Respond("", "technology", env).Replied?
    ensures Contains(Respond("", "technology", env).text, "Technology")
  {
    var c := "technology";
    assert AllLowerLetters(c);
    assert Lower(c) == c;
    assert IsNewsCategory(c);
    CategoryNamedInResponse("", c, env);
    TechnologyCapitalised();
  }

  /**
   * Outside a category request, with only the mock assistant and no agent,
   * the first category named in the query decides the headlines.
   */
  lemma QueryNamingCategory(query: string, category: string, env: Env, k: nat)
    requires !IsNewsCategory(category) && env.agent == NoAgent && env.backend == MockOnly
    requires IsFirstMatch(Lower(query), k)
    ensures Respond(query, category, env) ==
      Replied(HeadlineBlock(Categories[k], GetNews(Categories[k], env.news)))
  {
  }

  /** Otherwise the mock assistant echoes the query. */
  lemma QueryNamingNoCategory(query: string, category: string, env: Env)
    requires !IsNewsCategory(category) && env.agent == NoAgent && env.backend == MockOnly
    requires NoMatch(Lower(query))
    ensures Respond(query, category, env) == Replied(MockPrefix + query)
  {
  }

  /**
   * An exception reaches the outer handler exactly when the agent failed
   * and the tool call it falls back to raised too; with the mock assistant
   * it never does.
   */
  lemma RaisesExactly(query: string, category: string, env: Env)
    ensures Respond(query, category, env).Raised? <==>
      !IsNewsCategory(category) && env.agent == AgentFailed && env.backend.ChatModel? &&
      env.backend.toolsReply.Raised?
    ensures env.backend == MockOnly ==> Respond(query, category, env).Replied?
  {
  }

  /** The history pane: the first `HistoryShown` entries of the log, newest first. */
  function Recent(log: seq<Entry>): (v: seq<Entry>)
    ensures |v| == if |log| < HistoryShown then |log| else HistoryShown
    ensures forall i :: 0 <= i < |v| ==> v[i] == log[i]
  {
    if |log| < HistoryShown then log else log[..HistoryShown]
  }

  /**
   * After a new entry is put in front, the pane shows it first, followed by
   * what it showed before, less the oldest entry when it was full.
   */
  lemma RecentAfterInsert(e: Entry, log: seq<Entry>)
    ensures Recent([e] + log)[0] == e
    ensures Recent([e] + log)[1..] ==
      if |Recent(log)| < HistoryShown then Recent(log) else Recent(log)[..HistoryShown - 1]
  {
  }

  /** Every entry names a query (or the category standing in for one). */
  predicate AllQueried(log: seq<Entry>) {
    forall i :: 0 <= i < |log| ==> log[i].query != ""
  }

  /** The interaction log of one browser session (`st.session_state.history`), newest first. */
  class History {
    var entries: seq<Entry>

    constructor ()
      ensures entries == []
    {
      entries := [];
    }

    /** `history.insert(0, entry)`. */
    method Insert(e: Entry)
      modifies this
      ensures entries == [e] + old(entries)
    {
      entries := [e] + entries;
    }

    /** The Clear History button. */
    method Clear()
      modifies this
      ensures entries == []
    {
      entries := [];
    }

    function Shown(): (v: seq<Entry>)
      reads this
      ensures v == Recent(entries)
      ensures v == [] <==> entries == []
    {
      Recent(entries)
    }
  }

  /** `ai_with_tools.invoke` as the running program performs it. */
  method InvokeTools(query: string, env: Env) returns (reply: Reply)
    ensures reply == ToolsCall(query, env)
  {
    match env.backend {
      case MockOnly =>
        var text := ToolWrapperInvoke(UserMessage(query), env.news);
        reply := Replied(text);
      case ChatModel(toolsReply, _) =>
        reply := toolsReply;
    }
  }

  /**
   * `process_user_request`: answer the request, and log it unless an
   * exception left the `try` block, in which case the error text is returned and the log
   * is left as it was.
   */
  method ProcessUserRequest(history: History, userQuery: string, sessionId: string, category: string,
                            timestamp: string, env: Env) returns (response: string)
    modifies history
    ensures response == ResponseText(Respond(userQuery, category, env))
    ensures Respond(userQuery, category, env).Replied? ==>
      history.entries == [MakeEntry(timestamp, sessionId, userQuery, category, response)] + old(history.entries)
    ensures Respond(userQuery, category, env).Raised? ==> history.entries == old(history.entries)
  {
    var outcome: Reply;
    if category != "" && Lower(category) in Categories {
      var articles := GetNews(Lower(category), env.news);
      var formatted := Join(LineSeparator, Lines(articles));
      outcome := Replied("Top " + Title(category) + " headlines:\n\n" + formatted);
    } else {
      match env.agent {
        case Streamed(last) =>
          outcome := Replied(if last.Some? then last.value else NoAgentResponse);
        case AgentFailed =>
          outcome := InvokeTools(userQuery, env);
        case NoAgent =>
          outcome := InvokeTools(userQuery, env);
          if outcome.Raised? {
            outcome := DirectCall(userQuery, env);
            if outcome.Raised? {
              outcome := Replied(FallbackPrefix + userQuery);
            }
          }
      }
    }
    if outcome.Raised? {
      response := ErrorText(outcome.typeName, outcome.message);
      return;
    }
    response := outcome.text;
    var entry := Entry(timestamp, sessionId, if userQuery != "" then userQuery else category, category, response);
    history.Insert(entry);
  }

  /** A request the Streamlit form sends: its query and its category (`''` for none). */
  datatype Request = Request(userQuery: string, category: string)

  /**
   * The Submit button: nothing is sent when the stripped input and the
   * category are both empty; otherwise the stripped input is the query,
   * falling back to the category.
   */
  function SubmitRequest(queryInput: string, category: string): (r: Option<Request>)
    ensures r.None? <==> Strip(queryInput) == "" && category == ""
    ensures r.Some? ==> r.value.category == category && r.value.userQuery != ""
    ensures r.Some? && Strip(queryInput) != "" ==> r.value.userQuery == Strip(queryInput)
    ensures r.Some? && Strip(queryInput) == "" ==> r.value.userQuery == category
  {
    var stripped := Strip(queryInput);
    if stripped != "" || category != "" then
      Some(Request(if stripped != "" then stripped else category, category))
    else None
  }

  /** Input made only of white space, with no category picked, sends nothing. */
  lemma BlankSubmitIgnored(queryInput: string)
    requires forall i :: 0 <= i < |queryInput| ==> IsSpace(queryInput[i])
    ensures SubmitRequest(queryInput, "") == None
  {
  }

  /** The Get Category News button: the category with an empty query, or nothing. */
  function CategoryNewsRequest(category: string): (r: Option<Request>)
    ensures r.None? <==> category == ""
    ensures r.Some? ==> r.value == Request("", category)
  {
    if category != "" then Some(Request("", category)) else None
  }

  /** A button press: process the request it makes, if any, and return the response shown. */
  method Press(history: History, request: Option<Request>, sessionId: string, timestamp: string, env: Env)
    returns (shown: Option<string>)
    modifies history
    ensures request.None? ==> shown == None && history.entries == old(history.entries)
    ensures request.Some? ==> shown == Some(ResponseText(Respond(request.value.userQuery, request.value.category, env)))
    ensures request.Some? && Respond(request.value.userQuery, request.value.category, env).Replied? ==>
      history.entries ==
        [MakeEntry(timestamp, sessionId, request.value.userQuery, request.value.category, shown.value)] + old(history.entries)
    ensures request.Some? && Respond(request.value.userQuery, request.value.category, env).Raised? ==>
      history.entries == old(history.entries)
    ensures (request.Some? && (request.value.userQuery != "" || request.value.category != "") &&
             AllQueried(old(history.entries))) ==> AllQueried(history.entries)
  {
    if request.None? {
      shown := None;
      return;
    }
    var response := ProcessUserRequest(history, request.value.userQuery, sessionId, request.value.category,
                                       timestamp, env);
    shown := Some(response);
  }
}
