/**
 * The assistants NewsGenie falls back to when no chat model is configured:
 * `MockAssistant`, which echoes the last message, and `ToolWrapper`, which
 * answers with headlines when the message names a news category and
 * otherwise defers to the mock assistant it wraps.
 */
module Tools {
  import opened Wrappers
  import opened Text
  import opened News

  /** A chat message `{'role': ..., 'content': ...}`. */
  datatype Message = Message(role: string, content: string)

  const MockPrefix: string := "(Mock) Answer to: "

  /** `messages[-1]['content'] if messages else ''`. */
  function LastContent(messages: seq<Message>): string {
    if messages == [] then "" else messages[|messages| - 1].content
  }

  /** `MockAssistant.invoke`: the fixed prefix followed by the last message, verbatim. */
  function MockInvoke(messages: seq<Message>): (r: string)
    ensures |r| == |MockPrefix| + |LastContent(messages)|
    ensures r[..|MockPrefix|] == MockPrefix
    ensures r[|MockPrefix|..] == LastContent(messages)
    ensures messages == [] ==> r == MockPrefix
  {
    MockPrefix + LastContent(messages)
  }

  /** The category at index `k` is named in `low` and no earlier one is. */
  predicate IsFirstMatch(low: string, k: nat) {
    k < |Categories| && Contains(low, Categories[k]) &&
    forall j :: 0 <= j < k ==> !Contains(low, Categories[j])
  }

  predicate NoMatch(low: string) {
    forall j :: 0 <= j < |Categories| ==> !Contains(low, Categories[j])
  }

  /** The first category from index `i` on that occurs in `low`, scanning in order. */
  function FirstCategoryFrom(low: string, i: nat): (r: Option<nat>)
    requires i <= |Categories|
    ensures r.Some? ==> i <= r.value < |Categories| && Contains(low, Categories[r.value]) &&
                        forall j :: i <= j < r.value ==> !Contains(low, Categories[j])
    ensures r.None? ==> forall j :: i <= j < |Categories| ==> !Contains(low, Categories[j])
    decreases |Categories| - i
  {
    if i == |Categories| then None
    else if Contains(low, Categories[i]) then Some(i)
    else FirstCategoryFrom(low, i + 1)
  }

  function FirstCategory(low: string): Option<nat> {
    FirstCategoryFrom(low, 0)
  }

  /** `FirstCategory` finds exactly the first match, and nothing when no category occurs. */
  lemma FirstCategoryExact(low: string, k: nat)
    ensures FirstCategory(low) == Some(k) <==> IsFirstMatch(low, k)
    ensures FirstCategory(low) == None <==> NoMatch(low)
  {
  }

  /** What `ToolWrapper.invoke` answers. */
  function ToolReply(messages: seq<Message>, news: NewsService): (r: string)
    ensures forall k: nat :: IsFirstMatch(Lower(LastContent(messages)), k) ==>
      r == HeadlineBlock(Categories[k], GetNews(Categories[k], news))
    ensures NoMatch(Lower(LastContent(messages))) ==> r == MockInvoke(messages)
  {
    var low := Lower(LastContent(messages));
    assert forall k: nat :: IsFirstMatch(low, k) ==> FirstCategory(low) == Some(k) by {
      forall k: nat | IsFirstMatch(low, k) ensures FirstCategory(low) == Some(k) {
        FirstCategoryExact(low, k);
      }
    }
    FirstCategoryExact(low, 0);
    match FirstCategory(low)
    case Some(k) => HeadlineBlock(Categories[k], GetNews(Categories[k], news))
    case None => MockInvoke(messages)
  }

  /**
   * `ToolWrapper.invoke` around the mock assistant: scan the categories in
   * order and answer with the headlines of the first one that occurs in the
   * lower-cased last message; when none occurs, answer as the mock assistant.
   */
  method ToolWrapperInvoke(messages: seq<Message>, news: NewsService) returns (r: string)
    ensures forall k :: 0 <= k < |Categories| && IsFirstMatch(Lower(LastContent(messages)), k) ==>
      r == HeadlineBlock(Categories[k], GetNews(Categories[k], news))
    ensures NoMatch(Lower(LastContent(messages))) ==> r == MockInvoke(messages)
    ensures r == ToolReply(messages, news)
  {
    var content := if messages != [] then messages[|messages| - 1].content else "";
    var low := Lower(content);
    var i := 0;
    while i < |Categories|
      invariant 0 <= i <= |Categories|
      invariant forall j :: 0 <= j < i ==> !Contains(low, Categories[j])
    {
      var c := Categories[i];
      if Contains(low, c) {
        var articles := GetNews(c, news);
        var text := Join(LineSeparator, Lines(articles));
        r := "Top " + Title(c) + " headlines:\n\n" + text;
        assert IsFirstMatch(low, i);
        FirstCategoryExact(low, i);
        forall k | 0 <= k < |Categories| && IsFirstMatch(low, k) ensures k == i {
          FirstCategoryExact(low, k);
        }
        return;
      }
      i := i + 1;
    }
    assert NoMatch(low);
    FirstCategoryExact(low, 0);
    r := MockInvoke(messages);
  }
}
