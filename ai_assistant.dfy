/** The `AIAssistant` component's chat rules: the keyword dispatch that picks a canned
    reply, the send guard and the conversation history, and the severity chip colour. */
module AIAssistant {
  import opened Wrappers
  import opened Text
  import opened Chip

  /** The kind of canned reply. */
  datatype ResponseType = Optimization | Security | Testing | General

  /** A reply: its kind and, for the general reply only, the suggested follow-ups. The
      titles, texts and code samples are constant strings and are not modelled. */
  datatype AIResponse = AIResponse(kind: ResponseType, suggestions: seq<string>)

  const GeneralSuggestions: seq<string> := [
    "Optimize this component for performance",
    "Review this code for security issues",
    "Generate tests for this function",
    "Create documentation for this API"]

  /** The query mentions `word`, ignoring the query's case. */
  predicate Asks(userQuery: string, word: string) {
    Contains(Lower(userQuery), word)
  }

  predicate AsksOptimization(userQuery: string) {
    Asks(userQuery, "optimize") || Asks(userQuery, "performance")
  }

  predicate AsksSecurity(userQuery: string) {
    Asks(userQuery, "security") || Asks(userQuery, "vulnerability")
  }

  predicate AsksTesting(userQuery: string) {
    Asks(userQuery, "test") || Asks(userQuery, "testing")
  }

  /** `generateAIResponse`: optimisation words win over security words, which win over
      testing words; with none of them the general reply offers four suggestions. */
  function GenerateAIResponse(userQuery: string): (r: AIResponse)
    ensures r.kind == Optimization <==> AsksOptimization(userQuery)
    ensures r.kind == Security <==> !AsksOptimization(userQuery) && AsksSecurity(userQuery)
    ensures r.kind == Testing <==> !AsksOptimization(userQuery) && !AsksSecurity(userQuery) && AsksTesting(userQuery)
    ensures r.kind == General ==> |r.suggestions| == 4
    ensures r.kind != General ==> r.suggestions == []
  {
    if AsksOptimization(userQuery) then AIResponse(Optimization, [])
    else if AsksSecurity(userQuery) then AIResponse(Security, [])
    else if AsksTesting(userQuery) then AIResponse(Testing, [])
    else AIResponse(General, GeneralSuggestions)
  }

  /** The `includes('testing')` test adds nothing: every query mentioning "testing"
      mentions "test". */
  lemma TestingImpliesTest(userQuery: string)
    ensures AsksTesting(userQuery) <==> Asks(userQuery, "test")
  {
    if Asks(userQuery, "testing") {
      ContainsIff("testing", "test");
      assert Occurs("testing", "test", 0);
      ContainsTrans(Lower(userQuery), "testing", "test");
    }
  }

  /** A chat entry; timestamps are not modelled. */
  datatype Message = UserMessage(content: string) | AiMessage(reply: AIResponse)

  /** `!query.trim()`. */
  predicate Blank(q: string) {
    Trim(q) == []
  }

  /** The chat state of the component. */
  class Chat {
    var query: string
    var history: seq<Message>
    var isLoading: bool
    /** The query captured by the send whose reply is still to come. */
    ghost var pending: Option<string>

    /** A reply is awaited exactly while loading. */
    ghost predicate Valid()
      reads this
    {
      isLoading <==> pending.Some?
    }

    constructor()
      ensures Valid()
      ensures query == "" && history == [] && !isLoading && pending == None
    {
      query := "";
      history := [];
      isLoading := false;
      pending := None;
    }

    /** The synchronous half of `handleSendQuery`: a blank query does nothing; any
        other is appended to the history as the user's message, and its reply is
        awaited. */
    method SendQuery() returns (sent: bool)
      requires Valid()
      modifies this
      ensures Valid()
      ensures sent <==> !Blank(old(query))
      ensures sent <==> !AllSpace(old(query))
      ensures !sent ==> history == old(history) && isLoading == old(isLoading) && pending == old(pending)
      ensures sent ==> history == old(history) + [UserMessage(old(query))] && isLoading && pending == Some(old(query))
      ensures query == old(query)
    {
      TrimBlank(query);
      if Trim(query) == [] {
        return false;
      }
      isLoading := true;
      history := history + [UserMessage(query)];
      pending := Some(query);
      sent := true;
    }

    /** The delayed half of `handleSendQuery`: the reply to the query captured when it
        was sent is appended, loading ends and the input is cleared. */
    method ReceiveReply(sentQuery: string)
      requires Valid() && pending == Some(sentQuery)
      modifies this
      ensures Valid()
      ensures history == old(history) + [AiMessage(GenerateAIResponse(sentQuery))]
      ensures !isLoading && query == "" && pending == None
    {
      var aiResponse := GenerateAIResponse(sentQuery);
      history := history + [AiMessage(aiResponse)];
      isLoading := false;
      query := "";
      pending := None;
    }
  }

  /** `getSeverityColor`. */
  function SeverityColor(severity: string): (r: ChipColor)
    ensures r == Error <==> severity == "high"
    ensures r == Warning <==> severity == "medium"
    ensures r == Info <==> severity == "low"
    ensures r == Default <==> severity != "high" && severity != "medium" && severity != "low"
  {
    if severity == "high" then Error
    else if severity == "medium" then Warning
    else if severity == "low" then Info
    else Default
  }
}
