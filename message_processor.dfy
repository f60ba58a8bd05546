/** The message pipeline behind "send a message to an agent": a chain of guards
    (recursion depth, agent, ownership, API key), the prompt, one completion
    request with retries, and the reply the caller sees. Nothing is persisted. */
module MessageProcessing {
  import opened Wrappers
  import opened OpenRouter
  import Agents
  import ApiKeys

  const MaxRecursionDepth: nat := 5
  const RecursionLimitMessage := "Maximum " + "recursion depth" + " of 5 exceeded"
  const FailedToProcessPrefix := "Failed to process message: "

  /** A turn of earlier conversation as the caller passes it; fields other than
      role and content are carried in `extra` and never reach the provider. */
  datatype HistoryEntry = HistoryEntry(role: string, content: string, extra: map<string, string>)

  /** The request: the new message and an optional history. (The controller
      also passes a session id, which the pipeline ignores.) */
  datatype MessageRequest = MessageRequest(message: string, conversationHistory: Option<seq<HistoryEntry>>)

  datatype MessageResponse = MessageResponse(response: string, model: string, tokensUsed: Option<int>)

  function History(request: MessageRequest): seq<HistoryEntry> {
    request.conversationHistory.GetOr([])
  }

  /** The turns sent to the provider: the history in order, role and content
      only, then exactly one user turn holding the new message. */
  function Prompt(request: MessageRequest): (p: seq<ChatMessage>)
    ensures |p| == |History(request)| + 1
    ensures forall k | 0 <= k < |History(request)| ::
      p[k] == ChatMessage(History(request)[k].role, History(request)[k].content)
    ensures p[|History(request)|] == ChatMessage("user", request.message)
  {
    var h := History(request);
    seq(|h|, k requires 0 <= k < |h| => ChatMessage(h[k].role, h[k].content)) + [ChatMessage("user", request.message)]
  }

  /** The prompt assembled step by step, as the pipeline pushes it. */
  method BuildPrompt(request: MessageRequest) returns (messages: seq<ChatMessage>)
    ensures messages == Prompt(request)
  {
    messages := [];
    if request.conversationHistory.Some? && |request.conversationHistory.value| > 0 {
      var history := request.conversationHistory.value;
      var i := 0;
      while i < |history|
        invariant 0 <= i <= |history|
        invariant |messages| == i
        invariant forall k | 0 <= k < i :: messages[k] == ChatMessage(history[k].role, history[k].content)
      {
        messages := messages + [ChatMessage(history[i].role, history[i].content)];
        i := i + 1;
      }
    }
    messages := messages + [ChatMessage("user", request.message)];
  }

  /** The reply: the first choice's content (empty when there is no choice, no
      message or no content), the model the provider reports, and the total
      token count when usage is reported. */
  function Extract(c: Completion): (r: MessageResponse)
    ensures r.model == c.model
    ensures r.tokensUsed == if c.usage.Some? then Some(c.usage.value.totalTokens) else None
    ensures r.response != "" <==>
      |c.choices| > 0 && c.choices[0].message.Some? && c.choices[0].message.value.content.Some?
      && c.choices[0].message.value.content.value != ""
    ensures r.response != "" ==> r.response == c.choices[0].message.value.content.value
  {
    var text :=
      if |c.choices| > 0 && c.choices[0].message.Some? && c.choices[0].message.value.content.Some?
      then c.choices[0].message.value.content.value else "";
    MessageResponse(text, c.model, if c.usage.Some? then Some(c.usage.value.totalTokens) else None)
  }

  /** The pipeline over the agent table and the API-key service. */
  class MessageProcessor {
    const agents: Agents.AgentRepository
    const apiKeys: ApiKeys.ApiKeyService

    ghost predicate Valid()
      reads this, agents, apiKeys, apiKeys.repository
    {
      agents.Valid() && apiKeys.Valid()
    }

    constructor (agents: Agents.AgentRepository, apiKeys: ApiKeys.ApiKeyService)
      requires agents.Valid() && apiKeys.Valid()
      ensures Valid() && this.agents == agents && this.apiKeys == apiKeys
    {
      this.agents := agents;
      this.apiKeys := apiKeys;
    }

    /** The guards in their order; the first that fails decides the error. On
        success: the user's own agent and their decrypted, non-empty key. */
    function Admission(agentId: Id, userId: Id, depth: int): (r: Result<(Agents.Agent, string)>)
      reads agents, apiKeys, apiKeys.repository
      ensures depth >= MaxRecursionDepth ==> r == Err(RecursionLimitMessage)
      ensures depth < MaxRecursionDepth && agents.FindById(agentId).None? ==>
        r == Err(Agents.AgentNotFoundMessage)
      ensures (depth < MaxRecursionDepth && agents.FindById(agentId).Some?
               && agents.FindById(agentId).value.userId != userId) ==>
        r == Err(Agents.AgentAccessDeniedMessage)
      ensures (depth < MaxRecursionDepth && agents.FindById(agentId).Some?
               && agents.FindById(agentId).value.userId == userId) ==>
        match apiKeys.GetDecrypted(userId)
        case Err(m) => r == Err(m)
        case Ok(None) => r == Err(Agents.ApiKeyNotConfiguredMessage)
        case Ok(Some(key)) => r == if key == "" then Err(Agents.ApiKeyNotConfiguredMessage)
                                   else Ok((agents.FindById(agentId).value, key))
      ensures r.Ok? ==>
        && depth < MaxRecursionDepth
        && r.value.0 in agents.rows && r.value.0.id == agentId && r.value.0.userId == userId
        && r.value.1 != "" && apiKeys.GetDecrypted(userId) == Ok(Some(r.value.1))
    {
      if depth >= MaxRecursionDepth then Err(RecursionLimitMessage)
      else match agents.FindById(agentId)
        case None => Err(Agents.AgentNotFoundMessage)
        case Some(agent) =>
          if agent.userId != userId then Err(Agents.AgentAccessDeniedMessage)
          else match apiKeys.GetDecrypted(userId)
            case Err(m) => Err(m)
            case Ok(key) =>
              if key.None? || key.value == "" then Err(Agents.ApiKeyNotConfiguredMessage)
              else Ok((agent, key.value))
    }

    /** `process`: the guards, then the completion request with the agent's
        model and the user's key. A provider failure comes back prefixed with
        "Failed to process message: "; a guard failure comes back as it is.
        `sent` is the request handed to the provider, if one was. */
    method Process(agentId: Id, userId: Id, request: MessageRequest, depth: int,
                   call: nat -> Outcome<Completion>)
      returns (r: Result<MessageResponse>, sent: Option<ChatRequest>)
      requires Valid()
      ensures sent.Some? <==> Admission(agentId, userId, depth).Ok?
      ensures Admission(agentId, userId, depth).Err? ==>
        r == Err(Admission(agentId, userId, depth).message)
      ensures Admission(agentId, userId, depth).Ok? ==>
        var (agent, key) := Admission(agentId, userId, depth).value;
        && sent == Some(ChatRequest("Bearer " + key, agent.model, Prompt(request)))
        && r == match RetryFrom(call, 0).outcome
                case Success(c) => Ok(Extract(c))
                case Failed(f) => Err(FailedToProcessPrefix + FailureMessage(f))
    {
      var admitted := Admission(agentId, userId, depth);
      if admitted.Err? {
        return Err(admitted.message), None;
      }
      var (agent, key) := admitted.value;
      var messages := BuildPrompt(request);
      var reply, request', _, _ := SendMessage(key, agent.model, messages, call);
      sent := Some(request');
      match reply
      case Ok(c) => r := Ok(Extract(c));
      case Err(m) => r := Err(FailedToProcessPrefix + m);
    }
  }

  /** A guard failure never carries the wrapping prefix: every guard message
      differs from "Failed to process message: " in its first character. */
  lemma GuardErrorsAreNotWrapped(p: MessageProcessor, agentId: Id, userId: Id, depth: int)
    requires p.Valid()
    requires p.Admission(agentId, userId, depth).Err?
    requires p.apiKeys.GetDecrypted(userId).Err? ==>
      p.apiKeys.GetDecrypted(userId).message == ApiKeys.InvalidFormatMessage
    ensures !Text.StartsWith(p.Admission(agentId, userId, depth).message, FailedToProcessPrefix)
  {
    var m := p.Admission(agentId, userId, depth).message;
    assert m[0] != 'F';
    assert FailedToProcessPrefix[0] == 'F';
  }
}
