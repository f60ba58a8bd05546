/** The HTTP handlers for `/api/agents`: input validation, the calls into the
    agent service, the message pipeline and the model catalogue, and the
    mapping from thrown error messages to status codes. The mapping looks only
    at the text of the message, by substring, in a fixed order. */
module AgentControllers {
  import opened Wrappers
  import opened Text
  import opened Json
  import opened Tables
  import opened Agents
  import ApiKeys
  import OpenRouter
  import opened MessageProcessing

  /** What a handler puts in the body besides status, error and message. */
  datatype Payload =
    | NoData
    | AgentData(agent: Agent)
    | AgentList(agents: seq<Agent>)
    | ReplyData(reply: MessageResponse)
    | ModelData(models: seq<OpenRouter.ModelInfo>)

  /** A response: the status code (also repeated in the body), the error name
      of a failure, the message and the data of a success. */
  datatype Reply = Reply(status: int, error: Option<string>, message: string, data: Payload)

  function Answer(status: int, message: string, data: Payload): Reply {
    Reply(status, None, message, data)
  }

  function Problem(status: int, error: string, message: string): Reply {
    Reply(status, Some(error), message, NoData)
  }

  const NameAndModelRequiredMessage := "Name and model are required"
  const NameNotStringMessage := "Name must be a non-empty string"
  const ModelNotStringMessage := "Model must be a non-empty string"
  const NothingToUpdateMessage := "At least one field (name, model," + " or configuration) must be provided"
  const MessageRequiredMessage := "Message is required"
  const MessageNotStringMessage := "Message must be a non-empty string"
  const AgentRetrieveFailedMessage := "Failed to retrieve agent"
  const AgentDeleteFailedMessage := "Failed to delete agent"

  /** The substrings the catch blocks look for. */
  const AccessDeniedMarker := "Access denied"
  const NotFoundMarker := "not found"
  const NotConfiguredMarker := "API key not configured"
  const RecursionMarker := "recursion depth"

  /** `typeof v === 'string' && v.trim().length !== 0`. */
  predicate NonBlankString(v: Option<Json>) {
    v.Some? && v.value.Str? && |Trim(v.value.s)| != 0
  }

  /** The check passes exactly for a string holding some character other than
      whitespace. */
  lemma NonBlankStringIff(v: Option<Json>)
    ensures NonBlankString(v) <==> v.Some? && v.value.Str? && !IsBlank(v.value.s)
    ensures NonBlankString(v) ==> Truthy(v)
  {
    if v.Some? && v.value.Str? {
      TrimEmptyIffBlank(v.value.s);
    }
  }

  /** The checks of `create`, in order: both fields truthy, then each a
      non-blank string. */
  function ValidateCreate(name: Option<Json>, model: Option<Json>): (r: Result<(string, string)>)
    ensures r.Ok? <==>
      && name.Some? && name.value.Str? && !IsBlank(name.value.s)
      && model.Some? && model.value.Str? && !IsBlank(model.value.s)
    ensures r.Ok? ==> r.value == (name.value.s, model.value.s)
    ensures r == Err(NameAndModelRequiredMessage) <==> !Truthy(name) || !Truthy(model)
    ensures r == Err(NameNotStringMessage) <==>
      Truthy(name) && Truthy(model) && !(name.value.Str? && !IsBlank(name.value.s))
    ensures r.Err? ==>
      r.message in {NameAndModelRequiredMessage, NameNotStringMessage, ModelNotStringMessage}
  {
    NonBlankStringIff(name);
    NonBlankStringIff(model);
    if !Truthy(name) || !Truthy(model) then Err(NameAndModelRequiredMessage)
    else if !NonBlankString(name) then Err(NameNotStringMessage)
    else if !NonBlankString(model) then Err(ModelNotStringMessage)
    else Ok((name.value.s, model.value.s))
  }

  /** The checks of `sendMessage`: truthy, then a non-blank string. */
  function ValidateMessage(message: Option<Json>): (r: Result<string>)
    ensures r.Ok? <==> message.Some? && message.value.Str? && !IsBlank(message.value.s)
    ensures r.Ok? ==> r.value == message.value.s
    ensures r == Err(MessageRequiredMessage) <==> !Truthy(message)
    ensures r.Err? ==> r.message in {MessageRequiredMessage, MessageNotStringMessage}
  {
    NonBlankStringIff(message);
    if !Truthy(message) then Err(MessageRequiredMessage)
    else if !NonBlankString(message) then Err(MessageNotStringMessage)
    else Ok(message.value.s)
  }

  /** A string body field as the patch carries it; `undefined` stays absent. */
  function StringField(v: Option<Json>): (r: Option<string>)
    ensures r.Some? <==> v.Some? && v.value.Str?
    ensures r.Some? ==> r.value == v.value.s
  {
    if v.Some? && v.value.Str? then Some(v.value.s) else None
  }

  function PatchOf(name: Option<Json>, model: Option<Json>, configuration: Option<Json>): AgentPatch {
    AgentPatch(StringField(name), StringField(model), configuration)
  }

  /** The catch block shared by `update` and `delete`: "Access denied" first,
      then "not found", then the handler's own fallback. */
  function AgentFailure(m: string, fallback: Reply): (r: Reply)
    ensures Contains(m, AccessDeniedMarker) ==> r == Problem(403, "Forbidden", m)
    ensures !Contains(m, AccessDeniedMarker) && Contains(m, NotFoundMarker) ==>
      r == Problem(404, "NotFound", m)
    ensures !Contains(m, AccessDeniedMarker) && !Contains(m, NotFoundMarker) ==> r == fallback
  {
    if Contains(m, AccessDeniedMarker) then Problem(403, "Forbidden", m)
    else if Contains(m, NotFoundMarker) then Problem(404, "NotFound", m)
    else fallback
  }

  /** The catch block of `get`: "Access denied" or the handler's fallback. */
  function AccessFailure(m: string, fallback: Reply): (r: Reply)
    ensures Contains(m, AccessDeniedMarker) ==> r == Problem(403, "Forbidden", m)
    ensures !Contains(m, AccessDeniedMarker) ==> r == fallback
  {
    if Contains(m, AccessDeniedMarker) then Problem(403, "Forbidden", m) else fallback
  }

  /** The catch block of `sendMessage`: the first marker the message holds
      decides the status; a message with none of them is a server error. The
      message always reaches the caller unchanged. */
  function ProcessFailure(m: string): (r: Reply)
    ensures r.message == m && r.data == NoData && r.error.Some?
    ensures r.status == 403 <==> Contains(m, AccessDeniedMarker)
    ensures r.status == 404 <==> !Contains(m, AccessDeniedMarker) && Contains(m, NotFoundMarker)
    ensures r.error == Some("ConfigurationError") <==>
      !Contains(m, AccessDeniedMarker) && !Contains(m, NotFoundMarker) && Contains(m, NotConfiguredMarker)
    ensures r.error == Some("RecursionLimitError") <==>
      && !Contains(m, AccessDeniedMarker) && !Contains(m, NotFoundMarker)
      && !Contains(m, NotConfiguredMarker) && Contains(m, RecursionMarker)
    ensures r.status == 500 <==>
      && !Contains(m, AccessDeniedMarker) && !Contains(m, NotFoundMarker)
      && !Contains(m, NotConfiguredMarker) && !Contains(m, RecursionMarker)
    ensures r.status in {400, 403, 404, 500}
    ensures r.status == 403 ==> r == Problem(403, "Forbidden", m)
    ensures r.status == 404 ==> r == Problem(404, "NotFound", m)
    ensures r.status == 500 ==> r == Problem(500, "ServerError", m)
  {
    AgentFailure(m,
      if Contains(m, NotConfiguredMarker) then Problem(400, "ConfigurationError", m)
      else if Contains(m, RecursionMarker) then Problem(400, "RecursionLimitError", m)
      else Problem(500, "ServerError", m))
  }

  /** The two errors the agent service throws reach the caller as 403 and 404. */
  lemma AgentErrorsRouted(fallback: Reply)
    ensures AgentFailure(AgentAccessDeniedMessage, fallback) ==
      Problem(403, "Forbidden", AgentAccessDeniedMessage)
    ensures AgentFailure(AgentNotFoundMessage, fallback) ==
      Problem(404, "NotFound", AgentNotFoundMessage)
  {
    AccessDeniedMarked();
    NotFoundMarked();
  }

  lemma AccessDeniedMarked()
    ensures Contains(AgentAccessDeniedMessage, AccessDeniedMarker)
  {
    var m := AgentAccessDeniedMessage;
    assert m[..13] == AccessDeniedMarker;
    assert OccursAt(m, AccessDeniedMarker, 0);
  }

  lemma NotFoundMarked()
    ensures Contains(AgentNotFoundMessage, NotFoundMarker)
    ensures !Contains(AgentNotFoundMessage, AccessDeniedMarker)
  {
    var m := AgentNotFoundMessage;
    assert m[6..15] == NotFoundMarker;
    assert OccursAt(m, NotFoundMarker, 6);
    NotContainsMissingChar(m, AccessDeniedMarker, 'c');
  }

  /** Every guard of the message pipeline is reported with the status its
      marker intends: access 403, a missing agent 404, a missing API key and
      the recursion limit 400, an undecryptable stored key 500. */
  lemma GuardErrorsRouted()
    ensures ProcessFailure(AgentAccessDeniedMessage) == Problem(403, "Forbidden", AgentAccessDeniedMessage)
    ensures ProcessFailure(AgentNotFoundMessage) == Problem(404, "NotFound", AgentNotFoundMessage)
    ensures ProcessFailure(ApiKeyNotConfiguredMessage) ==
      Problem(400, "ConfigurationError", ApiKeyNotConfiguredMessage)
    ensures ProcessFailure(RecursionLimitMessage) ==
      Problem(400, "RecursionLimitError", RecursionLimitMessage)
    ensures ProcessFailure(ApiKeys.InvalidFormatMessage) ==
      Problem(500, "ServerError", ApiKeys.InvalidFormatMessage)
  {
    AgentErrorsRouted(Problem(500, "ServerError", AgentAccessDeniedMessage));
    AgentErrorsRouted(Problem(500, "ServerError", AgentNotFoundMessage));
    NotConfiguredRouted();
    RecursionRouted();
    UndecryptableRouted();
  }

  lemma UndecryptableRouted()
    ensures ProcessFailure(ApiKeys.InvalidFormatMessage) ==
      Problem(500, "ServerError", ApiKeys.InvalidFormatMessage)
  {
    var f := ApiKeys.InvalidFormatMessage;
    assert 'A' !in f && 'u' !in f;
    NotContainsMissingChar(f, AccessDeniedMarker, 'A');
    NotContainsMissingChar(f, NotConfiguredMarker, 'A');
    NotContainsMissingChar(f, NotFoundMarker, 'u');
    NotContainsMissingChar(f, RecursionMarker, 'u');
  }

  lemma NotConfiguredRouted()
    ensures !Contains(ApiKeyNotConfiguredMessage, AccessDeniedMarker)
    ensures !Contains(ApiKeyNotConfiguredMessage, NotFoundMarker)
    ensures Contains(ApiKeyNotConfiguredMessage, NotConfiguredMarker)
    ensures ProcessFailure(ApiKeyNotConfiguredMessage) ==
      Problem(400, "ConfigurationError", ApiKeyNotConfiguredMessage)
  {
    var x, y, z := "API key not configured.", " Please configure your", " OpenRouter API key first.";
    assert ApiKeyNotConfiguredMessage == x + y + z;
    NotConfiguredLacksNotFound(x, y, z);
    NotConfiguredLacksAccessDenied(x, y, z);
    assert (x + y + z)[..22] == NotConfiguredMarker;
    assert OccursAt(x + y + z, NotConfiguredMarker, 0);
  }

  lemma NotConfiguredLacksNotFound(x: string, y: string, z: string)
    requires x == "API key not configured." && y == " Please configure your"
    requires z == " OpenRouter API key first."
    ensures !Contains(x + y + z, NotFoundMarker)
  {
    NotConfiguredHeadLacksNotFound(x);
    NotContainsMissingChar(y, NotFoundMarker, 't');
    NotContainsMissingChar(z, NotFoundMarker, 'd');
    NotContainsConcat(x, y, NotFoundMarker);
    NotContainsConcat(x + y, z, NotFoundMarker);
  }

  /** "not found" could only start at the one "n" followed by "ot", and the
      "f" there sits at the wrong distance from it. */
  lemma NotConfiguredHeadLacksNotFound(x: string)
    requires x == "API key not configured."
    ensures !Contains(x, NotFoundMarker)
  {
    forall i | 0 <= i <= |x| - 9 ensures !OccursAt(x, NotFoundMarker, i) {
      assert x[i..i + 9][4] == x[i + 4];
      assert x[i..i + 9][0] == x[i];
    }
  }

  lemma NotConfiguredLacksAccessDenied(x: string, y: string, z: string)
    requires x == "API key not configured." && y == " Please configure your"
    requires z == " OpenRouter API key first."
    ensures !Contains(x + y + z, AccessDeniedMarker)
  {
    NotContainsMissingChar(x, AccessDeniedMarker, 's');
    NotContainsMissingChar(y, AccessDeniedMarker, 'A');
    NotContainsMissingChar(z, AccessDeniedMarker, 'c');
    NotContainsConcat(x, y, AccessDeniedMarker);
    NotContainsConcat(x + y, z, AccessDeniedMarker);
  }

  lemma RecursionRouted()
    ensures !Contains(RecursionLimitMessage, AccessDeniedMarker)
    ensures !Contains(RecursionLimitMessage, NotFoundMarker)
    ensures !Contains(RecursionLimitMessage, NotConfiguredMarker)
    ensures Contains(RecursionLimitMessage, RecursionMarker)
    ensures ProcessFailure(RecursionLimitMessage) ==
      Problem(400, "RecursionLimitError", RecursionLimitMessage)
  {
    var x, y, z := "Maximum ", "recursion depth", " of 5 exceeded";
    assert RecursionLimitMessage == x + y + z;
    NotContainsMissingChar(x + y + z, AccessDeniedMarker, 'A');
    NotContainsMissingChar(x + y + z, NotConfiguredMarker, 'A');
    RecursionLacksNotFound(x, y, z);
    ContainsPiece(x, y, z);
  }

  lemma RecursionLacksNotFound(x: string, y: string, z: string)
    requires x == "Maximum " && y == "recursion depth" && z == " of 5 exceeded"
    ensures !Contains(x + y + z, NotFoundMarker)
  {
    NotContainsMissingChar(x, NotFoundMarker, 'f');
    NotContainsMissingChar(y, NotFoundMarker, 'f');
    NotContainsMissingChar(z, NotFoundMarker, 't');
    NotContainsConcat(x, y, NotFoundMarker);
    NotContainsConcat(x + y, z, NotFoundMarker);
  }

  /** A provider that rejects the stored key (HTTP 401) makes `sendMessage`
      answer 500, not 400 or 403: the wrapped message "Failed to process
      message: Invalid API key" holds none of the markers. */
  lemma InvalidApiKeyIsServerError()
    ensures ProcessFailure(FailedToProcessPrefix + OpenRouter.FailureMessage(OpenRouter.HttpError(401, None)))
      == Problem(500, "ServerError", FailedToProcessPrefix + OpenRouter.InvalidApiKeyMessage)
  {
    var m := FailedToProcessPrefix + OpenRouter.InvalidApiKeyMessage;
    var x, y := FailedToProcessPrefix + "Invalid ", "API key";
    assert m == x + y;
    NotContainsSplit(x, y, AccessDeniedMarker);
    NotContainsMissingChar(m, NotFoundMarker, 'u');
    NotContainsMissingChar(m, NotConfiguredMarker, 'u');
    NotContainsMissingChar(m, RecursionMarker, 'u');
  }

  /** A provider rejection of the request (HTTP 400) whose detail mentions
      "not found", such as an unknown model, reaches the caller as 404, the
      status of a missing agent, unless the detail also says "Access denied". */
  lemma ProviderNotFoundIsNotFound(detail: string)
    requires Contains(detail, NotFoundMarker) && !Contains(detail, AccessDeniedMarker)
    ensures ProcessFailure(FailedToProcessPrefix + OpenRouter.FailureMessage(OpenRouter.HttpError(400, Some(detail))))
      == Problem(404, "NotFound", FailedToProcessPrefix + OpenRouter.InvalidRequestPrefix + detail)
  {
    var x := FailedToProcessPrefix + OpenRouter.InvalidRequestPrefix;
    assert detail != "" by { assert |NotFoundMarker| > 0; }
    assert FailedToProcessPrefix + OpenRouter.FailureMessage(OpenRouter.HttpError(400, Some(detail))) == x + detail;
    assert 'A' !in x;
    NotContainsMissingChar(x, AccessDeniedMarker, 'A');
    NotContainsConcat(x, detail, AccessDeniedMarker);
    ContainsInSuffix(x, detail, NotFoundMarker);
  }

  /** The controller over the three services it constructs. They share one
      database: the message pipeline reads the agent service's table, and
      the API-key service's repository is the table the agent service checks. */
  class AgentController {
    const agentService: AgentService
    const processor: MessageProcessor
    const apiKeyService: ApiKeys.ApiKeyService

    ghost predicate Valid()
      reads this, agentService, agentService.agents, agentService.apiKeys,
        processor, processor.agents, processor.apiKeys, processor.apiKeys.repository,
        apiKeyService, apiKeyService.repository
    {
      && agentService.Valid() && processor.Valid() && apiKeyService.Valid()
      && processor.agents == agentService.agents && processor.apiKeys == apiKeyService
      && apiKeyService.repository == agentService.apiKeys
    }

    constructor (agentService: AgentService, processor: MessageProcessor, apiKeyService: ApiKeys.ApiKeyService)
      requires agentService.Valid() && processor.Valid() && apiKeyService.Valid()
      requires processor.agents == agentService.agents && processor.apiKeys == apiKeyService
      requires apiKeyService.repository == agentService.apiKeys
      ensures Valid()
      ensures this.agentService == agentService && this.processor == processor
      ensures this.apiKeyService == apiKeyService
    {
      this.agentService := agentService;
      this.processor := processor;
      this.apiKeyService := apiKeyService;
    }

    /** `create`: validation, then the service; a service error is a 400
        "AgentError" carrying its message. */
    method Create(userId: Id, name: Option<Json>, model: Option<Json>, configuration: Option<Json>, now: Instant)
      returns (reply: Reply)
      requires Valid()
      modifies agentService.agents
      ensures Valid()
      ensures ValidateCreate(name, model).Err? ==>
        && reply == Problem(400, "ValidationError", ValidateCreate(name, model).message)
        && agentService.agents.rows == old(agentService.agents.rows)
      ensures ValidateCreate(name, model).Ok? && agentService.apiKeys.FindByUser(userId).None? ==>
        && reply == Problem(400, "AgentError", ApiKeyNotConfiguredMessage)
        && agentService.agents.rows == old(agentService.agents.rows)
      ensures ValidateCreate(name, model).Ok? && agentService.apiKeys.FindByUser(userId).Some? ==>
        var (n, m) := ValidateCreate(name, model).value;
        var agent := Agent(old(agentService.agents.nextId), userId, n, m, OrEmptyObject(configuration), now, now);
        && reply == Answer(201, "Agent created successfully", AgentData(agent))
        && agentService.agents.rows == old(agentService.agents.rows) + [agent]
        && Get(agent.id, userId) == Answer(200, "Agent retrieved successfully", AgentData(agent))
    {
      var valid := ValidateCreate(name, model);
      if valid.Err? {
        return Problem(400, "ValidationError", valid.message);
      }
      var (n, m) := valid.value;
      var created := agentService.Create(userId, n, m, configuration, now);
      match created
      case Err(message) => reply := Problem(400, "AgentError", message);
      case Ok(agent) => reply := Answer(201, "Agent created successfully", AgentData(agent));
    }

    /** `list`: the user's agents, newest first. */
    function List(userId: Id): (r: Reply)
      reads agentService.agents
      ensures r.status == 200 && r.data.AgentList?
      ensures forall a :: a in r.data.agents <==> a in agentService.agents.rows && a.userId == userId
      ensures multiset(r.data.agents) == multiset(Filter(agentService.agents.rows, OwnedBy(userId)))
      ensures SortedBy(r.data.agents, NewerFirst)
    {
      Answer(200, "Agents retrieved successfully", AgentList(agentService.agents.FindByUser(userId)))
    }

    /** `get`: 404 for no agent, 403 for another user's agent, else the agent. */
    function Get(agentId: Id, userId: Id): (r: Reply)
      reads agentService.agents
      ensures r.status == 200 <==>
        agentService.agents.FindById(agentId).Some? && agentService.agents.FindById(agentId).value.userId == userId
      ensures r.status == 200 ==> r.data == AgentData(agentService.agents.FindById(agentId).value)
      ensures r == Problem(404, "NotFound", AgentNotFoundMessage) <==> agentService.agents.FindById(agentId).None?
      ensures r == Problem(403, "Forbidden", AgentAccessDeniedMessage) <==>
        agentService.agents.FindById(agentId).Some? && agentService.agents.FindById(agentId).value.userId != userId
    {
      AccessDeniedMarked();
      match agentService.FindById(agentId, userId)
      case Ok(None) => Problem(404, "NotFound", AgentNotFoundMessage)
      case Ok(Some(agent)) => Answer(200, "Agent retrieved successfully", AgentData(agent))
      case Err(m) => AccessFailure(m, Problem(500, "ServerError", AgentRetrieveFailedMessage))
    }

    /** `update`: at least one truthy field, then ownership, existence and
        the save. */
    method Update(agentId: Id, userId: Id, name: Option<Json>, model: Option<Json>,
                  configuration: Option<Json>, now: Instant)
      returns (reply: Reply)
      requires Valid()
      modifies agentService.agents
      ensures Valid()
      ensures !Truthy(name) && !Truthy(model) && !Truthy(configuration) ==>
        && reply == Problem(400, "ValidationError", NothingToUpdateMessage)
        && agentService.agents.rows == old(agentService.agents.rows)
      ensures (Truthy(name) || Truthy(model) || Truthy(configuration)) &&
              old(agentService.FindById(agentId, userId)).Err? ==>
        && reply == Problem(403, "Forbidden", AgentAccessDeniedMessage)
        && agentService.agents.rows == old(agentService.agents.rows)
      ensures (Truthy(name) || Truthy(model) || Truthy(configuration)) &&
              old(agentService.FindById(agentId, userId)) == Ok(None) ==>
        && reply == Problem(404, "NotFound", AgentNotFoundMessage)
        && agentService.agents.rows == old(agentService.agents.rows)
      ensures (Truthy(name) || Truthy(model) || Truthy(configuration)) &&
              old(agentService.FindById(agentId, userId)).Ok? &&
              old(agentService.FindById(agentId, userId)).value.Some? ==>
        var saved := Saved(old(agentService.agents.FindById(agentId)).value,
                           PatchOf(name, model, configuration), now);
        && reply == Answer(200, "Agent updated successfully", AgentData(saved))
        && agentService.agents.rows == Replace(old(agentService.agents.rows), AgentId, agentId, saved)
    {
      if !Truthy(name) && !Truthy(model) && !Truthy(configuration) {
        return Problem(400, "ValidationError", NothingToUpdateMessage);
      }
      var updated := agentService.Update(agentId, userId, PatchOf(name, model, configuration), now);
      match updated
      case Ok(agent) => reply := Answer(200, "Agent updated successfully", AgentData(agent));
      case Err(m) =>
        AgentErrorsRouted(Problem(400, "AgentError", m));
        reply := AgentFailure(m, Problem(400, "AgentError", m));
    }

    /** `delete`: ownership, existence, then removal. */
    method Delete(agentId: Id, userId: Id) returns (reply: Reply)
      requires Valid()
      modifies agentService.agents
      ensures Valid()
      ensures old(agentService.FindById(agentId, userId)).Err? ==>
        && reply == Problem(403, "Forbidden", AgentAccessDeniedMessage)
        && agentService.agents.rows == old(agentService.agents.rows)
      ensures old(agentService.FindById(agentId, userId)) == Ok(None) ==>
        && reply == Problem(404, "NotFound", AgentNotFoundMessage)
        && agentService.agents.rows == old(agentService.agents.rows)
      ensures old(agentService.FindById(agentId, userId)).Ok? &&
              old(agentService.FindById(agentId, userId)).value.Some? ==>
        && reply == Answer(200, "Agent deleted successfully", NoData)
        && agentService.agents.rows == Filter(old(agentService.agents.rows), KeyNot(AgentId, agentId))
        && Get(agentId, userId) == Problem(404, "NotFound", AgentNotFoundMessage)
    {
      var deleted := agentService.Delete(agentId, userId);
      AgentErrorsRouted(Problem(500, "ServerError", AgentDeleteFailedMessage));
      match deleted
      case Ok(_) => reply := Answer(200, "Agent deleted successfully", NoData);
      case Err(m) => reply := AgentFailure(m, Problem(500, "ServerError", AgentDeleteFailedMessage));
    }

    /** `sendMessage`: validation, then the pipeline at depth 0 with no
        history. `sent` is the completion request the provider received, if
        any; `call` answers each attempt. */
    method SendMessage(agentId: Id, userId: Id, message: Option<Json>, call: nat -> OpenRouter.Outcome<OpenRouter.Completion>)
      returns (reply: Reply, sent: Option<OpenRouter.ChatRequest>)
      requires Valid()
      ensures ValidateMessage(message).Err? ==>
        reply == Problem(400, "ValidationError", ValidateMessage(message).message) && sent.None?
      ensures ValidateMessage(message).Ok? ==>
        var admitted := processor.Admission(agentId, userId, 0);
        && (sent.Some? <==> admitted.Ok?)
        && (admitted.Err? ==> reply == ProcessFailure(admitted.message))
        && (admitted.Ok? ==>
              && sent == Some(OpenRouter.ChatRequest("Bearer " + admitted.value.1, admitted.value.0.model,
                                                     Prompt(MessageRequest(ValidateMessage(message).value, None))))
              && reply == match OpenRouter.RetryFrom(call, 0).outcome
                          case Success(c) => Answer(200, "Message processed successfully", ReplyData(Extract(c)))
                          case Failed(f) => ProcessFailure(FailedToProcessPrefix + OpenRouter.FailureMessage(f)))
    {
      var valid := ValidateMessage(message);
      if valid.Err? {
        return Problem(400, "ValidationError", valid.message), None;
      }
      var response;
      response, sent := processor.Process(agentId, userId, MessageRequest(valid.value, None), 0, call);
      match response
      case Ok(r) => reply := Answer(200, "Message processed successfully", ReplyData(r));
      case Err(m) => reply := ProcessFailure(m);
    }

    /** `getAvailableModels`: the user's decrypted key, then one catalogue
        request with it. `reply` is what the provider answers; `usedKey` is the
        key the request carried, if one was made. */
    method GetAvailableModels(userId: Id, answer: OpenRouter.Outcome<OpenRouter.ModelList>)
      returns (reply: Reply, usedKey: Option<string>)
      requires Valid()
      ensures usedKey.Some? <==>
        apiKeyService.GetDecrypted(userId).Ok? && apiKeyService.GetDecrypted(userId).value.Some?
        && apiKeyService.GetDecrypted(userId).value.value != ""
      ensures usedKey.Some? ==> apiKeyService.GetDecrypted(userId) == Ok(usedKey)
      ensures apiKeyService.repository.FindByUser(userId).None? ==>
        reply == Problem(400, "ConfigurationError", ApiKeyNotConfiguredMessage)
      ensures apiKeyService.GetDecrypted(userId) == Ok(Some("")) ==>
        reply == Problem(400, "ConfigurationError", ApiKeyNotConfiguredMessage)
      ensures apiKeyService.GetDecrypted(userId).Err? ==>
        reply == Problem(500, "ServerError", apiKeyService.GetDecrypted(userId).message)
      ensures reply.status == 200 <==> usedKey.Some? && answer.Success?
      ensures reply.status == 200 ==>
        reply == Answer(200, "Models retrieved successfully", ModelData(answer.value.data.GetOr([])))
      ensures usedKey.Some? && answer.Failed? ==>
        reply == Problem(500, "ServerError",
                         if answer.failure.HttpError? && answer.failure.status == 401
                         then OpenRouter.InvalidApiKeyMessage else OpenRouter.ModelsFetchFailedMessage)
    {
      var key := apiKeyService.GetDecrypted(userId);
      if key.Err? {
        return Problem(500, "ServerError", key.message), None;
      }
      if key.value.None? || key.value.value == "" {
        return Problem(400, "ConfigurationError", ApiKeyNotConfiguredMessage), None;
      }
      usedKey := key.value;
      match OpenRouter.GetAvailableModels(answer)
      case Ok(models) => reply := Answer(200, "Models retrieved successfully", ModelData(models));
      case Err(m) => reply := Problem(500, "ServerError", m);
    }
  }
}
