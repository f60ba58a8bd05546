# megazord-ai backend core in Dafny

This project models the decision logic of the megazord-ai backend. Users configure
chat *agents*, each a name, an OpenRouter model and a configuration, and talk to
them through OpenRouter with their own API key, which is stored encrypted. The
model covers these parts:

- **Completion client** (`OpenRouter`): one chat-completion request with up to
  three retries and exponential backoff, the message each final failure becomes,
  and the single-attempt model catalogue.
- **Message pipeline** (`MessageProcessing`): the ordered guards (recursion depth,
  agent, ownership, API key), prompt assembly, reply extraction, and the
  `Failed to process message: ` wrapping of provider errors.
- **API keys** (`ApiKeys`, `Hex`): the `api_keys` table (one key per user), the
  normalised 32-character encryption key, the `iv:ciphertext` hex format and its
  check, masking, and the store/get/update/delete service.
- **Agents, sessions, messages** (`Agents`, `Sessions`, `Messages`, on `Tables`):
  the repositories as classes over a sequence of rows with a primary-key counter,
  and the services that check existence and ownership before touching a row.
- **Authentication** (`Auth`): the token blacklist, the user table, registration,
  login and token validation with hashing and signing as parameters, and the
  `Bearer` middleware.
- **Error handling** (`ErrorHandling`, `AgentControllers`): the global error
  handler, and the agent controller's input validation and its substring-ordered
  mapping from error messages to HTTP statuses.

Things outside the program become parameters:

- The transport is a function `call: nat -> Outcome<T>` giving what the k-th
  attempt returns. The waits the client would sleep are returned as numbers.
- AES, bcrypt and JWT are function values in `ApiKeys.Cipher` and `Auth.Crypto`.
  Only the properties the code relies on are assumed, as predicates on those
  values (`Inverts`, `Sound`).
- The clock, the random IV and salt, and the locale rendering of the time are
  arguments of the operations that use them.
- Row ids are natural numbers handed out by a counter per table, standing in for
  UUIDs.

## Model

| member | source | states |
|---|---|---|
| OpenRouter.RetryWithBackoff | backend/src/services/OpenRouterService.ts:75-98 | the retry loop returns the outcome, attempt count and waits of the recursive definition `RetryFrom` |
| OpenRouter.RetryStopsAtFirstFinalAttempt | backend/src/services/OpenRouterService.ts:75-98 | a run stops at the first attempt that succeeds, fails non-retryably or uses the last retry; it returns that attempt's outcome unchanged after n+1 calls, with waits 1000·2^k |
| OpenRouter.RetryBounds | backend/src/services/OpenRouterService.ts:44-98 | the operation runs 1 to 4 times; wait k is 1000·2^k ms; there is one wait fewer than attempts; the waits total at most 7000 ms |
| OpenRouter.SumSchedule | backend/src/services/OpenRouterService.ts:85-92 | the waits of a run stopping at attempt n ≤ 3 sum to 1000·(2^n − 1) ≤ 7000 |
| OpenRouter.PersistentTransientFailure | backend/src/services/OpenRouterService.ts:65-98 | a provider that keeps failing retryably is called exactly 4 times, waits 1000, 2000, 4000 ms, and its last failure is returned |
| OpenRouter.NonRetryableFailureStops | backend/src/services/OpenRouterService.ts:65-98 | a non-retryable failure (no 5xx, a response present) is returned from the attempt where it occurred, and no later attempt runs |
| OpenRouter.FirstSuccessReturned | backend/src/services/OpenRouterService.ts:75-98 | the first successful attempt's value is returned unchanged and no later attempt runs |
| OpenRouter.StopIndexIsFirstFinal | backend/src/services/OpenRouterService.ts:75-98 | the stopping attempt is the first one that is final |
| OpenRouter.SendMessage | backend/src/services/OpenRouterService.ts:100-151 | the request carries `Bearer <key>`, the model and the messages; the result is the run's completion, or the error message of its final failure |
| OpenRouter.FailureMessageIdentifiesKind | backend/src/services/OpenRouterService.ts:124-150 | the message for 401, 429, 400, ≥500, another status, no response, and a setup error each reads back as its own kind, so no two classes share a message |
| OpenRouter.PrefixedDiffers | backend/src/services/OpenRouterService.ts:127-149 | a prefixed message ('Invalid request: ', 'OpenRouter error: ', 'Request error: ') never equals one of the fixed messages |
| OpenRouter.SendMessageScenarios | backend/src/services/OpenRouterService.ts:65-150 | a 401 is attempted once and ends as 'Invalid API key'; a persistent 503 is attempted 4 times and ends as the unavailability message |
| OpenRouter.GetAvailableModels | backend/src/services/OpenRouterService.ts:153-174 | success yields `data`, or [] when missing; 401 yields 'Invalid API key' and nothing else does; every other failure yields the fetch-failed message |
| Hex.Encode | backend/src/services/ApiKeyService.ts:25-38 | hex output has two lower-case digits per byte |
| Hex.DecodeEncode | backend/src/services/ApiKeyService.ts:40-58 | decoding hex written by the encoder gives the bytes back |
| Hex.EncodeHasNoColon | backend/src/services/ApiKeyService.ts:25-38 | hex text never holds the ':' separator |
| ApiKeys.ApiKeyRepository.FindByUser | backend/src/repositories/ApiKeyRepository.ts:10-14 | the user's record if there is one; none iff no row has that user |
| ApiKeys.ApiKeyRepository.Create | backend/src/repositories/ApiKeyRepository.ts:6-8 | inserts the record with a fresh id; a second key for the user violates the unique user constraint and inserts nothing; at most one row per user is kept |
| ApiKeys.ApiKeyRepository.Update | backend/src/repositories/ApiKeyRepository.ts:16-24 | fails with 'API key not found' and changes nothing for a user without a key; otherwise changes only encryptedKey of that row, and updatedAt only when the key differs (an unchanged save writes nothing) |
| ApiKeys.ApiKeyRepository.Delete | backend/src/repositories/ApiKeyRepository.ts:26-31 | the user has no key afterwards; every other row is kept |
| ApiKeys.NormaliseKey | backend/src/services/ApiKeyService.ts:16-23 | exactly 32 characters (Unicode characters, see Left out): the key truncated, or right-padded with '0' |
| ApiKeys.EncryptionKeyFrom | backend/src/services/ApiKeyService.ts:16-23 | the encryption key is 32 characters long whatever the environment holds; unset and empty both mean the default (32 bytes only for an ASCII key, see Left out) |
| ApiKeys.DefaultKeyIsPadded | backend/src/services/ApiKeyService.ts:16-23 | the 31-character built-in default is used with one '0' appended |
| ApiKeys.Encrypt | backend/src/services/ApiKeyService.ts:25-38 | the output splits at ':' into exactly hex(iv) and hex(ciphertext) |
| ApiKeys.Decrypt | backend/src/services/ApiKeyService.ts:40-58 | text without exactly one ':' (not two parts) is rejected with 'Invalid encrypted key format' |
| ApiKeys.DecryptEncrypt | backend/src/services/ApiKeyService.ts:25-58 | decrypting what encrypt wrote gives the plaintext back, for every IV, given a cipher that inverts itself |
| ApiKeys.Mask | backend/src/services/ApiKeyService.ts:60-68 | '***' for keys of length ≤ 8; otherwise 11 characters: first four, '...', last four |
| ApiKeys.MaskShowsOnlyEnds | backend/src/services/ApiKeyService.ts:60-68 | two long keys have the same mask iff they share first and last four characters, so the mask reveals nothing else |
| ApiKeys.ApiKeyService.constructor | backend/src/services/ApiKeyService.ts:16-23 | the service's encryption key is the normalised ENCRYPTION_KEY or default |
| ApiKeys.ApiKeyService.GetDecrypted | backend/src/services/ApiKeyService.ts:130-137 | null exactly when no key is stored |
| ApiKeys.ApiKeyService.Get | backend/src/services/ApiKeyService.ts:94-109 | null when no key is stored; a response exactly when a key decrypts, and then its mask, never the key; a decrypt error is passed on unchanged |
| ApiKeys.ApiKeyService.Store | backend/src/services/ApiKeyService.ts:70-92 | a second key is refused with 'User already has an API key…' and nothing changes; otherwise the encrypted key is inserted, the response carries the mask, and the stored key decrypts back to the given key |
| ApiKeys.ApiKeyService.Update | backend/src/services/ApiKeyService.ts:111-124 | 'API key not found' and no change for a user without a key; otherwise the response carries the new key's mask, the stored key decrypts to it, and every other user's key is untouched |
| ApiKeys.ApiKeyService.Delete | backend/src/services/ApiKeyService.ts:126-128 | the user has no key afterwards; only that user's row is removed, every other user's key and the id counter are kept |
| Json.OrEmptyObject | backend/src/repositories/AgentRepository.ts:11-18 | `configuration \|\| {}`: a falsy configuration becomes {} |
| Agents.Saved | backend/src/repositories/AgentRepository.ts:31-43 | the save overwrites exactly the supplied name/model/configuration; id, userId and createdAt are kept; updatedAt moves only if something changed |
| Agents.SaveIdempotent | backend/src/repositories/AgentRepository.ts:31-43 | applying a patch twice equals applying it once; an empty patch changes nothing |
| Agents.NewerFirstOrders | backend/src/repositories/AgentRepository.ts:20-25 | the createdAt-descending order is a total preorder |
| Agents.AgentRepository.Create | backend/src/repositories/AgentRepository.ts:11-18 | appends a new agent with a fresh id and configuration `\|\| {}` |
| Agents.AgentRepository.FindByUser | backend/src/repositories/AgentRepository.ts:20-25 | exactly the user's agents (as a multiset), newest createdAt first |
| Agents.AgentRepository.FindById | backend/src/repositories/AgentRepository.ts:27-29 | the agent with that id; none iff no row has it |
| Agents.AgentRepository.Update | backend/src/repositories/AgentRepository.ts:31-43 | 'Agent not found' and no change for a missing id; otherwise the row is replaced by the saved agent, and nothing else changes |
| Agents.AgentRepository.Delete | backend/src/repositories/AgentRepository.ts:45-50 | removes exactly the rows with that id (none when missing) |
| Agents.AgentService.FindById | backend/src/services/AgentService.ts:45-54 | null iff the agent is missing; 'Access denied…' iff another user owns it; otherwise the caller's agent |
| Agents.AgentService.FindByUser | backend/src/services/AgentService.ts:41-43 | exactly the caller's agents (as a multiset), newest first |
| Agents.AgentService.Create | backend/src/services/AgentService.ts:26-39 | a user without a stored key gets 'API key not configured…' and the table and id counter are unchanged; otherwise the agent gets the next id, is appended, is owned by the caller and readable by them |
| Agents.AgentService.Update | backend/src/services/AgentService.ts:56-64 | access denied, then not found, each with the table unchanged; otherwise the saved agent replaces its row |
| Agents.AgentService.Delete | backend/src/services/AgentService.ts:66-74 | access denied, then not found, each with the table unchanged; otherwise the agent is removed and no longer found |
| Sessions.RecentFirstOrders | backend/src/repositories/SessionRepository.ts:18-27 | lastMessageAt DESC (NULLS FIRST) then createdAt DESC is a total preorder |
| Sessions.Saved | backend/src/repositories/SessionRepository.ts:39-54 | only the supplied fields change; ids, owner and createdAt are kept |
| Sessions.SessionRepository.Create | backend/src/models/Session.ts:57-72 | a new session with the column defaults: emoji, metadata {}, active, no lastMessageAt |
| Sessions.SessionRepository.FindById | backend/src/repositories/SessionRepository.ts:14-16 | the session with that id; none iff no row has it |
| Sessions.SessionRepository.Listing | backend/src/repositories/SessionRepository.ts:18-37 | matching rows, sorted most recent first, min(count, 50) of them, a sub-multiset of the matching rows; no row left out ranks before one kept; all are kept when at most 50 match |
| Sessions.SessionRepository.FindByAgent | backend/src/repositories/SessionRepository.ts:18-27 | the listing for that agent and user: only their sessions, most recent first, min(count, 50) of them, a sub-multiset of the matching rows; no session left out ranks before one kept; all of them when at most 50 exist |
| Sessions.SessionRepository.FindByUser | backend/src/repositories/SessionRepository.ts:29-37 | the listing for that user: only their sessions, most recent first, min(count, 50) of them, a sub-multiset of the matching rows; no session left out ranks before one kept; all of them when at most 50 exist |
| Sessions.SessionRepository.Update | backend/src/repositories/SessionRepository.ts:39-54 | null and no change for a missing id; otherwise the patched session replaces its row |
| Sessions.SessionRepository.Delete | backend/src/repositories/SessionRepository.ts:56-61 | true iff the session existed; it is gone and the table shrank by exactly that |
| Sessions.SessionRepository.UpdateLastMessageAt | backend/src/repositories/SessionRepository.ts:63-68 | only lastMessageAt (and updatedAt) of the matching row change; no-op for a missing id |
| Sessions.SessionTitle | backend/src/services/SessionService.ts:26 | a missing or empty title becomes 'New conversation - ' + the local time |
| Sessions.SessionService.AgentCheck | backend/src/services/SessionService.ts:16-23 | passes iff the agent exists and is the caller's; otherwise 'Agent not found' or 'Access denied…' |
| Sessions.SessionService.Create | backend/src/services/SessionService.ts:14-34 | a failing agent check creates nothing; otherwise the session has the agent, the caller as owner, the title and metadata {}, and the caller can read it |
| Sessions.SessionService.FindById | backend/src/services/SessionService.ts:36-49 | null iff missing; 'Access denied…' iff another user's; otherwise the caller's session |
| Sessions.SessionService.FindByAgent | backend/src/services/SessionService.ts:51-63 | fails exactly when the agent check fails, with its message; otherwise the repository listing: only sessions of that agent and caller, most recent first, min(count, 50) of them, a sub-multiset of the matching rows, no session left out ranking before one kept, all of them when at most 50 exist |
| Sessions.SessionService.FindByUser | backend/src/services/SessionService.ts:65-67 | the repository listing: only the caller's sessions, most recent first, min(count, 50) of them, a sub-multiset of the matching rows, no session left out ranking before one kept, all of them when at most 50 exist |
| Sessions.SessionService.Update | backend/src/services/SessionService.ts:69-87 | access denied, then 'Session not found', each with no change; otherwise title/metadata/isActive are saved in place |
| Sessions.SessionService.Delete | backend/src/services/SessionService.ts:89-97 | access denied, then 'Session not found', each with no change; otherwise the session is removed |
| Sessions.SessionService.UpdateLastMessageAt | backend/src/services/SessionService.ts:99-101 | only that session's lastMessageAt (and updatedAt) become now, every other row and the id counter are kept; no change for a missing id |
| Messages.OlderFirstOrders | backend/src/repositories/MessageRepository.ts:27-39 | createdAt ascending is a total preorder |
| Messages.EffectiveLimit | backend/src/repositories/MessageRepository.ts:27-39 | `limit \|\| 1000`: the given limit if positive, otherwise 1000 |
| Messages.Saved | backend/src/repositories/MessageRepository.ts:41-53 | only content, metadata and error can change; every other field is kept |
| Messages.CountAfterAppend | backend/src/repositories/MessageRepository.ts:62-66 | appending a message adds one to its session's count and none to others |
| Messages.MessageRepository.CountBySession | backend/src/repositories/MessageRepository.ts:62-66 | the number of stored messages with that sessionId |
| Messages.MessageRepository.Create | backend/src/repositories/MessageRepository.ts:5-16 | appends the message (metadata {} by default); its session's count grows by one, every other count stays |
| Messages.MessageRepository.FindById | backend/src/repositories/MessageRepository.ts:18-25 | the message with that id; none iff no row has it |
| Messages.MessageRepository.FindBySession | backend/src/repositories/MessageRepository.ts:27-39 | only that session's messages, oldest first, min(count, limit) of them, a sub-multiset of the session's rows, the oldest kept; all when under the limit |
| Messages.MessageRepository.Update | backend/src/repositories/MessageRepository.ts:41-53 | null and no change for a missing id; otherwise the patched message replaces its row |
| Messages.MessageRepository.Delete | backend/src/repositories/MessageRepository.ts:55-60 | true iff the message existed; it is gone and the table shrank by exactly that |
| MessageProcessing.Prompt | backend/src/services/MessageProcessor.ts:57-71 | the history in order, role and content only, then exactly one user turn with the message; length \|history\|+1 |
| MessageProcessing.BuildPrompt | backend/src/services/MessageProcessor.ts:57-71 | the push loop builds exactly `Prompt` |
| MessageProcessing.Extract | backend/src/services/MessageProcessor.ts:82-88 | response is the first choice's content or ''; model as reported; tokensUsed is usage.total_tokens |
| MessageProcessing.MessageProcessor.Admission | backend/src/services/MessageProcessor.ts:35-54 | guards in order (depth ≥ 5, agent missing, other owner, no key); the first failing one decides the error; success means own agent and a non-empty decrypted key |
| MessageProcessing.MessageProcessor.Process | backend/src/services/MessageProcessor.ts:28-96 | the provider is called iff every guard passes, with the agent's model, the user's key and the prompt; guard errors come back as they are, provider errors with 'Failed to process message: ' |
| MessageProcessing.GuardErrorsAreNotWrapped | backend/src/services/MessageProcessor.ts:35-95 | no guard error (the fixed guard messages and the stored-key format error) carries the wrapping prefix |
| Auth.TokenBlacklist.constructor | backend/src/services/TokenBlacklistService.ts:3-5 | the blacklist starts empty |
| Auth.TokenBlacklist.AddToken | backend/src/services/TokenBlacklistService.ts:6-8 | the token is blacklisted after; every other token is unchanged; adding twice changes nothing |
| Auth.TokenBlacklist.RemoveToken | backend/src/services/TokenBlacklistService.ts:14-16 | the token is not blacklisted after; every other token is unchanged |
| Auth.TokenBlacklist.Clear | backend/src/services/TokenBlacklistService.ts:18-20 | no token is blacklisted after |
| Auth.UserStore.FindById | backend/src/repositories/UserRepository.ts:26-28 | the user with that id; none iff no row has it |
| Auth.UserStore.FindByEmail | backend/src/repositories/UserRepository.ts:14-18 | the user with that email; none iff no row has it |
| Auth.UserStore.FindByUsername | backend/src/repositories/UserRepository.ts:20-24 | the user with that username; none iff no row has it |
| Auth.UserStore.Create | backend/src/repositories/UserRepository.ts:10-12 | inserts unless email or username is taken (unique constraints), then nothing changes |
| Auth.Setting | backend/src/services/AuthService.ts:32-36 | an unset or empty environment setting means the default |
| Auth.AuthService.constructor | backend/src/services/AuthService.ts:32-36 | secret and lifetime from the environment, defaults otherwise |
| Auth.AuthService.ValidateToken | backend/src/services/AuthService.ts:50-64 | succeeds iff the token verifies and its user exists; every failure is 'Invalid or expired token' |
| Auth.AuthService.Login | backend/src/services/AuthService.ts:101-125 | succeeds iff the email is known and the password matches; both failures are 'Invalid credentials'; success returns a token for the user and no password hash |
| Auth.AuthService.Register | backend/src/services/AuthService.ts:66-99 | a taken email, then a taken username, each leaving the store unchanged; otherwise stores hash(password), returns the public user and a token that validates to them; login with the password then succeeds |
| Auth.ExtractToken | backend/src/middleware/authMiddleware.ts:16-26 | a token iff the header starts with exactly 'Bearer '; the header is 'Bearer ' + token |
| Auth.ExtractBearer | backend/src/middleware/authMiddleware.ts:26 | every token comes back out of the header built for it |
| Auth.LowerCaseSchemeRefused | backend/src/middleware/authMiddleware.ts:16-24 | 'bearer ' in lower case is refused |
| Auth.Authenticate | backend/src/middleware/authMiddleware.ts:11-56 | a bad header, a blacklisted token (validation not reached) and an invalid token each answer 401 with their message and leave the request alone; otherwise user and token are attached and `next` runs exactly once |
| ErrorHandling.Handle | backend/src/middleware/errorHandler.ts:40-89 | status by class (400/401/403/404/500); message with each class's default; body status equals the status, error equals err.name; stack only in development |
| ErrorHandling.EmptyMessageOnlyFromValidation | backend/src/middleware/errorHandler.ts:56-73 | an empty body message arises iff a validation error had an empty message |
| ErrorHandling.ServerErrorOnlyForOthers | backend/src/middleware/errorHandler.ts:56-73 | 500 iff the error is of no known class; the status is always in 400..599 |
| AgentControllers.NonBlankStringIff | backend/src/controllers/AgentController.ts:27-52 | `typeof v === 'string' && v.trim().length !== 0` holds iff v is a string with a non-whitespace character |
| AgentControllers.ValidateCreate | backend/src/controllers/AgentController.ts:27-52 | passes iff name and model are non-blank strings; 'required' iff either is falsy; the name error iff name fails after both are truthy |
| AgentControllers.ValidateMessage | backend/src/controllers/AgentController.ts:241-257 | passes iff the message is a non-blank string; 'required' iff it is falsy |
| AgentControllers.StringField | backend/src/controllers/AgentController.ts:154-158 | a body field reaches the patch iff it is a string |
| AgentControllers.AgentFailure | backend/src/controllers/AgentController.ts:167-190 | 'Access denied' → 403 first, then 'not found' → 404, else the handler's fallback |
| AgentControllers.AccessFailure | backend/src/controllers/AgentController.ts:120-134 | 'Access denied' → 403, else the handler's fallback |
| AgentControllers.ProcessFailure | backend/src/controllers/AgentController.ts:272-313 | the first marker decides, each both ways: 'Access denied' 403, 'not found' 404, 'API key not configured' 400 ConfigurationError, 'recursion depth' 400 RecursionLimitError, otherwise 500; error names Forbidden, NotFound, ConfigurationError, RecursionLimitError, ServerError; the message is passed through |
| AgentControllers.AgentErrorsRouted | backend/src/controllers/AgentController.ts:167-183 | the service's access and not-found errors reach the caller as 403 and 404 |
| AgentControllers.GuardErrorsRouted | backend/src/controllers/AgentController.ts:272-313 | each pipeline guard error gets its intended status: 403, 404, 400, 400, and 500 for an undecryptable key |
| AgentControllers.InvalidApiKeyIsServerError | backend/src/controllers/AgentController.ts:308-313 | a provider 401 reaches the caller as 500 'Failed to process message: Invalid API key' |
| AgentControllers.ProviderNotFoundIsNotFound | backend/src/controllers/AgentController.ts:272-313 | a provider 400 whose detail says 'not found' (and not 'Access denied') reaches the caller as 404 |
| AgentControllers.AgentController.Create | backend/src/controllers/AgentController.ts:21-74 | invalid input 400 ValidationError, no key 400 AgentError, each with no agent created; otherwise 201 with the new agent, which `get` then returns |
| AgentControllers.AgentController.List | backend/src/controllers/AgentController.ts:76-95 | 200 with exactly the caller's agents (as a multiset), newest first |
| AgentControllers.AgentController.Get | backend/src/controllers/AgentController.ts:97-136 | 200 iff the caller owns the agent; 404 iff missing; 403 iff another user's |
| AgentControllers.AgentController.Update | backend/src/controllers/AgentController.ts:138-192 | all fields falsy 400, then 403, then 404, each with no change; otherwise 200 with the saved agent replacing its row |
| AgentControllers.AgentController.Delete | backend/src/controllers/AgentController.ts:194-232 | 403, then 404, each with no change; otherwise 200, and `get` then answers 404 |
| AgentControllers.AgentController.SendMessage | backend/src/controllers/AgentController.ts:234-315 | invalid input 400 and no provider call; the provider is called iff the guards pass, with the agent's model and key; errors are routed by `ProcessFailure`; success is 200 with the extracted reply |
| AgentControllers.AgentController.GetAvailableModels | backend/src/controllers/AgentController.ts:317-350 | no key (or an empty one) 400 ConfigurationError without contacting the provider; the key is used iff it decrypts non-empty; 200 iff used and answered; failures 500 with 'Invalid API key' for 401, else the fetch-failed message |

## Left out

- Messages.MessageRepository.FindById, Messages.MessageRepository.FindBySession: the eager-loaded `attachments` association is not modelled; a returned message carries no attachments. No decision in the modelled operations reads them.
- Cryptography is not modelled: AES-256-CBC, bcrypt hashing and JWT signing and verifying. They are function values. The only assumptions are that deciphering undoes enciphering, a password matches its hash, and a fresh token verifies to its user id.
- Token expiry, the `iat` claim and jwt's error kinds live inside the `verify` parameter.
- HTTP transport, the 60-second timeout, and real waiting are left out. Attempts are a function of the attempt number, and waits are returned as numbers. The model listing's single response is a parameter.
- Logging (`console.log`/`console.error`) is left out.
- The Sequelize model validations (name length, notEmpty, email format) are left out. They are schema rules checked by the database library.
- The text of the unique-constraint error Sequelize throws is fixed here as 'Validation error'. `ApiKeyService.store` and `AuthService.register` check before inserting, so that path is unreachable from them.
- Timestamps in responses are left out. The clock is a parameter. The default session title's locale rendering is a string parameter.
- UUID primary keys are natural numbers from a per-table counter.
- The order of sessions with no last message follows PostgreSQL, which sorts NULLs first on a descending column. Each session or message listing is sorted, has min(count, limit) rows, keeps the best-ranked rows and is a sub-multiset of the matching rows; the order among rows with equal keys is not pinned down.
- JavaScript numbers are unbounded integers, and JSON values are a datatype without floats.
- `MessageProcessor.process` receives a session id from the controller and ignores it. The model's request does not carry it.
- A provider reply without `choices` makes the source throw a TypeError that is then wrapped. The model treats `choices` as a possibly empty list, so the missing-array failure is not modelled.
- A non-`Error` value thrown inside `sendMessage` ('Unknown error') cannot arise in the model, since every failure is a `Failure` value.
- The 500 'Failed to retrieve agents' of `list` and the 500 'Failed to retrieve agent' of `get` are not reachable, because the modelled service calls do not throw there. `get` keeps the fallback in `AccessFailure`.
- SessionService.Update: the 'Failed to update session' branch is not modelled. The repository returns null only for a missing session, which the service has already ruled out, so the branch is unreachable in a sequential run.
- Agents.Saved and Sessions.Saved model Sequelize's `save`/`update`: `updatedAt` moves only when some field changes value.
- AgentControllers.StringField: an update field that is present but not a string is passed over as absent. The source hands it to the database library, which may coerce a number or boolean to text and store it (an `update` with name 5 would then answer 200 with that name), while the model keeps the old name.
- ApiKeys.NormaliseKey, ApiKeys.EncryptionKeyFrom, ApiKeys.Mask: lengths are counted in Unicode characters, not the UTF-16 code units `padEnd`, `substring` and `length` count. The cipher's requirement of a 32-byte UTF-8 key is not modelled either. So a non-ASCII ENCRYPTION_KEY, which the source's cipher rejects with 'Invalid key length' on every store, update, get and getDecrypted, is outside the model, as are astral characters in a key or a masked API key.
- ApiKeys.Decrypt: only the format check is stated as an `ensures`. A well-formed value goes to the cipher parameter, and what that yields is stated through DecryptEncrypt.
- ApiKeys.ApiKeyService.GetDecrypted: the contract states the empty case. The value after a store or update is stated on Store and Update.
- The other controllers (API keys, auth, sessions), the routes, the rate limiter, the server and database startup, and the frontend are not part of this model.
- `UserRepository` is folded into `Auth.UserStore`.
