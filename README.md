# AI reply service and response cache — a Dafny model

This project models the two pieces of decision logic in the chat server's
back end:

- **Provider dispatch** (`server/aiService.js`, module `AiService` in
  `ai_service.dfy`). A constant table registers three providers: `jules`,
  `openai` and `ollama`. `getAIReply` picks a primary provider and one fixed
  fallback, and tries them in that order. `callAIProvider` does four things:
  it checks the credential, builds the headers and a provider-specific JSON
  body, posts the request, and reads the reply from the provider-specific
  path of the response.
- **Response cache** (`server/cacheService.js`, module `CacheService` in
  `cache_service.dfy`). This is an append-only table of
  `(id, prompt, response, provider, timestamp)` rows. `init` opens it, `set`
  inserts a row and `get` returns the newest row for an exact prompt. Before
  `init`, `get` and `set` do nothing.

The two components are independent. `getAIReply` never reads or writes the
cache, and the model does not connect them either.

How the outside world is represented:

- The network call `axios.post` is the function parameter
  `post: Network`, where `Network = (nat, Request) -> Response`.
  `post(n, req)` is the answer to the POST of attempt `n`: 0 for the
  primary, 1 for the fallback. Each attempt's POST is a separate call, so
  the same request can get a different answer the second time. An answer
  is `Fail` (the promise rejects) or `Data(payload)`.
- Each provider call is recorded as an `Attempt`: the request it sent, if
  any, and its outcome. `GetAIReply` returns the list of attempts together
  with the result. This lets the contracts say how many requests were made
  and to whom.
- The environment variables `JULES_API_KEY`, `OPENAI_API_KEY`,
  `OLLAMA_API_URL` and `OLLAMA_MODEL` form the `Env` value. An unset
  variable is `None`. JavaScript truthiness is written out as `Truthy`, so an
  empty string counts as unset.
- The time that SQLite's `CURRENT_TIMESTAMP` would supply is the parameter
  `now` of `Set`, in whole seconds.
- The rows already in the database file are the constructor's `stored`.

The mutable objects keep their imperative form:

- `BuildHeaders` and `BuildBody` are methods that update the headers and
  body maps step by step, the way `callAIProvider` changes its objects in
  place.
- `Cache` is a class with an `initialized` flag and a `rows` sequence.
  Its methods update these fields.
- `Cache.Get` scans the rows with a loop.

Behaviour of the code worth noting:

- There is no priority list, no duplicate removal and no cache check before
  the network. Only one fallback is tried: `openai` when `jules` was
  requested (or nothing was), and `jules` otherwise.
- Reading the reply throws, and so triggers the fallback, only when one of
  these is `undefined` or `null`: `data.message` for Ollama, or
  `data.choices`, `choices[0]` or `choices[0].message` for the others.
  If the message object is there but has no `content`, the code returns
  `undefined` as a successful reply, and no failover happens.
  That is why `Reply` is `Option<string>`.
- `providers[provider] || providers.jules` also accepts names that every
  JavaScript object inherits from `Object.prototype`, such as
  `"constructor"` or `"toString"`. Such a name selects a truthy value that
  has no `apiKey`. The first attempt then fails the credential check
  without sending a request, and only the `jules` fallback is tried.
  `Selected.Inherited` models this case. Every other unknown name selects
  `jules`, so both attempts go to `jules`.

## Model

| member | source | states |
|---|---|---|
| `AiService.Providers` | server/aiService.js:3-16 | The Jules and OpenAI entries take their key from the environment and have fixed URLs. Ollama has no key, and its URL is `OLLAMA_API_URL` when that is truthy, else the localhost default. |
| `AiService.OrElse` | server/aiService.js:14 | The JavaScript default operator on an optional string: the result is `s` when `s` is truthy and `d` otherwise, so an empty string also gives `d`. |
| `AiService.Lookup` | server/aiService.js:19 | `providers[name]` is defined exactly for the three registered names and the names inherited from `Object.prototype`. Each registered name gives its own entry. |
| `AiService.Primary` | server/aiService.js:18-19 | The primary is the named provider for `jules`/`openai`/`ollama`. It is `jules` when the argument is omitted (the `'jules'` default, applied by `RequestedName`) or the name is unknown. It is the inherited non-entry for an `Object.prototype` name. |
| `AiService.Fallback` | server/aiService.js:20 | The fallback is `openai` exactly when the requested name is `'jules'`, including the default, and `jules` in every other case. |
| `AiService.Headers` | server/aiService.js:40-45 | The headers always carry `Content-Type: application/json`. They carry `Authorization: Bearer <key>` if and only if the key is truthy. They have no other entries. |
| `AiService.BuildHeaders` | server/aiService.js:40-45 | Building the headers in place (base object, then conditional `Authorization`) yields exactly `Headers(apiKey)`. |
| `AiService.RequestBody` | server/aiService.js:47-62 | Ollama's body is exactly `{model: OLLAMA_MODEL or 'llama3', prompt, stream: false}`, with no `messages`. OpenAI (`gpt-4o`) and Jules (`jules-1.5-pro`) get exactly `{model, messages: [{role:'user', content: message}]}`. |
| `AiService.BuildBody` | server/aiService.js:47-62 | The in-place sequence (default body, then model overwrite, `delete messages`, `prompt` and `stream` for Ollama) yields exactly `RequestBody`. |
| `AiService.Extract` | server/aiService.js:66-70 | Extraction fails, with an extraction error, if and only if the message object on the provider's path (`data.message` for Ollama, `data.choices[0].message` otherwise) is missing. Otherwise it returns that message's `content`, which may be absent (`undefined`). |
| `AiService.ExtractIgnoresOtherPath` | server/aiService.js:66-70 | Ollama's reply does not depend on `choices`. The other providers' replies do not depend on the top-level `message`. |
| `AiService.CallAIProvider` | server/aiService.js:35-71 | A request is sent if and only if the credential check passes. A successful call sent a request that the network answered with data. |
| `AiService.CallSendsOnlyWhenConfigured` | server/aiService.js:36-38 | A call that passes the check sends exactly one request, to the provider's `apiUrl` with its headers and body. Its outcome is a network error or the extraction of the response. A call that does not pass sends nothing and fails with a configuration error. |
| `AiService.PassesCredentialCheck` | server/aiService.js:36 | Ollama always passes. Jules passes if and only if `JULES_API_KEY` is truthy, and OpenAI if and only if `OPENAI_API_KEY` is. A name inherited from `Object.prototype` never passes. |
| `AiService.AuthorizationOnlyWithKey` | server/aiService.js:40-45 | The headers sent to a provider carry the content type. They carry `Authorization` exactly when that provider's key is truthy, so never for Ollama. |
| `AiService.GetAIReply` | server/aiService.js:18-33 | There are one or two attempts. The first calls the primary as attempt 0. A second attempt, on the fallback, happens if and only if the first failed, and its POST gets its own answer (attempt 1). The result succeeds exactly when the last attempt did and carries its reply. Otherwise the result is the single error "All AI providers are currently unavailable.". |
| `AiService.AtMostTwoRequests` | server/aiService.js:22-32 | At most two requests reach the network for one reply. |
| `AiService.PrimarySuccessIsFinal` | server/aiService.js:22-23 | When the primary succeeds, it is the only attempt and its reply is returned. |
| `AiService.FallbackAfterFailure` | server/aiService.js:24-31 | When the primary fails, the second attempt is the fallback. The caller gets the fallback's reply, or the aggregate error when the fallback fails too. |
| `AiService.UnknownKeyTriesJulesTwice` | server/aiService.js:19-32 | For a name that is neither registered nor inherited, with a Jules key set and both POSTs rejected, both requests go to Jules and the aggregate error results. |
| `AiService.UnknownKeySecondJulesAnswerWins` | server/aiService.js:19-27 | For such a name, when the first Jules POST is rejected and the second, identical one is answered, two Jules requests are sent and the caller gets the second answer's reply. |
| `AiService.InheritedKeyOnlyFallsBack` | server/aiService.js:19-20 | For an `Object.prototype` name, the first attempt fails with no request. Only the Jules fallback's request (if any) is sent. |
| `AiService.NoCredentialsNoNetwork` | server/aiService.js:20-38 | Asking for Jules (or nothing) with neither the Jules nor the OpenAI key set sends no request and raises the aggregate error. |
| `AiService.UnconfiguredJulesFallsBackToOpenAI` | server/aiService.js:18-32 | Scenario: Jules has no key and OpenAI answers "hello". The reply is "hello", and the only request sent is the one to OpenAI. |
| `CacheService.NextId` | server/cacheService.js:10 | The next autoincrement id is positive and greater than every id in a well-formed table. |
| `CacheService.Cache.constructor` | server/cacheService.js:3-4 | Before `init` the module has no handle. The table holds what the database file already held. |
| `CacheService.Cache.Init` | server/cacheService.js:6-19 | After `init` the cache is open and the rows are unchanged (create-if-absent), so re-running it keeps the contents. |
| `CacheService.Cache.Get` | server/cacheService.js:21-29 | Before `init` it returns nothing. Afterwards it returns nothing exactly when no row's prompt equals the argument. Otherwise it returns the response and provider of a matching row with maximal timestamp. It modifies nothing. |
| `CacheService.Cache.Set` | server/cacheService.js:31-38 | Before `init` the table is unchanged. Afterwards exactly one row, `NewRow` = `(NextId, prompt, response, provider, now)` with the autoincrement id and the default timestamp, is appended and all earlier rows are unchanged. The table stays well formed. |
| `CacheService.AppendKeepsWellFormed` | server/cacheService.js:10-14 | Appending a row with the next id and a clock reading not before the last row keeps ids strictly increasing and timestamps non-decreasing. The new id exceeds all existing ids. |
| `CacheService.GetAfterSet` | server/cacheService.js:26-27 | Round trip: after appending a row for `p` whose timestamp is later than every earlier row for `p`, the only admissible lookup answer for `p` is that row's `(response, provider)`. |
| `CacheService.SetLeavesOtherPrompts` | server/cacheService.js:26-27 | Appending a row for one prompt does not change which answers are admissible for any other prompt. |
| `CacheService.LatestMatchIsNewest` | server/cacheService.js:26 | In a well-formed table the most recently inserted row for a prompt is always an admissible answer for it. |

## Left out

- The HTTP endpoint in `server/index.js` (Express, CORS, the empty-message 400 check) is not part of this model.
- The real network call, its timeouts and HTTP status handling: `post` is an abstract oracle, and any rejection is `Fail`.
- Response bodies that are not JSON objects, and `content` values that are not strings: the payload only has the optional `message`, `choices`, `choices[0].message` and `content` fields the service reads.
- Messages and provider arguments that are not strings (numbers, arrays, `null`). A `null` provider bypasses the default parameter, but it behaves like an unknown name, and that case is covered.
- The exact wording of the per-provider error messages beyond the URL they name: they are only logged, and the caller sees only the aggregate error.
- `Cache.Get` returns `null` before `init` and `undefined` on a miss. Both are modelled as `None`.
- The SQLite engine, the SQL text, the database path (`CACHE_DB_PATH`) and the `verbose: console.log` option. The table is the `rows` sequence and a timestamp is a number of seconds. `CURRENT_TIMESTAMP` text orders the same way for the years it can represent.
- CacheService.Cache.Set: after `Init`, requires that the clock reading is not before the newest row's timestamp. This keeps timestamps non-decreasing in the table invariant. A wall clock that moves backwards is not modelled.
- Deletions by code outside these files, and the `sqlite_sequence` bookkeeping. With no deletions, the next autoincrement id is the last id plus one.
- All `console.*` logging, `dotenv` loading and the asynchronous scheduling. The two awaited attempts are sequential steps.
