# Chat gateway: the `POST /api/chat` handler

This project models the request-handling core of a small HTTP chat gateway
(`server.js`). The gateway takes a chat message and an optional model
selector. It sends the message to one of three text-generation routes and
answers with the reply. It also writes each successful reply into an
in-memory cache under the trimmed message, with a ten-minute time-to-live.

The model has five modules:

- `Wrappers` (wrappers.dfy): `Option` for a value that may be missing, and
  `Result` for a call that returns a value or throws an error with a message.
- `JsString` (js_string.dfy): ECMAScript's `String.prototype.trim` and
  string truthiness. `Trim` cuts the input between two index scans: one
  forward over leading whitespace, one backward over trailing whitespace. It
  is also characterised on its own terms by `IsTrimOf`, which says the result
  is the slice of the input with whitespace on both sides. `TrimIsUnique`
  shows that this characterisation fixes the result.
- `Backends` (backends.dfy): the requests each route sends and the outcomes
  the services return. It also holds the three route functions, the selector
  default and the exact-string route choice (`RouteOf`). `Dispatch` states
  which route answers.
- `MemoryCache` (memory_cache.dfy): the cache as a class whose `entries` map
  holds a value and an expiry time per key. `Put` is the one operation the
  gateway performs on it.
- `Server` (server.dfy): the class `App` owns the cache
  and the flag that says whether the local pipeline is loaded. `HandleChat`
  follows the handler step by step: validate, select, dispatch, cache and
  respond. Its postcondition gives the status, the body and the whole new
  cache contents for every input.

Each external service is a parameter of the request: a function from the
request the route sends to the outcome the service produces for it. The
chat-completion service is `CompletionService`. The local generation
pipeline is `GenerationPipeline`. The clock is a parameter too: `now` is the
current time in milliseconds.

The client methods `HelloThroughChatGpt3`, `BlankMessage`,
`GptJBeforeLoading`, `TransportError` and `PutTwice` replay concrete
requests against the specifications: a reply cached under "Hello", a blank
message rejected, the local route before and after loading, a transport
error hidden behind the generic message, and a repeated put.

Four behaviours of the handler in server.js that are easy to misread:

- The local route has no separate "unavailable" error. When the pipeline is
  not loaded, it throws the same wrapped error as a failed generation:
  "Failed to generate response using GPT-J.".
- The default route does not wrap the service's error. It propagates it
  unchanged. Only the alternate route replaces it with its own message.
- Loading state is only "set" or "unset". A load that fails leaves the
  pipeline unset, exactly like one that has not finished.
- The cache is written but never read. Every request reaches a route, even
  when an identical message was answered a moment earlier.

## Model

| member | source | states |
|---|---|---|
| JsString.TrimStartIndex | server.js:40 | the forward scan stops at the first non-whitespace character, and everything it passed over is whitespace |
| JsString.TrimEndIndex | server.js:40 | the backward scan stops just after the last non-whitespace character, and everything it passed over is whitespace |
| JsString.Trim | server.js:40 | the trimmed message is the input with its leading and trailing ECMAScript whitespace removed; it is empty exactly when the input is all whitespace |
| JsString.TrimIsUnique | server.js:40 | any two results that satisfy the trim characterisation for one string are equal, so `Trim` is the only trim |
| JsString.TrimIgnoresPadding | server.js:40 | adding whitespace around a string does not change its trim |
| Server.ValidMessage | server.js:40-45 | the message is rejected exactly when it is absent or all whitespace; otherwise the result is its non-empty trim |
| Server.MessageWithoutPaddingIsKept | server.js:40 | a message with no whitespace at either end is passed on, and cached, unchanged |
| Server.PaddedMessagesShareKey | server.js:40 | messages that differ only in surrounding whitespace are validated to the same text, so they share one cache key |
| Backends.Selector | server.js:41 | the selector is the supplied model when it is a non-empty string, and "gpt-3.5-turbo" when the model is absent or empty |
| Backends.RouteOf | server.js:49-53 | the local route is chosen exactly for "gpt-j" and the alternate remote route exactly for "chatgpt-3"; every other string takes the default remote route |
| Backends.SelectedRoute | server.js:41-53 | from the request's model field: local exactly for "gpt-j", alternate exactly for "chatgpt-3", default for everything else including a missing or empty model |
| Backends.VariantsTakeDefaultRoute | server.js:41-53 | a missing model, an empty model, "gpt-3.5-turbo", "GPT-J" and " chatgpt-3" all take the default remote route |
| Backends.ChoiceReply | server.js:61 | the remote reply is the first choice's content when that is a non-empty string; otherwise it is "No response content"; it is never empty |
| Backends.CandidateReply | server.js:78 | the local reply is the first candidate's generated text when that is a non-empty string; otherwise it is "No generated text"; it is never empty |
| Backends.DefaultRemoteResponse | server.js:54-61 | the default route succeeds exactly when the service returns choices, replies with ChoiceReply of them, and otherwise fails with the service's own error |
| Backends.GenerateChatGpt3Response | server.js:85-98 | the alternate route sends the same request, succeeds exactly when the service returns choices, and otherwise fails with "Failed to generate response using ChatGPT-3." |
| Backends.GenerateGptJResponse | server.js:73-83 | the local route succeeds exactly when the pipeline is loaded and generation returns candidates (with a maximum length of 100); every failure, including an unloaded pipeline, is "Failed to generate response using GPT-J." |
| Backends.Dispatch | server.js:48-62 | every successful reply is non-empty; the local route always fails while the pipeline is not loaded; the remote routes succeed exactly when the service returns choices |
| Backends.RemoteRoutesAgree | server.js:54-61 | given the same service, the default and alternate routes succeed together and give identical replies (the alternate route is at lines 87-93) |
| MemoryCache.Cache.Put | server.js:64 | the key then maps to the value with expiry now + time; every other key keeps its entry and no key is added besides it |
| Server.App.constructor | server.js:20 | the process starts with an empty cache and no local pipeline |
| Server.App.LoadGptJ | server.js:22-30 | the pipeline becomes set when loading succeeds; a failed load leaves it as it was |
| Server.App.HandleChat | server.js:39-71 | a rejected message gives 400 with "Message cannot be empty" and leaves the cache unchanged; a failed route gives 500 with "Failed to communicate with the AI" and leaves the cache unchanged; a successful route gives 200 with the reply and maps exactly the trimmed message to the reply with expiry now + 600000 ms |

## Left out

- Express setup, static file serving, `GET /` and `app.listen` (server.js:10-11, 32-37, 100-102): HTTP plumbing with no decisions in it.
- Environment loading and the construction of the OpenAI client (server.js:8, 13-16): configuration and a foreign library.
- The chat-completion and text-generation calls themselves: each is a function from the request to an outcome. The sampling temperature 0.7 is a float that is only passed through, so it is not part of `CompletionRequest`.
- A completion result with no `choices` array: the code then throws a TypeError when it reads `choices[0]`. The model treats it as a thrown outcome (`CompletionThrew`), which gives the same 500.
- Loading the model and tokenizer (server.js:22-30): only whether loading succeeded is modelled, through `LoadGptJ`.
- The internals of the `memory-cache` library: its `get`, its expiry timers and its check that the time-to-live is positive are not visible here. The handler never reads the cache, so only `put` is modelled, as a map update with expiry `now + time`.
- Time is an unbounded integer. JavaScript numbers hold millisecond timestamps exactly, so no rounding is modelled.
- Concurrent requests interleaving at `await` points: the model handles one request at a time.
- Logging through `console.error` and `console.log`.
- A `message` that is present, not null and not a string: `.trim()` then throws outside the `try`, and no response is defined. A null `message` stops the optional chain and is treated as absent (`None`), so it gets the 400. A `model` field that is a truthy non-string takes the default route, because strict equality with the two selector strings fails; a null `model` is falsy and is treated as absent (`None`). The model takes both fields as optional strings.
- JavaScript strings are UTF-16. The model's `char` is a Unicode scalar value. Every character `trim` removes lies in the Basic Multilingual Plane, so trimming is the same.
- main.py is not part of this model: it is a separate script that loads a text-generation pipeline and turns any exception into an error string.
