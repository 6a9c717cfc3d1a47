# Meet.Ai multi-model dispatch, in Dafny

Meet.Ai sends one chat message to several language models at once and shows
their answers side by side. This project models the path that does this:

- **the upstream call.** Each copy of `sendMessageToModel` builds the message
  list: the system prompt, the model's own history, then the user turn. It
  sends one request and turns the outcome into content or a thrown error.
  There are two copies: the API route's and the library's. They differ in
  the upstream URL and in how they fall back for the text of a non-OK
  answer.
- **the coordinators.** The route's `POST` validates the body and sends one
  task per model id. Each task catches its own failure. The settled results
  are written into one response record in order. The library's
  `sendMessageToMultipleModels` does the same with a `reduce`.
- **the page's conversation state.** The `Home` class holds the selected
  models, one message thread per model id, the loading flag and the
  best-response mark. Its handlers are `sendMessage`, `addModel`,
  `removeModel` and `copyResponse`.

Modules:

- `Types` (`types.dfy`) holds the record shapes and the wire shapes of one
  upstream exchange.
- `Upstream` (`upstream.dfy`) holds what both copies of the call do alike:
  - the message list and the request;
  - reading an answer;
  - the per-model catch;
  - the fold into a record keyed by model id, where the last duplicate wins.
- `Route` (`route.dfy`) models `app/api/chat/route.ts`.
- `OpenRouter` (`openrouter.dfy`) models `lib/openrouter.ts`.
- `Page` (`page.dfy`) models `app/page.tsx`.

The remote service is a parameter. A `Backend` maps the index of a call within
one dispatch and the request that call carries to the call's outcome:
completed with a parsed body, rejected with a status and an error body, or
thrown. "No request is sent" is stated as "the result does not depend on the
backend". `Promise.all` over tasks that each catch their own error gives the
same record as a sequential map followed by the fold, and that is how the
model computes it.

`sendMessage` awaits the endpoint in the middle, so the page method is split
in two:

- `BeginSend` covers the synchronous part up to the request it builds.
- `CompleteSend` covers the state updates after the reply and the `finally`.

`SendMessage` composes them for a reply that arrives before anything else
changes the page. The endpoint's reply is an input:

- a parsed record;
- a non-OK status;
- a thrown fetch.

`removeModel` clears the best mark when the mark merely starts with the removed
id, exactly as the source tests it. With the `<id>-<timestamp>` marks the page
writes, removing a model whose id is a prefix of another selected model's id
would also clear that other model's mark. No two ids in the shipped catalogue
are in that relation.

## Model

| member | source | states |
|---|---|---|
| Upstream.BuildMessages | app/api/chat/route.ts:22-26 | The list is the system prompt, then the history unchanged and in order, then one user turn with the message; its length is the history's plus two. |
| Upstream.DecimalDenotes | app/api/chat/route.ts:55 | The status code in the error text is rendered as the decimal digits that denote it, with no leading zero. |
| Upstream.ApiErrorTextDeterminesDetail | app/api/chat/route.ts:55 | For one status, two error texts are equal exactly when their details are, so the text carries its detail unambiguously. |
| Upstream.RateLimitedErrorText | app/api/chat/route.ts:55 | A 500 answer whose detail is `rate limited` reads `API Error: 500 - rate limited`. |
| Upstream.Normalise | app/api/chat/route.ts:48-64 | Content arises exactly from an OK answer with at least one choice and is the first choice's content. A thrown value is rethrown unchanged. A non-OK answer throws `API Error: <status> - <detail>`. An OK answer with missing or empty choices throws `No response generated`. |
| Upstream.Settle | app/api/chat/route.ts:87-98 | A task keeps its model id and has no error exactly when the call returned content. A throw becomes empty content with the Error's message, or `Unknown error` for a non-Error. |
| Upstream.Collect | lib/openrouter.ts:79-85 | The folded record has as keys exactly the ids that occur among the results. |
| Upstream.CollectLastWins | app/api/chat/route.ts:103-109 | Each id's entry is the content and error of its last result; an earlier duplicate is overwritten. |
| Route.ErrorDetail | app/api/chat/route.ts:49-55 | The text of a non-OK answer is the nested `error.message` if truthy, else the top-level `message` if truthy, else `Unknown error`; it is never empty. |
| Route.SendToModel | app/api/chat/route.ts:7-69 | With no key, or an empty one, the call throws the configuration error and sends nothing. Otherwise it sends exactly one bearer-authorised request to the completions URL, with the built messages and fixed sampling parameters, and normalises the answer. |
| Route.Respond | app/api/chat/route.ts:71-119 | A body that does not parse gives 500. Bad `modelIds` (absent, not an array, empty) gives 400 `modelIds array is required`. A bad `message` (absent, empty, not a string) gives 400 `message string is required`. Neither 400 consults the backend. A valid body gives a record whose keys are exactly the requested ids, each entry being the settled result of that id's last task, with that id's own history or `[]`. |
| Route.Post | app/api/chat/route.ts:71-119 | The early returns and the in-place forEach over the results produce exactly `Respond`'s answer. |
| Route.LastOccurrenceOf | app/api/chat/route.ts:103-109 | Every requested id has a last position, which is the task whose result the record keeps. |
| Route.MissingKeyFailsEachModel | app/api/chat/route.ts:12-14 | Without a key, a valid request still answers 200. Every requested id gets empty content and the configuration error, whatever the backend. |
| Route.EntryDependsOnlyOnItsOwnCall | app/api/chat/route.ts:87-109 | Two backends that agree on one id's last call give that id the same entry, however they answer the other models. |
| Route.EntryOfLastCall | app/api/chat/route.ts:87-109 | The entry of an id is its last call's content with no error, or empty content with the text of what that call threw. |
| Route.TwoModelAnswered | app/api/chat/route.ts:58-91 | When the first of two models receives a completion, its entry is the first choice's content with no error. |
| Route.TwoModelRejected | app/api/chat/route.ts:48-98 | When the second of two models is rejected with a status and a nested message, its entry is empty content with `API Error: <status> - <message>`. |
| Route.TwoModelKeys | app/api/chat/route.ts:103-111 | A request for two models is answered with exactly those two keys. |
| Route.OneFailureLeavesTheOtherIntact | app/api/chat/route.ts:87-111 | With one model answering and the other rejected, the whole answer is exactly the success entry for the first and the API error for the second. |
| OpenRouter.ErrorDetail | lib/openrouter.ts:40-43 | The text of a non-OK answer is the nested `error.message` if truthy, else `Unknown error`; the top-level `message` is never read. |
| OpenRouter.SendToModel | lib/openrouter.ts:7-56 | With no key the call throws the configuration error and sends nothing. Otherwise it sends one request to the library's URL and normalises the answer with the narrower fallback. |
| OpenRouter.SendToMultipleModels | lib/openrouter.ts:58-86 | Never fails as a whole. The keys are exactly the given ids, so no ids give an empty record. Each entry is the settled result of the id's last task, with a missing history map or entry read as `[]`. |
| OpenRouter.CopiesDifferOnlyOnTopLevelMessage | lib/openrouter.ts:40-43 | The two copies normalise an outcome differently exactly when it is a non-OK answer without a truthy nested message but with a truthy top-level message other than `Unknown error`. |
| Page.AppendEachKeys | app/page.tsx:64-70 | Appending to each selected thread removes no thread and adds only selected ids. |
| Page.AppendEachStep | app/page.tsx:65-69 | One more iteration of the forEach appends one message to one thread, creating it if absent. |
| Page.AppendEachLeavesOthers | app/page.tsx:64-70 | A thread the forEach does not name keeps its presence and its messages. |
| Page.AppendEachOnce | app/page.tsx:64-70 | A thread named once ends with its old messages followed by exactly its one new message. |
| Page.HistoryIsThreadBeforeSend | app/page.tsx:75-83 | With distinct ids, the history sent for a selected model is its thread from before this send, projected to role and content, so the new user message is not part of it. |
| Page.SendExtendsSelectedThread | app/page.tsx:64-147 | After a send, each selected thread is its old thread plus the user message and then its one reply: `error` if truthy, else `content`; or the failure text when the request failed. It grows by exactly two. |
| Page.SendLeavesUnselectedThread | app/page.tsx:64-147 | A model that is not selected keeps its thread, or its lack of one, across a send. |
| Page.SettledReplyText | app/page.tsx:112 | The text the page shows for a settled task is that call's content or the text of what it threw. |
| Page.EndpointAnswersEveryId | app/page.tsx:86-112 | The endpoint answers every id of a request with a non-empty message. The text each id shows is what its own last call produced. |
| Page.DistinctOccursOnlyAt | app/page.tsx:92 | Distinct selected models give each id exactly one position in `modelIds`. |
| Page.ThreadAfterAnswer | app/page.tsx:105-124 | A selected thread whose entry in the parsed reply shows some text ends with the user message and then an assistant message with that text. |
| Page.SendThroughEndpoint | app/page.tsx:50-124 | The route accepts the request the page builds. Each selected thread ends with the user message and then the answer its model's call gave, given that thread as history. |
| Page.AssistantsKeepExactly | app/page.tsx:155-156 | The filter keeps every assistant message of the thread and nothing else. |
| Page.PickedIsLatestAssistant | app/page.tsx:154-157 | The message `pop` picks is the thread's latest assistant message. There is none exactly when the thread has no assistant message. |
| Page.WithThread | app/page.tsx:37-40 | The thread map gains the id. An existing thread is kept as it is, a missing one starts empty, and nothing else changes. |
| Page.Without | app/page.tsx:44 | Exactly the models with a different id stay. |
| Page.WithoutKeepsDistinct | app/page.tsx:44 | Filtering the selection keeps distinct ids distinct. |
| Page.Home.constructor | app/page.tsx:12-15 | The page starts with the default selection, no threads, not loading and no best mark. |
| Page.Home.AddModel | app/page.tsx:34-41 | The model joins the selection at the end and gets a thread without losing an existing one; an unselected model keeps the ids distinct. |
| Page.Home.RemoveModel | app/page.tsx:43-48 | Every model with the id leaves the selection and threads are untouched. The best mark is cleared exactly when it starts with the id. |
| Page.Home.ReselectKeepsThreads | app/page.tsx:34-48 | Removing a model and adding it back shows every thread as before, from any state; a model that already had a thread finds the thread map unchanged. |
| Page.Home.BeginSend | app/page.tsx:50-96 | A blank message or an empty selection changes nothing and sends nothing. Otherwise loading starts, the best mark is cleared, the user message is appended to every selected thread, and the request carries the ids, the message and each thread's history. |
| Page.Home.CompleteSend | app/page.tsx:98-150 | Every model of the captured selection gets one assistant message, its reply or the failure text, and loading ends. |
| Page.Home.SendMessage | app/page.tsx:50-151 | A whole send leaves the threads as `AfterSend` describes, loading off and the best mark cleared, or changes nothing for a blank message or an empty selection. |
| Page.Home.CopyResponse | app/page.tsx:153-167 | The copied text is the content of the thread's latest assistant message, and nothing is copied when there is none. |

## Left out

- The network: both `fetch` calls are inputs, the upstream one as a `Backend` and the page's one as a `ServerReply`. So are the environment variable (an optional key) and parsing of the request and answer bodies (parsed values, or a failure).
- `Promise.all` scheduling: the tasks are independent and each catches its own error, so a sequential map then fold gives the same record.
- Console logging, the API-key diagnostics and the `GET` endpoint of the route: they are side effects only.
- The extra request headers (`Content-Type`, `HTTP-Referer`, `X-Title`) and the HTTP method: they are constants that no outcome depends on.
- JSON values of unexpected shape. A `null` error body and a choice without `message` raise a TypeError in the source, which the model does not produce. Non-string ids are turned into string keys when indexing, so `1` and `"1"` share one entry, where the model's ids are strings from the start. Non-string or `null` content passes through to the entry unchanged, where the model's content is always a string.
- Keys such as `__proto__` that JavaScript objects treat specially: a record is a plain map here.
- Message ids and timestamps (`generateId`, `new Date()`): a message is its role and content.
- The catalogue fields of a model other than its id, and the catalogue itself: only ids take part in dispatch.
- `pickBest`, the full-screen toggle, the theme, the particle layout and the presentation components: they do not touch the dispatch path, and the best mark embeds `Date.now()`.
- The clipboard write in `copyResponse` and its failure: the method returns the text it would write.
- Page.Home.CompleteSend: requires that a parsed reply holds an entry for every selected id. The source reads `responses[model.id].error` inside a state updater and a missing entry throws outside the try.
- Page.Home.SendMessage: assumes no other handler changes the page between the request and the reply. React may interleave them; the two halves are available separately as `BeginSend` and `CompleteSend`.
- Page.AppendEachOnce: the "exactly one message" lemmas assume the selected ids are distinct, which the page's selector guarantees by only offering unselected models. A duplicated id would get the message once per occurrence.
