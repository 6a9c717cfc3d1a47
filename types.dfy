/** Record shapes of the chat application (types/index.ts) and the wire shapes
    of one upstream chat-completion call, reduced to the fields that the
    dispatch path reads or writes. */
module Types {

  datatype Option<+T> = None | Some(value: T)

  /** JavaScript truthiness of an optional string: present and not "". */
  predicate Truthy(s: Option<string>)
  {
    s.Some? && s.value != ""
  }

  /** The role of a message shown in a model's thread. */
  datatype Role = User | Assistant

  /** A ChatMessage without its generated id and its timestamp. */
  datatype ChatMessage = ChatMessage(role: Role, content: string)

  /** A catalogue model; only its id takes part in dispatch, the other
      catalogue fields are presentation. */
  datatype AIModel = AIModel(id: string)

  /** `{ role, content }` as it travels in a request body. */
  datatype Turn = Turn(role: string, content: string)

  /** `{ content, error? }`: one entry of a dispatch result. */
  datatype Entry = Entry(content: string, error: Option<string>)

  /** One element of `choices` in an OpenRouterResponse. */
  datatype Choice = Choice(index: int, message: Turn, finishReason: string)

  /** A parsed successful completion body; `choices` is None when the field
      is missing or null. */
  datatype CompletionBody = CompletionBody(choices: Option<seq<Choice>>)

  /** The parsed body of a non-OK answer: `error.message` and `message`.
      A body that does not parse is read as `{}`, that is ErrorBody(None, None). */
  datatype ErrorBody = ErrorBody(errorMessage: Option<string>, message: Option<string>)

  /** What a `throw` carries: an Error with its message, or any other value. */
  datatype Thrown = ErrorObject(message: string) | NonError

  /** How one upstream HTTP exchange ends. */
  datatype UpstreamOutcome =
    | Completed(body: CompletionBody)         // response.ok and the body parsed
    | Rejected(status: nat, errorData: ErrorBody)  // !response.ok
    | Failed(thrown: Thrown)                  // fetch, or parsing an OK body, threw

  /** What one sendMessageToModel call settles to: its returned content, or
      the value it throws. */
  datatype CallResult = Content(text: string) | Raised(thrown: Thrown)

  /** The request one sendMessageToModel call sends: target, bearer header and
      the JSON body (model, messages, temperature, max_tokens, stream). */
  datatype UpstreamRequest = UpstreamRequest(
    url: string,
    authorization: string,
    model: string,
    messages: seq<Turn>,
    temperature: real,
    maxTokens: nat,
    stream: bool)

  /** The remote service as seen by one dispatch: `backend(i, req)` is how
      the i-th call of the dispatch, which carries `req`, ends. */
  type Backend = (nat, UpstreamRequest) -> UpstreamOutcome
}
