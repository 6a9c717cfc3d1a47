/** The library copy of the dispatch (lib/openrouter.ts): a second
    sendMessageToModel, whose request goes to another URL and whose error
    text falls back more narrowly, and sendMessageToMultipleModels, which
    maps every id to a task and reduces the settled tasks into one record. */
module OpenRouter {
  import opened Types
  import opened Upstream
  import Route

  const ActivityUrl: string := "https://openrouter.ai/activity"

  /** The text of a non-OK answer: the nested `error.message`, else a generic
      text; a top-level `message` is never consulted. */
  function ErrorDetail(errorData: ErrorBody): (d: string)
    ensures d != ""
    ensures Truthy(errorData.errorMessage) ==> d == errorData.errorMessage.value
    ensures !Truthy(errorData.errorMessage) ==> d == UnknownError
  {
    if Truthy(errorData.errorMessage) then errorData.errorMessage.value else UnknownError
  }

  /** One upstream call, sent as call number `call`: no request without a
      key, otherwise exactly one request with the system prompt, the history
      and the new message, and the answer normalised. */
  function SendToModel(key: Option<string>, modelId: string, message: string, history: seq<Turn>,
                       backend: Backend, call: nat): (r: CallResult)
    ensures !KeyConfigured(key) ==> r == Raised(ErrorObject(MissingKeyMessage))
    ensures KeyConfigured(key) ==>
      r == Normalise(backend(call, BuildRequest(ActivityUrl, key.value, modelId, message, history)), ErrorDetail)
  {
    if !KeyConfigured(key) then Raised(ErrorObject(MissingKeyMessage))
    else
      var request := BuildRequest(ActivityUrl, key.value, modelId, message, history);
      Normalise(backend(call, request), ErrorDetail)
  }

  /** `modelIds.map(...)` awaited together; `history` is None when the caller
      leaves the parameter out, which then defaults to `{}`. */
  function Results(ids: seq<string>, message: string, history: Option<map<string, seq<Turn>>>,
                   key: Option<string>, backend: Backend): seq<ModelResult>
  {
    seq(|ids|, i requires 0 <= i < |ids| =>
      Settle(ids[i], SendToModel(key, ids[i], message, HistoryOf(history, ids[i]), backend, i)))
  }

  /** Never fails as a whole: the record has exactly the given ids as keys
      (none for no ids, since nothing is validated here), and each id's entry
      is the settled result of its last task. */
  function SendToMultipleModels(ids: seq<string>, message: string, history: Option<map<string, seq<Turn>>>,
                                key: Option<string>, backend: Backend): (r: map<string, Entry>)
    ensures forall id :: id in r <==> id in ids
    ensures |ids| == 0 ==> r == map[]
    ensures forall j :: LastOccurrence(ids, j) ==>
      r[ids[j]] == Settle(ids[j], SendToModel(key, ids[j], message, HistoryOf(history, ids[j]), backend, j)).ToEntry()
  {
    var results := Results(ids, message, history, key, backend);
    assert IdsOf(results) == ids;
    forall j | LastOccurrence(ids, j)
      ensures Collect(results)[ids[j]] == results[j].ToEntry()
    {
      CollectLastWins(results, j);
    }
    Collect(results)
  }

  /** The two copies turn an upstream outcome into the same result except for
      a non-OK answer that carries only a top-level `message` (other than the
      generic text): the route reports that message, the library does not. */
  lemma {:induction false} CopiesDifferOnlyOnTopLevelMessage(o: UpstreamOutcome)
    ensures Normalise(o, ErrorDetail) != Normalise(o, Route.ErrorDetail)
        <==> o.Rejected? && !Truthy(o.errorData.errorMessage) && Truthy(o.errorData.message)
             && o.errorData.message.value != UnknownError
  {
    if o.Rejected? {
      ApiErrorTextDeterminesDetail(o.status, ErrorDetail(o.errorData), Route.ErrorDetail(o.errorData));
    }
  }
}
