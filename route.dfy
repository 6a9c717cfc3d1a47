/** The chat endpoint (app/api/chat/route.ts): its own copy of
    sendMessageToModel, the validation of the request body, and the fan-out
    over the requested models whose settled results are written into the
    response record one by one. */
module Route {
  import opened Types
  import opened Upstream

  const CompletionsUrl: string := "https://openrouter.ai/api/v1/chat/completions"
  const ModelIdsRequired: string := "modelIds array is required"
  const MessageRequired: string := "message string is required"
  const InternalError: string := "Internal server error"

  /** The text of a non-OK answer: the nested `error.message`, else the
      top-level `message`, else a generic text; it is never empty. */
  function ErrorDetail(errorData: ErrorBody): (d: string)
    ensures d != ""
    ensures Truthy(errorData.errorMessage) ==> d == errorData.errorMessage.value
    ensures !Truthy(errorData.errorMessage) && Truthy(errorData.message) ==> d == errorData.message.value
    ensures !Truthy(errorData.errorMessage) && !Truthy(errorData.message) ==> d == UnknownError
  {
    if Truthy(errorData.errorMessage) then errorData.errorMessage.value
    else if Truthy(errorData.message) then errorData.message.value
    else UnknownError
  }

  /** One upstream call, sent as call number `call` of its dispatch. Without
      a key it throws before any request exists; with one it sends exactly
      one request to the completions endpoint, carrying the system prompt,
      the model's history and the new message, and normalises the answer. */
  function SendToModel(key: Option<string>, modelId: string, message: string, history: seq<Turn>,
                       backend: Backend, call: nat): (r: CallResult)
    ensures !KeyConfigured(key) ==> r == Raised(ErrorObject(MissingKeyMessage))
    ensures KeyConfigured(key) ==>
      r == Normalise(backend(call, BuildRequest(CompletionsUrl, key.value, modelId, message, history)), ErrorDetail)
  {
    if !KeyConfigured(key) then Raised(ErrorObject(MissingKeyMessage))
    else
      var request := BuildRequest(CompletionsUrl, key.value, modelId, message, history);
      Normalise(backend(call, request), ErrorDetail)
  }

  /** `modelIds`: missing or falsy, some other non-array value, or an array. */
  datatype IdsField = IdsAbsent | IdsNotArray | IdsArray(ids: seq<string>)

  /** `message`: missing or falsy, some other non-string value, or a string. */
  datatype MessageField = MessageAbsent | MessageNotString | MessageString(text: string)

  datatype RequestBody = RequestBody(
    modelIds: IdsField,
    message: MessageField,
    conversationHistory: Option<map<string, seq<Turn>>>)

  /** A JSON error with its status, or the per-model record with status 200. */
  datatype PostResponse = Rejection(status: nat, error: string) | Responses(entries: map<string, Entry>)

  predicate IdsValid(body: RequestBody)
  {
    body.modelIds.IdsArray? && |body.modelIds.ids| > 0
  }

  predicate MessageValid(body: RequestBody)
  {
    body.message.MessageString? && body.message.text != ""
  }

  /** `modelIds.map(...)` awaited together: task i sends call i for the i-th
      id with that id's own history and settles to data. */
  function Results(ids: seq<string>, message: string, history: Option<map<string, seq<Turn>>>,
                   key: Option<string>, backend: Backend): seq<ModelResult>
  {
    seq(|ids|, i requires 0 <= i < |ids| =>
      Settle(ids[i], SendToModel(key, ids[i], message, HistoryOf(history, ids[i]), backend, i)))
  }

  /** The answer of POST. A body that does not parse gives 500; a bad
      `modelIds` or `message` gives 400 and consults no backend at all;
      otherwise the record has exactly the requested ids as keys, and each
      id's entry is the settled result of its last task alone. */
  function Respond(body: Option<RequestBody>, key: Option<string>, backend: Backend): (r: PostResponse)
    ensures body.None? ==> r == Rejection(500, InternalError)
    ensures body.Some? && !IdsValid(body.value) ==> r == Rejection(400, ModelIdsRequired)
    ensures body.Some? && IdsValid(body.value) && !MessageValid(body.value) ==> r == Rejection(400, MessageRequired)
    ensures body.Some? && IdsValid(body.value) && MessageValid(body.value) ==>
      var ids := body.value.modelIds.ids;
      && r.Responses?
      && (forall id :: id in r.entries <==> id in ids)
      && (forall j :: LastOccurrence(ids, j) ==>
            r.entries[ids[j]] == Settle(ids[j], SendToModel(key, ids[j], body.value.message.text,
                                          HistoryOf(body.value.conversationHistory, ids[j]), backend, j)).ToEntry())
  {
    if body.None? then Rejection(500, InternalError)
    else if !IdsValid(body.value) then Rejection(400, ModelIdsRequired)
    else if !MessageValid(body.value) then Rejection(400, MessageRequired)
    else
      var ids := body.value.modelIds.ids;
      var results := Results(ids, body.value.message.text, body.value.conversationHistory, key, backend);
      assert IdsOf(results) == ids;
      forall j | LastOccurrence(ids, j)
        ensures Collect(results)[ids[j]] == results[j].ToEntry()
      {
        CollectLastWins(results, j);
      }
      Responses(Collect(results))
  }

  /** POST: validate, await every task, then fill the record in place in
      result order. */
  method Post(body: Option<RequestBody>, key: Option<string>, backend: Backend) returns (res: PostResponse)
    ensures res == Respond(body, key, backend)
  {
    if body.None? {
      return Rejection(500, InternalError);
    }
    var request := body.value;
    if !request.modelIds.IdsArray? || |request.modelIds.ids| == 0 {
      return Rejection(400, ModelIdsRequired);
    }
    if !request.message.MessageString? || request.message.text == "" {
      return Rejection(400, MessageRequired);
    }
    var results := Results(request.modelIds.ids, request.message.text, request.conversationHistory, key, backend);
    var responses: map<string, Entry> := map[];
    var k := 0;
    while k < |results|
      invariant 0 <= k <= |results|
      invariant responses == Collect(results[..k])
    {
      assert results[..k + 1][..k] == results[..k];
      responses := responses[results[k].modelId := Entry(results[k].content, results[k].error)];
      k := k + 1;
    }
    assert results[..|results|] == results;
    return Responses(responses);
  }

  /** A valid position of `id` that no later position repeats. */
  lemma {:induction false} LastOccurrenceOf(ids: seq<string>, id: string) returns (j: nat)
    requires id in ids
    ensures LastOccurrence(ids, j) && ids[j] == id
    decreases |ids|
  {
    var n := |ids| - 1;
    if ids[n] == id {
      j := n;
    } else {
      assert id in ids[..n] by {
        var i :| 0 <= i < |ids| && ids[i] == id;
        assert ids[..n][i] == id;
      }
      j := LastOccurrenceOf(ids[..n], id);
      assert ids[..n][j] == ids[j];
      forall k | j < k < |ids| ensures ids[k] != ids[j] {
        if k < n { assert ids[..n][k] == ids[k]; }
      }
    }
  }

  /** With no key configured, a valid request still answers every requested
      id, each with empty content and the configuration error, and whatever
      the backend would have answered plays no part. */
  lemma {:induction false} MissingKeyFailsEachModel(body: RequestBody, key: Option<string>, backend: Backend)
    requires IdsValid(body) && MessageValid(body) && !KeyConfigured(key)
    ensures Respond(Some(body), key, backend)
         == Responses(map id | id in body.modelIds.ids :: Entry("", Some(MissingKeyMessage)))
  {
    var ids := body.modelIds.ids;
    var r := Respond(Some(body), key, backend);
    var expected := map id | id in ids :: Entry("", Some(MissingKeyMessage));
    forall id | id in ids ensures id in r.entries && r.entries[id] == expected[id] {
      var j := LastOccurrenceOf(ids, id);
      EntryOfLastCall(body, key, backend, j);
    }
    assert r.entries.Keys == expected.Keys;
  }

  /** Failure isolation: an id's entry is fixed by the answer to its own last
      call, so backends that agree on that one call give it the same entry,
      however they answer every other model. */
  lemma EntryDependsOnlyOnItsOwnCall(body: RequestBody, key: Option<string>, b1: Backend, b2: Backend, j: nat)
    requires IdsValid(body) && MessageValid(body)
    requires LastOccurrence(body.modelIds.ids, j)
    requires KeyConfigured(key) ==>
      var id := body.modelIds.ids[j];
      var request := BuildRequest(CompletionsUrl, key.value, id, body.message.text, HistoryOf(body.conversationHistory, id));
      b1(j, request) == b2(j, request)
    ensures Respond(Some(body), key, b1).entries[body.modelIds.ids[j]]
         == Respond(Some(body), key, b2).entries[body.modelIds.ids[j]]
  {
  }

  /** The entry of an id whose last call returned content, or threw. */
  lemma {:induction false} EntryOfLastCall(body: RequestBody, key: Option<string>, backend: Backend, j: nat)
    requires IdsValid(body) && MessageValid(body) && LastOccurrence(body.modelIds.ids, j)
    ensures var r := Respond(Some(body), key, backend);
            var id := body.modelIds.ids[j];
            var call := SendToModel(key, id, body.message.text, HistoryOf(body.conversationHistory, id), backend, j);
            && r.Responses? && id in r.entries
            && (call.Content? ==> r.entries[id] == Entry(call.text, None))
            && (call.Raised? ==> r.entries[id] == Entry("", Some(ThrownText(call.thrown))))
  {
  }

  lemma TwoKeyMap(m: map<string, Entry>, a: string, b: string)
    requires m.Keys == {a, b}
    ensures m == map[a := m[a], b := m[b]]
  {
  }

  /** The sample two-model dispatch: distinct ids, a key, call 0 answers
      `text`, call 1 is rejected with `status` and a nested `detail`. */
  ghost predicate TwoModelScenario(body: RequestBody, key: Option<string>, backend: Backend,
                             text: string, status: nat, detail: string)
  {
    && IdsValid(body) && MessageValid(body) && KeyConfigured(key)
    && |body.modelIds.ids| == 2 && body.modelIds.ids[0] != body.modelIds.ids[1]
    && (forall request :: backend(0, request) == Completed(CompletionBody(Some([Choice(0, Turn("assistant", text), "stop")]))))
    && (forall request :: backend(1, request) == Rejected(status, ErrorBody(Some(detail), None)))
    && detail != ""
  }

  lemma {:induction false} TwoModelAnswered(body: RequestBody, key: Option<string>, backend: Backend,
                                            text: string, status: nat, detail: string)
    requires TwoModelScenario(body, key, backend, text, status, detail)
    ensures var r := Respond(Some(body), key, backend);
            && r.Responses? && body.modelIds.ids[0] in r.entries
            && r.entries[body.modelIds.ids[0]] == Entry(text, None)
  {
    assert LastOccurrence(body.modelIds.ids, 0);
    EntryOfLastCall(body, key, backend, 0);
  }

  lemma {:induction false} TwoModelRejected(body: RequestBody, key: Option<string>, backend: Backend,
                                            text: string, status: nat, detail: string)
    requires TwoModelScenario(body, key, backend, text, status, detail)
    ensures var r := Respond(Some(body), key, backend);
            && r.Responses? && body.modelIds.ids[1] in r.entries
            && r.entries[body.modelIds.ids[1]] == Entry("", Some(ApiErrorText(status, detail)))
  {
    assert LastOccurrence(body.modelIds.ids, 1);
    EntryOfLastCall(body, key, backend, 1);
  }

  lemma {:induction false} TwoModelKeys(body: RequestBody, key: Option<string>, backend: Backend)
    requires IdsValid(body) && MessageValid(body) && |body.modelIds.ids| == 2
    ensures var r := Respond(Some(body), key, backend);
            r.Responses? && r.entries.Keys == {body.modelIds.ids[0], body.modelIds.ids[1]}
  {
    var r := Respond(Some(body), key, backend);
    KeysOfPair(r.entries, body.modelIds.ids);
  }

  lemma KeysOfPair(m: map<string, Entry>, ids: seq<string>)
    requires |ids| == 2 && forall id :: id in m <==> id in ids
    ensures m.Keys == {ids[0], ids[1]}
  {
    assert ids == [ids[0], ids[1]];
  }

  /** Two models, the first answering and the second rejected by the service:
      the failure is recorded in its own entry and the success is intact. */
  lemma {:induction false} OneFailureLeavesTheOtherIntact(body: RequestBody, key: Option<string>, backend: Backend,
                                                          text: string, status: nat, detail: string)
    requires TwoModelScenario(body, key, backend, text, status, detail)
    ensures Respond(Some(body), key, backend)
         == Responses(map[body.modelIds.ids[0] := Entry(text, None),
                          body.modelIds.ids[1] := Entry("", Some(ApiErrorText(status, detail)))])
  {
    var r := Respond(Some(body), key, backend);
    TwoModelKeys(body, key, backend);
    TwoModelAnswered(body, key, backend, text, status, detail);
    TwoModelRejected(body, key, backend, text, status, detail);
    TwoKeyMap(r.entries, body.modelIds.ids[0], body.modelIds.ids[1]);
  }
}
