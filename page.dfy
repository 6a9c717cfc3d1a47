/** The chat page (app/page.tsx): the selected models, one message thread per
    model id, the loading flag and the best-response mark, and the handlers
    that send a message to every selected model, add and remove a model, and
    pick the text to copy. */
module Page {
  import opened Types
  import opened Upstream
  import Route

  const FailureText: string := "Failed to get response. Please try again."

  /** A character that `String.prototype.trim` removes: white space and line
      terminators. */
  predicate IsTrimmed(c: char)
  {
    || c == '\t' || c == '\n' || c == '\U{B}' || c == '\U{C}' || c == '\r' || c == ' '
    || c == '\U{A0}' || c == '\U{1680}' || ('\U{2000}' <= c <= '\U{200A}')
    || c == '\U{2028}' || c == '\U{2029}' || c == '\U{202F}' || c == '\U{205F}'
    || c == '\U{3000}' || c == '\U{FEFF}'
  }

  /** `message.trim()` is the empty string. */
  predicate Blank(message: string)
  {
    forall i :: 0 <= i < |message| ==> IsTrimmed(message[i])
  }

  /** `selectedModels.map(m => m.id)` */
  function Ids(models: seq<AIModel>): seq<string>
  {
    seq(|models|, i requires 0 <= i < |models| => models[i].id)
  }

  /** The id `ids[i]` occurs nowhere else in `ids`. */
  predicate OccursOnlyAt(ids: seq<string>, i: int)
  {
    0 <= i < |ids| && forall k :: 0 <= k < |ids| && k != i ==> ids[k] != ids[i]
  }

  predicate DistinctIds(models: seq<AIModel>)
  {
    forall i, j :: 0 <= i < j < |models| ==> models[i].id != models[j].id
  }

  /** `conversations[id] || []` */
  function Thread(conversations: map<string, seq<ChatMessage>>, id: string): seq<ChatMessage>
  {
    if id in conversations then conversations[id] else []
  }

  /** The effect of a forEach over the selected models that appends
      `messages[i]` to the thread of `ids[i]`, creating a missing thread. */
  function AppendEach(conversations: map<string, seq<ChatMessage>>, ids: seq<string>, messages: seq<ChatMessage>)
    : map<string, seq<ChatMessage>>
    requires |ids| == |messages|
  {
    if |ids| == 0 then conversations
    else
      var n := |ids| - 1;
      var before := AppendEach(conversations, ids[..n], messages[..n]);
      before[ids[n] := Thread(before, ids[n]) + [messages[n]]]
  }

  /** No thread disappears and only the named ones can appear. */
  lemma {:induction false} AppendEachKeys(conversations: map<string, seq<ChatMessage>>, ids: seq<string>,
                                          messages: seq<ChatMessage>)
    requires |ids| == |messages|
    ensures forall id :: id in AppendEach(conversations, ids, messages) <==> id in conversations || id in ids
  {
    if |ids| > 0 {
      var n := |ids| - 1;
      assert ids == ids[..n] + [ids[n]];
      AppendEachKeys(conversations, ids[..n], messages[..n]);
    }
  }

  lemma AppendEachStep(conversations: map<string, seq<ChatMessage>>, ids: seq<string>, messages: seq<ChatMessage>, k: nat)
    requires |ids| == |messages| && k < |ids|
    ensures var before := AppendEach(conversations, ids[..k], messages[..k]);
            AppendEach(conversations, ids[..k + 1], messages[..k + 1])
            == before[ids[k] := Thread(before, ids[k]) + [messages[k]]]
  {
    assert ids[..k + 1][..k] == ids[..k] && messages[..k + 1][..k] == messages[..k];
  }

  /** A thread that none of the appends names is left exactly as it was. */
  lemma {:induction false} AppendEachLeavesOthers(conversations: map<string, seq<ChatMessage>>, ids: seq<string>,
                                                  messages: seq<ChatMessage>, id: string)
    requires |ids| == |messages| && id !in ids
    ensures id in AppendEach(conversations, ids, messages) <==> id in conversations
    ensures Thread(AppendEach(conversations, ids, messages), id) == Thread(conversations, id)
  {
    if |ids| > 0 {
      var n := |ids| - 1;
      assert id !in ids[..n] && ids[n] != id by { assert ids == ids[..n] + [ids[n]]; }
      AppendEachLeavesOthers(conversations, ids[..n], messages[..n], id);
    }
  }

  /** A thread named once gains exactly its one message, at the end. */
  lemma {:induction false} AppendEachOnce(conversations: map<string, seq<ChatMessage>>, ids: seq<string>,
                                          messages: seq<ChatMessage>, i: nat)
    requires |ids| == |messages| && OccursOnlyAt(ids, i)
    ensures ids[i] in AppendEach(conversations, ids, messages)
    ensures AppendEach(conversations, ids, messages)[ids[i]] == Thread(conversations, ids[i]) + [messages[i]]
  {
    var n := |ids| - 1;
    if i == n {
      assert ids[i] !in ids[..n] by {
        forall k | 0 <= k < n ensures ids[..n][k] != ids[i] { assert ids[..n][k] == ids[k]; }
      }
      AppendEachLeavesOthers(conversations, ids[..n], messages[..n], ids[i]);
    } else {
      assert OccursOnlyAt(ids[..n], i) by {
        forall k | 0 <= k < n && k != i ensures ids[..n][k] != ids[..n][i] { assert ids[k] != ids[i]; }
      }
      AppendEachOnce(conversations, ids[..n], messages[..n], i);
      assert ids[n] != ids[i];
    }
  }

  /** The user message, once per selected model. */
  function Users(message: string, count: nat): seq<ChatMessage>
  {
    seq(count, _ => ChatMessage(User, message))
  }

  function RoleName(role: Role): string
  {
    match role
    case User => "user"
    case Assistant => "assistant"
  }

  /** `.map(msg => ({ role: msg.role, content: msg.content }))` */
  function Project(messages: seq<ChatMessage>): seq<Turn>
  {
    seq(|messages|, i requires 0 <= i < |messages| => Turn(RoleName(messages[i].role), messages[i].content))
  }

  /** `.slice(0, -1)` */
  function DropLast<T>(s: seq<T>): seq<T>
  {
    if |s| == 0 then [] else s[..|s| - 1]
  }

  /** The history sent for each selected model: its thread after the user
      message was appended, without the last message, projected to turns. */
  function HistoryFor(updated: map<string, seq<ChatMessage>>, models: seq<AIModel>): map<string, seq<Turn>>
  {
    map id | id in Ids(models) :: Project(DropLast(Thread(updated, id)))
  }

  /** With distinct selected ids, each model is sent exactly its thread as it
      was before this send: the new user message is not part of it, and no
      other model's thread is. */
  lemma {:induction false} HistoryIsThreadBeforeSend(conversations: map<string, seq<ChatMessage>>,
                                                     models: seq<AIModel>, message: string, i: nat)
    requires OccursOnlyAt(Ids(models), i)
    ensures var updated := AppendEach(conversations, Ids(models), Users(message, |models|));
            && models[i].id in HistoryFor(updated, models)
            && HistoryFor(updated, models)[models[i].id] == Project(Thread(conversations, models[i].id))
  {
    var ids := Ids(models);
    var updated := AppendEach(conversations, ids, Users(message, |models|));
    AppendEachOnce(conversations, ids, Users(message, |models|), i);
    assert ids[i] == models[i].id && ids[i] in ids;
    assert DropLast(Thread(updated, ids[i])) == Thread(conversations, ids[i]);
  }

  /** How the page's fetch of the chat endpoint ends: the parsed record of an
      OK answer, a non-OK status, or a throw (network or body parsing). */
  datatype ServerReply = Delivered(responses: map<string, Entry>) | StatusFailure(status: nat) | FetchFailure

  /** `response.error || response.content` */
  function ReplyText(entry: Entry): string
  {
    if Truthy(entry.error) then entry.error.value else entry.content
  }

  /** An OK answer holds an entry for every id it is read for. */
  predicate Covers(reply: ServerReply, ids: seq<string>)
  {
    reply.Delivered? ==> forall i :: 0 <= i < |ids| ==> ids[i] in reply.responses
  }

  /** The assistant message a model's thread receives for a reply. */
  function ReplyMessage(reply: ServerReply, id: string): ChatMessage
    requires reply.Delivered? ==> id in reply.responses
  {
    ChatMessage(Assistant, if reply.Delivered? then ReplyText(reply.responses[id]) else FailureText)
  }

  function Replies(reply: ServerReply, ids: seq<string>): seq<ChatMessage>
    requires Covers(reply, ids)
  {
    seq(|ids|, i requires 0 <= i < |ids| => ReplyMessage(reply, ids[i]))
  }

  /** The threads after one complete send: the user message to every selected
      thread, then one reply to every selected thread. */
  function AfterSend(conversations: map<string, seq<ChatMessage>>, ids: seq<string>, message: string, reply: ServerReply)
    : map<string, seq<ChatMessage>>
    requires Covers(reply, ids)
  {
    AppendEach(AppendEach(conversations, ids, Users(message, |ids|)), ids, Replies(reply, ids))
  }

  /** A selected model's thread grows by exactly two messages: the user
      message, then its own reply (the server's error or content, or the
      generic failure text). */
  lemma {:induction false} SendExtendsSelectedThread(conversations: map<string, seq<ChatMessage>>, ids: seq<string>,
                                                     message: string, reply: ServerReply, i: nat)
    requires Covers(reply, ids) && OccursOnlyAt(ids, i)
    ensures ids[i] in AfterSend(conversations, ids, message, reply)
    ensures AfterSend(conversations, ids, message, reply)[ids[i]]
         == Thread(conversations, ids[i]) + [ChatMessage(User, message), ReplyMessage(reply, ids[i])]
    ensures |AfterSend(conversations, ids, message, reply)[ids[i]]| == |Thread(conversations, ids[i])| + 2
  {
    var users := Users(message, |ids|);
    var updated := AppendEach(conversations, ids, users);
    AppendEachOnce(conversations, ids, users, i);
    AppendEachOnce(updated, ids, Replies(reply, ids), i);
  }

  /** A model that is not selected keeps its thread, or its lack of one. */
  lemma {:induction false} SendLeavesUnselectedThread(conversations: map<string, seq<ChatMessage>>, ids: seq<string>,
                                                      message: string, reply: ServerReply, id: string)
    requires Covers(reply, ids) && id !in ids
    ensures id in AfterSend(conversations, ids, message, reply) <==> id in conversations
    ensures Thread(AfterSend(conversations, ids, message, reply), id) == Thread(conversations, id)
  {
    var users := Users(message, |ids|);
    AppendEachLeavesOthers(conversations, ids, users, id);
    AppendEachLeavesOthers(AppendEach(conversations, ids, users), ids, Replies(reply, ids), id);
  }

  /** The JSON body the page posts to the chat endpoint. */
  datatype ChatRequest = ChatRequest(modelIds: seq<string>, message: string, conversationHistory: map<string, seq<Turn>>)

  /** The same body as the endpoint reads it. */
  function AsBody(request: ChatRequest): Route.RequestBody
  {
    Route.RequestBody(Route.IdsArray(request.modelIds), Route.MessageString(request.message), Some(request.conversationHistory))
  }

  /** What a send has captured when it awaits the endpoint: the selection of
      that moment and the body it posted. */
  datatype Pending = Pending(models: seq<AIModel>, request: ChatRequest)

  /** The text a user finally sees for one upstream call's result. */
  function ResultText(r: CallResult): string
  {
    match r
    case Content(text) => text
    case Raised(thrown) => ThrownText(thrown)
  }

  /** The text shown for a settled call is the call's content or the text of
      what it threw. */
  lemma SettledReplyText(id: string, r: CallResult)
    ensures ReplyText(Settle(id, r).ToEntry()) == ResultText(r)
  {
  }

  /** A request with ids and a non-empty message is answered for every id,
      and the text an id shows is what its own last call produced. */
  lemma {:induction false} EndpointAnswersEveryId(ids: seq<string>, message: string, history: map<string, seq<Turn>>,
                                                  key: Option<string>, backend: Backend, i: nat)
    requires message != "" && LastOccurrence(ids, i)
    ensures var answer := Route.Respond(Some(AsBody(ChatRequest(ids, message, history))), key, backend);
            && answer.Responses?
            && Covers(Delivered(answer.entries), ids)
            && ids[i] in answer.entries
            && ReplyText(answer.entries[ids[i]])
               == ResultText(Route.SendToModel(key, ids[i], message, HistoryOf(Some(history), ids[i]), backend, i))
  {
    var body := AsBody(ChatRequest(ids, message, history));
    assert Route.IdsValid(body) && Route.MessageValid(body);
    SettledReplyText(ids[i], Route.SendToModel(key, ids[i], message, HistoryOf(Some(history), ids[i]), backend, i));
  }

  /** Distinct model ids: each id occurs only at its own position. */
  lemma DistinctOccursOnlyAt(models: seq<AIModel>, i: nat)
    requires DistinctIds(models) && i < |models|
    ensures OccursOnlyAt(Ids(models), i) && LastOccurrence(Ids(models), i)
  {
    var ids := Ids(models);
    forall k | 0 <= k < |ids| && k != i ensures ids[k] != ids[i] {
      if k < i { assert models[k].id != models[i].id; } else { assert models[i].id != models[k].id; }
    }
  }

  /** A selected thread after a send whose parsed reply shows `text` for it. */
  lemma {:induction false} ThreadAfterAnswer(conversations: map<string, seq<ChatMessage>>, ids: seq<string>,
                                             message: string, entries: map<string, Entry>, i: nat, text: string)
    requires Covers(Delivered(entries), ids) && OccursOnlyAt(ids, i) && ReplyText(entries[ids[i]]) == text
    ensures Thread(AfterSend(conversations, ids, message, Delivered(entries)), ids[i])
         == Thread(conversations, ids[i]) + [ChatMessage(User, message), ChatMessage(Assistant, text)]
  {
    SendExtendsSelectedThread(conversations, ids, message, Delivered(entries), i);
  }

  /** End to end: for a non-blank message and distinct selected models, the
      endpoint accepts the request the page builds, answers every selected
      model, and each selected thread ends with the user message followed by
      what that model's own call produced, given that model's own history. */
  lemma {:induction false} SendThroughEndpoint(conversations: map<string, seq<ChatMessage>>, models: seq<AIModel>,
                                               message: string, key: Option<string>, backend: Backend, i: nat)
    requires !Blank(message) && DistinctIds(models) && i < |models|
    ensures var ids := Ids(models);
            var updated := AppendEach(conversations, ids, Users(message, |ids|));
            var answer := Route.Respond(Some(AsBody(ChatRequest(ids, message, HistoryFor(updated, models)))), key, backend);
            && answer.Responses?
            && Covers(Delivered(answer.entries), ids)
            && Thread(AfterSend(conversations, ids, message, Delivered(answer.entries)), ids[i])
               == Thread(conversations, ids[i])
                  + [ChatMessage(User, message),
                     ChatMessage(Assistant, ResultText(Route.SendToModel(key, ids[i], message,
                                                                         Project(Thread(conversations, ids[i])), backend, i)))]
  {
    var ids := Ids(models);
    var history := HistoryFor(AppendEach(conversations, ids, Users(message, |ids|)), models);
    assert message != "" by {
      if message == "" { assert Blank(message); }
    }
    DistinctOccursOnlyAt(models, i);
    HistoryIsThreadBeforeSend(conversations, models, message, i);
    var own := Project(Thread(conversations, ids[i]));
    assert HistoryOf(Some(history), ids[i]) == own;
    EndpointAnswersEveryId(ids, message, history, key, backend, i);
    var answer := Route.Respond(Some(AsBody(ChatRequest(ids, message, history))), key, backend);
    ThreadAfterAnswer(conversations, ids, message, answer.entries, i,
                      ResultText(Route.SendToModel(key, ids[i], message, own, backend, i)));
  }

  /** `.filter(m => m.role === 'assistant')` */
  function Assistants(messages: seq<ChatMessage>): (r: seq<ChatMessage>)
    ensures |r| <= |messages|
    ensures forall k :: 0 <= k < |r| ==> r[k].role == Assistant
  {
    if |messages| == 0 then []
    else
      var n := |messages| - 1;
      Assistants(messages[..n]) + (if messages[n].role == Assistant then [messages[n]] else [])
  }

  /** The filter keeps every assistant message of the thread and nothing
      else. */
  lemma {:induction false} AssistantsKeepExactly(messages: seq<ChatMessage>)
    ensures forall m :: m in Assistants(messages) <==> m in messages && m.role == Assistant
  {
    if |messages| > 0 {
      var n := |messages| - 1;
      assert messages == messages[..n] + [messages[n]];
      AssistantsKeepExactly(messages[..n]);
    }
  }

  /** `.pop()` read for its result */
  function LastOf<T>(s: seq<T>): Option<T>
  {
    if |s| == 0 then None else Some(s[|s| - 1])
  }

  /** `messages[i]` is an assistant message and no later one is. */
  predicate IsLatestAssistant(messages: seq<ChatMessage>, i: int)
  {
    0 <= i < |messages| && messages[i].role == Assistant
    && forall k :: i < k < |messages| ==> messages[k].role != Assistant
  }

  /** The message that copyResponse picks is the latest assistant message,
      and there is none exactly when the thread has no assistant message. */
  lemma {:induction false} PickedIsLatestAssistant(messages: seq<ChatMessage>) returns (i: int)
    ensures LastOf(Assistants(messages)).None? <==> forall k :: 0 <= k < |messages| ==> messages[k].role != Assistant
    ensures LastOf(Assistants(messages)).Some? ==>
              IsLatestAssistant(messages, i) && LastOf(Assistants(messages)).value == messages[i]
  {
    i := -1;
    if |messages| > 0 {
      var n := |messages| - 1;
      if messages[n].role == Assistant {
        i := n;
      } else {
        i := PickedIsLatestAssistant(messages[..n]);
        assert Assistants(messages) == Assistants(messages[..n]);
        if LastOf(Assistants(messages)).Some? {
          assert messages[..n][i] == messages[i];
          forall k | i < k < |messages| ensures messages[k].role != Assistant {
            if k < n { assert messages[..n][k] == messages[k]; }
          }
        } else {
          forall k | 0 <= k < |messages| ensures messages[k].role != Assistant {
            if k < n { assert messages[..n][k] == messages[k]; }
          }
        }
      }
    }
  }

  /** `{ ...prev, [id]: prev[id] || [] }`: an existing thread is kept as it
      is, a missing one starts empty, and no other thread changes. */
  function WithThread(conversations: map<string, seq<ChatMessage>>, id: string): (r: map<string, seq<ChatMessage>>)
    ensures r.Keys == conversations.Keys + {id}
    ensures id in conversations ==> r == conversations
    ensures id !in conversations ==> r == conversations[id := []]
  {
    conversations[id := Thread(conversations, id)]
  }

  /** `prev.filter(m => m.id !== modelId)`: every model with that id goes and
      every other model stays. */
  function Without(models: seq<AIModel>, id: string): (r: seq<AIModel>)
    ensures forall m :: m in r <==> m in models && m.id != id
  {
    if |models| == 0 then []
    else
      var n := |models| - 1;
      assert models == models[..n] + [models[n]];
      Without(models[..n], id) + (if models[n].id != id then [models[n]] else [])
  }

  /** Filtering keeps distinct ids distinct. */
  lemma {:induction false} WithoutKeepsDistinct(models: seq<AIModel>, id: string)
    requires DistinctIds(models)
    ensures DistinctIds(Without(models, id))
  {
    if |models| > 0 {
      var n := |models| - 1;
      var last := models[n];
      assert DistinctIds(models[..n]) by {
        forall i, j | 0 <= i < j < n ensures models[..n][i].id != models[..n][j].id {
          assert models[i].id != models[j].id;
        }
      }
      WithoutKeepsDistinct(models[..n], id);
      var kept := Without(models[..n], id);
      if last.id != id {
        forall i | 0 <= i < |kept| ensures kept[i].id != last.id {
          assert kept[i] in models[..n];
          var j :| 0 <= j < n && models[..n][j] == kept[i];
          assert models[j].id != models[n].id;
        }
        var r := kept + [last];
        forall i, j | 0 <= i < j < |r| ensures r[i].id != r[j].id {
          if j < |kept| { assert r[i] == kept[i] && r[j] == kept[j]; }
          else { assert r[i] == kept[i] && r[j] == last; }
        }
      } else {
        assert Without(models, id) == kept;
      }
    }
  }

  class Home {
    var selectedModels: seq<AIModel>
    var conversations: map<string, seq<ChatMessage>>
    var isLoading: bool
    var bestResponseId: Option<string>

    /** The page as first rendered, with the default selection. */
    constructor (defaults: seq<AIModel>)
      ensures selectedModels == defaults && conversations == map[]
      ensures !isLoading && bestResponseId == None
    {
      selectedModels := defaults;
      conversations := map[];
      isLoading := false;
      bestResponseId := None;
    }

    /** addModel: the model joins the selection at the end and has a thread. */
    method AddModel(model: AIModel)
      modifies this`selectedModels, this`conversations
      ensures selectedModels == old(selectedModels) + [model]
      ensures conversations == WithThread(old(conversations), model.id)
      ensures DistinctIds(old(selectedModels)) && model.id !in Ids(old(selectedModels)) ==> DistinctIds(selectedModels)
    {
      ghost var before := selectedModels;
      selectedModels := selectedModels + [model];
      conversations := WithThread(conversations, model.id);
      assert forall k :: 0 <= k < |before| ==> Ids(before)[k] == before[k].id;
    }

    /** removeModel: the model leaves the selection, its thread is kept, and
        a best-response mark that starts with its id is cleared. */
    method RemoveModel(modelId: string)
      modifies this`selectedModels, this`bestResponseId
      ensures selectedModels == Without(old(selectedModels), modelId)
      ensures old(bestResponseId).Some? && modelId <= old(bestResponseId).value ==> bestResponseId == None
      ensures !(old(bestResponseId).Some? && modelId <= old(bestResponseId).value) ==> bestResponseId == old(bestResponseId)
      ensures DistinctIds(old(selectedModels)) ==> DistinctIds(selectedModels)
    {
      if DistinctIds(selectedModels) {
        WithoutKeepsDistinct(selectedModels, modelId);
      }
      selectedModels := Without(selectedModels, modelId);
      if bestResponseId.Some? && modelId <= bestResponseId.value {
        bestResponseId := None;
      }
    }

    /** Removing a model and adding it back shows every thread as it was; a
        model that already had a thread finds the thread map unchanged. */
    method ReselectKeepsThreads(model: AIModel)
      modifies this`selectedModels, this`conversations, this`bestResponseId
      ensures forall id :: Thread(conversations, id) == Thread(old(conversations), id)
      ensures model.id in old(conversations) ==> conversations == old(conversations)
    {
      RemoveModel(model.id);
      AddModel(model);
    }

    /** sendMessage up to its await: unless the message is blank or nothing is
        selected, the loading flag is raised, the best mark cleared, the user
        message appended to every selected thread, and the request built. */
    method BeginSend(message: string) returns (pending: Option<Pending>)
      modifies this`conversations, this`isLoading, this`bestResponseId
      ensures Blank(message) || |selectedModels| == 0 ==>
        && pending == None
        && conversations == old(conversations) && isLoading == old(isLoading) && bestResponseId == old(bestResponseId)
      ensures !Blank(message) && |selectedModels| > 0 ==>
        && isLoading && bestResponseId == None
        && conversations == AppendEach(old(conversations), Ids(selectedModels), Users(message, |selectedModels|))
        && pending == Some(Pending(selectedModels, ChatRequest(Ids(selectedModels), message,
                                                               HistoryFor(conversations, selectedModels))))
    {
      if Blank(message) || |selectedModels| == 0 {
        return None;
      }
      isLoading := true;
      bestResponseId := None;
      var ids := Ids(selectedModels);
      var users := Users(message, |ids|);
      var before := conversations;
      var updated := conversations;
      var k := 0;
      while k < |selectedModels|
        invariant 0 <= k <= |selectedModels|
        invariant updated == AppendEach(before, ids[..k], users[..k])
        invariant isLoading && bestResponseId == None
      {
        var id := selectedModels[k].id;
        assert ids[k] == id && users[k] == ChatMessage(User, message);
        AppendEachStep(before, ids, users, k);
        updated := updated[id := Thread(updated, id) + [ChatMessage(User, message)]];
        k := k + 1;
      }
      assert ids[..|ids|] == ids && users[..|users|] == users;
      conversations := updated;
      pending := Some(Pending(selectedModels, ChatRequest(ids, message, HistoryFor(updated, selectedModels))));
    }

    /** sendMessage after its await: every model of the captured selection
        gets one assistant message, and loading ends. */
    method CompleteSend(pending: Pending, reply: ServerReply)
      requires Covers(reply, Ids(pending.models))
      modifies this`conversations, this`isLoading
      ensures !isLoading
      ensures conversations == AppendEach(old(conversations), Ids(pending.models), Replies(reply, Ids(pending.models)))
    {
      var ids := Ids(pending.models);
      var replies := Replies(reply, ids);
      var before := conversations;
      var updated := conversations;
      var k := 0;
      while k < |pending.models|
        invariant 0 <= k <= |pending.models|
        invariant updated == AppendEach(before, ids[..k], replies[..k])
      {
        var id := pending.models[k].id;
        assert ids[k] == id;
        var answer := if reply.Delivered? then ChatMessage(Assistant, ReplyText(reply.responses[id]))
                      else ChatMessage(Assistant, FailureText);
        assert replies[k] == answer;
        AppendEachStep(before, ids, replies, k);
        updated := updated[id := Thread(updated, id) + [answer]];
        k := k + 1;
      }
      assert ids[..|ids|] == ids && replies[..|replies|] == replies;
      conversations := updated;
      isLoading := false;
    }

    /** One whole send whose reply arrives before anything else changes the
        page. */
    method SendMessage(message: string, reply: ServerReply) returns (request: Option<ChatRequest>)
      requires Covers(reply, Ids(selectedModels))
      modifies this`conversations, this`isLoading, this`bestResponseId
      ensures Blank(message) || |selectedModels| == 0 ==>
        && request == None
        && conversations == old(conversations) && isLoading == old(isLoading) && bestResponseId == old(bestResponseId)
      ensures !Blank(message) && |selectedModels| > 0 ==>
        && !isLoading && bestResponseId == None
        && conversations == AfterSend(old(conversations), Ids(selectedModels), message, reply)
        && request == Some(ChatRequest(Ids(selectedModels), message,
             HistoryFor(AppendEach(old(conversations), Ids(selectedModels), Users(message, |selectedModels|)),
                        selectedModels)))
    {
      var pending := BeginSend(message);
      if pending.None? {
        return None;
      }
      CompleteSend(pending.value, reply);
      request := Some(pending.value.request);
    }

    /** copyResponse: the text put on the clipboard is that of the latest
        assistant message of the model's thread, and nothing is copied when
        the thread has none. */
    method CopyResponse(modelId: string) returns (copied: Option<string>)
      ensures copied.None? <==>
        forall k :: 0 <= k < |Thread(conversations, modelId)| ==> Thread(conversations, modelId)[k].role != Assistant
      ensures copied.Some? ==>
        exists i :: IsLatestAssistant(Thread(conversations, modelId), i)
                    && copied.value == Thread(conversations, modelId)[i].content
    {
      var thread := Thread(conversations, modelId);
      var last := LastOf(Assistants(thread));
      var i := PickedIsLatestAssistant(thread);
      copied := if last.Some? then Some(last.value.content) else None;
    }
  }
}
