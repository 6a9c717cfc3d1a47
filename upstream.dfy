/** What the two copies of sendMessageToModel (the API route's and the
    library's) and the two coordinators around them do alike: the message
    list, the outgoing request, reading a completion body, the per-model
    catch, and folding the settled calls into the response record. */
module Upstream {
  import opened Types

  const SystemPrompt: string := "You are a helpful assistant. Always reply in clear English only. If the user input is not in English, briefly translate it and answer in English. Keep responses concise unless asked for detail."
  const MissingKeyMessage: string := "OPENROUTER_API_KEY is not set in the environment variables."
  const NoResponseMessage: string := "No response generated"
  const UnknownError: string := "Unknown error"

  /** `!OPENROUTER_API_KEY` fails for an unset and for an empty variable. */
  predicate KeyConfigured(key: Option<string>)
  {
    Truthy(key)
  }

  /** The system instruction, then the model's own history in order, then the
      new user turn. */
  function BuildMessages(history: seq<Turn>, message: string): (r: seq<Turn>)
    ensures |r| == |history| + 2
    ensures r[0] == Turn("system", SystemPrompt)
    ensures r[1..|r| - 1] == history
    ensures r[|r| - 1] == Turn("user", message)
    ensures forall i :: 0 <= i < |history| ==> r[i + 1] == history[i]
  {
    [Turn("system", SystemPrompt)] + history + [Turn("user", message)]
  }

  /** The one POST a call sends: bearer header and fixed sampling parameters. */
  function BuildRequest(url: string, key: string, modelId: string, message: string, history: seq<Turn>): UpstreamRequest
  {
    UpstreamRequest(url, "Bearer " + key, modelId, BuildMessages(history, message), 0.7, 1000, false)
  }

  function DigitChar(d: nat): char
    requires d < 10
  {
    (('0' as int) + d) as char
  }

  /** The decimal rendering of a status code inside a template string. */
  function Decimal(n: nat): (s: string)
    ensures |s| >= 1
    ensures forall i :: 0 <= i < |s| ==> '0' <= s[i] <= '9'
    ensures n >= 10 ==> |s| >= 2
  {
    if n < 10 then [DigitChar(n)] else Decimal(n / 10) + [DigitChar(n % 10)]
  }

  /** The number a string of decimal digits denotes. */
  function ValueOf(s: string): nat
    requires forall i :: 0 <= i < |s| ==> '0' <= s[i] <= '9'
  {
    if |s| == 0 then 0
    else
      var n := |s| - 1;
      ValueOf(s[..n]) * 10 + ((s[n] as int) - ('0' as int))
  }

  /** The rendering spells the status code itself, with no leading zero. */
  lemma {:induction false} DecimalDenotes(n: nat)
    ensures ValueOf(Decimal(n)) == n
    ensures |Decimal(n)| > 1 ==> Decimal(n)[0] != '0'
  {
    if n >= 10 {
      var high := Decimal(n / 10);
      DecimalDenotes(n / 10);
      assert (high + [DigitChar(n % 10)])[..|high|] == high;
      assert Decimal(n)[0] == high[0];
    }
  }

  function ApiErrorText(status: nat, detail: string): string
  {
    "API Error: " + Decimal(status) + " - " + detail
  }

  /** Different details give different error texts for the same status, so
      the text of a non-OK answer determines the detail it carries. */
  lemma {:induction false} ApiErrorTextDeterminesDetail(status: nat, a: string, b: string)
    ensures ApiErrorText(status, a) == ApiErrorText(status, b) <==> a == b
  {
    var prefix := "API Error: " + Decimal(status) + " - ";
    assert ApiErrorText(status, a) == prefix + a && ApiErrorText(status, b) == prefix + b;
    if prefix + a == prefix + b {
      assert a == (prefix + a)[|prefix|..];
      assert b == (prefix + b)[|prefix|..];
    }
  }

  /** A rendered sample: status 500 with detail `rate limited`. */
  lemma RateLimitedErrorText()
    ensures ApiErrorText(500, "rate limited") == "API Error: 500 - rate limited"
  {
    Decimal500();
  }

  lemma Decimal500()
    ensures Decimal(500) == "500"
  {
    assert Decimal(5) == "5";
    assert Decimal(50) == Decimal(5) + ['0'];
  }

  /** The part of sendMessageToModel after the request is sent: an OK answer
      yields its first choice, an OK answer without choices and a non-OK
      answer throw an Error, and anything thrown on the way is rethrown
      unchanged. `detail` picks the text of a non-OK answer, which is where
      the two copies differ. */
  function Normalise(o: UpstreamOutcome, detail: ErrorBody -> string): (r: CallResult)
    ensures r.Content? <==> o.Completed? && o.body.choices.Some? && |o.body.choices.value| > 0
    ensures r.Content? ==> r.text == o.body.choices.value[0].message.content
    ensures o.Failed? ==> r == Raised(o.thrown)
    ensures !o.Failed? ==> r.Raised? ==> r.thrown.ErrorObject?
    ensures o.Rejected? ==> r.thrown.message == ApiErrorText(o.status, detail(o.errorData))
    ensures o.Completed? && (o.body.choices.None? || |o.body.choices.value| == 0) ==>
              r == Raised(ErrorObject(NoResponseMessage))
  {
    match o
    case Failed(t) => Raised(t)
    case Rejected(status, body) => Raised(ErrorObject(ApiErrorText(status, detail(body))))
    case Completed(body) =>
      if body.choices.None? || |body.choices.value| == 0 then Raised(ErrorObject(NoResponseMessage))
      else Content(body.choices.value[0].message.content)
  }

  /** `conversationHistory[modelId] || []`: the model's own history, or none
      when the map or the key is absent. */
  function HistoryOf(history: Option<map<string, seq<Turn>>>, modelId: string): seq<Turn>
  {
    if history.Some? && modelId in history.value then history.value[modelId] else []
  }

  /** `error instanceof Error ? error.message : 'Unknown error'` */
  function ThrownText(t: Thrown): string
  {
    match t
    case ErrorObject(m) => m
    case NonError => UnknownError
  }

  /** The object one per-model task resolves to: `{ modelId, content }`, or
      `{ modelId, content: '', error }` after a throw. */
  datatype ModelResult = ModelResult(modelId: string, content: string, error: Option<string>) {
    function ToEntry(): Entry
    {
      Entry(content, error)
    }
  }

  /** The per-model catch: a task never rejects, it settles to data. */
  function Settle(modelId: string, r: CallResult): (m: ModelResult)
    ensures m.modelId == modelId
    ensures m.error.None? <==> r.Content?
    ensures r.Content? ==> m.content == r.text
    ensures r.Raised? ==> m.content == "" && m.error == Some(ThrownText(r.thrown))
  {
    match r
    case Content(t) => ModelResult(modelId, t, None)
    case Raised(t) => ModelResult(modelId, "", Some(ThrownText(t)))
  }

  /** `j` is the last position that holds `ids[j]`. */
  predicate LastOccurrence(ids: seq<string>, j: int)
  {
    0 <= j < |ids| && forall k :: j < k < |ids| ==> ids[k] != ids[j]
  }

  function IdsOf(results: seq<ModelResult>): (ids: seq<string>)
    ensures |ids| == |results|
    ensures forall i :: 0 <= i < |results| ==> ids[i] == results[i].modelId
  {
    seq(|results|, i requires 0 <= i < |results| => results[i].modelId)
  }

  /** The fold of the settled tasks, in order, into one record keyed by model
      id: `acc[result.modelId] = { content, error }`. The record holds exactly
      the ids that occur. */
  function Collect(results: seq<ModelResult>): (r: map<string, Entry>)
    ensures forall id :: id in r <==> id in IdsOf(results)
  {
    if |results| == 0 then map[]
    else
      var n := |results| - 1;
      assert IdsOf(results) == IdsOf(results[..n]) + [results[n].modelId];
      Collect(results[..n])[results[n].modelId := results[n].ToEntry()]
  }

  /** Every id's entry is the one of its last task: a later duplicate
      overwrites an earlier one, and nothing else touches it. */
  lemma {:induction false} CollectLastWins(results: seq<ModelResult>, j: nat)
    requires LastOccurrence(IdsOf(results), j)
    ensures Collect(results)[results[j].modelId] == results[j].ToEntry()
  {
    var n := |results| - 1;
    var prefix := results[..n];
    var id := results[j].modelId;
    assert Collect(results) == Collect(prefix)[results[n].modelId := results[n].ToEntry()];
    if j < n {
      assert LastOccurrence(IdsOf(prefix), j) by {
        forall k | j < k < n ensures IdsOf(prefix)[k] != IdsOf(prefix)[j] {
          assert IdsOf(results)[k] != IdsOf(results)[j];
          assert prefix[k] == results[k] && prefix[j] == results[j];
        }
      }
      CollectLastWins(prefix, j);
      assert results[n].modelId != id by { assert IdsOf(results)[n] != IdsOf(results)[j]; }
    }
  }
}
