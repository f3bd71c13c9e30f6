/** hw.py, the earlier draft: the same table and token check, but its
    helpers swallow failures, send a notice and return `None`, and `main`
    makes a single pass. */
module Hw {
  import opened Json
  import opened Wrappers
  import opened PyRuntime
  import opened Statuses
  import opened Tokens
  import Homework

  /** `send_message`: a delivery failure is logged and swallowed. The
      result is the error line logged, or `None` when the send went out;
      there is no exception to return. */
  function SendMessage(outcome: Homework.SendOutcome): (logged: Option<string>)
    ensures logged.None? <==> outcome.Delivered?
    ensures outcome.Undelivered? ==> logged == Some("Бот не смог отправить сообщение: " + outcome.reason)
  {
    match outcome
    case Delivered => None
    case Undelivered(reason) => Some("Бот не смог отправить сообщение: " + reason)
  }

  /** A helper's return value together with the notice its `except`
      branch sent, if it ran. */
  datatype Handled = Handled(value: Json, notice: Option<string>)

  const ApiDown := "API не отвечает"
  const NotADictNotice := "api не вернул словарь"
  const UnknownStatusNotice := "Отсутсвие ожидаемых статусов"
  const NoTokensNotice := "нет токенов"

  /** `get_api_answer`: any decoded body is returned, whatever the status
      code; a failed request or a body that does not decode sends a notice
      and returns `None`. */
  function GetApiAnswer(fetch: Homework.FetchOutcome): (r: Handled)
    ensures r.notice.None? <==> fetch.Answered?
    ensures fetch.Answered? ==> r.value == fetch.body
    ensures !fetch.Answered? ==> r == Handled(JNull, Some(ApiDown))
  {
    match fetch
    case Answered(_, body) => Handled(body, None)
    case Undecodable(_, _) => Handled(JNull, Some(ApiDown))
    case Unreachable(_) => Handled(JNull, Some(ApiDown))
  }

  /** `check_response`: the `isinstance` result is discarded, so any dict
      passes and its `homeworks` entry (or `None`) is returned; a value
      without `.get` sends a notice and returns `None`. */
  function CheckResponse(response: Json): (r: Handled)
    ensures r.notice.None? <==> response.JObj?
    ensures response.JObj? ==> r.value == Get(response.fields, "homeworks")
    ensures !response.JObj? ==> r == Handled(JNull, Some(NotADictNotice))
  {
    match GetAttr(response, "homework")
    case Err(_) => Handled(JNull, Some(NotADictNotice))
    case Ok(_) => Handled(Get(response.fields, "homeworks"), None)
  }

  /** `parse_status`: reads the first record outside the `try`, so a bad
      list or record raises; an unknown status sends a notice and returns
      `None`. */
  function ParseStatus(homeworks: Json): (r: Result<Handled, PyError>)
    ensures r.Ok? <==> Index0(homeworks).Ok? && Index0(homeworks).value.JObj?
    ensures r.Err? && Index0(homeworks).Ok? ==> r.error == NoGet(TypeName(Index0(homeworks).value))
    ensures r.Ok? ==>
              var h := Index0(homeworks).value;
              var status := Get(h.fields, "status");
              if status.JStr? && status.s in Verdicts
              then r.value == Handled(JStr(Message(Get(h.fields, "homework_name"), Verdicts[status.s])), None)
              else r.value == Handled(JNull, Some(UnknownStatusNotice))
  {
    var first :- Index0(homeworks);
    match first
    case JObj(fields) =>
      var name := Get(fields, "homework_name");
      var status := Get(fields, "status");
      (match Lookup(status)
       case Ok(verdict) => Ok(Handled(JStr(Message(name, verdict)), None))
       case Err(_) => Ok(Handled(JNull, Some(UnknownStatusNotice))))
    case _ => Err(NoGet(TypeName(first)))
  }

  /** One value handed to `send_message`: a fixed notice from an
      `except` branch or from the token check, or the parsed message
      (`None` when the status was unknown). */
  datatype Sent = Notice(text: string) | Report(value: Json)

  /** The notice of a helper, as a list of zero or one sends. */
  function Notices(h: Handled): (r: seq<Sent>)
    ensures forall k :: 0 <= k < |r| ==> r[k].Notice?
  {
    match h.notice
    case None => []
    case Some(text) => [Notice(text)]
  }

  /** The outcome of the k-th send; sends past the end of the list go out. */
  function DeliveryAt(deliveries: seq<Homework.SendOutcome>, k: nat): Homework.SendOutcome {
    if k < |deliveries| then deliveries[k] else Homework.Delivered
  }

  /** What a pass has done so far: the values passed to `send_message`, in
      order, and the error lines logged for the sends that failed. */
  datatype Trace = Trace(sends: seq<Sent>, errors: seq<string>)

  /** `send_message` on each payload in turn, the k-th send meeting the
      k-th delivery outcome. A failure adds a log line and nothing else. */
  function SendAll(t: Trace, payloads: seq<Sent>, deliveries: seq<Homework.SendOutcome>): (r: Trace)
    ensures r.sends == t.sends + payloads
    ensures t.errors <= r.errors && |r.errors| <= |t.errors| + |payloads|
    ensures (forall k :: |t.sends| <= k < |r.sends| ==> DeliveryAt(deliveries, k).Delivered?) ==>
              r.errors == t.errors
    decreases |payloads|
  {
    if |payloads| == 0 then t
    else
      var logged := SendMessage(DeliveryAt(deliveries, |t.sends|));
      var t' := Trace(t.sends + [payloads[0]], t.errors + (if logged.Some? then [logged.value] else []));
      var r := SendAll(t', payloads[1..], deliveries);
      assert t.sends + payloads == t'.sends + payloads[1..];
      r
  }

  /** One run of `main`: the timestamp it requests, the values passed to
      `send_message` in order, the error lines logged for failed sends, and
      the exception that escaped, if any. */
  datatype Pass = Pass(request: int, sends: seq<Sent>, errors: seq<string>, crash: Option<PyError>)

  /** The sends of `main` up to the parse: the token notice when a token
      is missing, then the notices of `get_api_answer` and `check_response`. */
  function Preamble(config: Config, fetch: Homework.FetchOutcome): (r: seq<Sent>)
    ensures CheckTokens(config) <==> (|r| == 0 || r[0] != Notice(NoTokensNotice))
    ensures forall k :: 0 <= k < |r| ==> r[k].Notice?
  {
    var tokenNotice := if CheckTokens(config) then [] else [Notice(NoTokensNotice)];
    var response := GetApiAnswer(fetch);
    tokenNotice + Notices(response) + Notices(CheckResponse(response.value))
  }

  /** Notices followed by a list ending in one report: only the last send
      is a report, and the first send is the first of the notices if any. */
  lemma NoticesThenReport(preamble: seq<Sent>, ending: seq<Sent>)
    requires forall k :: 0 <= k < |preamble| ==> preamble[k].Notice?
    requires |ending| > 0 && forall k :: 0 <= k < |ending| - 1 ==> ending[k].Notice?
    ensures var sends := preamble + ending;
            && (forall k :: 0 <= k < |sends| - 1 ==> sends[k].Notice?)
            && sends[|sends| - 1] == ending[|ending| - 1]
            && sends[0] == (if |preamble| > 0 then preamble[0] else ending[0])
  {
  }

  /** What `parse_status` makes of the answer, after the other helpers. */
  function Parsed(fetch: Homework.FetchOutcome): Result<Handled, PyError> {
    ParseStatus(CheckResponse(GetApiAnswer(fetch).value).value)
  }

  /** Everything `main` hands to `send_message`, in order: the preamble of
      notices, then, unless parsing raised, its notice and the report. */
  function Sends(config: Config, fetch: Homework.FetchOutcome): (r: seq<Sent>)
    ensures CheckTokens(config) <==> (|r| == 0 || r[0] != Notice(NoTokensNotice))
    // exactly one report, the last send, unless parsing raised
    ensures Parsed(fetch).Ok? ==> |r| > 0 && r[|r| - 1] == Report(Parsed(fetch).value.value)
    // everything else sent is a notice
    ensures forall k :: 0 <= k < |r| && (Parsed(fetch).Err? || k < |r| - 1) ==> r[k].Notice?
  {
    var preamble := Preamble(config, fetch);
    match Parsed(fetch)
    case Err(_) => preamble
    case Ok(message) =>
      var ending := Notices(message) + [Report(message.value)];
      assert ending[0] != Notice(NoTokensNotice);
      NoticesThenReport(preamble, ending);
      preamble + ending
  }

  /** `main`: one pass requesting timestamp 0; `fetch` is what that request
      yielded and `deliveries` what the sends did. */
  function Main(config: Config, fetch: Homework.FetchOutcome, deliveries: seq<Homework.SendOutcome>): (p: Pass)
    ensures p.request == 0
    ensures p.sends == Sends(config, fetch)
    ensures p.crash.Some? <==> Parsed(fetch).Err?
    ensures p.crash.Some? ==> p.crash.value == Parsed(fetch).error
    // failed deliveries are only logged, at most one line each
    ensures |p.errors| <= |p.sends|
    ensures (forall k :: 0 <= k < |p.sends| ==> DeliveryAt(deliveries, k).Delivered?) ==> p.errors == []
  {
    var t := SendAll(Trace([], []), Sends(config, fetch), deliveries);
    Pass(0, t.sends, t.errors, if Parsed(fetch).Ok? then None else Some(Parsed(fetch).error))
  }

  /** A failed request with all tokens present: `get_api_answer` and
      `check_response` each send their notice and return `None`, then
      `parse_status` indexes that `None` outside its handler and raises. */
  lemma FailedFetchCrashes(config: Config, fetch: Homework.FetchOutcome, d: seq<Homework.SendOutcome>)
    requires CheckTokens(config) && !fetch.Answered?
    ensures Main(config, fetch, d).sends == [Notice(ApiDown), Notice(NotADictNotice)]
    ensures Main(config, fetch, d).crash == Some(NotSubscriptable("NoneType"))
  {
  }

  /** What the sends did never changes what is sent or whether `main` raises. */
  lemma DeliveryNeverAffectsFlow(config: Config, fetch: Homework.FetchOutcome,
                                 d1: seq<Homework.SendOutcome>, d2: seq<Homework.SendOutcome>)
    ensures Main(config, fetch, d1).sends == Main(config, fetch, d2).sends
    ensures Main(config, fetch, d1).crash == Main(config, fetch, d2).crash
  {
  }

  /** Missing tokens put one notice in front of the pass and change nothing
      else: execution goes on exactly as with all tokens present. */
  lemma TokensOnlyAddNotice(c1: Config, c2: Config, fetch: Homework.FetchOutcome,
                            d1: seq<Homework.SendOutcome>, d2: seq<Homework.SendOutcome>)
    requires !CheckTokens(c1) && CheckTokens(c2)
    ensures Main(c1, fetch, d1).sends == [Notice(NoTokensNotice)] + Main(c2, fetch, d2).sends
    ensures Main(c1, fetch, d1).crash == Main(c2, fetch, d2).crash
  {
    var p1, p2 := Preamble(c1, fetch), Preamble(c2, fetch);
    assert p1 == [Notice(NoTokensNotice)] + p2;
    match Parsed(fetch)
    case Err(_) =>
    case Ok(message) =>
      var ending := Notices(message) + [Report(message.value)];
      assert p1 + ending == [Notice(NoTokensNotice)] + (p2 + ending);
  }
}
