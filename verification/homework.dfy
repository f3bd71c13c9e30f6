/** homework.py: the validator, the status parser and the polling loop of
    `main`, one cycle at a time. The network and Telegram calls are inputs:
    each cycle is told what the request and the sends yielded. */
module Homework {
  import opened Json
  import opened Wrappers
  import opened PyRuntime
  import opened Statuses
  import opened Tokens

  /** What the API request yielded: a response whose body decodes, with its
      status code and decoded body; a response whose body `.json()` cannot
      decode, with its status code and that exception's text; or the
      exception `requests.get` raised. */
  datatype FetchOutcome =
    | Answered(code: int, body: Json)
    | Undecodable(code: int, text: string)
    | Unreachable(text: string)

  /** What `bot.send_message` did. */
  datatype SendOutcome = Delivered | Undelivered(reason: string)

  /** `get_api_answer`: the body of a 200 response; any other code raises
      before the body is decoded. */
  function GetApiAnswer(fetch: FetchOutcome): (r: Result<Json, PyError>)
    ensures r.Ok? <==> fetch.Answered? && fetch.code == 200
    ensures r.Ok? ==> r.value == fetch.body
    ensures !fetch.Unreachable? && fetch.code != 200 ==> r == Err(ApiNot200)
    ensures fetch.Undecodable? && fetch.code == 200 ==> r == Err(RequestFailed(fetch.text))
    ensures fetch.Unreachable? ==> r == Err(RequestFailed(fetch.text))
  {
    match fetch
    case Answered(code, body) => if code != 200 then Err(ApiNot200) else Ok(body)
    case Undecodable(code, text) => if code != 200 then Err(ApiNot200) else Err(RequestFailed(text))
    case Unreachable(text) => Err(RequestFailed(text))
  }

  /** `send_message`: a delivery failure is re-raised with its reason. */
  function SendMessage(outcome: SendOutcome): (r: Result<(), PyError>)
    ensures r.Ok? <==> outcome.Delivered?
    ensures outcome.Undelivered? ==> r == Err(NotSent(outcome.reason))
  {
    match outcome
    case Delivered => Ok(())
    case Undelivered(reason) => Err(NotSent(reason))
  }

  /** The response's `homeworks` entry as `response.get` reads it. */
  function Homeworks(response: Json): Json
    requires response.JObj?
  {
    Get(response.fields, "homeworks")
  }

  function CurrentDate(response: Json): Json
    requires response.JObj?
  {
    Get(response.fields, "current_date")
  }

  /** The responses `check_response` accepts, stated without Python's
      indexing: a dict whose `homeworks` and `current_date` are truthy, and
      whose `homeworks` is a list that does not start with a list, or a
      non-empty string. */
  predicate WellFormed(response: Json) {
    && response.JObj?
    && Truthy(Homeworks(response))
    && Truthy(CurrentDate(response))
    && var hws := Homeworks(response);
       (hws.JArr? && !hws.items[0].JArr?) || hws.JStr?
  }

  /** `check_response`. */
  function CheckResponse(response: Json): (r: Result<Json, PyError>)
    ensures r.Ok? <==> WellFormed(response)
    ensures r.Ok? ==> r.value == Homeworks(response)
    ensures !response.JObj? ==> r == Err(NotADict)
    ensures response.JObj? && !(Truthy(Homeworks(response)) && Truthy(CurrentDate(response))) ==>
              r == Err(MissingKeys)
    ensures response.JObj? && Truthy(CurrentDate(response)) && Homeworks(response).JArr?
              && |Homeworks(response).items| > 0 && Homeworks(response).items[0].JArr? ==>
              r == Err(HomeworksAsList)
  {
    if !response.JObj? then Err(NotADict)
    else
      var homeworks := Homeworks(response);
      var currentDate := CurrentDate(response);
      if !(Truthy(homeworks) && Truthy(currentDate)) then Err(MissingKeys)
      else
        var first :- Index0(homeworks);
        if first.JArr? then Err(HomeworksAsList) else Ok(homeworks)
  }

  /** `parse_status`: the notification for one homework record. */
  function ParseStatus(homework: Json): (r: Result<string, PyError>)
    ensures !homework.JObj? ==> r == Err(NoGet(TypeName(homework)))
    ensures r.Ok? <==> homework.JObj? && Get(homework.fields, "status").JStr?
                       && Get(homework.fields, "status").s in Verdicts
    ensures r.Ok? ==> r.value == Message(Get(homework.fields, "homework_name"),
                                         Verdicts[Get(homework.fields, "status").s])
    ensures homework.JObj? && r.Err? ==>
              r.error == KeyMissing(Get(homework.fields, "status"))
              || r.error.Unhashable?
  {
    match homework
    case JObj(fields) =>
      var status := Get(fields, "status");
      var name := Get(fields, "homework_name");
      var verdict :- Lookup(status);
      Ok(Message(name, verdict))
    case _ => Err(NoGet(TypeName(homework)))
  }

  /** `homeworks[0]` of an accepted response: the record `main` interprets. */
  function FirstRecord(response: Json): (h: Json)
    requires WellFormed(response)
  {
    Index0(Homeworks(response)).value
  }

  /** The part of one cycle that can raise before any send: fetch,
      validate, take `homeworks[0]` and interpret it. */
  function StatusMessage(fetch: FetchOutcome): (r: Result<string, PyError>)
    ensures r.Ok? ==> fetch.Answered? && fetch.code == 200 && WellFormed(fetch.body)
    ensures fetch.Answered? && fetch.code == 200 && WellFormed(fetch.body) ==>
              r == ParseStatus(FirstRecord(fetch.body))
    // the exception that escapes is the first stage's that raised
    ensures !(fetch.Answered? && fetch.code == 200) ==> r == Err(GetApiAnswer(fetch).error)
    ensures fetch.Answered? && fetch.code == 200 && CheckResponse(fetch.body).Err? ==>
              r == Err(CheckResponse(fetch.body).error)
    ensures r.Ok? ==> Prefix <= r.value
  {
    var response :- GetApiAnswer(fetch);
    var homeworks :- CheckResponse(response);
    // check_response has already indexed `homeworks` successfully
    var first := Index0(homeworks).value;
    var message :- ParseStatus(first);
    MessageHasPrefix(Get(first.fields, "homework_name"), Verdicts[Get(first.fields, "status").s]);
    Ok(message)
  }

  /** The two variables `main` keeps across cycles. */
  datatype LoopState = LoopState(timestamp: int, lastMessage: string)

  /** Startup: the tokens are checked before the loop begins, and a missing
      one raises out of `main`. */
  function Start(config: Config): (r: Result<LoopState, PyError>)
    ensures r.Ok? <==> config.practicumToken.Some? && config.telegramToken.Some? && config.chatId.Some?
    ensures r.Ok? ==> r.value.timestamp == 0 && r.value.lastMessage == ""
    ensures r.Err? ==> r.error == NoTokens
  {
    if !CheckTokens(config) then Err(NoTokens) else Ok(LoopState(0, ""))
  }

  /** What the outside world does during one cycle: the API's answer, and
      the outcome of each of the (at most two) sends. */
  datatype CycleInput = CycleInput(
    fetch: FetchOutcome,
    statusDelivery: SendOutcome,
    noticeDelivery: SendOutcome)

  /** After a cycle the loop goes on, or an exception escapes `main`. */
  datatype Next = Continue(state: LoopState) | Crash(error: PyError)

  /** One cycle as observed: the timestamp passed to the request, the
      status message it tried to send, the failure notice it tried to send,
      and what follows. */
  datatype Cycle = Cycle(
    request: int,
    statusSend: Option<string>,
    noticeSend: Option<string>,
    next: Next)

  const NoticePrefix := "Сбой в работе программы: "

  /** The text the `except` branch sends. */
  function FailureNotice(error: PyError): string {
    NoticePrefix + ErrorText(error)
  }

  /** The `except` branch: send the failure notice and keep the state; a
      failing send there raises outside any handler and ends `main`. */
  function Recover(s: LoopState, input: CycleInput, statusSend: Option<string>, error: PyError): Cycle {
    var notice := FailureNotice(error);
    match SendMessage(input.noticeDelivery)
    case Ok(_) => Cycle(s.timestamp, statusSend, Some(notice), Continue(s))
    case Err(escaped) => Cycle(s.timestamp, statusSend, Some(notice), Crash(escaped))
  }

  /** One pass through the body of `while True` in `main`. */
  function Step(s: LoopState, input: CycleInput): (c: Cycle)
    ensures c.request == s.timestamp
    ensures c.next.Continue? ==> c.next.state.timestamp == s.timestamp
    // a status message is sent exactly when it differs from the last one
    ensures c.statusSend.Some? <==>
              StatusMessage(input.fetch).Ok? && StatusMessage(input.fetch).value != s.lastMessage
    ensures c.statusSend.Some? ==> c.statusSend.value == StatusMessage(input.fetch).value
    // the cycle raises when the fetch-to-parse chain or the status send fails
    ensures c.noticeSend.Some? <==>
              StatusMessage(input.fetch).Err? || (c.statusSend.Some? && input.statusDelivery.Undelivered?)
    ensures StatusMessage(input.fetch).Err? ==>
              c.noticeSend == Some(FailureNotice(StatusMessage(input.fetch).error))
    ensures c.statusSend.Some? && input.statusDelivery.Undelivered? ==>
              c.noticeSend == Some(FailureNotice(NotSent(input.statusDelivery.reason)))
    // a completed cycle remembers its message; a failed one changes nothing
    ensures c.noticeSend.None? ==> c.next == Continue(LoopState(s.timestamp, StatusMessage(input.fetch).value))
    ensures c.noticeSend.Some? && input.noticeDelivery.Delivered? ==> c.next == Continue(s)
    ensures c.next.Crash? <==> c.noticeSend.Some? && input.noticeDelivery.Undelivered?
    ensures c.next.Crash? ==> c.next.error == NotSent(input.noticeDelivery.reason)
  {
    match StatusMessage(input.fetch)
    case Err(error) => Recover(s, input, None, error)
    case Ok(message) =>
      if s.lastMessage != message then
        match SendMessage(input.statusDelivery)
        case Ok(_) => Cycle(s.timestamp, Some(message), None, Continue(LoopState(s.timestamp, message)))
        case Err(error) => Recover(s, input, Some(message), error)
      else
        Cycle(s.timestamp, None, None, Continue(LoopState(s.timestamp, message)))
  }

  /** Successive cycles from `s`, stopping after a cycle that crashes. */
  function Run(s: LoopState, inputs: seq<CycleInput>): (r: seq<Cycle>)
    ensures |r| <= |inputs|
    ensures forall k :: 0 <= k < |r| ==> r[k].request == s.timestamp
    ensures forall k :: 0 <= k < |r| - 1 ==> r[k].next.Continue?
    ensures |r| < |inputs| ==> |r| > 0 && r[|r| - 1].next.Crash?
    // each cycle starts from the state the previous one continued with
    ensures |r| > 0 ==> r[0] == Step(s, inputs[0])
    ensures forall k :: 0 <= k < |r| - 1 ==> r[k + 1] == Step(r[k].next.state, inputs[k + 1])
    decreases |inputs|
  {
    if |inputs| == 0 then []
    else
      var c := Step(s, inputs[0]);
      match c.next
      case Crash(_) => [c]
      case Continue(s') =>
        var rest := Run(s', inputs[1..]);
        var r := [c] + rest;
        assert forall k :: 1 <= k < |r| ==> r[k] == rest[k - 1];
        r
  }
}
