/** How the draft hw.py and homework.py agree and where they part. */
module Variants {
  import opened Json
  import opened Wrappers
  import opened PyRuntime
  import opened Statuses
  import opened Tokens
  import Homework
  import Hw

  /** Whenever homework.py computes a notification from a fetch, the
      draft's single pass ends by sending that same text, whatever the
      tokens. */
  lemma DraftSendsSameMessage(config: Config, fetch: Homework.FetchOutcome, deliveries: seq<Homework.SendOutcome>)
    requires Homework.StatusMessage(fetch).Ok?
    ensures Hw.Main(config, fetch, deliveries).crash.None?
    ensures var sends := Hw.Main(config, fetch, deliveries).sends;
            |sends| > 0 && sends[|sends| - 1] == Hw.Report(JStr(Homework.StatusMessage(fetch).value))
  {
  }

  /** A non-200 answer: homework.py raises, the draft uses the body. */
  lemma Non200Diverges(code: int, body: Json)
    requires code != 200
    ensures Homework.GetApiAnswer(Homework.Answered(code, body)) == Err(ApiNot200)
    ensures Hw.GetApiAnswer(Homework.Answered(code, body)) == Hw.Handled(body, None)
  {
  }

  /** A body that does not decode: homework.py raises ApiNot200 before
      decoding unless the code is 200, and then re-raises the decoding
      error; the draft decodes whatever the code, sends its notice and
      returns `None`. */
  lemma UndecodableDiverges(code: int, text: string)
    ensures Homework.GetApiAnswer(Homework.Undecodable(code, text)) ==
              (if code == 200 then Err(RequestFailed(text)) else Err(ApiNot200))
    ensures Hw.GetApiAnswer(Homework.Undecodable(code, text)) == Hw.Handled(JNull, Some(Hw.ApiDown))
  {
  }

  /** A response that is not a dict: homework.py raises a TypeError, the
      draft sends a notice and returns `None`. */
  lemma NonDictDiverges(response: Json)
    requires !response.JObj?
    ensures Homework.CheckResponse(response) == Err(NotADict)
    ensures Hw.CheckResponse(response) == Hw.Handled(JNull, Some(Hw.NotADictNotice))
  {
  }

  /** A list of lists under `homeworks`: rejected by homework.py, passed
      through unchanged by the draft. */
  lemma ListOfListsDiverges(response: Json)
    requires response.JObj? && Truthy(Homework.CurrentDate(response))
    requires var hws := Homework.Homeworks(response); hws.JArr? && |hws.items| > 0 && hws.items[0].JArr?
    ensures Homework.CheckResponse(response) == Err(HomeworksAsList)
    ensures Hw.CheckResponse(response) == Hw.Handled(Homework.Homeworks(response), None)
  {
  }

  /** An unknown status: homework.py raises the KeyError, the draft sends
      a notice and returns `None` as the message. */
  lemma UnknownStatusDiverges(h: Json)
    requires h.JObj?
    requires var status := Get(h.fields, "status"); !(status.JStr? && status.s in Verdicts)
    ensures Homework.ParseStatus(h).Err?
    ensures Hw.ParseStatus(JArr([h])) == Ok(Hw.Handled(JNull, Some(Hw.UnknownStatusNotice)))
  {
  }
}
