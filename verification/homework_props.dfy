/** Properties of the homework.py loop that relate several cycles. */
module HomeworkProps {
  import opened Json
  import opened Wrappers
  import opened PyRuntime
  import opened Statuses
  import opened Tokens
  import opened Homework

  /** The status a record carries and the name it prints. */
  function StatusField(h: Json): Json
    requires h.JObj?
  {
    Get(h.fields, "status")
  }

  function NameField(h: Json): Json
    requires h.JObj?
  {
    Get(h.fields, "homework_name")
  }

  /** For one homework name, `parse_status` gives the same text for two
      records exactly when their statuses agree. */
  lemma MessageTracksStatus(h1: Json, h2: Json)
    requires ParseStatus(h1).Ok? && ParseStatus(h2).Ok?
    requires NameField(h1) == NameField(h2)
    ensures ParseStatus(h1) == ParseStatus(h2) <==> StatusField(h1) == StatusField(h2)
  {
  }

  /** Repeated status: after a cycle that completed with message m, a
      cycle that computes m again sends nothing and keeps the state. */
  lemma UnchangedMessageNotResent(s: LoopState, first: CycleInput, second: CycleInput)
    requires Step(s, first).noticeSend.None?
    requires StatusMessage(second.fetch) == StatusMessage(first.fetch)
    ensures Step(s, first).next.Continue?
    ensures Step(Step(s, first).next.state, second).statusSend.None?
    ensures Step(Step(s, first).next.state, second).next == Step(s, first).next
  {
  }

  /** Changed status: after a completed cycle, a record of the same homework
      with a different known status is always sent. */
  lemma ChangedStatusIsSent(s: LoopState, first: CycleInput, second: CycleInput)
    requires Step(s, first).noticeSend.None?
    requires StatusMessage(second.fetch).Ok?
    requires NameField(FirstRecord(first.fetch.body)) == NameField(FirstRecord(second.fetch.body))
    requires StatusField(FirstRecord(first.fetch.body)) != StatusField(FirstRecord(second.fetch.body))
    ensures Step(s, first).next.Continue?
    ensures Step(Step(s, first).next.state, second).statusSend == Some(StatusMessage(second.fetch).value)
  {
  }

  /** A failed status send leaves the state as it was (once the failure
      notice is out), so the same message is sent again next cycle. */
  lemma FailedSendIsRetried(s: LoopState, first: CycleInput, second: CycleInput)
    requires Step(s, first).statusSend.Some?
    requires first.statusDelivery.Undelivered? && first.noticeDelivery.Delivered?
    requires StatusMessage(second.fetch) == StatusMessage(first.fetch)
    ensures Step(s, first).next == Continue(s)
    ensures Step(s, second).statusSend == Step(s, first).statusSend
  {
  }

  /** Right after startup any status message is sent. */
  lemma FirstMessageIsSent(config: Config, input: CycleInput)
    requires Start(config).Ok? && StatusMessage(input.fetch).Ok?
    ensures Step(Start(config).value, input).statusSend == Some(StatusMessage(input.fetch).value)
  {
  }

  /** `current_timestamp` is never reassigned: every request of a run that
      starts from `main` asks for timestamp 0. */
  lemma TimestampStaysZero(config: Config, inputs: seq<CycleInput>)
    requires Start(config).Ok?
    ensures forall c :: c in Run(Start(config).value, inputs) ==> c.request == 0
  {
  }

  /** What `last_message` may hold: nothing yet, or a status notification. */
  predicate Remembered(s: LoopState) {
    s.lastMessage == "" || Prefix <= s.lastMessage
  }

  /** A failure notice is never a status notification. */
  lemma NoticeIsNotStatus(error: PyError)
    ensures !(Prefix <= FailureNotice(error))
  {
    assert FailureNotice(error)[0] != Prefix[0];
  }

  /** Failure notices never become `last_message`: along a run every state
      the loop continues with holds an empty or a status message. */
  lemma {:induction false} RunRemembersOnlyStatus(s: LoopState, inputs: seq<CycleInput>)
    requires Remembered(s)
    ensures forall k :: 0 <= k < |Run(s, inputs)| && Run(s, inputs)[k].next.Continue? ==>
              Remembered(Run(s, inputs)[k].next.state)
    decreases |inputs|
  {
    if |inputs| > 0 {
      var c := Step(s, inputs[0]);
      if c.next.Continue? {
        RunRemembersOnlyStatus(c.next.state, inputs[1..]);
        assert Run(s, inputs) == [c] + Run(c.next.state, inputs[1..]);
      }
    }
  }

  /** One approved homework fetched right after startup: the notification
      goes out, is remembered, and the timestamp stays at 0 although the
      response carries `current_date`. */
  lemma ApprovedAfterStart()
    ensures var record := JObj(map["status" := JStr("approved"), "homework_name" := JStr("hw1")]);
            var response := JObj(map["homeworks" := JArr([record]), "current_date" := JNum(1700000100)]);
            var text := "Изменился статус проверки работы \"hw1\". " + Approved;
            var c := Step(LoopState(0, ""), CycleInput(Answered(200, response), Delivered, Delivered));
            c.statusSend == Some(text) && c.noticeSend.None? && c.next == Continue(LoopState(0, text))
  {
    var record := JObj(map["status" := JStr("approved"), "homework_name" := JStr("hw1")]);
    var response := JObj(map["homeworks" := JArr([record]), "current_date" := JNum(1700000100)]);
    assert Homeworks(response) == JArr([record]);
    assert CurrentDate(response) == JNum(1700000100);
    assert FirstRecord(response) == record;
    assert Get(record.fields, "status") == JStr("approved");
    assert Get(record.fields, "homework_name") == JStr("hw1");
    var text := "Изменился статус проверки работы \"hw1\". " + Approved;
    assert Message(JStr("hw1"), Approved) == text;
    assert ParseStatus(record) == Ok(text);
    assert StatusMessage(Answered(200, response)) == Ok(text);
  }

  /** The failure notice of a non-200 answer, to the letter. */
  lemma Non200Notice(s: LoopState, code: int, body: Json, statusDelivery: SendOutcome)
    requires code != 200
    ensures Step(s, CycleInput(Answered(code, body), statusDelivery, Delivered)).noticeSend ==
              Some(NoticePrefix + "API возвращает код, отличный от 200")
  {
  }

  /** The failure notice of a body that does not decode: the non-200 one
      whatever the body, else the decoding error's own text. */
  lemma UndecodableNotice(s: LoopState, code: int, text: string, statusDelivery: SendOutcome)
    ensures Step(s, CycleInput(Undecodable(code, text), statusDelivery, Delivered)).noticeSend ==
              Some(NoticePrefix + (if code == 200 then text else "API возвращает код, отличный от 200"))
  {
  }

  /** The failure notice of a body that is a list rather than a dict. */
  lemma ListBodyNotice(s: LoopState, items: seq<Json>, statusDelivery: SendOutcome)
    ensures Step(s, CycleInput(Answered(200, JArr(items)), statusDelivery, Delivered)).noticeSend ==
              Some(NoticePrefix + "Oтвет API не является словарём")
  {
  }

  /** The failure notice of an empty dict: the KeyError prints in quotes. */
  lemma EmptyDictNotice(s: LoopState, statusDelivery: SendOutcome)
    ensures Step(s, CycleInput(Answered(200, JObj(map[])), statusDelivery, Delivered)).noticeSend ==
              Some(NoticePrefix + "'" + MissingKeysMessage + "'")
  {
    assert !Truthy(Homeworks(JObj(map[])));
    assert StatusMessage(Answered(200, JObj(map[]))) == Err(MissingKeys);
    var quoted := "'" + MissingKeysMessage + "'";
    assert ErrorText(MissingKeys) == quoted;
    assert NoticePrefix + quoted == NoticePrefix + "'" + MissingKeysMessage + "'";
  }
}
