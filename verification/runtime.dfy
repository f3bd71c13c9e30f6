/** The exceptions the two scripts raise, and the two Python operations on
    JSON values whose failures they depend on: `v[0]` and `v.get(key)`. */
module PyRuntime {
  import opened Json
  import opened Wrappers

  /** One Python exception, by the situation that raises it. */
  datatype PyError =
      // homework.py:56, TypeError
    | NotADict
      // homework.py:61, KeyError
    | MissingKeys
      // homework.py:65, TypeError
    | HomeworksAsList
      // homework.py:46, Exception
    | ApiNot200
      // homework.py:35, Exception wrapping the delivery failure
    | NotSent(reason: string)
      // homework.py:107, KeyError
    | NoTokens
      // whatever `requests.get` or `.json()` raised; its text is not modelled
    | RequestFailed(text: string)
      // KeyError raised by a dict lookup, carrying the missing key
    | KeyMissing(key: Json)
      // TypeError: the value has no `[]`
    | NotSubscriptable(typeName: string)
      // IndexError on an empty list or string
    | IndexOutOfRange(typeName: string)
      // AttributeError: the value has no `.get`
    | NoGet(typeName: string)
      // TypeError: a list or dict used as a dict key
    | Unhashable(typeName: string)

  const NotSentPrefix := "Сообщение в Telegram не отправлено: "
  // written in pieces so that the verifier can see which characters occur
  const MissingKeysMessage := "Нет ключей " + "\"homeworks\"" + " и " + "\"current_date\"" + " в словаре"
  const NoTokensMessage := "Нет обязательных переменных окружения!"

  /** Neither KeyError message needs escaping, so `repr` only adds quotes. */
  lemma PlainMessages()
    ensures Repr(JStr(MissingKeysMessage)) == "'" + MissingKeysMessage + "'"
    ensures Repr(JStr(NoTokensMessage)) == "'" + NoTokensMessage + "'"
  {
    assert '\\' !in MissingKeysMessage && '\'' !in MissingKeysMessage;
    assert '\\' !in NoTokensMessage && '\'' !in NoTokensMessage;
  }

  /** `str(error)`, which is what an f-string prints for the exception. */
  function ErrorText(e: PyError): (r: string)
    // a KeyError prints the repr of its key, every other exception its message
    ensures e.KeyMissing? ==> r == Repr(e.key)
    ensures e.MissingKeys? ==> r == "'" + MissingKeysMessage + "'"
    ensures e.NoTokens? ==> r == "'" + NoTokensMessage + "'"
    ensures e.KeyMissing? && e.key.JStr? && '\\' !in e.key.s && '\'' !in e.key.s ==> r == "'" + e.key.s + "'"
    // the reason of a failed send and the text of a failed request are kept whole
    ensures e.NotSent? ==> NotSentPrefix <= r && r[|NotSentPrefix|..] == e.reason
    ensures e.RequestFailed? ==> r == e.text
  {
    match e
    case NotADict => "Oтвет API не является словарём"
    case MissingKeys => PlainMessages(); Repr(JStr(MissingKeysMessage))
    case HomeworksAsList => "ДЗ приходят в виде списка"
    case ApiNot200 => "API возвращает код, отличный от 200"
    case NotSent(reason) => NotSentPrefix + reason
    case NoTokens => PlainMessages(); Repr(JStr(NoTokensMessage))
    case RequestFailed(text) => text
    case KeyMissing(key) => Repr(key)
    case NotSubscriptable(t) => "'" + t + "' object is not subscriptable"
    case IndexOutOfRange(t) => t + " index out of range"
    case NoGet(t) => "'" + t + "' object has no attribute 'get'"
    case Unhashable(t) => "unhashable type: '" + t + "'"
  }

  /** `v[0]`: the first element of a list, the first character of a string,
      and the exception Python raises for every other value. */
  function Index0(v: Json): (r: Result<Json, PyError>)
    ensures r.Ok? <==> (v.JArr? && |v.items| > 0) || (v.JStr? && |v.s| > 0)
    ensures v.JArr? && |v.items| > 0 ==> r == Ok(v.items[0])
    ensures v.JStr? && |v.s| > 0 ==> r == Ok(JStr(v.s[..1]))
    ensures v.JObj? ==> r == Err(KeyMissing(JNum(0)))
    ensures (v.JNull? || v.JBool? || v.JNum?) ==> r == Err(NotSubscriptable(TypeName(v)))
    ensures v == JArr([]) ==> r == Err(IndexOutOfRange("list"))
    ensures v == JStr("") ==> r == Err(IndexOutOfRange("string"))
  {
    match v
    case JArr(a) => if |a| > 0 then Ok(a[0]) else Err(IndexOutOfRange("list"))
    case JStr(s) => if |s| > 0 then Ok(JStr(s[..1])) else Err(IndexOutOfRange("string"))
    case JObj(_) => Err(KeyMissing(JNum(0)))
    case _ => Err(NotSubscriptable(TypeName(v)))
  }

  /** `v.get(key)`: only a dict has the method. */
  function GetAttr(v: Json, key: string): (r: Result<Json, PyError>)
    ensures r.Ok? <==> v.JObj?
    ensures v.JObj? ==> r.value == (if key in v.fields then v.fields[key] else JNull)
    ensures !v.JObj? ==> r.error == NoGet(TypeName(v))
  {
    match v
    case JObj(m) => Ok(Get(m, key))
    case _ => Err(NoGet(TypeName(v)))
  }
}
