# homework_bot, modelled in Dafny

A Telegram bot polls the Yandex Practicum homework-status API and forwards
status changes. Two versions of the bot are modelled:

- `homework.py`: the final bot. `check_response` validates the decoded
  answer, `parse_status` turns the first homework record into a notification
  through the three-entry `HOMEWORK_STATUSES` table, `check_tokens` checks
  the three environment values, and `main` loops forever over
  `(current_timestamp, last_message)`.
- `hw.py`: an earlier draft with the same table and token check. Its
  `get_api_answer` and `check_response` catch their own exceptions, send a
  notice and return `None`; `parse_status` does so only for an unknown
  status, because its indexing of the first record is outside the handler.
  A failed request therefore sends two notices and then raises a TypeError
  from `None[0]`. Its `main` makes a single pass.

JSON values are modelled as the Python objects `json()` returns (`Json`:
`None`, `bool`, `int`, `str`, `list`, `dict`), with Python truthiness
(`Truthy`) and the exact behaviour of `v[0]` and `v.get(k)` on every kind of
value (`PyRuntime.Index0`, `PyRuntime.GetAttr`). Each exception the scripts
raise is a `PyError`; `PyRuntime.ErrorText` is `str(error)`, which is what the
failure notice prints. Network requests and Telegram sends are not
performed. Each cycle takes their outcomes as inputs: `FetchOutcome` is a
status code with a decoded body, a status code with a body that does not
decode, or a failed request; `SendOutcome` is delivered or
failed with a reason. `Homework.Step` is one pass through the loop body.
`Homework.Run` chains steps over a finite list of such inputs.

Modules: `Wrappers` (Option, Result), `Json`, `PyRuntime`, `Statuses` (the
table and message text, shared by both scripts), `Tokens`, `Homework`,
`HomeworkProps` (properties spanning several cycles), `Hw`, `Variants` (how
the two scripts compare).

Behaviour of the code worth knowing:

- The timestamp passed to the API is 0 on every request and is never
  reassigned. `current_date` is checked but never used as a cursor.
- `last_message` changes only when the `try` block completes. A failed
  status send raises (homework.py:35), so the state is kept and the same
  message is sent again on the next cycle. It is not recorded as sent.
- Every non-200 code raises the same exception, and the loop goes on after sending a failure notice.
- A failed send of the failure notice itself (homework.py:125) happens
  inside the `except` branch. It escapes `main` and ends the process
  (`Crash`).
- Missing tokens in homework.py raise a KeyError before the loop and send
  nothing. hw.py sends a notice and carries on.
- The notification text is
  `Изменился статус проверки работы "<name>". <verdict>`.

## Model

| member | source | states |
|---|---|---|
| Json.FalsyExactly | homework.py:60 | a value is falsy exactly when it is `None`, `False`, `0`, `""`, `[]` or `{}`; so an empty `homeworks` list or `current_date == 0` fails the check |
| Json.Get | homework.py:58-59 | `dict.get` gives the bound value, or `None` for a missing key |
| Json.NatText | homework.py:76 | the decimal text of a natural number: digits only, no leading zero, and it denotes the number |
| Json.Str | homework.py:76 | `str(x)` as an f-string prints it: a string is itself, `None` is "None", and an int is its decimal text with a minus sign when negative |
| Json.Escape | homework.py:61 | the escaping inside `repr` of a string; a string without backslash or the quote comes out unchanged |
| Json.UnescapeEscape | homework.py:61 | escaping loses nothing: reading each backslash as "the next character is literal" gives the original string back |
| Json.Repr | homework.py:61 | `repr(x)`: a string is wrapped in matching quotes, single ones unless it holds a single quote and no double one; a string needing no escapes is quoted unchanged; other values print as `str` |
| PyRuntime.Index0 | homework.py:63 | `v[0]` succeeds only on a non-empty list or string. A dict raises KeyError(0), `None`/int/bool raise "not subscriptable", an empty list or string raises IndexError |
| PyRuntime.GetAttr | hw.py:86-87 | only a dict has `.get`; on any other value the call raises AttributeError naming the type |
| PyRuntime.PlainMessages | homework.py:61 | the two KeyError messages need no escaping, so their `repr` is the message in single quotes |
| PyRuntime.ErrorText | homework.py:124 | `str(error)` as the failure notice prints it: a KeyError prints the repr of its key, so the missing-fields and missing-tokens messages appear in single quotes. A failed send keeps its reason after the fixed prefix; a failed request keeps its own text |
| Statuses.Lookup | homework.py:19-23 | `HOMEWORK_STATUSES[status]` succeeds exactly for the strings approved, reviewing and rejected, with their verdicts. A list or dict raises "unhashable"; any other value, `None` included, raises KeyError with that key |
| Statuses.NoVerdictIsSuffixOfAnother | homework.py:19-23 | no verdict text ends with a different verdict text |
| Statuses.MessageDeterminesParts | homework.py:76 | two notifications are equal iff the printed homework names are equal and the verdicts are equal |
| Tokens.AllNotNone | homework.py:85 | `all([t != None ...])` is true iff every element is not `None` |
| Tokens.CheckTokens | homework.py:82-89 | `check_tokens` is true iff all three tokens are not `None`; an empty string counts as present (hw.py:96-102 is the same function) |
| Homework.GetApiAnswer | homework.py:38-50 | a body is returned iff the answer came with code 200 and decodes; any other code raises the non-200 exception before the body is decoded; a 200 body that does not decode and a failed request re-raise their own exception |
| Homework.SendMessage | homework.py:28-35 | a failed delivery raises an exception carrying the reason |
| Homework.CheckResponse | homework.py:53-67 | accepts exactly the well-formed responses: a dict whose truthy `homeworks` is a list not starting with a list (or a non-empty string) and whose `current_date` is truthy. It then returns `homeworks` unchanged. A non-dict raises TypeError; a missing or falsy field raises KeyError; a list of lists raises TypeError |
| Homework.ParseStatus | homework.py:70-79 | for a dict with a known status the result is exactly the notification built from `homework_name` and that status's verdict. An unknown or missing status raises and gives no message; a non-dict raises AttributeError |
| Homework.StatusMessage | homework.py:113-115 | a message is produced only from a 200 answer whose body is well formed, it is `parse_status` of `homeworks[0]`, and it starts with the notification prefix. When the request or the validation raises, that same exception escapes |
| Homework.Start | homework.py:105-110 | the loop starts at timestamp 0 with an empty last message iff all tokens are present; otherwise `main` raises |
| Homework.Step | homework.py:111-126 | a status message is sent iff it differs from `last_message`. A completed cycle remembers it; a raising cycle sends `Сбой в работе программы: <error>` and keeps both variables. A failed notice send crashes `main`. The request always uses the current timestamp, which never changes |
| Homework.Run | homework.py:111-126 | each cycle of a run is one step from the state the previous cycle continued with, so `last_message` carries over; every cycle requests the same timestamp; a run stops early only at a crash, and no crash happens before its last cycle |
| HomeworkProps.MessageTracksStatus | homework.py:70-76 | for one homework name, two records give the same notification iff their statuses are equal |
| HomeworkProps.UnchangedMessageNotResent | homework.py:116-121 | after a completed cycle, a cycle that computes the same message sends nothing and leaves the state unchanged |
| HomeworkProps.ChangedStatusIsSent | homework.py:113-121 | after a completed cycle, a new status for the same homework is always sent |
| HomeworkProps.FailedSendIsRetried | homework.py:116-125 | when the status send fails and the notice goes out, the state is unchanged and the same message is sent again on the next cycle |
| HomeworkProps.FirstMessageIsSent | homework.py:109-117 | the first status message computed after startup is always sent |
| HomeworkProps.TimestampStaysZero | homework.py:109-113 | every request of a run started by `main` uses timestamp 0 |
| HomeworkProps.NoticeIsNotStatus | homework.py:124 | a failure notice never has the form of a status notification |
| HomeworkProps.RunRemembersOnlyStatus | homework.py:110-126 | along any run, `last_message` is empty or a status notification; a failure notice never becomes `last_message` |
| HomeworkProps.ApprovedAfterStart | homework.py:111-121 | one approved homework right after startup is sent with the exact text and remembered. The timestamp stays 0 despite `current_date` |
| HomeworkProps.Non200Notice | homework.py:44-46 | a non-200 answer makes the cycle send exactly `Сбой в работе программы: API возвращает код, отличный от 200` |
| HomeworkProps.UndecodableNotice | homework.py:44-50 | a body that does not decode makes the cycle send the non-200 notice when the code is not 200, and the decoding error's text after the notice prefix when it is 200 |
| HomeworkProps.ListBodyNotice | homework.py:55-56 | a body that is a list makes the cycle send exactly `Сбой в работе программы: Oтвет API не является словарём` |
| HomeworkProps.EmptyDictNotice | homework.py:58-61 | an empty dict makes the cycle send the missing-fields KeyError text in single quotes after `Сбой в работе программы: ` |
| Hw.SendMessage | hw.py:51-57 | a failed delivery only yields an error log line; there is no exception to propagate |
| Hw.GetApiAnswer | hw.py:60-69 | any decoded body is returned whatever its status code; a failed request or a body that does not decode sends "API не отвечает" and returns `None` |
| Hw.CheckResponse | hw.py:72-79 | any dict passes and its `homeworks` entry (or `None`) is returned; a value without `.get` sends a notice and returns `None` instead of raising |
| Hw.ParseStatus | hw.py:84-93 | the first element of the list is read outside the handler, so a bad list or record raises. A known status gives the same notification as homework.py; an unknown one sends a notice and returns `None` |
| Hw.SendAll | hw.py:51-57 | each payload is recorded as sent in order, whatever its delivery; failed deliveries only add log lines, at most one per send, and none when every send goes out |
| Hw.Sends | hw.py:108-116 | the token notice comes first iff a token is missing. Unless parsing raises, the last send is the one report of the parsed message (possibly `None`), and every other send is a notice |
| Hw.Main | hw.py:106-116 | the pass requests timestamp 0 and makes exactly the sends of `Hw.Sends`. It raises exactly when `parse_status` does, with that exception. Failed deliveries only add log lines, at most one per send and none when every send goes out |
| Hw.FailedFetchCrashes | hw.py:60-90 | with all tokens present, a failed or undecodable request sends "API не отвечает", then "api не вернул словарь", and the pass raises TypeError from indexing `None` |
| Hw.DeliveryNeverAffectsFlow | hw.py:53-57 | what the sends did never changes what the pass sends or whether it raises |
| Hw.TokensOnlyAddNotice | hw.py:108-116 | with a token missing, the pass sends the "нет токенов" notice first and then exactly what it sends with all tokens present, and it raises exactly when that pass does |
| Variants.DraftSendsSameMessage | hw.py:84-90 | whenever homework.py computes a notification from an answer, hw.py's pass ends by sending the same text |
| Variants.Non200Diverges | homework.py:44-46 | for a non-200 answer whose body decodes, homework.py raises while hw.py returns the body |
| Variants.NonDictDiverges | hw.py:74-79 | for a non-dict response homework.py raises TypeError while hw.py sends a notice and returns `None` |
| Variants.UndecodableDiverges | hw.py:66-68 | for a body that does not decode, homework.py raises the non-200 exception (or, for code 200, the decoding error) while hw.py sends "API не отвечает" and returns `None` |
| Variants.ListOfListsDiverges | homework.py:63-65 | for every dict with a truthy `current_date` whose `homeworks` is a list starting with a list, homework.py raises while hw.py returns that `homeworks` unchanged |
| Variants.UnknownStatusDiverges | hw.py:88-93 | for an unknown status homework.py raises while hw.py sends a notice and returns `None` |

## Left out

- The HTTP request (`requests.get`, homework.py:43, hw.py:65), `.json()` decoding and the Telegram bot are foreign I/O. Their results are the `FetchOutcome` and `SendOutcome` inputs. A response whose body `.json()` cannot decode is `Undecodable`, with its status code and the exception text as inputs, because homework.py checks the code before decoding and hw.py decodes first.
- Environment loading, the `HEADERS` value and all logging setup (homework.py:94-101, hw.py:27-46) are configuration plumbing. Log calls are not modelled, except the error line of hw.py's `send_message`.
- `time.sleep(RETRY_TIME)` and the endless `while True` are left out. `Homework.Run` covers any finite prefix of the loop.
- Start: `telegram.Bot(token=...)` runs before the token check, at homework.py:103 inside `main` and at hw.py:48 when hw.py is imported. What it does with a missing token is foreign code and is not modelled. The hw.py token notice therefore assumes the bot was built.
- JSON floating-point numbers are left out; `Json` numbers are integers.
- Json.Str: `str()` of a list or dict (the printed homework name when the API sends one) is rendered as a placeholder, not as Python's repr. Two different list- or dict-valued `homework_name`s therefore print the same, so `Homework.Step` sends nothing where homework.py:116 would see two different messages and send.
- Json.Repr: only quote choice and the escaping of backslash and quote are modelled. Escapes of control and non-printable characters are not.
- PyRuntime.ErrorText: exception texts follow CPython 3 wording. The text of exceptions raised inside `requests` is an input.
- exceptions.py defines exception classes that neither script imports. It has no behaviour to model.
