# Homework status bot — decision logic

The bot polls the Practicum homework-status API every ten minutes. It checks the shape of the answer and turns a homework record into a verdict message. It relays verdicts and failure reports to a Telegram chat. This project models the script's decision logic with all I/O taken out:

- `PyValue` (py_value.dfy): the decoded JSON payload as Python values, and the exceptions an iteration can raise, with the text `str(error)` gives for each.
- `Homework` (homework.dfy): the status catalog `HOMEWORK_STATUSES`, `check_tokens`, the `from_date` choice and the status-code check of `get_api_answer`, `check_response`, and `parse_status`. It also has a decoder that reads a verdict message back into its name and status.
- `PollLoop` (poll_loop.dfy): one iteration of `main`'s `while True` loop. `Next` is the pure transition over the cursor, the delivered messages, the query windows sent, the waits taken and the process phase. The class `Bot` holds that state in fields. Its `Step` and `Run` methods are proved to follow `Next` and its iterate `RunFrom`.

The outside world is an input to each iteration (`Env`). It gives the current time, how the HTTP request ended (no connection, or a status code with a body that did or did not decode as JSON), and whether each `send_message` got through.

`main` hands the whole `homeworks` list to `parse_status` (homework.py:132). `parse_status` then subscripts a list with a string and raises `TypeError`, so as written every iteration ends in a failure report. Lines 134-142 are never reached. The model keeps this call as written (`Formatting.WholeList`) and proves the consequence. It also models the call the code was evidently meant to make on the first record (`Formatting.FirstRecord`), so that the notify-and-stop branch can be stated and proved (see Findings).

Points of the script's behaviour worth stating:

- There is no memo of the last error. Every failure is reported, every time.
- There is no empty-body check. Any decoded 200 body goes on to `check_response`, including a falsy one.
- A failed connection is swallowed and yields `None`. `check_response` then fails with a `TypeError`, which its `except KeyError` does not catch.
- A successful notification is followed by `'я стоп'` and `sys.exit()`. The loop does not simply run forever.
- Messages are the script's Russian texts. A missing record field is the plain `KeyError` of a dict subscript.

## Model

| member | source | states |
|---|---|---|
| `Homework.CatalogKeys` | homework.py:32-36 | The catalog has exactly the keys `approved`, `reviewing`, `rejected`, each once, in the order the status loop visits them. |
| `Homework.CheckTokens` | homework.py:107-119 | Returns true iff all three tokens are present (an empty string counts as present). Otherwise it reports the first missing name, in the order `PRACTICUM_TOKEN`, `TELEGRAM_TOKEN`, `TELEGRAM_CHAT_ID`. |
| `Homework.FromDate` | homework.py:54-55 | The query window starts at the cursor when the cursor is truthy. Any falsy cursor (`0`, `None`, `False`, `''`, `[]`, `{}`) is replaced by the current time. With a non-zero clock the window start is always truthy. |
| `Homework.GetApiAnswer` | homework.py:52-67 | A failed connection is swallowed and yields `None`. Any status other than 200 raises "Нет доступа к API". A 200 answer yields its decoded body unchanged, or the decoder's error. Nothing else fails. |
| `Homework.CheckResponse` | homework.py:70-81 | Succeeds exactly when the payload is a dict whose `homeworks` value is a list, and returns that list unchanged (the empty list included). A non-dict raises `TypeError`. A missing key raises the re-wrapped `KeyError`. A non-list value raises `TypeError('Неверный список работ.')`. |
| `Homework.ParseStatus` | homework.py:84-104 | Succeeds exactly for a dict with a name and a catalog status, giving `Изменился статус проверки работы "{name}". {verdict}`. Failures are checked in the source's order: a non-dict, a missing name, a missing status, an unhashable status, and then any other status raises a `KeyError` naming the status and the homework. The trailing raise is unreachable (`assert false`). |
| `Homework.DecodeVerdictMessage` | homework.py:99-101 | The verdict message can be read back. Decoding `VerdictMessage(name, verdict of s)` gives `(name, s)` for every name and every catalog status. |
| `Homework.ParseStatusDecodes` | homework.py:84-104 | Every message `parse_status` produces decodes to the record's own name and status. |
| `PyValue.ErrorText` | homework.py:143-144 | The text `str(error)` gives each exception. A `KeyError` on a missing key prints the key in quotes. The unknown-status `KeyError` prints the quoted message with the status after `'Статус ` and the homework name before `" не задан'`. Every text other than a decoder's message is non-empty. |
| `PollLoop.Announce` | homework.py:132-139 | Formatting the chosen record raises `parse_status`'s own error exactly when the record is not a known record. For a known record the verdict is announced for the same response. Its text is `parse_status`'s message, and it exits exactly when the status loop finds a key. It never yields the quiet outcome. |
| `PollLoop.TryBlock` | homework.py:130-142 | The try block raises `get_api_answer`'s error, else `check_response`'s error. Otherwise its response is the validated dict. It is quiet exactly when the first record is formatted and the list is empty. When the first record is formatted, a non-empty list announces or fails on that record. When the whole list is formatted, as written, it always raises. |
| `PollLoop.ElseClause` | homework.py:147 | Changes only the cursor or the phase, never the messages, queries or waits. With `current_date` present the cursor becomes its value. Without it the cursor stays put and the uncaught `KeyError` crashes the process. |
| `PollLoop.Next` | homework.py:128-149 | One iteration. It records the query window and always ends with the 600-second wait. When the try block raises, exactly one failure message is sent (if delivered), and the cursor and phase are unchanged. The cursor moves only when nothing was raised. The process stops exactly when a verdict was announced and the status loop found a key, after sending the verdict and then `'я стоп'`. At most two messages are added and none is removed. |
| `PollLoop.Bot.constructor` | homework.py:127 | The loop starts with the cursor at the current time, nothing sent, no queries, no waits, running. |
| `PollLoop.Bot.Deliver` | homework.py:39-49 | `send_message`: a delivered message is appended to the outbox. A `TelegramError` leaves the outbox unchanged. |
| `PollLoop.Bot.Step` | homework.py:128-149 | The imperative loop body (try, except, else, finally) leaves the bot's fields equal to `Next` of their old values. |
| `PollLoop.Bot.Run` | homework.py:128-149 | Repeating the body until the process stops or the environments run out gives `RunFrom` of the old state. |
| `PollLoop.Launch` | homework.py:122-127 | The loop starts, with a fresh bot in the initial state, iff all three tokens are present. |
| `PollLoop.CatalogStatusFound` | homework.py:138-139 | Every catalog status is a substring of some catalog key, so the status loop always finds one. |
| `PollLoop.NotificationAlwaysStops` | homework.py:134-142 | Whenever the try block announces a verdict, the status loop finds a key, so the bot stops. |
| `PollLoop.StopsExactlyAfterVerdict` | homework.py:134-149 | An iteration stops the process iff it announced a verdict. |
| `PollLoop.AsWrittenAlwaysRaises` | homework.py:132 | As written, every iteration's try block raises, whatever the API answers. Once the answer validates, the error is the `TypeError` of subscripting a list with a string. |
| `PollLoop.AsWrittenRunNeverStops` | homework.py:128-149 | As written, any number of iterations leaves the process running and the cursor where it was. Every message added begins with `Сбой в работе программы: `. |
| `PollLoop.RepeatedFailureSentTwice` | homework.py:143-145 | There is no deduplication. The same failure in two consecutive iterations is sent twice. |
| `PollLoop.ConnectionFailureReported` | homework.py:56-75 | After a failed connection the iteration raises the `TypeError` of subscripting `None`. The chat receives `Сбой в работе программы: 'NoneType' object is not subscriptable`, and the cursor is unchanged. |
| `PollLoop.CursorAdvance` | homework.py:143-147 | The cursor changes only after an iteration that raised nothing and did not exit. It then becomes the answer's `current_date`, with nothing sent. If that key is missing, the uncaught `KeyError` ends the process. |
| `PollLoop.FirstRecordVerdictSent` | homework.py:132-142 | Formatting the first record: for any validated, non-empty answer whose first record is known, the chat receives that record's `parse_status` message and then `'я стоп'` (each if delivered). The process stops and the cursor is unchanged. |
| `PollLoop.EmptyListSendsNothing` | homework.py:133-147 | Formatting the first record: an answer with an empty `homeworks` list is quiet. Nothing is sent, the loop keeps running, and the cursor becomes `current_date`. |
| `PollLoop.AsWrittenSample` | homework.py:130-149 | With cursor 1000 and an answer holding one approved homework `hw1` and `current_date` 2000, the code as written sends one failure report, queries from 1000, waits 600 seconds and keeps the cursor at 1000. |
| `PollLoop.FirstRecordSample` | homework.py:130-142 | On the same answer, formatting the first record sends the approved verdict for `hw1`, then `'я стоп'`, waits 5 and 600 seconds and stops, with the cursor still at 1000. |

## Findings

| source | as written | input that shows it | evidently intended | confidence | as-written member | corrected member |
|---|---|---|---|---|---|---|
| homework.py:132 | `parse_status(homeworks)` receives the whole list. Subscripting it with `'homework_name'` raises `TypeError`, so no verdict is ever sent. | `{"homeworks": [{"homework_name": "hw1", "status": "approved"}], "current_date": 2000}` with status 200 | Format the first record, `homeworks[0]`, as the comment at homework.py:87-88 says. Send nothing when the list is empty, as the comment at homework.py:133 says. | high; not executed | `PollLoop.AsWrittenAlwaysRaises` | `PollLoop.FirstRecordVerdictSent` |

## Left out

- The HTTP request itself is left out: the endpoint, the `OAuth` header and `requests.get` (homework.py:57-58). Only its classified outcome is an input.
- `.json()` decoding (homework.py:67) is left out. A body that does not decode is an input carrying the decoder's message.
- `telegram.Bot` and `bot.send_message` (homework.py:42-45, 126) are left out. Delivery is a boolean per send. Exceptions other than `TelegramError` raised while sending are not modelled.
- The logger setup and every `logger.*` call (homework.py:18-25 and elsewhere) are left out. They carry no decision logic.
- `load_dotenv` and `os.getenv` (homework.py:9-15) are left out. The three tokens are `Option<string>` parameters.
- `time.time()`, `time.sleep()` and `sys.exit()` have no real effect in the model. The clock is an input, each wait is recorded in `sleeps`, and the exit is the `Stopped` phase.
- JSON floating-point numbers are not modelled in `Value`.
- Display: prints lists and dicts inside an f-string only as `[...]` and `{...}`, not as Python's repr.
- ErrorText: quotes a `KeyError` argument in single quotes without Python's repr escaping. The texts differ from Python's when a status or name contains a quote, a backslash, a control character such as a newline or tab, or another non-printable character (U+00A0 prints as `\xa0`). The wording of the interpreter's `TypeError` for subscripting a `str` follows one Python version.
- `main` re-reads `homeworks[0]['status']` (homework.py:135). The model reads the status of the record it formatted. That is the same record when the first record is formatted, and the line is unreachable as written.
