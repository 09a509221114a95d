# homework_bot in Dafny

A model of the checking and state logic of `homework.py`, a Telegram bot that
polls the Practicum homework-review API and should report status changes of
the latest submission. The model covers the credential gate `check_tokens`,
the response validator `check_response`, the status extractor `parse_status`
with its `HOMEWORK_VERDICTS` table, and one iteration of `main`'s
`while True` loop (fetch, validate, compare, notify, sleep). A run of
iterations is modelled as well.

The model follows the code as written, defects included. What the code does
is often not what its docstrings and error texts intend:

- `check_response` raises `AttributeError` on line 80 for any JSON value that
  is not an object, because only a dict has `.keys()`.
- For an object without `homeworks`, line 82 raises a `TypeError`: `isinstance`
  is called with one argument.
- The `TypeError` of lines 83-85 and the `KeyError` of lines 90-92 can never be
  raised.
- `parse_status` never returns. A non-dict fails on line 98. A dict is called
  like a function on line 100, which raises `TypeError`.
- The verdict guard on line 108 is inverted, so lines 108-112 raise for every
  status.
- The loop reads the key `'homework'` (line 128), not `'homeworks'`. A response
  of the documented shape therefore produces no notification at all.
- When the status changes, the loop passes the status string rather than the
  record to `parse_status` (line 133). That raises, so the send on line 134 is
  never reached.
- When the status is unchanged, line 137 raises `Exception(message)`. `message`
  holds the previous alert, or is unbound if no exception has been caught yet.
  Every repeated status is therefore alerted again, each alert wrapping the last.
- So every iteration sends exactly one alert unless its response passes
  `check_response` and has no truthy `'homework'` key; such a quiet iteration
  sends nothing and changes nothing.

Three files, one module each:

- `python_values.dfy` (module `Python`): decoded JSON values, and the Python
  exceptions as a class plus the text `str(error)` gives. It also has the
  built-ins the bot applies to those values: truthiness, `==` (where `True == 1`),
  `dict.get`, the `.get` method, `[0]` and dict lookup.
- `homework.dfy` (module `Homework`): the constants and the three checks, as
  functions returning `Result` or `Gate`.
- `bot.dfy` (module `Bot`): the loop. `TryBlock` and `Cycle` are the
  specification of one iteration, built as pure functions. `Step` is the
  iteration written as statements. `PollLoop` is the `while` loop over a
  sequence of iteration inputs. Both methods are proved equal to the
  functions, and the lemmas state what runs of the loop do.

The outside world enters as inputs:

- what `get_api_answer` returned or raised;
- whether each `send_message` was delivered;
- the start time.

The loop's effects are recorded as a trace of messages sent and sleeps taken.

## Where the code differs from its evident intent

The intended behaviour below is what the code's own docstrings, error texts,
names and data suggest a status-relaying bot should do. The model follows
the code in each case.

- Credentials: a missing credential is meant to stop the bot, and an empty
  value is as unusable as an unset one. The code only rejects `None`, so empty
  strings pass.
- Response validation: the error texts name a missing `homeworks` key and a
  response of the wrong type. The API also returns a `current_date` cursor.
  The code raises `AttributeError` or the one-argument `isinstance`
  `TypeError` instead, never looks at `current_date`, and has two unreachable
  branches.
- Status extraction: `parse_status` is meant to return the sentence built on
  line 111 with the verdict for one of the three known statuses. The code
  never returns.
- Cursor: `timestamp` is sent as `from_date`, so it would be expected to
  advance between polls. The code sets it once and never reassigns it.
- Deduplication: `recent_status_homework` and the "Нет новых статусов" branch
  are meant to notify once per status change and stay silent on repeats. The
  code never notifies about a status and alerts on every repeat.
- Notifier: the `except` branch is meant to report a failed cycle and carry
  on polling. When that alert cannot be delivered, `send_message` re-raises;
  the `finally` sleep still runs, and then the exception ends `main`.

## Model

| member | source | states |
|---|---|---|
| `Homework.VerdictKeys` | homework.py:32-36 | `HOMEWORK_VERDICTS` has exactly the keys approved, reviewing and rejected |
| `Homework.CheckTokens` | homework.py:39-49 | passes if and only if no credential is `None` (empty strings pass); otherwise exits naming a missing credential, the first one in the order PRACTICUM_TOKEN, TELEGRAM_TOKEN, TELEGRAM_CHAT_ID |
| `Homework.CheckResponse` | homework.py:78-93 | succeeds exactly for an object whose `homeworks` is a list, and then returns that list unchanged. A non-object fails with `AttributeError` from `.keys()`. An object without `homeworks` fails with the `TypeError` of the one-argument `isinstance`. A non-list `homeworks` fails with `TypeError`. The errors of lines 85 and 92 never occur |
| `Homework.CheckResponseIgnoresOtherKeys` | homework.py:86-93 | two responses that agree on `homeworks` get the same outcome, whatever `current_date` or any other key holds |
| `Homework.ParseStatus` | homework.py:96-101 | never returns a message: `TypeError` "Переменная не словарь" for a non-dict, "'dict' object is not callable" for a dict |
| `Homework.VerdictCheck` | homework.py:108-112 | never returns. A status outside the table raises `KeyError` at the lookup. A status inside it raises the "Неизвестный статус работы" exception |
| `Homework.StatusTail` | homework.py:102-112 | never returns. The name or status value missing as a key of the record raises the matching `KeyError`; otherwise the verdict check decides |
| `Python.Lookup` | homework.py:109 | dict subscription succeeds exactly for a present key and gives its value; otherwise `KeyError` carrying the key's repr |
| `Python.Subscript0` | homework.py:129 | `[0]` succeeds exactly on a non-empty list or string; on a list it gives the first element; on a dict it raises `KeyError` |
| `Python.GetMethod` | homework.py:130-132 | `.get('status')` succeeds exactly on a dict, giving the value or `None`; anything else raises `AttributeError` |
| `Python.PyEqAcrossKinds` | homework.py:130 | the comparison of statuses is Python's `==`: every bool equals the int it stands for, and no string equals `None`, any int or any bool |
| `Python.PyEqOnBoolFree` | homework.py:130 | for values that contain no bool anywhere (string statuses among them), Python's `==` holds exactly when the values are equal |
| `Bot.Start` | homework.py:121-122 | the loop starts with the given timestamp, the recorded status `''` (the empty string, which is falsy) and `message` unbound |
| `Bot.SendMessage` | homework.py:52-59 | records one send attempt; raises `Exception("Ошибка " + reason)` exactly when delivery failed |
| `Bot.Alert` | homework.py:139 | the alert is "Сбой в работе программы: " followed by `str(error)` and "." |
| `Bot.TryBlock` | homework.py:125-137 | the `try` block raises exactly when the input is not quiet (quiet: the response passes `check_response` and has no truthy `'homework'`). An API failure and a `check_response` failure are raised as they are, and the recorded status stays unchanged. It never sends and never binds `message`. When it changes the recorded status, the new value differs under Python `==` and a `TypeError` was raised |
| `Bot.Cycle` | homework.py:124-143 | one iteration keeps `timestamp` and ends with exactly one sleep of 600 s. It sends exactly one message when the iteration is not quiet and none when it is: the alert for the exception the `try` block raised, which also becomes `message`. The recorded status is the one the `try` block left. An exception escapes only when that alert is undelivered, and it is the re-raised `Exception`. An iteration that sends nothing changes no local |
| `Bot.Step` | homework.py:124-143 | the iteration written as statements (try, except, finally) gives exactly the locals, trace and escaping exception of `Cycle` |
| `Bot.PollLoop` | homework.py:124-143 | the `while` loop over a sequence of inputs gives exactly `Loop`: iterations run in order until the inputs end or an exception escapes |
| `Bot.LoopKeepsTimestamp` | homework.py:121-143 | `timestamp` is never reassigned across any run |
| `Bot.LoopSleepsOncePerIteration` | homework.py:124-143 | a run of n iterations with no escaping exception sleeps exactly n times. A run that an exception ends sleeps between 1 and n times. Sends never outnumber sleeps, and the last effect of every non-empty run is a sleep, even when the final send raised |
| `Bot.LoopAlertsOncePerNonQuietInput` | homework.py:125-141 | a run that no exception escapes sends exactly as many alerts as it had inputs that are not quiet |
| `Bot.LoopEffectsAreAlertsAndSleeps` | homework.py:138-143 | every message a run sends has the alert shape of line 139, and every sleep is `RETRY_PERIOD` = 600 |
| `Bot.LoopKeepsMessageAlert` | homework.py:133-139 | once bound, `message` always holds an alert |
| `Bot.LoopQuietOnlySleeps` | homework.py:127-128 | responses that pass `check_response` but have no truthy `'homework'` key (such as `{'homeworks': [...], 'current_date': ...}`) cause no send and no change of state; the run only sleeps |
| `Bot.CycleStatusChange` | homework.py:128-134 | the recorded status changes only when `'homework'` is a non-empty list whose first element is a dict with a status different under `==`. It then becomes that status, and the iteration sends the alert for the `TypeError` of `parse_status` |
| `Bot.CycleRecordsDifferingStatus` | homework.py:128-132 | when `'homework'` is a list whose first element is a dict with a status differing under `==` from the recorded one, that status is recorded |
| `Bot.CycleRepeatedStatusAlerts` | homework.py:130-141 | a status equal to the recorded one keeps it and still sends an alert, wrapping the previous `message`, or the `UnboundLocalError` if `message` is unbound |
| `Bot.CycleApiErrorAlerts` | homework.py:125-143 | a failed API call produces exactly one alert for its exception, then the sleep |
| `Bot.ApprovedResponseIsSilent` | homework.py:126-128 | the response `{"homeworks": [{"homework_name": "hw1", "status": "approved"}], "current_date": 100}` produces no notification and no change, only the sleep |
| `Bot.RepeatedReviewingAlertsTwice` | homework.py:128-141 | two iterations that both see status "reviewing" under `'homework'` send two alerts. The second wraps the first |

## Left out

- `get_api_answer` (lines 62-75) is HTTP I/O and is not modelled: each iteration's input says what it returned or raised.
- The body of `send_message` and `telegram.Bot` (lines 52-59, 119) are foreign calls. Delivery is an input; only the re-raise on failure is modelled.
- `logging`, `load_dotenv` and `os.getenv` are left out: the credentials are parameters of `CheckTokens`.
- `time.time` is left out: it is the parameter of `Start`.
- The real duration of `time.sleep` is left out: a sleep is a trace event.
- The unbounded `while True` is modelled as runs over finite sequences of inputs.
- The exit status of `sys.exit` is left out; `CheckTokens` only says whether, and on which credential, it exits.
- JSON floating-point numbers are not modelled.
- Exceptions that are not `Exception` subclasses, such as `KeyboardInterrupt`, are not modelled.
- Interpreter exception texts use the wording of CPython 3.11 and later: "isinstance expected 2 arguments, got 1", "'dict' object is not callable", "object has no attribute" and "cannot access local variable". Older versions word the unbound-variable error differently.
- `Python.Lookup`: `str()` of a `KeyError` is modelled as the key between single quotes. This matches Python's repr only for keys with no quotes or escapes.
- `Homework.StatusTail` and `Homework.VerdictCheck` take the status and name as strings. Lines 102-112 cannot run after line 100, so no real values exist for them. Non-string values are not modelled; an unhashable one would give a different `TypeError`.
- `Bot.Step`: the unreachable send of line 134 gets its own delivery input. A real second send would consult the Telegram client again.
