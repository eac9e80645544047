# Homework status bot, modelled in Dafny

The bot polls a homework-review service for status changes and relays them to a
Telegram chat. Each iteration of its main loop does five things. It asks the
endpoint for updates since a checkpoint timestamp. It checks the reply's
`homeworks` list. It turns the first record into a notification using the
fixed three-entry verdict table. It announces critical errors, but not one that
repeats the error just before it. It then sets the checkpoint to the clock
reading taken in `finally`.

Modules:

- `Py` (py.dfy): the slice of Python the code relies on.
  - decoded JSON values;
  - the built-in exceptions the bot does not catch;
  - `dict.get`, `in` on strings;
  - `str()` of values, including decimal rendering of integers and reading them back.
- `Errors` (errors.dfy): the exception taxonomy as `Outcome<T> = Ok | NonCritical | Critical | Uncaught`.
  - `NonCritical` and `Critical` are the bot's two exception classes.
  - `Uncaught` is a Python `KeyError`, `IndexError`, `TypeError` or `AttributeError`, which `main` does not handle.
- `Homework` (homework.dfy): the pure functions.
  - `GetApiAnswer` classifies the transport result;
  - `CheckResponse`, `ParseStatus` and `CheckTokens`;
  - the verdict table and the message texts, exactly as in the source.
- `Bot` (bot.dfy): the loop of `main`.
  - `Attempt` is the `try` block.
  - `CycleSpec` is one iteration as a function of the state.
  - `RunSpec` is a finite run that stops at the first uncaught exception.
  - class `Poller` holds the two variables the loop updates in place (`current_timestamp`, `list_errors_occurred`), with `Step` and `Run` methods proved equal to those functions.
  - `RunBot` is `main`, guarded by `check_tokens`.
  - Lemmas state deduplication and checkpoint properties over whole runs.

Inputs in place of I/O:

- A cycle is `Cycle(reply, requestClock, finallyClock)`.
  - `reply` is what the endpoint answered: a transport exception, or a status code and a decoded body.
  - `requestClock` is the `time.time()` reading `get_api_answer` uses when the checkpoint is 0.
  - `finallyClock` is the reading taken in `finally`.
- The `from_date` each request carries is an output of the model, so statements about which timestamp is queried are provable.
- A sent message is an element of the returned `sent` sequence.

Behaviour of the code that the model keeps as written:

- The checkpoint is overwritten with the `finally` clock reading after every cycle, including error cycles and the crashing cycle. It is not held on error, and no `current_date` field is read.
- There is no "name missing" or "status missing" shape error. A missing name is rendered as `None`. A missing or unknown status is a `KeyError` that ends `main`.
- Only the bot's own `CriticalErrors` are announced and deduplicated. Some inputs raise an exception the loop does not catch: an empty top-level list, a non-dict homework record, a non-dict reply that passes the `in` test, or a bad status. The model ends the run there, after the `finally` update. A non-dict reply that fails the `in` test (a string without the substring `homeworks`, or a list without that string) raises the caught `CriticalErrors('Нет homeworks в ключах ответа!')`.
- Only the first homework record of a reply is ever announced.
- The messages are the source's Russian strings.

## Model

| member | source | states |
|---|---|---|
| `Py.DecimalRoundTrip` | homework.py:62 | reading back the digits rendered for a natural number gives the number |
| `Py.IntRoundTrip` | homework.py:61-63 | `str` of any integer, read back, gives the integer (sign included) |
| `Py.Display` | homework.py:87 | the f-string placeholder shows a string name as itself, None as `None`, a boolean as `True`/`False`, and an integer in a form that reads back to it |
| `Homework.StatusCodeMessage` | homework.py:61-63 | the text is `Код страницы: ` followed by the decimal code that reads back to that code, then `!`; `StatusCodeMessageRoundTrip` recovers the code from the whole text |
| `Homework.FromDate` | homework.py:49 | the `from_date` of a request is the checkpoint unless it is 0 (falsy), in which case it is the clock reading; `RunFollowsClock` states it over a run |
| `Homework.StatusCodeMessageRoundTrip` | homework.py:61-63 | the status code can be recovered from the error text raised for it |
| `Homework.GetApiAnswer` | homework.py:51-63 | transport exception gives `Critical('Ошибка доступа к эндпоинту!')`; 200 gives the body; any other code gives `Critical` whose text carries that code (recoverable); never `NonCritical` |
| `Homework.CheckResponse` | homework.py:66-77 | an empty top-level list is an `IndexError`. A non-empty list is read by its first element. An object without `homeworks` gives `Critical(NoHomeworks)`. A non-list `homeworks` gives `Critical(UnknownFormat)`. `NonCritical` occurs iff the list is empty. `Ok` occurs iff it is non-empty, and then it is that very list. A non-dict gives an uncaught error or `Critical(NoHomeworks)`, as Python's `in` dictates |
| `Homework.CheckResponseRoundTrip` | homework.py:68-75 | a reply built from a non-empty record list, bare or wrapped in a list, yields exactly that list; an empty one yields `NonCritical('Домашка без изменений!')` |
| `Homework.CheckResponseReadsFirstOnly` | homework.py:68-69 | the elements after the first of a list reply never affect the result |
| `Homework.ParseStatus` | homework.py:80-87 | an empty list is an `IndexError`. Otherwise element 0, or the value itself, is read. It succeeds iff its `status` is a key of the verdict table. The message is `Изменился статус проверки работы "<name>". <verdict>`. Every failure is an uncaught `KeyError`/`TypeError`/`AttributeError`, never `NonCritical` or `Critical` |
| `Homework.ParseStatusOfRecord` | homework.py:82-87 | success gives the exact message for a record with a known status, alone or first in a list; `KeyError` for any other status string |
| `Homework.ParseStatusMissingStatus` | homework.py:85-86 | a record without `status` is a `KeyError` |
| `Homework.NotificationDeterminesStatus` | homework.py:22-26 | the three verdicts are distinct, so two different known statuses give two different messages for the same homework |
| `Homework.CheckTokens` | homework.py:90-100 | true iff all three settings are present (not None); `CheckTokensFromEnv` relates it to the environment |
| `Homework.CheckTokensFromEnv` | homework.py:90-100 | `check_tokens` of the settings read from the environment is true iff all of PRACTICUM_TOKEN, TELEGRAM_TOKEN, TELEGRAM_CHAT_ID are set |
| `Bot.Attempt` | homework.py:111-114 | the `try` block. Transport or non-200 gives the corresponding `Critical`. A 200 reply that `check_response` rejects yields that same failure unchanged (`NonCritical` iff the list is empty). Success occurs iff the reply is 200, `check_response` accepts it and `parse_status` accepts its list; the result is `parse_status` of the first record alone |
| `Bot.CycleSpec` | homework.py:110-132 | one iteration. The checkpoint becomes the `finally` clock, whatever the outcome. The query is the checkpoint, or the clock if it is 0. A critical cycle appends exactly its text. Other cycles keep the history. A critical text is sent iff the history was empty or its last entry differs. Success sends exactly the message. `NonCritical` and crashes send nothing. A crash ends the loop |
| `Bot.RunSpec` | homework.py:110-132 | a run of cycles in order: each executed cycle issues one request, a run without a crash executes every cycle, and a crashed run executed at least one; `CrashIsFinal`, `RunStopsAtFirstCrash`, `RunFollowsClock` and `HistoryRecordsCriticalErrors` constrain it further |
| `Bot.RunStopsAtFirstCrash` | homework.py:110-132 | a crashed run ended at the first cycle that raised an uncaught exception, with that exception; no earlier executed cycle raised one; a run still going met none |
| `Bot.CrashIsFinal` | homework.py:110-132 | after an uncaught exception no later cycle has any effect |
| `Bot.RunFollowsClock` | homework.py:108-131 | over a run, the first request asks from the start checkpoint. Each later request asks from the previous cycle's `finally` clock (or the request clock if that was 0). The final checkpoint is the last executed cycle's `finally` clock. A run without a crash executes every cycle |
| `Bot.HistoryRecordsCriticalErrors` | homework.py:117-119 | the error history grows by exactly the texts of the critical cycles executed, in order |
| `Bot.CollapseAppend` | homework.py:119-127 | the independent deduplication reference, extended by one message, decides that message by its immediate predecessor |
| `Bot.CriticalRunAnnouncesChanges` | homework.py:117-127 | over failing cycles, the messages sent are exactly the error texts that differ from the entry just before them (adjacent comparison, not set membership) |
| `Bot.RepeatedErrorAnnouncedOnce` | homework.py:119-127 | errors `e, e, e` from an empty history send `e` once |
| `Bot.AlternatingErrorsAllAnnounced` | homework.py:119-127 | errors `e, f, e` send all three |
| `Bot.OutageDiffersFromStatusCode` | homework.py:56-63 | the transport error text differs from every status-code error text |
| `Bot.OutageThenServerErrorThenOutage` | homework.py:110-127 | outage, HTTP 500, outage: three notifications, in that order |
| `Bot.SuccessSendsNotification` | homework.py:128-131 | a 200 reply with a known status sends exactly its notification; history kept, checkpoint to the clock |
| `Bot.ErrorAfterRecoveryStaysSilent` | homework.py:115-129 | error `e`, a success, then `e` again: the second `e` is not announced, because a success does not touch the history |
| `Bot.MissingHomeworksAnnouncedOnce` | homework.py:76-77 | two 200 replies in a row without `homeworks` record the error twice but announce it once, and the checkpoint is the last `finally` clock |
| `Bot.QuietRunIsSilent` | homework.py:115-116 | cycles that find nothing new send nothing and leave the history unchanged |
| `Bot.Poller.constructor` | homework.py:108-109 | the loop starts with the start clock as checkpoint and an empty error list |
| `Bot.Poller.Step` | homework.py:110-132 | the in-place iteration (append, compare the last two entries, overwrite the checkpoint) leaves exactly the state, sends and query of `CycleSpec` |
| `Bot.Poller.Run` | homework.py:110-132 | the loop over a finite sequence of cycles, stopping at a crash, yields exactly `RunSpec` |
| `Bot.RunBot` | homework.py:103-109 | `main` starts iff `check_tokens` holds and then behaves as `RunSpec` from the start clock with an empty history; otherwise it sends nothing |

## Left out

- Network I/O: `requests.get`, the endpoint and headers constants, and JSON decoding (including a decoding error from `.json()`). The fetch is an input value: a transport exception or a status code with a decoded body.
- JSON floating-point numbers: not modelled; numbers are integers.
- The Telegram client: `telegram.Bot` and `send_message`. A send is an element of the returned sequence. A `TypeError` on delivery is swallowed by the source and so has no effect on state. Other exceptions the client might raise are not modelled.
- Environment and log plumbing: `load_dotenv`, `os.getenv` beyond the lookup in `SettingsFromEnv`, and all logging.
- The clock and sleeping: `time.time()` readings are integer inputs, so the float-to-int truncation is not modelled. `time.sleep(RETRY_TIME)` has no logical effect and is left out.
- The unbounded `while True` is modelled as a loop over a finite sequence of cycles.
- `Py.Display`: Python's `repr` of a list or dict used as `homework_name` is not modelled; such a name is rendered as the fixed text `[...]` or `{...}`.
- classes_to_except.py declares bare exception classes. They appear only as constructors of `Outcome`. The unused `KeyNotFoundError` never arises.
