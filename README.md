# Homework status bot — verified model

The bot polls the Practicum homework API every ten minutes and forwards
status changes of the student's latest homework to a Telegram chat. This
project models its sequential logic in Dafny:

- the **token gate** (`check_tokens`) run once at start-up;
- the **response validator** (`check_response`), a shape check on the
  decoded JSON answer;
- the **status formatter** (`parse_status`) with its verdict table
  `HOMEWORK_VERDICTS`;
- the **poll loop** of `main`: one pass of its `while True` body is a
  transition on the two variables it reassigns, the cursor `timestamp` and
  the last alert `last_message`.

Files:

- `wrappers.dfy` — `Option`, `Result`, `Outcome`.
- `json.dfy` — the decoded JSON value, `dict.get` (`Get`), Python type names
  and `str()` as an f-string applies it.
- `homework.dfy` — the exceptions a pass can raise and their text, the token
  gate, the validator and the formatter.
- `poll_loop.dfy` — one pass as the pure function `Step`, runs of passes over
  a sequence of inputs (`RunCycles`, an instance of `RunBy`, whose laws hold
  for any pass), the bot as a class `Bot` whose `Cycle`
  and `Poll` methods update the loop variables in place, and `Launch`, the
  program from gate to loop.

One pass receives a `Tick`: what the HTTP request gave (an exception with
opaque text, or a decoded JSON body) and whether Telegram delivered the
message handed to it. The outbox records every message handed to Telegram.

Behaviours of the code that the model keeps as written:

- An answer with an empty `homeworks` list leaves the cursor where it was
  (homework.py:152-156): only a pass that formats a homework moves it.
- A delivery failure of a status message is swallowed by `send_message`
  (homework.py:63-66), so the cursor still moves to `current_date`.
- The alert is sent from the exception handler itself (homework.py:161); if
  Telegram fails there, the error leaves `main` and the process ends, before
  `last_message` is updated. The model calls this a crash and runs nothing
  after it.
- `last_message` is only written by the handler, so an alert repeated after
  any number of successful passes is still suppressed.
- `current_date` is only checked for being present and not null; the cursor
  takes whatever JSON value it holds.
- A missing `homework_name` executes `raise logger.error(...)`, which raises
  `None`; Python turns that into a `TypeError` whose text ("exceptions must
  derive from BaseException") is what the alert carries.
- A status that is a list or a dict cannot be looked up in the verdict table
  and raises a `TypeError` instead of the `KeyError`.
- `str()` of a `KeyError` is the repr of its argument, so that alert quotes
  the message.

## Model

| member | source | states |
|---|---|---|
| Homework.CheckTokens | homework.py:42-54 | fails iff at least one of the three tokens is unset; the reported list holds exactly the unset names, in the order PRACTICUM_TOKEN, TELEGRAM_TOKEN, TELEGRAM_CHAT_ID |
| Homework.ExitMessage | homework.py:54 | the SystemExit text is the fixed phrase around the Python rendering of the missing-name list |
| Homework.QuotedItemsInjective | homework.py:54 | the Python rendering of a list of names without quote characters determines the list |
| Homework.ExitMessageDeterminesMissing | homework.py:42-54 | two SystemExit texts are equal only if the same tokens were missing |
| Homework.CheckResponse | homework.py:98-116 | accepts exactly a dict whose `homeworks` is a list and whose `current_date` is present and not null, returning it unchanged; a non-dict or absent/null `homeworks` gives the first TypeError, otherwise a non-list `homeworks` or absent/null `current_date` gives the second |
| Homework.ParseStatus | homework.py:119-135 | a non-dict record fails on `.get`; an absent or null name fails before the status is looked at; a list or dict status fails with the unhashable TypeError naming its type; succeeds iff the status is one of the three table keys (a missing status is unknown); the message is the template filled with the name and the table's verdict |
| Homework.ErrorText | homework.py:157-158 | the alert text of a failed request is that exception's own text; the AttributeError and unhashable TypeError texts embed the offending type name at a fixed place |
| Homework.ErrorTextInjective | homework.py:106-133 | the exceptions the bot raises itself render to pairwise different texts, so only the same exception can repeat an alert |
| Json.Digits | homework.py:135 | the rendering of a natural number is a non-empty string of decimal digits, without leading zeros, whose value is that number |
| Json.Str | homework.py:135 | a string renders as itself, a boolean as `True`/`False`, an integer as its decimal digits without leading zeros, with a leading `-` when negative |
| Homework.VerdictEnding | homework.py:26-30 | each of the three verdicts ends in its own two characters |
| Homework.StatusMessageDeterminesStatus | homework.py:134-135 | two successful notifications are equal only if the records have the same status and render the same name |
| PollLoop.TryBody | homework.py:149-153 | the try block stops at the first exception of fetch, validation or formatting of `homeworks[0]`; an accepted empty list yields nothing; otherwise the notice is the status message of the first homework and the answer's `current_date` |
| PollLoop.Alert | homework.py:158 | every alert is the fixed failure prefix followed by exactly the error's text |
| PollLoop.AlertInjective | homework.py:158-160 | two exceptions raised by the bot itself give equal alerts only if they are the same exception, so the comparison with `last_message` suppresses only a repeat of it |
| PollLoop.Step | homework.py:148-162 | the cursor becomes `current_date` only after a fetched, accepted, non-empty answer whose first homework formats, and is otherwise unchanged; a successful try block never changes `last_message` and continues whatever Telegram did; on an error the alert is sent iff it differs from `last_message`, which then equals it, and an undelivered alert ends the process |
| PollLoop.OnlyFirstHomeworkMatters | homework.py:151-153 | homeworks after the first never influence a pass |
| PollLoop.ApprovedScenario | homework.py:149-154 | an answer with one approved homework sends the filled template and moves the cursor to its `current_date` |
| PollLoop.EmptyListScenario | homework.py:152-156 | an answer with an empty list sends nothing and leaves the whole state unchanged |
| PollLoop.UnknownStatusScenario | homework.py:131-133 | an unknown status sends one alert with the KeyError text and leaves the cursor at the start-up time |
| PollLoop.RunCyclesSnoc | homework.py:147-163 | a run over one more input is the earlier run extended by one pass |
| PollLoop.ExtendAfterOutbox | homework.py:147-163 | a pass does not depend on the messages sent before it |
| PollLoop.RunAppend | homework.py:147-163 | for a run that did not end the process, running two input sequences one after the other equals running their concatenation (`CrashIsFinal` covers the other case) |
| PollLoop.CrashIsFinal | homework.py:157-162 | after an undelivered alert ends the process, later inputs change nothing |
| PollLoop.CursorFollowsFullSuccesses | homework.py:149-156 | after any run that did not end the process, the cursor is the `current_date` of the last fully successful pass, or the start value if there was none |
| PollLoop.SuccessesKeepLastMessage | homework.py:145-162 | passes whose try block succeeds never change `last_message` and never end the process |
| PollLoop.RepeatedErrorSuppressed | homework.py:157-162 | once an alert is `last_message`, the same error recurring after any number of successful passes sends nothing and changes nothing |
| PollLoop.StatusMessageIsNotAlert | homework.py:135 | a status notification never starts with the failure prefix |
| PollLoop.AlertsOfSnoc | homework.py:158 | the alerts of an outbox grow by one message exactly when that message is an alert |
| PollLoop.SendKeepsAlertHistory | homework.py:157-162 | handing Telegram a status message, or an alert that differs from `last_message` and then becomes it, keeps the alert history |
| PollLoop.ExtendKeepsAlertHistory | homework.py:157-162 | one pass keeps `last_message` equal to the last alert sent and adds no alert equal to the one before it |
| PollLoop.AlertsNeverRepeat | homework.py:145-162 | over any run, no alert equals the alert sent just before it (nor the initial `last_message`), and `last_message` is the last alert sent |
| PollLoop.Bot.constructor | homework.py:142-145 | the loop starts with the cursor at the start-up time, an empty `last_message` and nothing sent |
| PollLoop.Bot.Cycle | homework.py:148-162 | updating the two variables in place gives exactly the state and outbox of `Step` |
| PollLoop.Bot.Poll | homework.py:147-163 | the loop over a sequence of inputs ends in the state, outbox and crash flag of `RunCycles`, and stops at a crash |
| PollLoop.Launch | homework.py:138-163 | a missing token ends the program with the SystemExit text before anything is sent; with all tokens present, a Telegram client that rejects its token ends the program before the loop; otherwise the result is the run of the loop from the start-up time |

## Left out

- The HTTP request (`get_api_answer`, homework.py:70-95) is an input of each
  pass: an exception with opaque text or a decoded JSON body. The
  unbound-variable error after a caught `RequestException` (homework.py:88)
  is just a failed fetch. The cursor is what the request would be sent with;
  the model does not tie the answer to it. `exceptions.py` is not part of
  this model, so the text of `ApiNot200StatusResponse` is opaque too.
- The Telegram `Bot` and `send_message` (homework.py:57-67, 161) are an
  outbox of attempted messages plus a delivered flag per pass.
- PollLoop.Launch: whether the Telegram client accepts its token
  (homework.py:141) is the input `botBuilt`; the library's rules for a
  well-formed token are not part of this model. The gate only tests
  presence (homework.py:50), so an empty token passes it and can still be
  rejected there.
- Environment loading (homework.py:16-20): the three tokens are parameters.
- Logging (homework.py:32-39 and every `logger` call): observability only.
- `time.time()` is the parameter `now`; `time.sleep(RETRY_PERIOD)` and the
  endlessness of `while True` are replaced by finite input sequences.
- JSON numbers are integers; floats are not modelled.
- Homework.ErrorText: the contract pins the text of a failed request and the
  place of the type name in the two Python-raised errors; the other texts are
  the constants of the model, and what is proved about them is that they
  differ from each other (`ErrorTextInjective`).
- Json.Str: a list or dict used as `homework_name` is rendered as a placeholder,
  not as Python's repr (Python dict order is not modelled).
- The texts of exceptions raised by Python itself (AttributeError, the
  unhashable TypeError, `raise None`) follow CPython's wording and are not
  checked against an interpreter.
