# Homework-status poller, modelled in Dafny

The bot polls the Yandex Practicum homework API and tells a Telegram chat when
the review status of the newest homework changes. Each round it:

1. fetches the statuses since a checkpoint;
2. moves the checkpoint to the server's `current_date`;
3. validates the payload and formats the newest record into one sentence, or
   a fixed text for an empty list;
4. sends that text unless it repeats the last one sent.

Any exception raised during the round is turned into its `str` and sent unless
that text repeats the last error. The repository has this poller twice:

- `homework.py` works with a single chat and keeps separate slots for the last
  status and the last error.
- `tg_bot/homework.py`, `tg_bot/main.py` and `tg_bot/utils.py` broadcast to
  every id in `TELEGRAM_CHATS_ID`. They keep one slot shared by statuses and
  errors, send a typing indicator first, and read the checkpoint with `.get`.

The model follows the code of each copy branch by branch, including the texts
of every exception it raises, because the bot suppresses repeats by comparing
those texts.

Modules (one file each):

- `PyValues`: decoded JSON and the parts of Python the texts depend on.
  - Truthiness, `str` and `repr`, and `type()` names.
  - `str(int)` and `str.split()`.
- `Exceptions`: the four exception classes of `tg_bot/utils.py`, of which
  `homework.py` repeats the first three inline. Also the built-in exceptions the code raises,
  the dict access that raises them, and `str(error)`.
- `Collaborators`: the outside world reduced to what it answers.
  - The HTTP reply and Telegram's reply to one call.
  - The three settings.
  - The record of what was sent, and the "no text follows an equal text"
    chain used by the deduplication proofs.
- `Practicum`: what both copies share word for word: `HOMEWORK_STATUSES`, the
  status sentence and `get_api_answer`.
- `Homework`: `homework.py`: `check_response`, `parse_status`,
  `check_tokens`, `send_message` and `main`.
- `TgHomework`: `tg_bot/homework.py`: `check_tokens`, `check_response`,
  `parse_status` and the broadcasting `send_message`.
- `TgMain`: `tg_bot/main.py`: `main`.
- `Loop`: the `while True` loop common to both `main` functions. Rounds run one
  after another until an exception escapes.
- `Copies`: the two copies of validation and formatting compared.

State-changing code is imperative Dafny:

- `check_tokens` and the broadcasting `send_message` loop.
- The body of each `while True` loop, as `Iterate`, `Fetch` and `Finish`.
- The loop itself, as `Serve` and `RunBot`.

Each of these methods is proved equal to a function:

- `Poll` is the `try` block up to the formatted text.
- `Handle` is the notification and the `except` branch.
- `Step` is one round.
- `Loop.Run` is a sequence of rounds.

The lemmas about deduplication, checkpoints and crashes are stated over those
functions.

The outside world comes in as parameters:

- `api` maps the `from_date` sent to the HTTP reply.
- `answer(k)` is Telegram's reply to the k-th `bot.send_message` call of a round (one per chat id in `tg_bot`).
- `typing` is the reply to `send_chat_action`.
- `now` is the value `int(time.time())` reads.
- The settings `os.getenv` returns are a `Config` whose fields may be missing.

Behaviour of the code that is easy to miss, and that the model keeps:

- Both loops set the slot before sending (`homework.py:200-203`,
  `tg_bot/main.py:48-55`), so a failed send is not retried while the text
  stays the same.
- In `homework.py:204-208` and `tg_bot/main.py:56-60`, a failure of the send
  inside `except` is not caught and escapes `main`.
- A broadcast to several chats stops at the first refusal
  (`tg_bot/homework.py:52-58`); later chats get nothing.
- A payload without `current_date` is handled differently by the copies:
  - `homework.py:193` reads it with `[]` and raises `KeyError('current_date')`,
    leaving the checkpoint as it was.
  - `tg_bot/main.py:41` reads it with `.get` and sets the checkpoint to `None`,
    so the next request asks from the current time.
- `tg_bot/main.py` shares one slot between statuses and errors, so status A,
  then an error, then A sends A twice.

## Model

| member | source | states |
|---|---|---|
| PyValues.Split | tg_bot/homework.py:53 | every item `TELEGRAM_CHATS_ID.split()` yields is a non-empty word without whitespace, and the items joined together are exactly the non-whitespace characters of the setting, in order |
| PyValues.SplitSpread | tg_bot/homework.py:53 | splitting words laid out with any whitespace between them (at least one character: spaces, tabs, newlines, runs of them) and any whitespace before and after gives back exactly those words, in order |
| PyValues.DecimalInjective | homework.py:104-108 | different status codes print differently, so texts that embed a code tell codes apart |
| PyValues.EscapeVerbatim | homework.py:159-164 | `repr` of a status code without quotes, backslashes or control characters is the code between quotes |
| Exceptions.RaisedText | tg_bot/utils.py:4-13 | `str(cls(*args))` is the first argument (extra ones ignored) or the docstring, plus one trailing space for `AnswerStatusIsNot200Error` only |
| Exceptions.RaisedTextInjective | tg_bot/utils.py:11-13 | for every class, two instances built from string messages have equal texts only when the messages are equal |
| Exceptions.DefaultTextsDistinct | tg_bot/utils.py:1-58 | the four classes built without arguments have pairwise different texts |
| Exceptions.Subscript | homework.py:126 | `d[key]`: the value when present, `KeyError(key)` for a dict without it, and for anything not a dict the interpreter's `TypeError` with its text per type: "list indices must be integers or slices, not str" for a list, "string indices must be integers" for a string, "'<type>' object is not subscriptable" otherwise |
| Exceptions.DictGet | tg_bot/main.py:41 | `d.get(key)`: the value, `None` for a dict without it, `AttributeError` for anything not a dict |
| Practicum.VerdictsDistinct | homework.py:30-34 | the three verdict texts are pairwise different |
| Practicum.VerdictLookup | homework.py:160 | `HOMEWORK_STATUSES[status]`: success exactly for the three codes; `TypeError` for a list or dict; otherwise `KeyError(status)`; `tg_bot/homework.py:126` does the same lookup in the same table |
| Practicum.SentenceNamesHomework | homework.py:166 | the status sentence starts with its fixed opening, followed by `str(homework_name)` |
| Practicum.SentenceDeterminesVerdict | homework.py:166 | for one homework name, equal sentences mean equal verdicts |
| Practicum.NoHomeworksTextIsNotASentence | homework.py:195-198 | the empty-list text never equals a status sentence |
| Practicum.FromDate | tg_bot/homework.py:63 | a falsy checkpoint (None, 0, empty) becomes `now`; a truthy one is kept |
| Practicum.GetApiAnswer | homework.py:92-113 | success exactly for a 200 reply with a decodable body, returning that body; a transport failure, a non-200 code or an undecodable body becomes a `RequestReceivingError` wrapping the inner text, the non-200 one being `AnswerStatusIsNot200Error` naming the endpoint and code; `tg_bot/homework.py:61-82` is the same function |
| Practicum.NotOkTextIsErrorText | homework.py:104-113 | the text of a non-200 failure is the request-error prefix, the endpoint-and-code message and the class's trailing space |
| Practicum.NotOkTextsDistinguishCodes | homework.py:104-113 | two non-200 failures have equal texts only when their codes are equal, so a repeated 503 is suppressed and a 502 after a 503 is not |
| Homework.CheckResponse | homework.py:116-142 | success exactly for a dict with `homeworks` (a list) and `current_date`, returning the list unchanged; a missing `homeworks` is reported first, then a missing `current_date`, then a non-list, each with its text; a non-dict raises the `TypeError` of its first subscript `response['homeworks']`, with that text; the `None` test never fires |
| Homework.ParseStatus | homework.py:145-166 | success exactly for a record with a name and a known status, returning the sentence with that status's verdict; otherwise a `KeyError` for the missing name, then the missing status, then the unknown status; a non-dict raises the `TypeError` of `homework['homework_name']`, with that text |
| Homework.UnknownStatusReported | homework.py:159-164 | an unknown status string is reported as a `KeyError` whose argument is the prefix followed by the code's `repr` |
| Homework.CheckTokens | homework.py:169-177 | true exactly when none of the three settings is missing |
| Homework.SendMessage | homework.py:82-89 | no error exactly when Telegram accepts the call; a refusal becomes `Exception` whose text is the send-error prefix and the reason |
| Homework.Poll | homework.py:192-198 | the checkpoint moves to `current_date` whenever the fetched payload has it, even when validation or formatting then fails; a text is produced exactly for a valid payload whose first record (if any) is valid, and it is the sentence for `result[0]` or the empty-list text; a fetch failure, a dict without `current_date` (`KeyError`) or a non-dict (the `TypeError` of `response['current_date']`, with its text) raises before validation and keeps the checkpoint; otherwise the error raised is exactly the one `check_response` raises, or else the one `parse_status` raises for `result[0]` |
| Homework.UnknownStatusEndsRound | homework.py:192-206 | an unknown status in the newest record of a valid payload ends the round with the checkpoint moved to `current_date`, `previous_status` untouched and `previous_error` holding the text of the `KeyError` that quotes the code |
| Homework.Fetch | homework.py:192-198 | the statements of the `try` block up to the formatted text compute `Poll` |
| Homework.Finish | homework.py:200-208 | the notification and `except` branch compute `Handle` |
| Homework.Iterate | homework.py:191-208 | one pass of the loop body computes one `Step` |
| Homework.Serve | homework.py:190-210 | the loop run over a sequence of rounds sends exactly what `Loop.Run` of the steps sends and ends with the exception that escaped, if any |
| Homework.RunBot | homework.py:180-210 | a missing setting ends `main` before any request with nothing sent; otherwise the loop starts from the start time with both slots empty |
| Homework.CheckpointSurvivesFailure | homework.py:193 | after a round the checkpoint is the one the `try` block left, whether or not a later statement failed |
| Homework.RepeatedStatusNotResent | homework.py:200-203 | a text equal to `previous_status` is not sent and nothing changes but the checkpoint |
| Homework.RepeatedErrorNotResent | homework.py:204-206 | an error whose text equals `previous_error` is not sent and nothing changes but the checkpoint |
| Homework.StatusSlotSetBeforeSend | homework.py:200-208 | a formatted text always lands in `previous_status`, and a new one is sent once; a refused send is then reported as an error; an error leaves `previous_status` alone |
| Homework.CrashOnlyFromErrorReport | homework.py:204-210 | an exception escapes `main` exactly when the round's last notification is an error report that Telegram refused, and its text carries the refusal |
| Homework.ReportChains | homework.py:204-208 | the `except` branch adds at most one error text, different from `previous_error`, and touches neither the status slot nor the status texts |
| Homework.HandleChains | homework.py:200-208 | each round keeps both slots chained: no status follows an equal status, no error an equal error, and each slot holds the last text of its kind |
| Homework.StepChains | homework.py:192-208 | the same for a whole round, fetch included |
| Homework.RunChains | homework.py:190-210 | the same over any number of rounds |
| Homework.NoConsecutiveRepeats | homework.py:186-210 | over a whole run from startup, no status notification repeats the one before it, and no error notification the one before it |
| Homework.StatusSurvivesAnError | homework.py:187-206 | status A, then an error, then A again: the third round sends nothing, since the error has its own slot |
| TgHomework.CheckTokens | tg_bot/homework.py:37-47 | true exactly when none of `TELEGRAM_TOKEN`, `PRACTICUM_TOKEN` and `TELEGRAM_CHATS_ID` is missing |
| TgHomework.CheckResponse | tg_bot/homework.py:85-108 | the same acceptance, list and check order as the root copy, with its own texts; a non-list names its type in the text; a non-dict is only logged and then fails at the first subscript with the `TypeError` of `response['homeworks']`, with its text |
| TgHomework.ParseStatus | tg_bot/homework.py:111-132 | success exactly for a record with a name and a known status, returning the sentence; otherwise `KeyError` for a missing name, then a missing status, then an unknown status; a non-dict raises the `TypeError` of `homework['homework_name']` |
| TgHomework.Deliver | tg_bot/homework.py:53-56 | the loop over the ids reaches at most as many chats as there are ids |
| TgHomework.DeliverMeaning | tg_bot/homework.py:52-58 | the k-th id gets the k-th call; the send succeeds exactly when every id was reached and accepted; otherwise it stopped at the first refusal, and the `SendMessageError` carries that refusal's text after the prefix |
| TgHomework.Broadcast | tg_bot/homework.py:50-58 | a missing setting fails at `.split` and is wrapped as `SendMessageError`; otherwise the ids are the words of the setting |
| TgHomework.SendEach | tg_bot/homework.py:53-56 | the `for` loop computes `Deliver` |
| TgHomework.SendMessage | tg_bot/homework.py:50-58 | the whole function computes `Broadcast` |
| TgHomework.BroadcastReachesEveryChat | tg_bot/homework.py:53-55 | when Telegram accepts every call, a list of ids separated and padded by any whitespace gets the text once per id, in order, and nothing fails |
| TgHomework.BlankSettingReachesNobody | tg_bot/homework.py:53 | a setting made only of whitespace passes `check_tokens` but reaches nobody, and nothing fails |
| TgMain.Poll | tg_bot/main.py:40-46 | the checkpoint becomes `.get('current_date')` of any fetched dict, `None` when it is absent; a text is produced exactly for a valid payload whose first record (if any) is valid, and it is the sentence for `result[0]` or the empty-list text; a fetch failure and a non-dict (`AttributeError` of `.get`) keep the checkpoint; otherwise the error raised is exactly the one `check_response` raises, or else the one `parse_status` raises for `result[0]` |
| TgMain.Fetch | tg_bot/main.py:40-46 | the statements of the `try` block up to the formatted text compute `Poll` |
| TgMain.Finish | tg_bot/main.py:48-60 | the slot update, typing indicator, broadcast and `except` branch compute `Handle` |
| TgMain.Iterate | tg_bot/main.py:39-60 | one pass of the loop body computes one `Step` |
| TgMain.Serve | tg_bot/main.py:38-67 | the loop run over a sequence of rounds sends exactly what `Loop.Run` of the steps sends and ends with the exception that escaped, if any |
| TgMain.RunBot | tg_bot/main.py:26-67 | a missing setting ends `main` before any request with nothing sent; otherwise the loop starts from the start time with an empty slot |
| TgMain.MissingDateResetsCheckpoint | tg_bot/main.py:41 | a dict without `current_date` sets the checkpoint to `None` and fails in `check_response`; the next request then asks from the current time |
| TgMain.RepeatedTextNotResent | tg_bot/main.py:48-59 | a status or error text equal to the slot is not sent and nothing changes but the checkpoint |
| TgMain.SlotTakesNewText | tg_bot/main.py:48-60 | a new status, once the typing indicator is accepted, is broadcast first and stays in the slot if the broadcast succeeds; a new error is broadcast and takes the slot |
| TgMain.StatusResentAfterError | tg_bot/main.py:48-59 | status A, then an error, then A again: with one shared slot, A is broadcast the third time |
| TgMain.RefusedTypingCanSwallowStatus | tg_bot/main.py:48-55 | if the typing indicator is refused with a text equal to the new status, that status stays in the slot without having been sent |
| TgMain.TypingRefusalRepeats | tg_bot/main.py:48-60 | status A is broadcast; in the next round a new status B takes the slot, the typing indicator is refused with text A, and the `except` branch broadcasts A again right after A, so the texts sent repeat |
| TgMain.BroadcastFailsAsSendMessageError | tg_bot/homework.py:57-58 | whatever fails inside `send_message` comes out as `SendMessageError` |
| TgMain.BroadcastFailure | tg_bot/homework.py:50-58 | with no chat setting a broadcast fails at `.split` before any call; with one, it fails exactly when its last call was refused, and its `SendMessageError` carries that refusal |
| TgMain.ReportCrash | tg_bot/main.py:56-60 | an exception escapes the `except` branch exactly when its own broadcast fails; it is that broadcast's error, and the reported text is in the slot |
| TgMain.CrashOnlyFromErrorReport | tg_bot/main.py:48-60 | an exception escapes `main` exactly when the round ends with an error broadcast that failed (its last call refused, or no chat setting); it is that broadcast's `SendMessageError`, carrying the refusal's text, and the reported text is in the slot |
| TgMain.ReportChains | tg_bot/main.py:56-60 | the `except` branch extends the chain of texts that went through the slot |
| TgMain.HandleChains | tg_bot/main.py:48-60 | with the typing indicator accepted, each round extends the chain: no text follows an equal text and the slot holds the last one |
| TgMain.StepChains | tg_bot/main.py:40-60 | the same for a whole round, fetch included |
| TgMain.RunChains | tg_bot/main.py:38-67 | the same over any number of rounds whose typing indicator is accepted |
| TgMain.NoConsecutiveRepeats | tg_bot/main.py:33-67 | over a whole run from startup in which the typing indicator is never refused, no notification repeats the text of the one before it, whatever their kinds |
| Loop.Run | homework.py:190-210 | the rounds run in order and stop at the first one that lets an exception escape; with no escape every round runs |
| Loop.RunAfterCrash | homework.py:204-210 | once an exception has escaped, later rounds send nothing and change nothing |
| Loop.RunKeepsChain | homework.py:190-210 | a slot that every round keeps chained to the texts it sends stays chained over the whole run |
| Copies.CheckResponseCopiesAgree | homework.py:116-142 | the two copies of `check_response` accept the same payloads and return the same list, and fail alike on non-dicts |
| Copies.ParseStatusCopiesAgree | homework.py:145-166 | the two copies of `parse_status` accept the same records and give the same sentence, and agree on everything once both keys are present |

## Left out

- `tg_bot/messages.py` is not part of this model: command handlers, a reply keyboard and calls to outside APIs.
- Logging, the `print` calls in `check_tokens`, `load_dotenv`, and the sleeps (the 600-second interval and the one-second pause after the typing indicator) have no effect on what is sent. The settings are a `Config` input.
- `Updater`, `start_polling` and the handler registration in `finally` (`tg_bot/main.py:31-32`, `62-65`) are dispatcher plumbing.
- `tg_bot/main.py:9` imports `TELEGRAM_CHAT_ID`, which `tg_bot/homework.py` does not define, so that module fails to import. The loop is modelled as written. The typing indicator's target chat is not modelled; its reply is an input.
- `while True` is modelled as a finite sequence of rounds. `sys.exit(1)` is the `TokensMissing` ending.
- `requests.get`, `response.json()` and `telegram.Bot` are inputs. Their exceptions are represented by their `str` text alone, and the request's headers and token are not modelled.
- Duplicate object keys: a `Json` object can hold a key twice, and `Lookup` takes the first binding where `json.loads` keeps the last, so such a payload can be judged differently from Python: `{"homeworks": 1, "homeworks": [], "current_date": 0}` fails `Homework.CheckResponse` where Python returns `[]`.
- JSON floats and the `repr` escaping of non-ASCII characters that Python does not print are not modelled.
- The texts of interpreter `TypeError` and `AttributeError` follow the wording of CPython 3.7 to 3.10; CPython 3.11 and later append the index type to "string indices must be integers".
- `Loop.Run`: its own contract only bounds the number of rounds run; what a run sends is stated by `RunAfterCrash`, `RunKeepsChain` and the `Serve` methods.
- `TgHomework.Deliver`: its own contract states only a length bound; its meaning is stated in full by `TgHomework.DeliverMeaning`.
- `TgMain.RunChains`: assumes the typing indicator is never refused. A refusal is reported as an error; its text can repeat the text sent the round before (`TgMain.TypingRefusalRepeats`), or, when it equals the new status, leave that status in the slot unsent (`TgMain.RefusedTypingCanSwallowStatus`). Either breaks the chain.
- `TgMain.NoConsecutiveRepeats`: the same assumption, for the same reason.
