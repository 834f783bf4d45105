# Homework-status bot: a Dafny model of its polling core

The bot polls a homework-review API and relays status changes of the user's
newest submission to a Telegram chat. This project models the decision logic of
`homework.py`:

- `check_tokens` checks the three secrets.
- `get_api_answer` shapes the request and maps its reply.
- `check_response` validates the decoded reply.
- `parse_status` translates a status into the notification text.
- `try_start_counter` is the restart counter.
- `main` runs the restart supervisor and the polling loop.

Modules:

- `Wrappers` (wrappers.dfy): Option and Result.
- `PyValues` (py_values.dfy): the part of Python the code relies on:
  - the decoded JSON values;
  - the exceptions that reach `main`'s `except Exception`;
  - what `str()` and `repr()` print for both;
  - the subscripts `x[0]` and `x['key']`, with their built-in error texts as CPython 3.10 words them.

  Every candidate message is the text of a value or of an exception, so these texts are modelled exactly, except as listed under "## Left out".
- `Homework` (homework.dfy): the functions of `homework.py`, and the candidate message of one cycle.
- `MainLoop` (main_loop.dfy): `main`, with these pieces:
  - `StartCounter`: a class for the counter kept on `try_start_counter`;
  - `StartBot`: a loop in place of the recursive restart;
  - `Poller`: a class holding `current_timestamp` and `old_message`, with `Cycle` for one pass of `while True` and `Run` for any finite number of passes;
  - pure functions over runs of cycles that state what the duplicate suppression guarantees.

The HTTP client is a function parameter from request to reply. The clock is a parameter. Whether the bot delivers a message is an input flag.

Behaviours of the code the model keeps as written:

- Only status 200 is a success; any other 2xx code is an error.
- A secret counts as present when it is set, even when it is the empty string.
- The cursor `current_timestamp` is read once and never advanced.
- An unknown status fails at the table lookup, so the branch that would name the homework is dead. A hashable status fails with a `KeyError` whose text is repr() of the status (the quoted text for a string). A list or dict status fails with TypeError.
- A body that is not JSON raises inside the `try` of `main`, so it becomes a notification like every other error.
- The secrets are read once when the module loads. A restart therefore checks the same values again, and a failed check always ends in exit status 1 on the third attempt. Building the bot comes before the check, so an exception there escapes `main` first.

## Model

| member | source | states |
|---|---|---|
| `Homework.NoneNames` | homework.py:39-41 | a name is reported exactly when its value is None, and every reported name comes from the dict |
| `Homework.CheckTokens` | homework.py:30-49 | true exactly when none of the three secrets is None, and exactly when the missing-name list is empty; an empty string counts as present |
| `Homework.MissingNamesExactly` | homework.py:32-41 | the reported list holds exactly the unset names, in the order PRACTICUM_TOKEN, TELEGRAM_TOKEN, TELEGRAM_CHAT_ID |
| `Homework.Authorization` | homework.py:54 | the header is "OAuth " followed by the token, or by "None" when the token is unset |
| `Homework.FromDate` | homework.py:78-79 | a nonzero cursor is sent unchanged as `from_date`; a missing or zero cursor is replaced by the clock |
| `Homework.Answer` | homework.py:95-110 | status 200 gives the decoded body unchanged. Any other status raises TypeError with the connection-problem text naming the code. A transport failure is re-raised. A body that is not JSON raises the decode error |
| `Homework.ConnectionProblem` | homework.py:103-104 | the text is the fixed connection-problem prefix followed by digits that read back as the status code |
| `Homework.GetApiAnswer` | homework.py:76-110 | the answer is the mapping of the reply to the one request it sends: success exactly for status 200 with a JSON body, which is returned; any other status raises TypeError with the connection-problem text; a nonzero cursor is the `from_date` of that request |
| `Homework.ConnectionProblemInjective` | homework.py:103-104 | different status codes give different error texts |
| `PyValues.DecimalRoundTrip` | homework.py:103-104 | the decimal text of a status code reads back as the same code |
| `PyValues.Lookup` | homework.py:121 | finds a value exactly when some entry has the key; the value found is that of the last entry with the key, as `json.loads` keeps it |
| `PyValues.Item0` | homework.py:127 | `x[0]` succeeds exactly for a non-empty list or string (a list gives its first element); IndexError exactly for an empty list or string |
| `PyValues.Field` | homework.py:138-139 | `x['key']` succeeds exactly for a dict holding the key and returns its value; a dict without the key raises KeyError of that key |
| `Homework.CheckResponse` | homework.py:113-133 | a non-dict raises TypeError naming the reply; a dict without `homeworks` raises KeyError('dict KeyError'); an empty list raises IndexError('Домашняя работа не найдена'); it succeeds exactly when `homeworks` has an element 0, and then returns `homeworks` unchanged |
| `Homework.Verdict` | homework.py:140 | the table lookup succeeds exactly for the three known statuses and yields their verdict; any other hashable status raises KeyError of that status |
| `Homework.StatusChanged` | homework.py:143 | the notification is the fixed prefix, the name, `". ` and the verdict, each of which can be read back from its position |
| `Homework.ParseStatus` | homework.py:136-148 | succeeds exactly for a readable record with a known status, with the text `Изменился статус проверки работы "<name>". <verdict>`; an unknown hashable status raises KeyError of the status (a list or dict status raises the unhashable TypeError); the custom Exception is never raised |
| `Homework.NotificationDeterminesStatus` | homework.py:56-60 | for one homework name, the three statuses give three different notifications |
| `PyValues.PlainStrRepr` | homework.py:140 | a status without quotes, backslashes or control characters prints as itself between single quotes |
| `Homework.PollOnce` | homework.py:184-190 | a success is always the notification of one of the three verdicts, `Изменился статус проверки работы "<name>". <verdict>`; an error of get_api_answer or of check_response is passed on unchanged; the custom Exception never comes out |
| `Homework.CandidateMessage` | homework.py:184-193 | the candidate is the notification of one of the three verdicts on success, and `str()` of the exception otherwise |
| `Homework.CandidateOnBadStatus` | homework.py:103-110 | a non-200 reply makes the cycle's candidate the connection-problem text with the code |
| `Homework.CandidateOnKnownStatus` | homework.py:184-193 | when the newest record has a known status, the candidate is that record's notification |
| `Homework.CandidateOnUnknownStatus` | homework.py:139-148 | a hashable status outside the table makes the candidate the repr() of the status, never the custom message |
| `Homework.CandidateOnUnknownPlainStatus` | homework.py:139-148 | a plain string status outside the table makes the candidate that status between single quotes |
| `Homework.CandidateOnEmptyList` | homework.py:126-130 | an empty `homeworks` list makes the candidate 'Домашняя работа не найдена' |
| `Homework.ReviewingScenario` | homework.py:56-60 | for the reply with one record, "HW1" and "reviewing", the candidate is the exact reviewing notification |
| `MainLoop.Attempts` | homework.py:199 | a send is attempted exactly when the candidate differs from `old_message`: always before the first delivery, always for a different stored message, never for an equal one; `Poller.Cycle` and `SendAttempts` state its use |
| `MainLoop.After` | homework.py:199-206 | `old_message` stays as it was or becomes the candidate; it changes only on a delivery of a new candidate, and a delivered cycle always leaves the candidate there |
| `MainLoop.DeliveriesNeverRepeat` | homework.py:197-209 | after any run of cycles, `old_message` is the last delivered message (or the initial one); no message is delivered twice in a row |
| `MainLoop.SameCandidateTwice` | homework.py:197-209 | two equal consecutive candidates are delivered at most once; after a successful send the second cycle does not attempt one |
| `MainLoop.FailedDeliveryIsRetried` | homework.py:202-206 | a failed send leaves `old_message` unchanged, so the same candidate is attempted again next cycle |
| `MainLoop.StartCounter.constructor` | homework.py:156 | the counter starts at 0 |
| `MainLoop.StartCounter.TryStartCounter` | homework.py:151-153 | the counter goes up by one |
| `MainLoop.Poller.constructor` | homework.py:162-163 | the cursor is the clock reading and `old_message` starts as None |
| `MainLoop.Poller.Cycle` | homework.py:182-210 | sends the request with the fixed cursor. The candidate is the verdict or the error text. A send is attempted exactly when the candidate differs from `old_message`, which becomes the candidate only after a delivery |
| `MainLoop.Poller.Run` | homework.py:182-210 | over any number of cycles every request carries the same cursor, each cycle yields one candidate, the send attempts are those of the deduplication, and `old_message` is as the run functions say |
| `MainLoop.StartBot` | homework.py:159-180 | polls exactly when building the bot returns and the secrets are valid, with the counter untouched. Invalid secrets end in exit status 1 with the counter at 3. A failure to build the bot escapes before any check |

## Left out

- The HTTP call itself (homework.py:90-101): headers, query encoding, and what `requests` raises. The reply is an input: a transport failure with its text, or a status code with a decoded or undecodable body.
- JSON decoding: the decoded value or the decoder's error text is part of the reply.
- `send_message` and the Telegram bot (homework.py:63-73): whether a message is delivered is an input flag. Whether `telegram.Bot` accepts a token is decided inside that library, so it is an input too.
- `time.sleep` and `time.time`: the 5-second sleeps of RETRY_TIME are no-ops and clock readings are parameters.
- A request or a send that never returns: `requests.get` (homework.py:90-94) and `bot.send_message` (homework.py:66) are called without a timeout. The model covers cycles that finish, so "each cycle yields one candidate" holds only for those.
- Loading the environment (homework.py:22-27): the three secrets are an input.
- Logging, and all of bot_logger.py.
- try.py only reads environment variables.
- exceptions.py defines classes the core never uses.
- The unending `while True` loop: `Run` covers every finite prefix of it.
- `PyValues.StrRepr`: does not model how Python escapes non-printable characters other than newline, carriage return and tab.
- `PyValues.Repr`: a float is carried as the text Python prints for it, not computed.
- `PyValues.Repr`: a dict whose JSON text repeats a key is printed with every pair, where Python's dict holds the key once (at its first position, with the last value). Lookups do follow Python and take the last value.
