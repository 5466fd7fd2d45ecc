# Messenger relay bot — conversation state machine in Dafny

This project models the conversational core of a Messenger bot written as a
single Flask application (`app.py`). The bot receives webhook events from the
messaging platform. It keeps, per user id, a window of the ten most recent
conversation turns (`CONTEXT_LIMIT`, a `deque(maxlen=10)`). It forwards that
window, behind a fixed system instruction, to a chat-completion service and
sends the answer back with two quick-reply buttons. It counts the messages
of every user in a `User` table. A message that mentions one of four Arabic
support phrases gets a fixed "you are being transferred to human support"
notice instead, and so does the `HUMAN_SUPPORT` quick reply. The
`SERVICE_INFO` quick reply gets a fixed service notice.

The whole state is one immutable record: the context store (user id to
window), the counter map (user id to message count) and the outbox (the
sequence of `send_message` calls made so far). Every route is a pure step
function over this record.

Modules, one per component:

- `Optional` (`wrappers.dfy`): `Option`, for missing JSON fields and request
  arguments, and for a failed completion call.
- `Text` (`text.dfy`): Python's `str.strip()`, `str.lower()` restricted to
  ASCII, and the substring test `k in s`.
- `Context` (`context.dfy`): the turn datatype, the bounded window as a subset
  type `Window` (length at most `Limit` = 10), `update_context`,
  `get_context`, and the lemmas about the sliding window.
- `Usage` (`usage.dfy`): the counter table as `map<string, nat>`,
  `log_conversation`, and the message total.
- `Bot` (`bot.dfy`): the fixed texts and payload tokens, `ask_gpt` and
  `process_message`.
- `Endpoints` (`endpoints.dfy`): the webhook event loop, the verification
  handshake and the statistics page.

External effects become parameters. The completion call is an
`Option<string>` oracle: `Some(content)` is the raw content of the first
choice, and `None` is any exception raised by the call or by reading the
content. The webhook takes one oracle value per event. An event that does
not reach the completion service ignores its value. A send is an appended
`Send(recipient, text, quickReplies)`. The database is the counter map.

The model keeps these details of the code:

- A webhook request does not always answer 200. A `quick_reply` object
  without a `payload` key raises `KeyError` at app.py:131. Flask then answers
  500, and the later events of the request are never processed. The model
  has `PayloadMissing` and status 500 for this case.
- The text guard comes first, for quick replies as well. A quick-reply event
  whose message has no `"text"` key is skipped (app.py:129).
- An empty sender id is falsy, so its event is skipped like a missing one
  (app.py:129). An empty `quick_reply` object is falsy too, so its message
  goes to `process_message` (app.py:130).
- Only the incoming text is lowered (app.py:103); the four phrases are not.
  They consist of Arabic letters and U+0020 SPACE. Python's `str.lower()`
  leaves those characters unchanged, and no other character lowers to one
  of them, so the lowering cannot change whether a phrase occurs. The model
  lowers ASCII letters only. For that lowering, `Bot.SupportIgnoresCase`
  proves the check on the lowered text equals the check on the raw text.

## Model

| member | source | states |
|---|---|---|
| `Context.Push` | app.py:51-57 | appending to a window of fewer than 10 turns grows it by one; appending to a full window keeps it at 10 by evicting the oldest turn; either way the new turn is last and the result is the newest 10 of old window plus turn |
| `Context.GetContext` | app.py:59-60 | an unknown user gets the empty window, a known user gets exactly their stored turns, and the store is not changed |
| `Context.UpdateContext` | app.py:54-57 | the user's window becomes the newest 10 turns of their old window (empty when unknown) followed by the new turn; every other user's window is unchanged |
| `Context.UpdateContextKeys` | app.py:55 | `setdefault` adds the user's entry on first use and never drops an entry |
| `Context.PushAllKeepsNewest` | app.py:51-57 | after any sequence of appends the window is exactly the most recent 10 turns of old window plus appended turns, in their original order |
| `Context.FreshWindowKeepsLastTurns` | app.py:51-57 | a new window that received 10 or more turns holds exactly the last 10 of them |
| `Context.UpdateAllWindow` | app.py:54-60 | any run of `update_context` calls for one user leaves that user's window equal to the newest 10 of old window plus new turns |
| `Context.UpdateAllFrame` | app.py:54-57 | any run of `update_context` calls for one user leaves every other user's window as it was |
| `Usage.Count` | app.py:64-65 | a user without a row counts 0 (`(user.messages or 0)`), a user with a row counts their stored messages |
| `Usage.Total` | app.py:146 | the sum of all counters (`SUM(messages)`, 0 for an empty table) is at least every single counter |
| `Usage.LogConversation` | app.py:63-67 | the user's count goes up by exactly one, starting from 0 for a user without a row; the user gets a row; no other user's count changes |
| `Usage.LogConversationAddsOne` | app.py:63-67 | each logged message raises the sum of all counters by exactly one |
| `Text.TrimStart` | app.py:94 | the result is a suffix of the input, everything removed is whitespace, and the result does not start with whitespace |
| `Text.TrimEnd` | app.py:94 | the result is a prefix of the input, everything removed is whitespace, and the result does not end with whitespace |
| `Text.Strip` | app.py:94 | `str.strip()` keeps an infix of its input that has only whitespace around it and does not start or end with whitespace |
| `Text.StripUnique` | app.py:94 | any infix that meets the strip conditions is the one `Strip` returns, so those conditions define `str.strip()` |
| `Text.StripIdempotent` | app.py:94 | stripping an already stripped reply changes nothing |
| `Text.Lower` | app.py:103 | lowering keeps the length and maps every character independently, capital ASCII letters to small ones |
| `Text.LowerKeepsContains` | app.py:103 | for a phrase without Latin letters, it occurs in the lowered text iff it occurs in the original text |
| `Text.Find` | app.py:103 | the left-to-right scan answers true iff the phrase occurs somewhere in the text |
| `Bot.IsSupportRequest` | app.py:103 | a text is a support request iff one of the four phrases occurs in the lowered text |
| `Bot.SupportIgnoresCase` | app.py:103 | the lowered-text support check holds iff one of the four phrases occurs in the raw text |
| `Bot.DetectSupport` | app.py:103 | the scan over the four phrases answers true iff some phrase occurs in the lowered text |
| `Bot.ReplyOf` | app.py:88-97 | a failed completion gives the fixed apology text; a successful one gives its content stripped of surrounding whitespace |
| `Bot.AskGpt` | app.py:85-99 | the prompt is the system turn followed by the updated window, which ends with the new user turn, and has 2 to 11 turns; the reply is the stripped answer or the fallback text; afterwards the window is the newest 10 of old window, user turn and assistant turn, and ends with the reply; other users' windows are unchanged |
| `Bot.ProcessMessage` | app.py:102-112 | a support phrase leads to exactly one send of the support notice without buttons and leaves windows and counters alone; any other text raises only this user's counter by one, leaves other users' windows alone and sends exactly one message, the reply with the `HUMAN_SUPPORT` and `SERVICE_INFO` buttons; a failed completion still sends the fallback text and is still counted; for every completion outcome the user's window becomes the newest 10 of old window, user turn and the sent reply as assistant turn, and the user has a counter row |
| `Endpoints.Accepted` | app.py:127-129 | an event is looked at iff it has a non-empty sender id and its message has a `text` field |
| `Endpoints.Raises` | app.py:129-131 | an accepted event raises `KeyError` iff its `quick_reply` object is non-empty but has no `payload` |
| `Endpoints.HandleEvent` | app.py:127-137 | an event without sender id or text has no effect; a quick reply without payload raises; a `HUMAN_SUPPORT` or `SERVICE_INFO` quick reply sends its fixed notice, and any other payload sends nothing; no quick reply touches windows or counters; a plain text goes through `process_message` |
| `Endpoints.HandleEvents` | app.py:124-138 | the loop answers 200 iff no event raises and 500 otherwise; the outbox only grows |
| `Endpoints.HandleEventsFrame` | app.py:125-137 | a user who sent none of the events keeps their window and their counter |
| `Endpoints.HandleEventsTotal` | app.py:124-137 | the message total grows by exactly the number of events that reach the completion service before the loop stops |
| `Endpoints.Events` | app.py:125-126 | an event is visited iff it belongs to the `messaging` list of some entry |
| `Endpoints.EventsAppend` | app.py:125-126 | the events of two entry lists one after the other are the events of the first followed by those of the second |
| `Endpoints.EventsSingle` | app.py:126 | one entry contributes exactly its `messaging` list, in order and with repetitions; with `EventsAppend` this fixes order and count of the visited events |
| `Endpoints.Webhook` | app.py:122-138 | a request answers 200 iff none of its events raises, otherwise 500; the outbox only grows |
| `Endpoints.VerifyWebhook` | app.py:116-119 | the challenge (empty when absent) is echoed with 200 iff the supplied token equals the configured one; otherwise the answer is 403 "Invalid token" |
| `Endpoints.Stats` | app.py:142-147 | the page is shown iff the password matches, and then it reports the number of user rows and the sum of their counters |

## Left out

- HTTP and JSON: Flask routing, request parsing and `jsonify` are replaced by datatypes (`Event`, `Entry`, `Reply`, `Outcome`). JSON values of the wrong type are not modelled, for instance a numeric sender id, a `null` text (which would raise in `str.lower()`) or a body that is not an object.
- The completion call (app.py:89-94): model id, temperature (a float), credentials and the network are outside the model. Its outcome is an oracle argument and does not depend on the prompt.
- `send_message` (app.py:70-82): the HTTP POST, its timeout and the swallowed `RequestException` are left out. A send is an entry appended to the outbox whether or not delivery would succeed.
- SQLAlchemy and SQLite (app.py:33-48): the table is a map from user id to count. The `created_at` timestamp is not modelled (a clock), and neither is a failing commit.
- Environment loading and the startup check for missing variables (app.py:12-30): configuration I/O. The configured token and password are parameters.
- Logging with `print`: no observable state.
- Concurrency: requests for the same user race on the unsynchronised dict in the source. The model is sequential.
- `Text.Lower`: lowers ASCII letters only, not the full Unicode `str.lower()` mapping (which also lowers capitals such as 'Σ', and turns 'İ' into two characters). `Text.LowerKeepsContains` is proved for this ASCII lowering only. For a phrase containing a non-Latin capital it would not hold of Python's lowering. The four support phrases contain only Arabic letters and spaces, which `str.lower()` neither changes nor produces from other characters.
- `Endpoints.Stats`: a ghost function, because the message total sums a map in no fixed order.
