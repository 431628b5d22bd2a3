# Feedback bot: reply correlation

This project models the core of a Telegram feedback bot (`Feedback_Bot.py`). Users send the bot text or captioned media. The bot forwards each message to one fixed administrator, with a "Reply" button whose callback data is `reply:<user id>`. The administrator presses the button and the bot stores that user id as the pending reply target in the chat's data. The state becomes TYPING_REPLY. The administrator's next text goes to that user, and the target is cleared. `/cancel` is meant to drop the target. As written it never reaches its handler (see Findings); the model's `Bot` uses the corrected routing, where it does.

The model has six modules:

- `Wrappers`: `Option`, standing for Python's `None` or a value.
- `CallbackToken`: the Reply button's token.
  - Python's decimal formatting of an id (`Decimal`) and its `int` (`ParseDecimal`).
  - `str.split` and `str.join`.
  - The token `reply:<id>` (`CallbackData`), the entry pattern `^reply:\d+$` (`IsReplyData`) and the `split(":")[1]` decoding (`ReplyTarget`).
- `Relay`: the feedback body fallback and the administrator's notification text.
- `Routing`: the handler table of `main`, as a function from the chat's conversation state and an inbound update to the handler it reaches.
- `Correlator`: the class `Bot`.
  - Its fields: the administrator chat's conversation state, the pending target (the decimal text of a user id) and a log of everything the bot emits.
  - One method per handler, plus `HandleEvent`, which routes one update and runs the handler it reaches.
- `Scenarios`: whole conversations run through `HandleEvent` from a fresh bot.

Each send to another chat can succeed or fail. Its outcome is a parameter of the method, and so is the error text shown on failure.

Where the routing depends on the bot framework, the model follows python-telegram-bot's `ConversationHandler` with the options `main` passes:

- the entry point is tried only while the chat has no active conversation, since re-entry is off;
- while a conversation is active, its state handlers are tried before its fallbacks;
- `filters.TEXT` accepts any non-empty text, commands included;
- `filters.CaptionRegex(".*")` needs a non-empty caption.

Behaviour of the code that differs from what a reader might expect:

- A second Reply press while a reply is awaited does not overwrite the target. The press reaches no handler (`Routing.PressWhileTyping`, `Scenarios.SecondPressIgnored`). The handler itself would overwrite the target (`Bot.ClickReply`), but the table never sends it such a press.
- A missing `@username` is shown as `None`, not as a placeholder (`Relay.Show`).
- The `"No text provided"` fallback is never reached through the table. Both feedback filters demand a non-empty text or caption (`Routing.Dispatch`).

## Model

| member | source | states |
|---|---|---|
| `CallbackToken.Decimal` | Feedback_Bot.py:41 | the id in the callback data is written as a canonical decimal: digits only, no leading zero, one digit exactly for ids below 10 |
| `CallbackToken.ParseDecimalOfDecimal` | Feedback_Bot.py:83 | `int` of the decimal text of an id gives back the id |
| `CallbackToken.DecimalOfParseDecimal` | Feedback_Bot.py:83 | the decimal text of `int(s)` is `s` for every canonical digit string, so formatting and parsing are inverse bijections |
| `CallbackToken.Split` | Feedback_Bot.py:63 | `split` yields at least one field, no field contains the separator, and there is more than one field exactly when the separator occurs |
| `CallbackToken.JoinSplit` | Feedback_Bot.py:63 | joining the fields of a split with the separator gives back the string |
| `CallbackToken.SplitJoin` | Feedback_Bot.py:63 | splitting the join of separator-free fields gives back the fields |
| `CallbackToken.ReplyTarget` | Feedback_Bot.py:63 | `split(":")[1]` exists exactly when the data holds a ':' (otherwise Python raises IndexError), and the field holds no ':' |
| `CallbackToken.DecodeEncode` | Feedback_Bot.py:63 | `split(":")[1]` of `"reply:" + d` is `d` for every digit string `d` |
| `CallbackToken.IsReplyData` | Feedback_Bot.py:128 | the entry pattern `^reply:\d+$`: every data string it accepts decodes to a digit string, and the data is `"reply:"` followed by exactly that string |
| `CallbackToken.CallbackData` | Feedback_Bot.py:41 | the button data `f"reply:{chat_id}"` passes the entry pattern, and `split(":")[1]` of it is the id's decimal text |
| `CallbackToken.ParseDecimal` | Feedback_Bot.py:83 | `int(...)` of a k-digit string is below `10^k`, and at least `10^(k-1)` when the string does not start with '0' |
| `CallbackToken.TokenRoundTrip` | Feedback_Bot.py:41 | the button data built for a user passes the entry pattern and decodes to the id's decimal text, and `int` of that text is the user's id |
| `CallbackToken.CallbackDataInjective` | Feedback_Bot.py:41 | two users with the same button data are the same user |
| `Relay.FeedbackBody` | Feedback_Bot.py:37 | the body is never empty; it is the text when present, else the caption when present, else `"No text provided"` |
| `Relay.Notification` | Feedback_Bot.py:49 | the administrator's notification ends with `", ID: <id>):"`, a blank line and the body |
| `Routing.Dispatch` | Feedback_Bot.py:127-150 | in one direction: the administrator never reaches the feedback handler; routed feedback always comes from a non-administrator's non-command message, carries that message's own text and caption, and has a text or caption; only `/start` reaches the start handler; with the corrected filter only plain text is taken as a reply; a reply is taken only from the administrator in TYPING_REPLY, and it is that message's text; a press opens the conversation only from Idle and only with data matching `^reply:\d+$`; cancel is reached only in TYPING_REPLY; in Idle every update from the administrator other than a press or `/start` is handled by nobody. In the other direction: a matching press in Idle reaches the click handler; the administrator's plain text in TYPING_REPLY reaches the reply handler; a user's non-empty text, and a user's media with a non-empty caption, reach the feedback handler in any state; `/cancel` in TYPING_REPLY reaches the cancel handler when the state filter excludes commands or the sender is not the administrator; `/start` reaches its handler unless the state filter takes it first |
| `Routing.RouteAsWritten` | Feedback_Bot.py:127-150 | the table as written: in TYPING_REPLY every non-empty text of the administrator's, commands included, is taken as the reply, so the cancel handler is never reached by the administrator |
| `Routing.Route` | Feedback_Bot.py:130-132 | the corrected table: `/cancel` in TYPING_REPLY reaches the cancel handler, and only plain text is taken as the reply |
| `Routing.CancelWhileTyping` | Feedback_Bot.py:130-132 | as written, the administrator's `/cancel` in TYPING_REPLY is taken as the reply text `"/cancel"`; with the corrected filter it reaches `admin_cancel` |
| `Routing.RoutesDiffer` | Feedback_Bot.py:130 | the written and the corrected tables route an update differently exactly when it is a command from the administrator in TYPING_REPLY |
| `Routing.PressWhileTyping` | Feedback_Bot.py:128 | in TYPING_REPLY a button press reaches no handler |
| `Correlator.FeedbackSends` | Feedback_Bot.py:46-55 | on delivery, two messages: first the notification to the administrator, ending with the body and carrying the sender's button, then the acknowledgement to the sender; on failure, only the failure notice to the sender |
| `Correlator.ReplySends` | Feedback_Bot.py:73-94 | the last message always goes to the administrator; with a target and delivery, two messages, the first being `"Admin replied"` plus the text to the parsed target; otherwise only one message |
| `Correlator.FeedbackReachesAdmin` | Feedback_Bot.py:46-55 | exactly two messages when delivered and one otherwise; the only message to a user chat is the sender's acknowledgement (success or failure); when delivered, the first message goes to the administrator, ends with the body, and carries a button whose data decodes to the sender's id |
| `Correlator.ReplyReachesOnlyTarget` | Feedback_Bot.py:73-88 | sending a reply puts exactly one message in a user chat, `"Admin replied"` plus the text, to the pending target, and only when a target is pending and delivery succeeds; otherwise nothing reaches any user |
| `Correlator.Bot.constructor` | Feedback_Bot.py:133-136 | a new bot is Idle, with no pending target and nothing emitted |
| `Correlator.Bot.Start` | Feedback_Bot.py:29-30 | `/start` appends the greeting to the sender's chat and changes nothing else |
| `Correlator.Bot.HandleFeedback` | Feedback_Bot.py:33-55 | on delivery: the notification with a button naming the sender to the administrator, then the acknowledgement to the sender; on failure: only the failure notice to the sender |
| `Correlator.Bot.ClickReply` | Feedback_Bot.py:58-70 | the administrator's press stores the decoded target, overwriting any earlier one, emits the answer and the prompt, and returns TYPING_REPLY; anyone else's press leaves the target untouched, answers "Unauthorized." as an alert and returns END |
| `Correlator.Bot.SendReply` | Feedback_Bot.py:72-94 | without a target: a warning to the administrator only; with target U: the reply to U and the success notice to the administrator, or the failure notice only; in every case the target ends cleared and the result is END |
| `Correlator.Bot.Cancel` | Feedback_Bot.py:97-101 | the administrator's cancel clears the target and sends only the notice to the administrator; anyone else's changes nothing; both return END |
| `Correlator.Bot.HandleEvent` | Feedback_Bot.py:127-150 | the update goes to the handler the corrected table picks, and the effect is that handler's effect; the returned conversation state is stored; users other than the administrator never change the state or the target; the administrator's text or media in Idle emits nothing; "a reply is awaited exactly while a target is pending" is preserved |
| `Scenarios.ReplyRoundTrip` | Feedback_Bot.py:58-94 | feedback, a Reply press and the administrator's text put the reply in the original sender's chat, or give the administrator a failure notice; the chat ends Idle with no target |
| `Scenarios.CancelRoundTrip` | Feedback_Bot.py:97-101 | with the corrected filter, a press followed by `/cancel` ends Idle with no target and sends nothing to any user |
| `Scenarios.SecondPressIgnored` | Feedback_Bot.py:127-130 | a second press in TYPING_REPLY leaves the first target pending and emits nothing |
| `Scenarios.UnauthorizedPress` | Feedback_Bot.py:68-70 | a non-administrator's press emits only the "Unauthorized." alert and leaves the bot Idle with no target |
| `Scenarios.AdminTextWhileIdle` | Feedback_Bot.py:143-150 | the administrator's text outside a conversation is forwarded nowhere and changes nothing |

## Findings

| source | as written | input that shows it | evidently intended | confidence | as-written member | corrected member |
|---|---|---|---|---|---|---|
| Feedback_Bot.py:130 | The TYPING_REPLY handler's filter `filters.TEXT & filters.User(ADMIN_ID)` also accepts commands. State handlers are tried before the `/cancel` fallback. | The administrator presses Reply, then sends `/cancel`: the user receives "💬 Admin replied:\n\n/cancel", the administrator is told it was sent, and `admin_cancel` never runs. | `/cancel` reaches `admin_cancel`, as the prompt at line 66 tells the administrator; the filter should add `~filters.COMMAND`. | not executed; follows from the framework's documented handler order and `filters.TEXT` | `Routing.RouteAsWritten` (shown by `Routing.CancelWhileTyping`) | `Routing.Route` (used by `Bot.HandleEvent`; `Routing.CancelWhileTyping`, `Scenarios.CancelRoundTrip`) |

## Left out

- Telegram calls (`send_message`, `reply_text`, `edit_message_text`, `query.answer`) are appends to the `outbox` log, not network I/O.
- `delivered == false` stands for the `try` block failing at its `send_message` (line 47 or 82). The acknowledgements at lines 52 and 86 sit inside the same `try` blocks. If one of them raised after a successful send, the local `except` would send the failure notice although the message had been delivered. That case is not modelled; those acknowledgements are assumed to succeed. The remaining replies, answers and edits lie outside any `try`. Their failures would go to the framework's error handler, which is not modelled.
- Environment loading (lines 22-24) is process I/O. The administrator id is a constructor parameter, and a missing `ADMIN_ID` crashing at start-up is not modelled.
- `error_handler` (lines 104-117) and the logging calls are diagnostic I/O, so they are left out.
- The framework's event loop, polling and async scheduling are left out. Updates are handled one at a time.
- Only private chats are modelled: a chat's id is its user's id, and only the administrator's chat ever leaves Idle. Group chats, where several users share one conversation key, are not modelled.
- Edited messages and channel posts are left out. So is matching commands case-insensitively or with an `@botname` suffix. Commands are plain names, and a `Text` event is never a command.
- The entry pattern admits ASCII digits only. Python's `\d` also matches other Unicode decimal digits, and its `$` also matches before a final newline. The bot's own buttons never produce either form.
- Correlator.Bot.ClickReply: requires data matching `^reply:\d+$`, because the table routes only such presses to it. On other data `split(":")[1]` may raise IndexError, and that error path is not modelled.
- Correlator.Bot.SendReply: requires the pending target to be a digit string, which every stored target is. A non-numeric target would make `int(...)` raise inside the `try`, and the administrator would see that as a delivery failure; this is not modelled.
- The exact emoji of the notification header are modelled, but nothing is proved about the header beyond its tail of id and body.
