# Emergency numbers bot: conversation and moderation model

A Dafny model of the chat bot in `main.py`. The bot gives out emergency phone numbers
through menu buttons. It forwards user comments to a fixed set of administrators.
Administrators can block a user from a button attached to a forwarded comment.

The model keeps the bot's process-wide state in one object, `Handlers.Bot`:

- `states` is `user_states`: per user, `WaitingForComment` or `Idle`. `Idle` is the `None` that
  is stored after a comment. A missing entry also reads as not waiting.
- `phones` is `user_phones`: the phone number last shared by each user.
- `blocked` is `blocked_users`.
- `admins` is `ADMIN_IDS`. It is fixed when the object is built. `DefaultAdmins` holds the two
  configured ids.

Each handler is a method that takes the parts of the inbound update it reads. It returns, in
order, what the handler would send to the platform, as `Outputs.Output` records:

- `Reply(text, markup)` is a reply in the chat the update came from.
- `Send(chat, text, markup)` is a message to a given chat id.
- `AnswerCallback` is the answer to a button press.
- `RegisterCommands` is the command-list update made by /start.

The `Bot.Valid()` invariant says a user can only be waiting for a comment once their phone is
stored. Every handler preserves it. Because of it, a forwarded comment always carries the
stored phone, never the "No phone number" sentinel.

Pure parts:

- `Payload`: the `block_<id>` button payload, built with `str(id)` and read back with
  `split("_")[1]` and `int(...)`.
- `Text`: Python's `str`/`int` on decimal integers, `split`/`join`, and `x or default`.
- `Directory`: the category-to-text lookup.
- `Outputs`: the two admin notices, and `IsFanOut`, meaning "each admin gets the message
  exactly once".

Behaviour of `main.py` worth noting:

- A non-admin pressing a `block_` button gets no denial message. The press is answered, and
  then the payload matches no category, so nothing else is sent.
- A contact share puts the user into the waiting state whether or not /comment came first.
  /comment itself changes no state.
- /info and /admin have no block check. /admin checks only the admin set.
- `phone_handler` checks for a contact before it checks the block list. A blocked user's update
  without a contact gets no reply at all.

## Model

| member | source | states |
|---|---|---|
| `Text.IntToStringRoundTrip` | main.py:149 | `int` applied to `str(i)` gives back `i`, negative ids included |
| `Text.NatToStringRoundTrip` | main.py:117 | the value of the decimal digits printed for `n` is `n` |
| `Text.IntToString` | main.py:117 | `str(i)`: never empty and never contains `_`, so it survives the split at main.py:149; it is always canonical (no leading zero, no `-0`), so with `ParseIntCanonical` printing is a bijection between ints and canonical strings |
| `Text.ParseInt` | main.py:149 | parsing succeeds exactly for an optional `+`/`-` sign followed by one or more digits; the sign decides the sign of the value |
| `Text.ParseIntCanonical` | main.py:149 | a canonical decimal string (what `str` prints) parses, and printing its value gives the string back |
| `Text.DigitsRoundTrip` | main.py:149 | digits without a leading zero are exactly what `str` prints for their value |
| `Text.LeadingZeroValue` | main.py:149 | a leading zero does not change what `int` parses, with or without a minus sign, as in `int("007") == 7` and `int("-007") == -7` |
| `Text.MinusSignValue` | main.py:149 | a `-` before digits parses to the negated value of the digits |
| `Text.PlusSignValue` | main.py:149 | a `+` sign does not change the parsed value, as in `int("+5") == 5` |
| `Text.Split` | main.py:149 | `s.split(sep)` always has at least one piece |
| `Text.SplitJoin` | main.py:149 | joining the pieces of `s.split(sep)` with `sep` gives back `s`, and no piece contains `sep` |
| `Text.SplitAtFirst` | main.py:149 | splitting `head + sep + tail`, with no `sep` in `head`, gives `head` followed by the split of `tail` |
| `Text.OrElse` | main.py:135-136 | `x or default`: an absent or empty name gives the sentinel, any other name is kept |
| `Payload.BlockPayload` | main.py:117 | every block payload starts with `block_` |
| `Payload.IdField` | main.py:149 | `data.split("_")[1]` is the longest run after `block_` with no `_`; it ends at the next `_` or at the end of the payload |
| `Payload.DecodeBlock` | main.py:148-149 | decoding succeeds exactly when the id field is an optional sign followed by one or more digits; in particular a payload with nothing after `block_` raises |
| `Payload.BlockPayloadRoundTrip` | main.py:117 | decoding the payload built for a user's comment button gives back that user's id |
| `Payload.BlockPayloadInjective` | main.py:117 | two different users never share a block payload |
| `Directory.Lookup` | main.py:155-172 | a button gets a directory reply exactly when its payload is one of the five categories or `all_numbers` |
| `Directory.AllNumbersIsJoin` | main.py:165-172 | the `all_numbers` reply is the five single replies joined by newlines: police, emergency, fire, ambulance, gas |
| `Directory.AllNumbersLines` | main.py:166-172 | the literal pieces of the `all_numbers` reply are the five single replies, each followed by a newline |
| `Directory.BlockPayloadIsNoCategory` | main.py:155-172 | no `block_` payload gets a directory reply |
| `Outputs.CommentNotice` | main.py:113-115 | the forwarded comment, its lines joined by newlines, contains the sender's display name, the sender's id, the phone and the comment text |
| `Outputs.BlockedConfirmation` | main.py:152 | the admin's confirmation names the blocked id |
| `Outputs.InvalidTextNotice` | main.py:133-138 | an invalid-text notice contains the first name, the last name or "No lastname", the username or "No username", the phone and the message |
| `Outputs.FanOutReachesEveryAdmin` | main.py:110-119 | in a broadcast every admin actually receives the message with its text and markup |
| `Outputs.FanOutSize` | main.py:110-119 | a broadcast that reaches each admin exactly once has exactly as many messages as there are admins |
| `Handlers.PhoneOrSentinel` | main.py:104 | the stored phone when there is one, otherwise "No phone number" |
| `Handlers.IsWaiting` | main.py:106 | a user with no entry, or whose entry is the stored `None`, is not waiting for a comment |
| `Handlers.Bot.Valid` | main.py:91-92 | in a valid state every waiting user has a stored phone, so the phone lookup reads it rather than the sentinel |
| `Handlers.Bot.constructor` | main.py:16-20 | the process starts with no conversation state, no phones and nobody blocked |
| `Handlers.Bot.Broadcast` | main.py:110-139 | both `for admin_id in ADMIN_IDS` loops: every message is the given text sent to an admin, and each admin gets exactly one |
| `Handlers.Bot.Start` | main.py:26-54 | a blocked user gets only the block notice; anyone else gets the command list and the category menu |
| `Handlers.Bot.Help` | main.py:58-64 | a blocked user gets only the block notice; anyone else gets the help text |
| `Handlers.Bot.Info` | main.py:189 | everyone, blocked or not, gets the info text |
| `Handlers.Bot.Comment` | main.py:68-81 | a blocked user gets only the block notice; anyone else gets the contact-request prompt |
| `Handlers.Bot.AdminPanel` | main.py:176-180 | the reply is "not authorized" exactly when the sender is not an admin, otherwise the welcome |
| `Handlers.Bot.ShareContact` | main.py:84-96 | no contact: nothing happens. Blocked sender: only the block notice, no state change. Otherwise the sender alone becomes waiting and their phone becomes the contact's number; no other user's entries change |
| `Handlers.Bot.FreeText` | main.py:99-140 | blocked sender: only the block notice, no state change. Waiting sender: one comment notice per admin, with the stored phone and a `block_<sender>` button, then the thank-you; the sender becomes idle and the phone is kept. Any other sender: "Sorry, I can't do that.", then one invalid-text notice per admin; no state change |
| `Handlers.Bot.ButtonPress` | main.py:144-172 | the press is answered before anything else. An admin's `block_` press adds the parsed id to the block list, tells that id and confirms to the admin; blocking again changes nothing. An unparsable id stops the handler with the block list untouched. A non-admin's `block_` press gets only the answer. Other presses get their directory reply, if any. Conversation state and phones never change |
| `Handlers.CommentConversation` | main.py:104-125 | on a fresh process, /comment then a contact share then text: every admin gets the comment once with that sender's block button, and the sender is thanked |
| `Handlers.OnlySharerIsCaptured` | main.py:91-106 | after one user shares a contact, another user's text is invalid text with the "No phone number" sentinel, and the sharer's text is still their comment |
| `Handlers.BlockFromCommentButton` | main.py:146-152 | once an admin presses a comment's block button, that sender gets only the block notice from /start, /help, /comment, a contact share and free text; pressing again leaves the block list as it was |

## Left out

- Telegram client calls are not modelled as calls. Setting the command list, the inline and
  reply keyboard layouts, `ApplicationBuilder`, `run_polling` and handler registration and
  filters are foreign library code. They appear only as the abstract outputs
  `RegisterCommands`, `CategoryMenu`, `ContactRequest` and `BlockUserButton`.
- `async`/`await` and concurrency between users: each handler is one atomic step.
- Logging and reading `BOT_TOKEN` from the environment: they have no effect on the state or
  the replies.
- Failed sends and network errors: they are not caught in the source and carry no logic.
- The order in which the loop visits `ADMIN_IDS`: Python's set order is unspecified.
  `Bot.Broadcast` picks admins in an arbitrary order and is specified as "exactly one message
  per admin".
- Text.ParseInt: does not model the rest of Python's `int()` leniency (surrounding
  whitespace, `_` between digits, non-ASCII digits). Whitespace and non-ASCII digits are read as
  the ValueError case. A `_` never reaches `int` here, because the payload is split at `_` first.
- `User.fullName` is taken as given. `full_name` is computed inside the platform library, which
  is not part of this model.
- An update that is not a text, a contact or a command is not modelled: the handler filters in
  main.py:192-194 decide which handler runs, and these are platform code.
