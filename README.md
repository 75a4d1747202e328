# Procurement order bot: a Dafny model

This project models the core of a Telegram bot that collects purchase orders
from authorised users and forwards them to a fixed set of administrators
(`bot.py`). It covers two parts.

- **The user registry** (`UserManager`). It reads user-ID lines from the
  `ADMINS` and `USERS` sections of `users.cfg`. The text after a `#` is cut off
  and whitespace is stripped. Lines that are not integers are skipped. Admins
  are folded into the allowed set. A configuration without any admin is
  refused. The sets are assigned only after that check, so a failed reload
  keeps the registry that was loaded before.
- **The order conversation.** It has four states: department, product,
  quantity and priority. Each handler records one field of the user's draft
  (`context.user_data`) and returns the next state, `END`, or `None` to stay.
  Two handlers check access: `/order` and the department button. `/order` and
  `/cancel` have fallbacks inside a conversation, and `/cancel` has its own
  handler outside one. Button payloads are `"<kind>_<id>"`. The priority button
  relays the finished order to every admin, and a failed send to one admin does
  not stop the others.

Files:

- `wrappers.dfy`: `Option`.
- `text.dfy`: the Python string operations used: `split` on one character,
  `strip()`, and `int()` on a stripped string, with `str(int)` as its inverse.
- `users.dfy`: `_parse_user_id`, the `for key in config[...]` loop, and the
  class `UserManager` with `_load_users`, `is_admin`, `is_allowed` and
  `reload_users`.
- `relay.dfy`: the `_send_order_to_admins` loop over an abstract send outcome.
- `conversation.dfy`: the handlers as functions, one step of the conversation
  handler (`Step`), runs of several updates (`Run`), and the properties.
- `bot.dfy`: the class `Bot`. It holds the registry, the conversation states
  keyed by chat and user, the drafts keyed by user, the update handling that
  stores the step's result and relays the order, and `/reload_users`.

Some modelling choices:

- `user_data` is a `Draft` record with one optional field for each key the
  handlers write (`department`, `product`, `quantity`, `priority`). A missing
  key is `None`.
- The conversation handler is built with its defaults (bot.py:140), so its
  table is keyed by chat and user, while `user_data` belongs to the user
  alone. A user with a conversation in each of two chats (a group and a
  private chat) drives both over one shared draft; `Bot.Valid` keeps every
  such conversation consistent with it.
- The catalogs `DEPARTMENTS` and `PRIORITIES` are abstract maps from id to
  label. Each menu is the set of button payloads it offers.
- The clock is the `now` parameter. The chat transport is the abstract
  `send` function, from recipient and message to an outcome.
- A handler that raises `KeyError` leaves the conversation state unchanged.
  This happens when a button names an id the catalog lacks. The
  conversation handler updates the state only after the handler returns.
- `/help`'s top-level handler is registered before the conversation handler,
  so it answers `/help` inside a conversation as well as outside one. The
  fallback entry for `/help` in the conversation (bot.py:171) is never
  reached, and the effect is the same: the state is kept.

Some facts about `bot.py` that the model keeps as they are:

- the priority button ends the conversation; there is no confirmation step;
- a failed send is logged and not retried;
- the draft in `user_data` is never discarded, so `CancelThenOrder` shows it
  kept;
- the product and quantity texts are stored verbatim, without trimming;
- a department or priority id missing from its catalog raises `KeyError`;
- access is checked only at `/order` and at the department button.

## Model

| member | source | states |
|---|---|---|
| `Text.Split` | bot.py:63 | `split(sep)` yields at least one part, no part holds `sep`, and joining the parts with `sep` gives the input back |
| `Text.SplitFirst` | bot.py:63 | the first part of a split is a prefix free of the separator, followed by the separator whenever it is shorter than the input |
| `Text.SplitWithoutSep` | bot.py:63 | text without the separator splits into itself alone |
| `Text.SplitAtFirstSep` | bot.py:274 | splitting `a + sep + b`, with `sep` not in `a`, gives `a` followed by the split of `b` |
| `Text.TrimStart` | bot.py:63 | `lstrip` drops an all-whitespace prefix and stops at the first non-whitespace character |
| `Text.TrimEnd` | bot.py:63 | `rstrip` drops an all-whitespace suffix and stops at the last non-whitespace character |
| `Text.StripPadded` | bot.py:63 | `strip()` of whitespace + text + whitespace is that text, when the text neither starts nor ends with whitespace |
| `Text.ParseInt` | bot.py:66-68 | `int()` succeeds exactly on an optional sign followed by decimal digits, and a negative result comes from a leading `-` |
| `Text.FormatNat` | bot.py:66 | the decimal rendering of a natural number is a digit string without a leading zero |
| `Text.DigitsValueOfFormat` | bot.py:66 | the digits of `n` have the value `n` |
| `Text.ParseFormat` | bot.py:66 | `int(str(v)) == v` for every integer |
| `Text.FormatParse` | bot.py:66 | `str(int(s)) == s` for every canonical literal (no `+`, no leading zero, no `-0`) |
| `Users.Uncommented` | bot.py:63 | `split('#')[0]` is the prefix of the line up to its first `#`, or the whole line |
| `Users.ParseUserId` | bot.py:57-68 | a user ID is found exactly when the uncommented, stripped text is an integer literal; otherwise `None`, never an exception |
| `Users.ParseUserIdOfWrittenId` | bot.py:62-66 | an integer written out, with whitespace around it and with or without a trailing `# comment`, is read back as that integer |
| `Users.ParseUserIdOfBlank` | bot.py:63-65 | a blank line, or one holding only a comment, yields `None` |
| `Users.IdsOf` | bot.py:84-85 | a parse result contributes its ID when there is one, and nothing for `None` |
| `Users.ParsedByHas` | bot.py:83-86 | every line of a section that parses contributes its ID to the section's IDs |
| `Users.ParsedBySource` | bot.py:83-86 | every ID of a section comes from some line of the section that parses to it |
| `Users.ParsedByExtend` | bot.py:83-86 | one more line adds its ID if it has one and nothing otherwise |
| `Users.CollectIds` | bot.py:81-86 | the section loop returns the section's IDs: an ID is collected exactly when some line parses to it, and lines that do not parse are skipped without failing |
| `Users.UserManager.constructor` | bot.py:52-54 | a new registry starts with empty admin and allowed sets |
| `Users.UserManager.Create` | bot.py:52-55 | a registry exists exactly when some admin line parses, and then its admins are the parsed admin IDs and its allowed set is the parsed user IDs plus the admins |
| `Users.UserManager.LoadUsers` | bot.py:70-115 | it fails exactly when no admin line parses, and then changes neither set; otherwise admins = parsed admin IDs, allowed = parsed user IDs ∪ admins, so admins ⊆ allowed and admins ≠ ∅ |
| `Users.UserManager.IsAdmin` | bot.py:117-119 | under the registry invariant an admin is also an allowed user |
| `Users.UserManager.IsAllowed` | bot.py:121-123 | under the registry invariant every admin is allowed |
| `Users.UserManager.ReloadUsers` | bot.py:125-127 | a reload is a load: on failure both sets and every `is_admin`/`is_allowed` answer stay as before |
| `Relay.SendOrderToAdmins` | bot.py:359-374 | exactly one send per current admin, each admin once, each outcome recorded; no failure stops the loop and the method always returns |
| `Relay.ReachedExactly` | bot.py:361-374 | the admins reached are exactly those whose own send succeeds, whatever the other sends do |
| `Relay.NextAdmin` | bot.py:361 | the loop takes its next admin from those not yet attempted |
| `Relay.RecipientsAppend` | bot.py:361-367 | one more attempt adds its admin to the admins attempted |
| `Conversation.EncodePayload` | bot.py:252 | a built payload starts with `"<kind>_"`, so the handler's pattern accepts it |
| `Conversation.PayloadId` | bot.py:274 | `data.split('_')[1]` is the text after `"<kind>_"` up to the next `_` |
| `Conversation.PayloadRoundTrip` | bot.py:308-324 | decoding `f"<kind>_{id}"` gives back `id` whenever `id` holds no `_` |
| `Conversation.PayloadIdTruncates` | bot.py:324 | an id that does hold `_` is decoded only up to its first `_` |
| `Conversation.ButtonsDecode` | bot.py:304-310 | every button of a menu matches its pattern and decodes to an id of its catalog |
| `Conversation.OrderEntry` | bot.py:237-260 | `/order` from a user who is not allowed gives `END`; from an allowed user it gives `SELECTING_DEPARTMENT` with the department menu; the draft is untouched |
| `Conversation.DepartmentSelection` | bot.py:262-284 | a department button from a user who is not allowed gives `END`; from an allowed user it records the id and name and gives `ENTERING_PRODUCT`; an unknown id raises and keeps the state |
| `Conversation.TextSteps` | bot.py:286-316 | the product text gives `ENTERING_QUANTITY` and the quantity text gives `SELECTING_PRIORITY`, each stored verbatim |
| `Conversation.PriorityCompletes` | bot.py:318-357 | the priority button of a complete draft records the priority, relays exactly one order built from the draft, and gives `END` |
| `Conversation.InConversationCommands` | bot.py:168-172 | inside a conversation `/order` and `/help` keep the state and the draft, and `/cancel` gives `END` |
| `Conversation.CancelOutsideConversation` | bot.py:395-401 | outside a conversation `/cancel` only answers that nothing can be cancelled |
| `Conversation.OnlyOrderEnters` | bot.py:140-141 | outside a conversation only `/order` can start one, and no other update changes the draft |
| `Conversation.StepInvariant` | bot.py:142-172 | no step removes a draft field; every state keeps the fields its earlier steps recorded; a step raises exactly on a button naming an id its catalog lacks, and then keeps the state |
| `Conversation.RelayOnlyFromPriority` | bot.py:161-166 | an order is relayed only by a priority button in `SELECTING_PRIORITY`, and that step ends the conversation |
| `Conversation.NoRelayBeforePriority` | bot.py:237-316 | no earlier handler relays anything |
| `Conversation.AtMostOneRelay` | bot.py:355 | one update relays at most one order |
| `Conversation.RelayedAppend` | bot.py:355 | the orders relayed by two output sequences in a row are those of the first, then those of the second |
| `Conversation.RunCons` | bot.py:140-172 | a run of updates is its first step followed by the run of the rest |
| `Conversation.CompleteOrder` | bot.py:140-172 | `/order`, department, product, quantity and priority from an allowed user relay exactly one order with those fields, the sender and the time, end the conversation, and leave all four fields in the draft |
| `Conversation.CancelThenOrder` | bot.py:376-383 | after `/cancel` in any state, `/order` from an allowed user starts again at the department menu, with the draft unchanged |
| `BotApp.StoreStep` | bot.py:140-172 | storing a step's state under its (chat, user) key and its draft under its user keeps every conversation of every user consistent with that user's shared draft |
| `BotApp.Bot.constructor` | bot.py:133-136 | a new bot has the given registry and catalogs and no conversations |
| `BotApp.Bot.HandleUpdate` | bot.py:138-186 | one update stores the step's new state under its (chat, user) key and the new draft under its user, and changes no other entry; every conversation of the user stays consistent with the shared draft; when the step relays an order, every current admin is attempted exactly once |
| `BotApp.Bot.ReloadUsersCommand` | bot.py:216-235 | a non-admin is refused; for an admin the reload fails exactly when no admin line parses; on any outcome but success the registry is unchanged |

## Left out

- The Telegram framework is not modelled. This covers `Application`, the
  handler objects, keyboards and markup, `async`, polling, and the dispatch of
  updates from several users at a time. One update of one user is one `Step`.
- Message wording, the `messages.py` dictionaries, `ORDER_TEMPLATE` and HTML
  formatting are left out: `messages.py` is not part of this model. Replies
  are abstract `Message` values, and the relayed order is the record of
  fields the template is filled with.
- Reading `users.cfg` with `ConfigParser` is left out. Each section is given
  as its sequence of keys, and a missing section is an empty sequence.
  ConfigParser's lower-casing of keys, its `DEFAULT` section and its parse
  errors are not modelled.
- Python's `int()` is modelled as an optional sign followed by ASCII digits.
  Underscores between digits and non-ASCII decimal digits are not modelled.
- `datetime.now()` is the `now` parameter, and its `%d.%m.%Y %H:%M` format is
  not modelled.
- Failures of `reply_text`, `edit_message_text` and `query.answer()` are not
  modelled. `send_message` is the abstract `send` outcome: the message is sent,
  or the send raises and the exception is caught.
- `Relay.SendOrderToAdmins` fixes no order among the admins, because Python
  gives no order for iterating a set. The loop iterates the set object that
  `self.user_manager.admins` named when it began. A reload binds a freshly
  built set to `self.admins` (bot.py:81, bot.py:105) and never changes the
  old one, so a reload that runs while the loop awaits a send leaves the loop
  on the old set. The model matches this by passing the admin set by value.
- `start` (bot.py:188-200) only sends a reply. It never reaches the
  conversation, and the model treats it as an `OtherCommand`.
- Logging, `main`, `load_dotenv`/`getenv`, `sys_exit`, `run` and `run_async`
  are not modelled.
- The menus are sets of payloads. The order in which the buttons appear is
  not modelled.
