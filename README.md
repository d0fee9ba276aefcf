# Access levels and quotas of the group-admin bot, modelled in Dafny

The bot (`adminBot/main.py`) guards a Telegram group. Users register
through a six-question private conversation. Each registered user has an
access level, and each level caps how many messages of each content type
the user may post in the group per trailing hour. Users can buy a higher
level by paying USDT to the bot's wallet and submitting the transaction
hash. Admins can also set any user's level directly.

This project models that bookkeeping. The MySQL tables `users`, `levels`,
`messages` and `transactions` become in-memory state. aiogram's per-user
FSM context becomes an explicit `Session` value: the current step plus the
data dictionary. Every handler is one method of `Bot.BotState`, run as one
atomic step.

Files and modules:

- `wrappers.dfy` (`Wrappers`): `Option`.
- `text.dfy` (`Text`): Python's `str.strip()`, `startswith`, `int()` on
  decimal text, `str(n)`, and `split('_')[1]`, with the round trip
  `int(str(n)) == n`.
- `validate.dfy` (`Validate`): the three registration validators and the
  parser for `promote_<n>` / `upgrade_<n>` button payloads.
- `tables.dfy` (`Tables`): the row types, the level lookup, the
  access-level UPDATE, and the uniqueness of redeemed hashes.
- `payment.dfy` (`Payment`): the field-matching rule of `verify_transaction`.
- `quota.dfy` (`Quota`): `check_message_limits` as a pure decision, with its
  sliding-window properties.
- `bot.dfy` (`Bot`): the FSM steps and data, the menus, and the class
  `BotState` with one method per handler. Its invariant `Valid()` says:
  - the level table is ascending;
  - every stored user passed the validators;
  - no hash is recorded twice;
  - every FSM step holds the data its handler reads.
- `scenarios.dfy` (`Scenarios`): whole conversations driven through the
  handlers: a registration, a payment submitted twice, an admin promotion.

Inputs from outside the program are parameters:

- `dbUp`: whether `create_connection()` succeeds during that handler call.
- `now`: the clock, in seconds.
- `info`: the block explorer's `tokenTransferInfo` for the submitted hash.
- `forwardFrom`: the forwarded message's original sender.
- The configuration `ADMINS_ID` and `WALLET_ADDRESS` are constructor
  arguments.

Behaviour of `adminBot/main.py` worth knowing:

- City, gender and purpose accept any text: the handlers at lines 334, 341
  and 349 store the message without checking it.
- No conversation step exists for choosing an upgrade level. `handle_level`
  (line 428) and `process_upgrade` (line 474) are routed by their payload
  prefix alone, in any step.
- `receive_txn_hash` clears the conversation (line 541) only inside the
  branch where a database connection was obtained.
- Verification runs before the replay lookup (lines 519-532). A redeemed
  payment is recorded in `transactions` even when the payer has no `users`
  row. In that case the UPDATE changes no row.
- The group handler also drops messages from a user whose level is `0`,
  because it tests the level for truthiness (line 240) before the quota
  check.
- The Twitter pattern's `.` is unescaped (line 292). It matches any
  character except a newline, so `https://xycom/abc` is accepted.
- Validation runs on the stripped text, but the raw message text is what
  gets stored (lines 290 and 296).

## Model

| member | source | states |
|---|---|---|
| `Text.Strip` | adminBot/main.py:290 | Definition of `strip()`: it cuts the characters of Python's `isspace` set from both ends. Its properties are the ensures of `Text.StripSpec`. |
| `Text.ParseInt` | adminBot/main.py:318 | Definition of `int()` on text: it skips the white space `int()` skips, reads one optional sign, then one or more ASCII digits, and anything else is `None` (the ValueError case). Its properties are the ensures of `Text.ParseShowInt`, `Text.ParseIntNeedsDigit` and `Text.IntSkipsLessThanStrip`. |
| `Text.IntSkipsLessThanStrip` | adminBot/main.py:318 | `int()` skips less white space than `strip()`. `"\x1c15".strip()` is `"15"`, but `int("\x1c15")` is the ValueError case, and `int("\xa015")` is 15. |
| `Text.StripSpec` | adminBot/main.py:290 | `strip()` yields the slice of the text between its leading and trailing white space, and that slice neither starts nor ends with white space. |
| `Text.ParseShowInt` | adminBot/main.py:318 | `int()` of an integer's decimal text gives back that integer, for negative numbers too. |
| `Text.ParseIntNeedsDigit` | adminBot/main.py:318-325 | Text with no decimal digit is the `ValueError` case of `int()`. |
| `Text.SecondFieldOfJoin` | adminBot/main.py:430 | `split('_')[1]` of `tag_field` is `field` when neither part contains `_`. |
| `Text.SecondField` | adminBot/main.py:478 | The second field exists exactly when the payload contains `_`. It is then the text between the first `_` and the next `_` (or the end), with no `_` in it. |
| `Validate.TwitterAccepted` | adminBot/main.py:290-292 | Definition of the check at line 292: the stripped text does not start with `@` and fully matches `^https://x.com/[A-Za-z0-9_]{1,15}$`, where the dot is any character except a newline. Its exact acceptance is the ensures of `Validate.TwitterLinkAccepted` and `Validate.TwitterExamples`. |
| `Validate.TelegramAccepted` | adminBot/main.py:303-306 | Definition of the check at line 306: the stripped text starts with `@` and fully matches `^@[A-Za-z0-9_]{5,32}$`. Its exact acceptance is the ensures of `Validate.TelegramHandleAccepted`. |
| `Validate.CallbackLevel` | adminBot/main.py:478 | Definition of `int(data.split('_')[1])`: the second `_`-separated field, parsed by `Text.ParseInt`, or `None` where Python raises IndexError or ValueError. `Validate.CallbackRoundTrip` proves it reads back the level a button was built with, and `Text.SecondField` pins the field. |
| `Validate.AgeOf` | adminBot/main.py:317-325 | An accepted age lies strictly between 10 and 100 and is the parsed integer. A rejection means the text did not parse or was out of range. |
| `Validate.TwitterLinkAccepted` | adminBot/main.py:292 | For a handle that does not end in white space, `https://x.com/<handle>` is accepted exactly when the handle has 1 to 15 characters from `[A-Za-z0-9_]`. |
| `Validate.TwitterExamples` | adminBot/main.py:292 | `https://x.com/abc` is accepted. `https://x.com/` and `@abc` are rejected. The unescaped dot lets `https://xycom/abc` through. |
| `Validate.TelegramHandleAccepted` | adminBot/main.py:306 | For a name that does not end in white space, `@<name>` is accepted exactly when the name has 5 to 32 characters from `[A-Za-z0-9_]`. |
| `Validate.AgeOfNumber` | adminBot/main.py:318-319 | Typing `n` as the age is accepted exactly when `10 < n < 100`, and `n` is stored. |
| `Validate.AgeExamples` | adminBot/main.py:318-325 | `"15"` is accepted. `"5"`, `"150"` and `"abc"` are rejected. |
| `Validate.CallbackRoundTrip` | adminBot/main.py:469-478 | The level written into an `upgrade_<n>` or `promote_<n>` payload is the level the callback handler reads back. |
| `Tables.FindLevel` | adminBot/main.py:483-490 | The level lookup finds a row exactly when the table has one with that level, and the row it returns belongs to the table and has that level. |
| `Tables.SetAccessLevel` | adminBot/main.py:437-439 | `UPDATE users SET access_level` changes only the target row and only its level. A missing id changes nothing. |
| `Tables.RecordFreshHash` | adminBot/main.py:519-532 | Recording a hash that no row holds keeps every recorded hash unique. |
| `Payment.VerifyTransaction` | adminBot/main.py:544-554 | Definition of the matching rule: a transfer record exists, its symbol is `USDT`, its recipient is the wallet, and its `amount_str` is the price in micro-units. Its properties are the ensures of `Payment.VerifiedAmountIsPrice` and `Payment.VerifiedPriceIsUnique`. |
| `Payment.VerifiedAmountIsPrice` | adminBot/main.py:544-554 | A transfer accepted by `verify_transaction` carries the expected price, in micro-units, as its decimal amount. |
| `Payment.VerifiedPriceIsUnique` | adminBot/main.py:545-551 | One transfer cannot verify against two different prices. |
| `Quota.CheckMessageLimits` | adminBot/main.py:157-217 | An allowed message comes from a registered user whose level has a row, is not `video_chat_started`, and is not in a blocked category. `Quota.DeniedBeforeCounting`, `Quota.BlockedAndUnlimitedIgnoreLog` and `Quota.SlidingWindowRule` give the whole decision. |
| `Quota.CountRecent` | adminBot/main.py:196-206 | The `SELECT COUNT(*)` of the user's messages of that category newer than an hour never exceeds the log's length. `Quota.CountIsWindowSize` proves it equals the size of the independent set `WindowIndices`. |
| `Quota.LimitFor` | adminBot/main.py:179-187 | Every category has a limit column except `video_chat_started`. |
| `Quota.CountIsWindowSize` | adminBot/main.py:196-206 | The message count is the number of log entries with this user and category whose timestamp is strictly after `now - 3600`. |
| `Quota.CountShrinksOverTime` | adminBot/main.py:195-199 | Checking later never counts more entries than checking earlier. |
| `Quota.DeniedBeforeCounting` | adminBot/main.py:157-185 | An unregistered user, a level with no `levels` row, or a category without a limit (`video_chat_started`) is denied, whatever the log holds. |
| `Quota.BlockedAndUnlimitedIgnoreLog` | adminBot/main.py:189-192 | A limit of `0` always denies and `-1` always allows, for every log. |
| `Quota.SlidingWindowRule` | adminBot/main.py:193-206 | Any other limit allows exactly when fewer than `limit` matching entries lie inside the trailing hour. |
| `Quota.UnrelatedEntryIgnored` | adminBot/main.py:196-206 | An entry of another user, of another category, or older than the window can be inserted anywhere in the log without changing a decision. |
| `Quota.OnePerHour` | adminBot/main.py:195-206 | With limit 1, a message accepted and logged at `t` makes another at `t + d` refused for `d < 3600` and accepted from `d = 3600` on. |
| `Bot.UpgradeOptions` | adminBot/main.py:465-469 | Definition of the upgrade menu: one `upgrade_<level>` button per row above the caller's level, in table order. Its properties are the ensures of `Bot.UpgradeOptionsAbove`, `Bot.UpgradeOptionsComplete` and `Bot.UpgradeOptionsAscending`. |
| `Bot.UpgradeOptionsAbove` | adminBot/main.py:465-469 | Every upgrade button is for a level of the table above the caller's level. |
| `Bot.UpgradeOptionsComplete` | adminBot/main.py:465-469 | Every level of the table above the caller's level gets a button. |
| `Bot.UpgradeOptionsAscending` | adminBot/main.py:136 | Rows read in `ORDER BY level` order give buttons in strictly ascending level. |
| `Bot.PromoteOptions` | adminBot/main.py:416-419 | The admin menu has one button per level, in table order, each carrying `promote_<level>`. |
| `Bot.BotState.AccessLevel` | adminBot/main.py:145-154 | The stored level is returned when a row exists and the database is reachable. Otherwise nothing is returned. |
| `Bot.BotState.MessageHandler` | adminBot/main.py:234-252 | A group message is accepted exactly when the database is reachable, the sender's level is truthy and the quota allows it. Only then is exactly one `(user, type, now)` entry appended. |
| `Bot.BotState.Start` | adminBot/main.py:260-285 | `/start` begins the form exactly for a sender who is neither an admin nor found in `users`. The collected data is kept. |
| `Bot.BotState.ProcessTwitterId` | adminBot/main.py:288-298 | A valid link stores the raw text and moves to the Telegram step. An invalid one changes nothing. |
| `Bot.BotState.ProcessTelegramId` | adminBot/main.py:301-312 | A valid handle stores the raw text and moves to the age step. An invalid one changes nothing. |
| `Bot.BotState.ProcessAge` | adminBot/main.py:315-329 | An accepted age is stored and the form moves to the city step. Otherwise nothing changes. |
| `Bot.BotState.ProcessCity` | adminBot/main.py:332-336 | Any text is stored and the form moves to the gender step. |
| `Bot.BotState.ProcessGender` | adminBot/main.py:339-343 | Any text is stored and the form moves to the purpose step. |
| `Bot.BotState.ProcessPurpose` | adminBot/main.py:346-371 | The conversation is cleared. Exactly one row built from the collected fields is inserted at level 1, unless the database is down or the id already has a row. |
| `Bot.BotState.BeginPromote` | adminBot/main.py:387-390 | An admin's promote button moves the admin's conversation to "awaiting a forwarded message". |
| `Bot.BotState.HandleForwardId` | adminBot/main.py:404-425 | A forwarded message with a visible sender records the target and offers every level. A hidden sender clears the conversation. |
| `Bot.BotState.HandleLevel` | adminBot/main.py:428-445 | `promote_<n>` clears the conversation and sets the recorded target's level to `n`. No transaction row is written. An unparsable payload changes nothing. |
| `Bot.BotState.UpgradeMenu` | adminBot/main.py:448-471 | An unregistered caller gets nothing and an empty level table gives "unavailable". Otherwise the reply lists exactly the levels above the caller's, ascending. |
| `Bot.BotState.ProcessUpgrade` | adminBot/main.py:474-504 | `upgrade_<n>` with a `levels` row for `n` quotes that row's price and waits for a hash, remembering level and price. Otherwise nothing changes. |
| `Bot.BotState.ReceiveTxnHash` | adminBot/main.py:507-541 | Only a verified, unused hash raises the caller to the chosen level and appends one `(user, level, hash)` row. A used hash or a failed verification changes no table. The conversation is cleared whenever a connection was obtained. |
| `Scenarios.CompleteRegistration` | adminBot/main.py:284-369 | `/start` and six valid answers insert one row holding exactly those answers at the default level, and end the conversation. |
| `Scenarios.RegisterNewUser` | adminBot/main.py:346-379 | A new user who answers validly is the only registered user, at level 1, with the answers given. |
| `Scenarios.ReplayRejected` | adminBot/main.py:519-532 | A verified hash upgrades once. Resubmitting it is refused as already used, and exactly one transaction row remains. |
| `Scenarios.PromoteByForward` | adminBot/main.py:404-442 | An admin's promotion sets the forwarded user's level to the chosen value and records no payment. |

## Left out

- aiogram routing, keyboards, reply texts and the group id filter: each
  handler is a method, and its routing condition (FSM step, payload prefix,
  admin id) is its precondition.
- The profile button (`show_profile`, lines 557-573) only displays the stored
  level, and the CSV export (`get_users_from_db`) only writes a file. Neither
  is modelled.
- Logging setup and the MySQL connection code. A handler sees one `dbUp`
  flag for all its connections. Statement errors are modelled only for the
  duplicate primary key of `users`. `execute_query`'s SELECT sniffing is not
  modelled.
- The Tronscan HTTP request. `info` is its answer: `None` when the response
  is not OK or has no `tokenTransferInfo`. A network exception inside
  `verify_transaction` propagates in the source and leaves the conversation
  uncleared. The model does not represent that case.
- `Payment.ExpectedAmount`: `int(float(price) * 1e6)` at
  `adminBot/main.py:545` is floating point, and the model takes prices as
  integer micro-units. The float product truncates for some two-decimal
  prices: `4.1 * 1e6` is just below 4100000, so the expected amount is
  `"4099999"`. An exact 4.1 USDT transfer (`amount_str` `"4100000"`) then
  fails `verify_transaction`. The model does not capture that refusal.
- The group-membership check and the invite link after registration: both
  are external API calls.
- `datetime.now()` is the parameter `now`. The `created_at` column is filled
  by the database and is not modelled.
- Interleaving of concurrent handlers: every handler is one atomic step.
- `ParseInt` follows Python's `int()` for signs and white space only. It
  skips the same white space as CPython's `int()`, which leaves out the
  separators U+001C..U+001F that `strip()` removes. It does not accept
  underscores between digits or non-ASCII digits. So an
  age typed in Persian digits (`۲۵`) is accepted by `int()` at
  `adminBot/main.py:318` but refused by the model, although the re-prompt
  at line 320 writes its own numbers that way.
- The regular expressions are hand-written character predicates for these
  two patterns, not a general regex engine.
- Non-text messages during registration (where `message.text` is `None`).
  The model's message text is always a string.
- `process_purpose` keys the row by `message.chat.id`. The model uses the
  sender's id, which is the same in a private chat.
- The data keys `purpose`, `id` and `level` are written and cleared in the
  same handler, so `Data` does not hold them.
- The `levels` table is a sequence already in `ORDER BY level` order with
  unique levels. The default of `users.access_level` is taken to be 1, as
  the registration reply states. A NULL access level is not represented.
