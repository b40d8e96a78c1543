# Hack Academy subscription bot: payment-to-subscription bookkeeping

This project models the subscription bookkeeping of the Hack Academy Telegram
bot and proves properties about it. Three processes share one database with two
collections:

- `users`, keyed by `user_id`;
- `payments`, keyed by `payment_id`.

The model covers three things:

- **The bot** (`HackAcademyBot`). `/start` registers a user. A plan button
  requests a NOWPayments invoice and stores the payment as `waiting`.
  `/status` reports the subscription. The bot also holds the activation and
  expiry handlers.
- **The webhook server** (`payment_webhook`). It checks each payment
  notification: the signature header, the signature itself, the body and the
  order id. It overwrites the status of the named payment. For a `finished` or
  `confirmed` payment it grants the plan's channel and activates a 30-day
  subscription.
- **The admin tool** (`BotManager`). It covers statistics, the sorted and
  filtered user listing, extension, revocation, the bulk expiry of overdue
  subscriptions, and the command-line checks.

Conventions of the model:

- Each collection is a `map` from its unique key to a document. The key is
  unique because of its unique index.
- The shared database is a class `Store.Database` whose two map fields the
  methods of `WebhookServer`, `HackAcademyBot` and `BotManager` update in
  place.
- Every method is tied to a pure function of the old tables. The properties
  are proved as lemmas about those functions.
- Times are whole seconds. A calendar date (an ISO string cut to its first ten
  characters) is the day number `t / 86400`.
- Prices and amounts are integer cents.
- Decoded JSON is a `Json` datatype with integer numbers.

Module layout:

| module | contents |
|---|---|
| `Wrappers` | `Option` and `Result` |
| `Text` | `split`, `join`, `str(int)`, `int(str)`, `replace` |
| `Store` | documents and the database |
| `Plans` | plan and channel tables, and the channel grant |
| `Subscription` | activation and expiry writes |
| `OrderId` | building and parsing order ids |
| `Webhook`, `TelegramBot`, `BotManager` | the three processes |
| `Invariants` | what every user record holds |
| `Scenarios` | runs across the processes |

Parameters stand in for what the model does not compute:

- The HMAC-SHA512 digest is a function parameter.
- The Telegram calls are booleans: `telegramOk` for the unban plus the welcome
  message, and `replyOk` for the `/start` menu.
- The NOWPayments answer is an `Option<HttpReply>`.
- The clock is a `now` parameter.

Every accepted notification overwrites the payment's status
(`Webhook.StatusOverwritten`). A repeated `finished` notification runs the
activation again and resets the end date (`Webhook.DuplicateDelivery`). Two
further behaviours of the code are stated as lemmas:

- `first_seen` is overwritten on every `/start` (`TelegramBot.FirstSeenOverwritten`).
- `/status` raises for a user an admin extended without a paid plan
  (`Scenarios.ExtendedUnpaidUserStatusRaises`).

## Model

| member | source | states |
|---|---|---|
| `Store.Database.constructor` | database_setup.py:29-35 | Both collections start empty. Each is a map on its unique key. |
| `Text.Split` | webhook_server.py:153 | `split('_')` gives at least one part. Joining the parts with `_` gives back the string, and no part contains `_`. |
| `Text.SplitConcat` | webhook_server.py:153 | Splitting around one separator splits each side on its own. |
| `Text.IntToString` | telegram_bot.py:167 | `str(i)` is non-empty and made only of digits, with a `-` allowed in front. |
| `Text.ParseInt` | webhook_server.py:155 | `int(s)`: surrounding whitespace stripped, an optional sign, then ASCII decimal digits; more than 4300 digits or anything else is the `ValueError`. Its inverse property is `Text.ParseIntToString`. |
| `Text.RemoveAll` | telegram_bot.py:119 | `str.replace(pattern, '')`, scanning left to right without overlaps. `TelegramBot.PlanKeyOfButton` states its effect on a button payload. |
| `Text.ParseIntToString` | webhook_server.py:155 | `int(str(i)) == i` for every integer of at most 4300 digits, which is every integer `str` can render. |
| `Text.ParseIntDigitLimit` | webhook_server.py:155-162 | `int` refuses a string that still has more than 4301 characters after stripping, sign included: it holds more than 4300 digits. The webhook then answers the parse error. |
| `Plans.PlanTable` | telegram_bot.py:46-62 | There are exactly three plan keys. Each plan grants the channel of the same name at its configured price. |
| `Plans.ChannelTable` | telegram_bot.py:39-43 | The channel table has the same three keys, and each holds the environment's channel id for that plan (beginner, mid, complete). |
| `Plans.AddedToChannel` | telegram_bot.py:186-209 | `add_user_to_channel` (and its copy at webhook_server.py:68-90): true iff the plan is known, its channel id is configured and non-empty, and the Telegram calls succeed. |
| `Plans.AddedToChannelStandard` | telegram_bot.py:186-209 | The channel grant succeeds iff the plan is known, its channel id is set and non-empty, and the Telegram calls succeed. |
| `Subscription.Activate` | webhook_server.py:100-111 | The activation `update_one` without upsert: a present user gets plan, start, end and status; an absent one is not created. Its effect is stated by `Subscription.ActivateEffect`. |
| `Subscription.ActivationOutcome` | webhook_server.py:92-120 | `handle_successful_payment`: the channel grant first, then the activation only if the grant succeeded; the grant's outcome is returned. Stated by `Subscription.ActivationNeedsGrant`. |
| `Subscription.ActivateEffect` | webhook_server.py:100-111 | Activation writes only the named user's plan, start = now, end = now + 30 days and status "active". An absent user stays absent. |
| `Subscription.ActivateResets` | webhook_server.py:100-111 | A second activation replaces the first entirely: the end is reset, not added to. |
| `Subscription.ActivationNeedsGrant` | webhook_server.py:92-120 | The result is the outcome of the channel grant. A failed grant leaves the users table unchanged. |
| `Subscription.Expire` | telegram_bot.py:272-280 | The expiry `update_one` without upsert: status "expired" and `expired_at` on a present user. Stated by `Subscription.ExpireEffect`. |
| `Subscription.ExpireEffect` | telegram_bot.py:272-280 | Expiry sets status "expired" and `expired_at`. It keeps plan, start, end and profile. |
| `OrderId.Build` | telegram_bot.py:167 | The order id `hack_academy_{user_id}_{plan}_{timestamp}`. `OrderId.ParseBuild` proves it parses back. |
| `OrderId.Parse` | webhook_server.py:152-162 | Split on `_`; at least four parts starting `hack`, `academy`; `int` of the third part; the fourth part is the plan. Characterised by `OrderId.ParseShape` and `OrderId.ParseAccepted`. |
| `OrderId.ParseShape` | webhook_server.py:152-162 | An id of the form `hack_academy_{d}_{p}…` gives `(int(d), p)`, or the parse error when `d` is not an integer. Extra parts are ignored. |
| `OrderId.ParseAccepted` | webhook_server.py:153-159 | Every accepted id has that form. The recovered user id is `int` of the third part and the plan is the fourth part. |
| `OrderId.ParseBuild` | webhook_server.py:153-156 | Round trip: an id built as `hack_academy_{u}_{plan}_{ts}` parses to `(u, plan)` for any integer `u` and any plan without `_`. |
| `Webhook.VerifyIpnSignature` | webhook_server.py:58-66 | False when the secret is missing. Otherwise true iff the signature equals the expected digest of the raw body. |
| `Webhook.StatusCode` | webhook_server.py:122-202 | 200 exactly for the success answer and 500 exactly for an internal error. Every other answer is 400. |
| `Webhook.RecordNotification` | webhook_server.py:165-174 | The status `update_one` without upsert, matched on the notification's `payment_id`: status, the notification and `updated_at` are set. Stated by `Webhook.StatusOverwritten`. |
| `Webhook.WebhookOutcome` | webhook_server.py:122-202 | `payment_webhook`: the four checks in source order, then the status write and, for a paid status, the activation. Stated by `Webhook.RejectionsWriteNothing`, `Webhook.AcceptedEffect` and the lemmas after them. |
| `Webhook.WebhookServer.constructor` | webhook_server.py:33-56 | The server holds the plan table at the configured prices and the channel ids. |
| `Webhook.WebhookServer.HandleSuccessfulPayment` | webhook_server.py:92-120 | The users table and the result are those of the activation outcome. |
| `Webhook.WebhookServer.PaymentWebhook` | webhook_server.py:122-202 | The answer and both tables are those of the endpoint's outcome function. |
| `Webhook.RejectionsWriteNothing` | webhook_server.py:127-162 | Any answer other than 200 leaves both tables unchanged. 200 is given iff all four checks pass. |
| `Webhook.RejectionReasons` | webhook_server.py:127-138 | A missing or empty signature header gives "No signature". A missing secret or a wrong signature gives "Invalid signature". |
| `Webhook.OrderIdReplies` | webhook_server.py:144-162 | For a signed object body: a falsy order id gives 400 "No order_id"; a truthy non-string gives 500; each parse error gives its own 400. |
| `Webhook.StatusOverwritten` | webhook_server.py:165-174 | The status is overwritten whatever it was, with no terminal state. The notification and time are stored and the rest of the record is kept. An unknown payment id creates nothing. |
| `Webhook.AcceptedEffect` | webhook_server.py:164-198 | An accepted notification records the status. Users change, by an activation, only for finished or confirmed with a successful grant. Any other status writes only the payment. |
| `Webhook.ReplyIndependentOfState` | webhook_server.py:176-198 | The answer does not depend on the tables or the grant: a failed grant is still answered 200. |
| `Webhook.DuplicateDelivery` | webhook_server.py:165-198 | A repeated notification gets the same answer. Users end as if only the second had arrived. |
| `TelegramBot.DisplayName` | telegram_bot.py:70 | The name is never empty. It is the Telegram username when there is one, otherwise "Unknown". |
| `TelegramBot.HackAcademyBot.constructor` | telegram_bot.py:27-62 | The bot holds the plan table at the configured prices and the channel ids. |
| `TelegramBot.HackAcademyBot.StartCommand` | telegram_bot.py:67-112 | The reply and users table are those of the `/start` outcome function. |
| `TelegramBot.StartOutcomeOf` | telegram_bot.py:67-112 | `start_command`: the active check, then the menu, then the upsert. Stated by `TelegramBot.StartActiveCheck`, `TelegramBot.StartRegisters` and `TelegramBot.StartReplyFailure`. |
| `TelegramBot.StartActiveCheck` | telegram_bot.py:72-78 | "Welcome back" is sent iff a stored end is later than now, with the end's date, and then nothing is written. |
| `TelegramBot.StartRegisters` | telegram_bot.py:100-112 | The upsert creates the user if absent. It sets the display name and both stamps to now, keeps the subscription fields and touches no other user. |
| `TelegramBot.StartReplyFailure` | telegram_bot.py:98-112 | A failed menu send happens before the upsert, so nothing is written. |
| `TelegramBot.FirstSeenOverwritten` | telegram_bot.py:101-112 | After two `/start` calls by an unsubscribed user, `first_seen` holds the second time. |
| `TelegramBot.PlanKey` | telegram_bot.py:119 | `query.data.replace('plan_', '')`. Stated by `TelegramBot.PlanKeyOfButton` and `TelegramBot.PlanButtons`. |
| `TelegramBot.InvoiceFor` | telegram_bot.py:164-172 | The invoice request: the plan's price, "USD", the built order id and the description `Hack Academy {name} Subscription`. |
| `TelegramBot.PlanKeyOfButton` | telegram_bot.py:119 | `replace('plan_', '')` gives back the key of `plan_{key}` for any key without `_`. |
| `TelegramBot.PlanButtons` | telegram_bot.py:81-85 | The three buttons select the beginner, mid and complete plans. |
| `TelegramBot.PaymentData` | telegram_bot.py:174-184 | The gateway data is present iff the answer is 200 with a decodable body, and it is that body. |
| `TelegramBot.HackAcademyBot.CreatePayment` | telegram_bot.py:155-184 | A request is made iff `str` can render the user id and the timestamp; otherwise the `try` returns None. The request carries the plan's price in USD. Its order id is exactly `hack_academy_{user}_{plan}_{timestamp}`. |
| `TelegramBot.HackAcademyBot.PlanCallback` | telegram_bot.py:114-153 | The answer, request and payments table are those of the checkout outcome function. |
| `TelegramBot.CheckoutOutcome` | telegram_bot.py:114-153 | `plan_callback`: key check, invoice request (none, and "Failed to create payment", when the order id cannot be rendered), then the insert of a waiting payment on truthy gateway data. Stated by `TelegramBot.CheckoutRejectsUnknownKey`, `TelegramBot.CheckoutInsert` and `TelegramBot.CheckoutOrderIdRoundTrip`. |
| `TelegramBot.CheckoutRejectsUnknownKey` | telegram_bot.py:119-122 | An unknown plan key sends no request and inserts nothing. |
| `TelegramBot.CheckoutInsert` | telegram_bot.py:128-140 | A record is inserted iff the key is known, the order id can be rendered, and the gateway returned an object with both keys and a new payment id. A non-200 answer inserts nothing. |
| `TelegramBot.CheckoutOrderIdRoundTrip` | telegram_bot.py:167 | Every requested order id parses back to the checkout's user and plan key. |
| `TelegramBot.HackAcademyBot.HandleSuccessfulPayment` | telegram_bot.py:227-263 | The users table and the result are those of the activation outcome. |
| `TelegramBot.HackAcademyBot.HandleSubscriptionExpiry` | telegram_bot.py:265-300 | The user's record is expired whatever the channel removal returned. |
| `TelegramBot.DaysLeft` | telegram_bot.py:313 | The result is the floor of (end − now) in whole days. |
| `TelegramBot.StatusReport` | telegram_bot.py:302-322 | `status_command`: no record, an active report, no active subscription, or the `KeyError`. Stated by `TelegramBot.StatusIgnoresEndDate` and `TelegramBot.StatusWithoutPlanRaises`. |
| `TelegramBot.HackAcademyBot.StatusCommand` | telegram_bot.py:302-322 | Writes nothing. Reports active iff the status is "active" and an end and a known plan are stored. |
| `TelegramBot.StatusIgnoresEndDate` | telegram_bot.py:311-320 | "Active" follows the status alone, so a passed end gives negative days left. No record means "No subscription". Any other status means "inactive". |
| `TelegramBot.StatusWithoutPlanRaises` | telegram_bot.py:311-316 | An active record without a plan makes `/status` raise. |
| `BotManager.UsersWithStatus` | bot_manager.py:27-28 | Exactly the users holding the given status. |
| `BotManager.SuccessfulPayments` | bot_manager.py:30-33 | Exactly the payments with status finished or confirmed, unchanged. |
| `BotManager.SumAmounts` | bot_manager.py:34 | `sum(doc.get('amount', 0) for doc in …)` over a set of payments. Its order independence is `BotManager.SumAmountsRemove`. |
| `BotManager.SumAmountsRemove` | bot_manager.py:34 | The revenue sum does not depend on the order of the documents. |
| `BotManager.SumAmountsSameAmounts` | bot_manager.py:34 | The revenue reads only the amounts, and a missing amount counts as 0. |
| `BotManager.StatsBounds` | bot_manager.py:26-30 | Active + expired ≤ total users, and successful ≤ total payments. |
| `BotManager.RevenueNonNegative` | bot_manager.py:34 | With no negative amount, revenue is not negative. |
| `BotManager.RevenueAfterConfirmation` | bot_manager.py:33-34 | Confirming an uncounted payment adds exactly its amount to the revenue. |
| `BotManager.BotManager.GetStats` | bot_manager.py:24-34 | The five counts, and revenue as the sum of amounts over successful payments. |
| `BotManager.Latest` | bot_manager.py:51 | Any non-empty group of users has one whose `last_interaction` is not earlier than anyone's. |
| `BotManager.ListStep` | bot_manager.py:51-64 | Appending a latest remaining user keeps the listing in order. |
| `BotManager.BotManager.ListUsers` | bot_manager.py:45-64 | Lists exactly the filtered users, once each, with their columns, latest `last_interaction` first and a missing one last. |
| `BotManager.BotManager.ExtendSubscription` | bot_manager.py:66-90 | A missing user is reported and nothing is written. Otherwise the extension is applied. |
| `BotManager.Extend` | bot_manager.py:73-88 | The extension `update_one`: from the stored end if there is one, else from now; status "active". Stated by `BotManager.ExtendEffect`. |
| `BotManager.ExtendEffect` | bot_manager.py:73-88 | The new end is the stored end plus the days, even if that end has passed, or now plus the days. Status becomes "active" and nothing else changes. |
| `BotManager.ExtendStacks` | bot_manager.py:73-88 | Extending by a days and then by b days is the same as extending by a + b days. |
| `BotManager.BotManager.RevokeAccess` | bot_manager.py:92-107 | "Revoked" is reported iff the update modified the record. |
| `BotManager.Revoke` | bot_manager.py:94-102 | The revocation `update_one`: status "revoked" and `revoked_at`. Stated by `BotManager.RevokeEffect`. |
| `BotManager.RevokeEffect` | bot_manager.py:94-107 | Only the named user's status and `revoked_at` are written. A missing user is reported "not found" and is not created. |
| `BotManager.BotManager.CleanupExpired` | bot_manager.py:109-125 | The reported count is the number of records modified. |
| `BotManager.Cleanup` | bot_manager.py:111-123 | The `update_many` over active users whose end is before now. Stated by `BotManager.CleanupModifiesDue`. |
| `BotManager.CleanupModifiesDue` | bot_manager.py:111-125 | Exactly the active users with an end before now are expired. Everyone else is untouched. |
| `BotManager.CleanupIdempotent` | bot_manager.py:112-123 | A second run at the same time finds nothing due and modifies nothing. |
| `BotManager.ParseCommand` | bot_manager.py:148-182 | `main`: argparse's choices, then the tool's own checks of `--user-id` and `--days`. Stated by `BotManager.CommandChecks`. |
| `BotManager.CommandChecks` | bot_manager.py:160-182 | `extend` runs iff both user id and days are given and non-zero; `revoke` iff a non-zero user id is given. Other commands always run. |
| `Invariants.StartKeeps` | telegram_bot.py:101-112 | `/start` keeps every record well formed: name and stamps present, and each status backed by its date. |
| `Invariants.ActivationKeeps` | webhook_server.py:98-111 | Activation keeps every record well formed. |
| `Invariants.ExpireKeeps` | telegram_bot.py:272-280 | Expiry keeps every record well formed. |
| `Invariants.WebhookKeeps` | webhook_server.py:165-198 | A notification keeps every record well formed. |
| `Invariants.ExtendKeeps` | bot_manager.py:80-88 | Extension keeps every record well formed. |
| `Invariants.RevokeKeeps` | bot_manager.py:94-102 | Revocation keeps every record well formed. |
| `Invariants.CleanupKeeps` | bot_manager.py:112-123 | The bulk expiry keeps every record well formed. |
| `Invariants.StatusRaisesOnlyOnPlan` | telegram_bot.py:311-316 | In well-formed tables, `/status` raises iff an active record's plan is missing or unknown. |
| `Scenarios.CheckoutThenPaid` | telegram_bot.py:128-140 | A checkout and then a signed "finished" notification with a successful grant: the payment is stored as waiting and becomes finished. The user holds the plan for 30 days, and `/status` shows 30 days left. |
| `Scenarios.ExtendedUnpaidUserStatusRaises` | bot_manager.py:73-88 | An admin extension of a user who never paid makes the record active with no plan, so `/status` raises. |
| `Scenarios.LapsedSubscriptionCleanedUp` | bot_manager.py:111-123 | A lapsed activation is due, the bulk expiry expires it, and `/status` and `/start` then treat the user as unsubscribed. |
| `Scenarios.PaidNotificationRevenue` | webhook_server.py:165-174 | A first paid notification adds its amount to the revenue. A repeated one adds nothing. |

## Left out

- HMAC-SHA512 and `hmac.compare_digest`. The digest is a function parameter. `compare_digest` raises, which gives False, on a non-ASCII string, and such a signature cannot equal a hex digest anyway.
- Telegram Bot API calls (unban, ban, send_message, reply_text, edit_message_text, query.answer). Only whether the grant's two calls, and the `/start` menu reply, succeeded is modelled. The message texts are not modelled.
- The NOWPayments HTTP request: headers, `ipn_callback_url`, success and cancel URLs, JSON encoding. Only the answer's status code and decoded body are modelled.
- Flask routing, `/health`, and the webhook server's `/stats` route (webhook_server.py:209-229). The route's four counts are among those `BotManager.BotManager.GetStats` computes.
- APScheduler and asyncio: the scheduled expiry job and event loops. The expiry handler is modelled as a method that can be called at any time. Within the program it has no caller: the only code scheduling it is the bot's own `handle_successful_payment` (telegram_bot.py:249), and nothing calls that method. The webhook server uses its own handler (webhook_server.py:92-120), which schedules nothing. So in the program only `bot_manager.py cleanup` ends a subscription.
- TelegramBot.HackAcademyBot.HandleSuccessfulPayment: `add_job` can raise after the user was updated (for example on a duplicate job id `expiry_{user}_{plan}`). The source then returns False, which is not modelled: it lies in the scheduler.
- `remove_user_from_channel`: its result is ignored by the expiry handler, so only the write is modelled.
- Concurrent handling of the bot, the webhook server and the admin tool, and database failures (connection errors, write exceptions). Each function models one request on a consistent snapshot.
- Float prices and revenue, and the `.2f` formatting. Integer cents are used instead.
- ISO-8601 text. Times are integers, so the string comparison in `cleanup_expired` is a comparison of integers, and a malformed stored date (a `fromisoformat` error) does not occur.
- BotManager.BotManager.ExtendSubscription: integers are unbounded, so an extension always succeeds. In the source `timedelta(days=days)` raises `OverflowError` beyond 999999999 days, and so does a new end date outside `datetime`'s years 1 to 9999; `main` does not catch it, so nothing is written. `BotManager.ExtendStacks` therefore also holds where the source would crash at the first step.
- Webhook.RecordNotification: a MongoDB filter is modelled as equality of JSON values. A `payment_id` that is itself an operator document (`{"$ne": null}`) would make the source's filter match the first stored payment; the model matches no payment.
- BotManager.SuccessfulPayments: `{'$in': ['finished', 'confirmed']}` is modelled as the status being one of those two strings. MongoDB also matches an array status holding one of them (a `payment_status` of `["finished"]`), which the source would count and add to the revenue; the model does not.
- Text.ParseInt: the 4300-digit limit is Python's default; a changed `PYTHONINTMAXSTRDIGITS` or `sys.set_int_max_str_digits` is not modelled. Only ASCII decimal digits are accepted. Python's `int` also accepts other Unicode decimal digits and `_` between digits; `_` cannot occur in a part after the split.
- Printing and logging, including `list_users`' output format. The listing is returned as rows.
- `backup_data`, database index creation (only the uniqueness of the two keys is kept, as map keys), `start_bot.py`, `test_bot.py` and `HackAcademyBot.run`.
- argparse's own rejections of malformed integers and unknown options. Only the choices of command and status and the tool's own argument checks are modelled.
