# NewsPulse core, modelled in Dafny

NewsPulse lets a user set up personalised news delivery through a Telegram
bot and schedules fetched news for each subscriber. This project models the
three parts of its backend that carry invariants:

- **The bot's conversation** (`conversation.dfy`). A `ChatBot` object holds
  the process-wide maps of the source: a step per chat
  (`""`, `awaiting_email`, `awaiting_password`, `awaiting_time`,
  `awaiting_delivery`) and a pending list per chat. The same pending list holds
  the stashed email during registration and the categories ticked on the
  keyboard. It also holds the user directory. Each handler is a method whose
  contract says exactly how the steps, the pending lists and the directory
  change. The handlers are `/start`, `/news`, the free-text step switch and
  the button dispatcher (toggle, done, delivery, change_*, unsubscribe,
  instant_news). `Valid()` says that ids are distinct and each chat is
  linked to at most one account. It also says that a chat in the middle of a
  registration is linked to none, and that no pending list holds a value
  twice. The model assumes it of the starting directory (the bot is taken to
  be the only writer of `telegram_id`), and every handler preserves it.
- **The scheduling run** (`scheduler.dfy`). `fetchAndScheduleNews` is modelled
  as nested loops over target users, their categories and the fetched items.
  Summary and schedule stores are sequences passed in and returned. Summaries
  are reused by exact text. An entry is created only for a (user, summary)
  pair that has none, at the first instant after `now` with the user's time of
  day. `"both"` expands to both channels. The stores only grow, and only by
  summaries of fetched items and entries pointing at them, for the users and
  categories the run reached before its first failed fetch. The model
  assumes of the incoming stores that no two summaries share a text and no
  two entries share a pair, and the run keeps this. Under that assumption a
  run over stores that already cover it creates nothing, so a second run over
  the same news creates no entry and no summary.
- **Instant delivery** (`delivery.dfy`, `controller.dfy`). There is one
  capped send loop: 2 items per category from the bot, 3 over HTTP. A failed
  fetch skips its category. Also modelled are the validation chains of the
  two HTTP handlers.

Supporting modules: `text.dfy` (JavaScript `trim`, `startsWith`, unanchored
match), `time_of_day.dfy` (the `HH:MM` pattern of the time step and how the
scheduler reads it back), `directory.dfy` (user records, `findOne`,
`findOneAndUpdate`, account creation), `news.dfy` (items and the news source
snapshot).

A single try/catch wraps the whole scheduling run
(`NewsPulse-main/backend/src/services/newsService.ts:9-64`), so the first
failed fetch ends it; there is no per-category isolation. `FetchAndSchedule`
returns `completed = false` exactly when some target has a category the feed
cannot fetch. What was created before that point stays, and nothing is
created for a later category or a later target.

## Model

| member | source | states |
|---|---|---|
| Text.Trim | NewsPulse-main/backend/src/routes/telegramRoutes.ts:170 | the trimmed text is the slice of the input between white-space-only margins and neither starts nor ends with white space |
| TimeOfDay.ValidTimeIsRendering | NewsPulse-main/backend/src/routes/telegramRoutes.ts:210 | the time pattern accepts exactly the renderings `H:MM`/`HH:MM` of the times 0:00 to 23:59 |
| TimeOfDay.RenderAccepted | NewsPulse-main/backend/src/routes/telegramRoutes.ts:210 | every rendering of a time of day is accepted and reads back as that hour and minute |
| TimeOfDay.AcceptedIsRendered | NewsPulse-main/backend/src/services/newsService.ts:16-18 | an accepted string is the rendering of the hour and minute the scheduler reads out of it |
| TimeOfDay.ParseTime | NewsPulse-main/backend/src/services/newsService.ts:16-18 | splitting an accepted time at the colon gives an hour below 24 and a minute below 60 |
| TimeOfDay.TimeExamples | NewsPulse-main/backend/src/routes/telegramRoutes.ts:208-216 | "23:59", "09:05", "9:05" are accepted; "24:00", "9:5" are refused |
| Directory.FindLinked | NewsPulse-main/backend/src/routes/telegramRoutes.ts:30 | the lookup by telegram id finds a record linked to the chat, or reports that none is |
| Directory.FindById | NewsPulse-main/backend/src/controllers/telegramController.ts:53 | the lookup by id finds a record with that id, or reports that none has it |
| Directory.UpdateLinkedEffect | NewsPulse-main/backend/src/routes/telegramRoutes.ts:217-220 | an update by telegram id patches only the record linked to the chat, keeps ids and links, and keeps the directory well formed |
| Directory.CreateLinkedEffect | NewsPulse-main/backend/src/routes/telegramRoutes.ts:197-202 | creating the account for an unlinked chat keeps the directory well formed, links that chat to the new record and no other chat changes |
| Delivery.Take | NewsPulse-main/backend/src/controllers/telegramController.ts:81 | the slice keeps the first min(cap, n) items |
| Delivery.SendBatch | NewsPulse-main/backend/src/controllers/telegramController.ts:83-92 | the inner loop appends one record per item, in item order, and counts each |
| Delivery.Deliver | NewsPulse-main/backend/src/controllers/telegramController.ts:78-97 | the send loop records exactly Sent(categories) and its count equals the number of records and the sum of min(cap, n) over fetched categories |
| Delivery.SentLength | NewsPulse-main/backend/src/routes/telegramRoutes.ts:102-126 | one record per counted send |
| Delivery.Part | NewsPulse-main/backend/src/routes/telegramRoutes.ts:104-109 | one category sends its first min(cap, n) items in order, so at most `cap`, and nothing when its fetch fails |
| Delivery.CountBound | NewsPulse-main/backend/src/routes/telegramRoutes.ts:104-109 | in total at most `cap` times the number of categories are sent |
| Delivery.SentConcat | NewsPulse-main/backend/src/controllers/telegramController.ts:78-97 | what is sent is in category order: delivery over a + b is delivery over a followed by delivery over b |
| Delivery.FailedCategorySkipped | NewsPulse-main/backend/src/controllers/telegramController.ts:94-96 | a category whose fetch fails contributes nothing and the categories after it are still delivered |
| Delivery.SentFromFeed | NewsPulse-main/backend/src/controllers/telegramController.ts:88-92 | every record names a requested category that was fetched and is one of its first `cap` items |
| Conversation.Without | NewsPulse-main/backend/src/routes/telegramRoutes.ts:322-324 | filtering drops exactly the toggled category and keeps a duplicate-free list duplicate-free |
| Conversation.ToggleFlips | NewsPulse-main/backend/src/routes/telegramRoutes.ts:318-330 | a toggle flips the membership of its category only and never creates a duplicate |
| Conversation.ToggleTwice | NewsPulse-main/backend/src/routes/telegramRoutes.ts:318-330 | toggling twice restores the members, and the identical list when the category was absent |
| Conversation.CategoryKeyboard | NewsPulse-main/backend/src/routes/telegramRoutes.ts:236-247 | seven rows in fixed order, each toggling its category and checked iff it is pending, then the Done row |
| Conversation.KeyboardByMembership | NewsPulse-main/backend/src/routes/telegramRoutes.ts:236-247 | the keyboard depends only on which categories are pending |
| Conversation.ToggleTwiceKeyboard | NewsPulse-main/backend/src/routes/telegramRoutes.ts:318-330 | a double toggle re-renders the identical keyboard |
| Conversation.ClassifyRoundTrip | NewsPulse-main/backend/src/routes/telegramRoutes.ts:264-405 | every button payload the bot emits is dispatched to the action it stands for |
| Conversation.ClassifyToggle | NewsPulse-main/backend/src/routes/telegramRoutes.ts:318-319 | `toggle_c` is dispatched as a toggle of exactly `c` |
| Conversation.ClassifyDelivery | NewsPulse-main/backend/src/routes/telegramRoutes.ts:353-354 | `delivery_m` is dispatched as a delivery choice of exactly `m` |
| Conversation.NewsReplyBound | NewsPulse-main/backend/src/routes/telegramRoutes.ts:102-116 | the bot's instant news sends in total at most two items times the number of categories of the linked account |
| Conversation.ChatBot.constructor | NewsPulse-main/backend/src/routes/telegramRoutes.ts:23-24 | the process starts with no steps and no pending lists |
| Conversation.ChatBot.Start | NewsPulse-main/backend/src/routes/telegramRoutes.ts:27-77 | an unlinked chat moves to awaiting_email; a linked one gets the menu and nothing changes |
| Conversation.ChatBot.InstantNews | NewsPulse-main/backend/src/routes/telegramRoutes.ts:80-126 | unregistered and category-less chats are refused; otherwise the count is the sum of min(2, n) over the fetched categories |
| Conversation.ChatBot.OnMessage | NewsPulse-main/backend/src/routes/telegramRoutes.ts:162-233 | no text, empty text, a command, or a step other than the three text steps changes nothing; otherwise the step's case below applies |
| Conversation.ChatBot.ReceiveEmail | NewsPulse-main/backend/src/routes/telegramRoutes.ts:169-183 | a registered email leaves everything as it was; otherwise the step becomes awaiting_password and the pending list exactly [email] |
| Conversation.ChatBot.ReceivePassword | NewsPulse-main/backend/src/routes/telegramRoutes.ts:185-206 | with no stashed email no account is created; otherwise exactly one, with email = username = the stash and the chat's telegram id; either way the step is cleared and the pending list deleted |
| Conversation.ChatBot.ReceiveTime | NewsPulse-main/backend/src/routes/telegramRoutes.ts:208-231 | a time matching the pattern is stored on the linked account and the step becomes awaiting_delivery; any other leaves everything as it was |
| Conversation.ChatBot.OnCallback | NewsPulse-main/backend/src/routes/telegramRoutes.ts:250-406 | per payload: which of steps, pending lists and directory change and how; delivery resets the step whatever it was and asks for scheduling iff an account is linked; change_schedule jumps to awaiting_time |
| Conversation.ChatBot.ToggleCategory | NewsPulse-main/backend/src/routes/telegramRoutes.ts:318-330 | only the chat's pending list changes, to its toggle, and the reply re-renders the keyboard for the toggled list |
| Conversation.ChatBot.FinishSelection | NewsPulse-main/backend/src/routes/telegramRoutes.ts:333-350 | an empty or absent list changes nothing; otherwise it becomes the account's categories in order, is deleted, and the step becomes awaiting_time |
| Conversation.ChatBot.Receive | NewsPulse-main/backend/src/routes/telegramRoutes.ts:27-166 | a command text not mentioning /start changes nothing; a command text mentioning /start anywhere (the pattern is unanchored) acts as the /start handler; a text mentioning /help ends with the help reply |
| Conversation.ChatBot.Commands | NewsPulse-main/backend/src/routes/telegramRoutes.ts:27-160 | the /start handler runs iff /start occurs anywhere in the text, and only it changes state; a text mentioning /help ends with the help reply |
| Scheduler.Clock | NewsPulse-main/backend/src/services/newsService.ts:16-18 | a missing time means 09:00; a stored time is read as the hour and minute it renders |
| Scheduler.SendTime | NewsPulse-main/backend/src/services/newsService.ts:38-45 | the send time is after now, at most a day later, at the preferred time of day, today or tomorrow |
| Scheduler.SendTimeUnique | NewsPulse-main/backend/src/services/newsService.ts:38-45 | it is the only instant with that time of day in (now, now + 1 day] |
| Scheduler.SendTimeToday | NewsPulse-main/backend/src/services/newsService.ts:41-45 | it is pushed one day exactly when today's instant is at or before now |
| Scheduler.SendTimeExamples | NewsPulse-main/backend/src/services/newsService.ts:38-45 | a 09:00 preference is sent today at 09:00 when run at 08:00 and tomorrow at 09:00 when run at 10:00 |
| Scheduler.FindSummary | NewsPulse-main/backend/src/services/newsService.ts:25-27 | the lookup by text finds the first summary with that text, or reports that none has it |
| Scheduler.ScheduleItem | NewsPulse-main/backend/src/services/newsService.ts:24-56 | reuses or creates the summary for the text and creates an entry only when the pair has none, with the user's send time and methods (`both` expanded); the stores only grow, by at most one summary (holding the item) and one entry (pointing at the summary with the item's text), and stay duplicate-free |
| Scheduler.ScheduleCategory | NewsPulse-main/backend/src/services/newsService.ts:23-57 | afterwards every item of the category is scheduled for the user; if all were already, nothing changes; new summaries hold the category's items and new entries are the user's, for summaries of those items |
| Scheduler.ScheduleUser | NewsPulse-main/backend/src/services/newsService.ts:20-58 | stops at the first failed fetch; every category before it is scheduled; a covered user changes nothing; new summaries and entries come only from the categories before the failed fetch |
| Scheduler.FetchedItems | NewsPulse-main/backend/src/services/newsService.ts:20-23 | the items fetched for a user's first n categories are exactly those of the n fetched lists |
| Scheduler.Targets | NewsPulse-main/backend/src/services/newsService.ts:11-13 | the run processes exactly the subscribed users, narrowed to the given id when there is one |
| Scheduler.OneTarget | NewsPulse-main/backend/src/services/newsService.ts:11-12 | a run for one user id processes at most one user |
| Scheduler.FetchAndSchedule | NewsPulse-main/backend/src/services/newsService.ts:6-65 | stores only grow and keep text and pair uniqueness; completes iff no target's fetch fails; everything reached is scheduled; already-covered stores are left as they were; new summaries and entries come only from targets up to the first failing one and, for each, from categories before its failed fetch; each new entry points at the summary of such an item and is due after now, within a day |
| Scheduler.ScheduleTargets | NewsPulse-main/backend/src/services/newsService.ts:15-59 | the loop over target users, with the same guarantees as the run |
| Scheduler.AbortedRunExample | NewsPulse-main/backend/src/services/newsService.ts:9-21 | with users [a, x] and [y] and x failing to fetch, the run may only summarise a's item and create entries for the first user |
| Scheduler.RunTwice | NewsPulse-main/backend/src/services/newsService.ts:32-37 | a second run over the same news creates no entry and no summary |
| Scheduler.DuplicateTextsExample | NewsPulse-main/backend/src/services/newsService.ts:25-37 | over stores with two summaries of one text, the item is already scheduled, yet the lookup finds the first summary and the user has no entry for it, so the source would add one |
| Controller.SendTestMessage | NewsPulse-main/backend/src/controllers/telegramController.ts:8-41 | missing ids give 400; then unknown user 404, unknown summary 404, no telegram id 400, in that order, and no other rejection; otherwise the summary is sent to the user's chat |
| Controller.FindSummaryById | NewsPulse-main/backend/src/controllers/telegramController.ts:19 | the lookup by id finds a summary with that id, or reports that none has it |
| Controller.SendInstantNews | NewsPulse-main/backend/src/controllers/telegramController.ts:43-115 | missing id 400, unknown user 404, no telegram id 400, empty effective categories 400, in that order; the request's categories win over the user's; the count equals the number of records and the capped sum |
| Controller.InstantNewsBound | NewsPulse-main/backend/src/controllers/telegramController.ts:71-93 | over HTTP at most three items per category, and the count equals the number of records |

## Left out

- The reply that offers the category keyboard carries the pending list it is rendered from; the keyboard itself is `CategoryKeyboard` of that list.
- Message wording, emoji, Markdown escaping (`escapeTelegramMarkdown`) and keyboard layouts other than the category keyboard are not modelled: a `Reply` constructor stands for each message.
- Sending, editing messages and answering callbacks are no-ops. The send wrapper catches its own errors, so every attempted send is counted.
- `fetchAndScheduleForUser`, which the delivery button calls, is not part of this model. `OnCallback` only reports through `scheduleRequested` that it would be called.
- The news source is a snapshot. A category fetches the same items for the whole of one event or one run, and a category missing from the snapshot is a failed fetch.
- The user, summary and scheduler schemas are not part of this model. Fields a bot registration leaves unset take the values of a `SchemaDefaults` parameter. A unique index that would make a create fail is not modelled. `findOne` returns the first match in sequence order. Ids are naturals.
- Email uniqueness across the directory is not claimed. The bot checks the address at the email step and not again when it creates the account, so two chats can stash the same address before either registers.
- Malformed request ids (which make the lookups throw) and the catch-all 500 answers of the two HTTP handlers are not modelled. Request `categories` is taken to be an array or absent.
- `telegram_id` is modelled as an optional chat id; an empty id counts as none and a non-numeric id set elsewhere is out of scope.
- Handlers run one event at a time. The async interleaving of handlers and of concurrent scheduling runs is not modelled, so the source's non-atomic check-then-create under concurrent runs is out of scope.
- Conversation.ChatBot.constructor: requires the starting directory to have distinct ids and to link each chat to at most one account. The bot is taken to be the only writer of `telegram_id`; the user routes save records with any `telegram_id`, and the user schema is not part of this model.
- Scheduler.FetchAndSchedule: requires the incoming stores to be free of duplicate summary texts and of duplicate (user, summary) pairs (`StoresOk`); the source's `findOne` just takes the first match and demands nothing. `fetchAndScheduleForUser`, the other writer of these stores, is assumed to keep them so. The source's rerun idempotence (`RunTwice`) depends on this: over stores with two summaries of one text, where only the second has the user's entry, a run adds an entry for the first.
- Conversation.ChatBot.Receive: states only the command cases. It does not restate the step cases of `OnMessage` for free text that also mentions a command. For one text, the handlers run in the order message, `/start`, `/news`, `/help`.
- Time is in milliseconds on the local clock, with no time zones or daylight saving. The run reads `now` once, where the source reads the clock for each entry.
- FetchAndSchedule: requires every stored time of day to be absent or to match the bot's pattern. Other strings reach `Number`/`NaN` in the source and are not modelled.
- The content of the `/help` text is not modelled: `/help` changes no state and answers with the `HelpText` reply. `startPolling`, logging, the Express CRUD routes, login and the web front end are not modelled.
