# vv_help helpdesk: a Dafny model of its ticket rules

vv_help is a Django helpdesk for supplier requests. Tickets come in through the web views and from a Telegram bot. A ticket is filed under a category, a client and optionally an organisation. It moves through an ordered table of statuses. Every change is logged in an append-only audit table. This project models the rule sets inside that system and proves what they promise:

- **Status state machine.** The take, resolve, close, set-waiting and return-to-work views are pure transitions on one ticket row (`Lifecycle`). The board's handlers are methods of a class that owns the ticket table and the audit log (`Board.TicketBoard`), and each handler is proved equal to its transition. The board also runs the admin's bulk take and close actions and its `save_model`.
- **Status queries.** `TicketStatus.objects.filter(...).first()` is the first match in a table kept in the model ordering `order, name` (`Statuses`). The statuses seeded by `init_data` serve as the concrete configuration in lemmas.
- **SLA and timing.** Deadline, overdue, time to deadline, reaction time and working time (`Sla`), plus the admin columns derived from them (`AdminDisplay`). Times are integer seconds and "now" is a parameter.
- **Telegram bot decisions.** Media classification, date choice, external id choice and title (`Bot`). The class `Bot.BotStore` holds the bot's tables and models the stream-logging get-or-create of group records, ticket creation in one transaction, and the private/allowed gate.
- **Analytics helpers.** First non-sentinel parameter value, and tag parsing, counting and the top-20 chart (`Analytics`).
- **Organisation back-fill.** An in-place loop over an array of tickets (`Backfill`), wrapped by the management command's control flow (`FillCommand`) and by the standalone script's control flow (`FillScript`).
- **Template filters.** `split` and `strip` (`TicketFilters`), over written-out Python string operations (`Text`).

The files are `wrappers.dfy`, `text.dfy`, `entities.dfy`, `statuses.dfy`, `ticket_filters.dfy`, `sla.dfy`, `admin_display.dfy`, `lifecycle.dfy`, `board.dfy`, `analytics.dfy`, `bot.dfy`, `backfill.dfy`, `fill_command.dfy` and `fill_script.dfy`. Each file holds one module of the same name.

Modelling choices:

- **Foreign keys.** Foreign keys to users, statuses and categories hold the referenced record. Foreign keys to clients and organisations hold the row id.
- **Identity and ordering.** Model instances compare by id, as Django compares them. Every table is a sequence in its model's default ordering, because `.first()` answers in that ordering. The status table is kept in `order, name` ordering; that is the `Valid` invariant of `TicketBoard`. The bot's `accesses` are taken to be in `user__username, telegram_user_id` ordering (tickets/models.py line 310), `categories` in `parent__name, name` ordering (line 19) and `clients` in `name` ordering (line 51); these orderings are assumptions on the inputs, not checked invariants. `FileTicket` appends a newly created "Неизвестный клиент" at the end of `clients` rather than at its place in name ordering; since at most one such client is ever created (`UnknownClientCreatedOnce`), only the position of that one row can differ from the database's order, and no choice of `PickClient` depends on it: its external id is empty, so no external id matches it, and it is the only client with that name.
- **Outside inputs.** The clock, console answers, command-line arguments and uploaded-file counts are parameters.
- **Telegram ids** appear as their decimal strings.

## Model

| member | source | states |
|---|---|---|
| Text.Strip | tickets/templatetags/ticket_filters.py:33 | `str.strip()`: the result is the slice of the input left after dropping whitespace at both ends, only whitespace is dropped, and the result neither starts nor ends with whitespace |
| Text.StripEmptyIffBlank | tickets/views.py:202 | a value strips to the empty string exactly when it consists of whitespace only |
| Text.StripIdempotent | tickets/templatetags/ticket_filters.py:33 | stripping twice equals stripping once |
| Text.JoinSplit | tickets/templatetags/ticket_filters.py:10 | joining the pieces of `s.split(sep)` with `sep` gives back `s` |
| Text.SplitPiecesFree | tickets/views.py:863 | no piece of a split contains the separator |
| Text.SplitLeftmost | tickets/templatetags/ticket_filters.py:10 | `str.split(sep)` cuts at the leftmost occurrences: no occurrence of the separator starts inside any piece before the last, which with the join fixes the pieces even for a separator that overlaps itself |
| Text.DecimalRoundTrip | tickets/views.py:221 | `int(str(n)) == n` for every non-negative `n` |
| TicketFilters.SplitFilter | tickets/templatetags/ticket_filters.py:5-10 | an empty or missing value gives no pieces; an empty delimiter is the `ValueError` case; otherwise at least one piece, the pieces join back to the value, none contains the delimiter, and no occurrence of the delimiter starts inside a piece before the last (Python's leftmost cuts) |
| TicketFilters.StripFilter | tickets/templatetags/ticket_filters.py:28-33 | `None` gives ""; otherwise the result is the slice of the value that starts after its leading whitespace and is followed only by whitespace, and it has no whitespace at either end |
| TicketFilters.StripFilterIdempotent | tickets/templatetags/ticket_filters.py:33 | applying the filter to its own output changes nothing |
| Entities.DisplayName | tickets/models.py:239 | the full name when it is not empty, else the username |
| Entities.CategoryLabel | tickets/models.py:21-24 | the label always ends with the category's own name; with a parent it is exactly "parent → name", without one it is the name |
| Entities.IsChild | tickets/models.py:26-32 | `is_child` is always the negation of `is_parent` |
| Entities.AuthorName | tickets/models.py:234-240 | client name for a client comment with a client; display name for a user comment with a user; "Неизвестный автор" in every other case |
| Entities.AuthorKindDecides | tickets/models.py:236-239 | `author_type` decides which linked author is shown, even when both are set |
| Statuses.First | tickets/views.py:369 | `.first()` of a filtered status query: a result is a matching status of the table; there is no result exactly when no status matches |
| Statuses.FirstIsLeast | tickets/models.py:88 | in an `order, name`-ordered table, no matching status sorts before the first match |
| Statuses.SeedOrdered | tickets/management/commands/init_data.py:14-19 | the seeded table is in (order, name) ordering |
| Statuses.SeedWorkingQueries | tickets/management/commands/init_data.py:14-19 | on the seeded table the working queries find "В работе" and the waiting query finds "Ожидает ответа" |
| Statuses.SeedFinalQueries | tickets/management/commands/init_data.py:14-19 | on the seeded table the final and "Решено" queries find "Решено", and the non-final query finds "Новое" |
| Sla.EndTime | tickets/models.py:150 | `resolved_at or closed_at`: none exactly when both are unset, and `resolved_at` is preferred |
| Sla.IsOverdue | tickets/models.py:143-154 | a final ticket with an end time is overdue iff that end time is past the deadline; any other ticket is overdue iff now is past the deadline |
| Sla.TimeToDeadline | tickets/models.py:156-163 | none exactly for a final status; otherwise now plus the result is the deadline |
| Sla.ReactionTime | tickets/models.py:165-170 | none exactly when the ticket was never taken; otherwise creation time plus the result is `taken_at` |
| Sla.WorkingTime | tickets/models.py:172-179 | none exactly when never taken; otherwise `taken_at` plus the result is the end time (resolution, else closing, else now) |
| Sla.OpenOverdueIffNoTimeLeft | tickets/models.py:144-163 | for a ticket that is not final, overdue iff the time to deadline is negative |
| Sla.FinishedVerdictIsFixed | tickets/models.py:149-151 | a finished final ticket's overdue verdict does not depend on the current time |
| Sla.OverdueIsMonotone | tickets/models.py:153-154 | once overdue, a ticket stays overdue as time passes |
| Sla.ReactionPlusWorking | tickets/models.py:165-179 | reaction time plus working time is the whole span from creation to the end point |
| AdminDisplay.TitleShort | tickets/admin.py:186-187 | titles of at most 50 characters are unchanged; longer ones become their first 50 characters plus "..." |
| AdminDisplay.ContentShort | tickets/admin.py:264-265 | the same truncation rule at 100 characters for comment contents |
| AdminDisplay.AuditCommentShort | tickets/admin.py:290-291 | the same truncation rule at 50 characters for audit comments |
| AdminDisplay.MessageTextShort | tickets/admin.py:355-356 | the same truncation rule at 80 characters for stream message texts |
| AdminDisplay.WorkingTimeDisplay | tickets/admin.py:213-219 | "-" exactly when there is no working time or it is zero; otherwise minutes below 60, and hours and minutes account for the working time to within one minute |
| AdminDisplay.SlaStatus | tickets/admin.py:197-210 | overdue iff `is_overdue`; completed iff final and not overdue; otherwise the whole hours left, bracketing the seconds left; "-" exactly when an open ticket is at its deadline |
| Lifecycle.Take | tickets/views.py:360-385 | refused when another user holds the ticket or no working status exists; otherwise the requester, the first working status and `taken_at` = now, nothing else changed, one `taken` audit |
| Lifecycle.ResolveComment | tickets/views.py:417 | "Решено" for an empty resolution, else "Решено: " + the first 50 characters + "..." |
| Lifecycle.Resolve | tickets/views.py:392-418 | refused iff no status is named "Решено"; otherwise that status, the resolution texts and `resolved_at` = now, nothing else changed, one `resolved` audit |
| Lifecycle.CloseTarget | tickets/views.py:442-448 | the status named "Решено", else the first final status; none exactly when the table has neither |
| Lifecycle.Close | tickets/views.py:438-462 | refused iff there is no target; otherwise the target status, `resolved_at` kept when set and set to now when unset, nothing else changed, one `resolved` audit |
| Lifecycle.SetWaiting | tickets/views.py:469-492 | moves exactly when the status is a working one and "Ожидает ответа" exists and differs from it; otherwise refused as not working, missing waiting status, or already waiting; a move changes only the status, and the audit records the old and new status names |
| Lifecycle.ReturnToWork | tickets/views.py:498-519 | moves exactly when the ticket is in "Ожидает ответа" and another working status exists; otherwise refused; a move changes only the status, to the first working status not named "Ожидает ответа", so assignee and `taken_at` are kept |
| Lifecycle.MovesStayInTable | tickets/views.py:369-375 | every successful transition leaves the ticket in a status of the table |
| Lifecycle.RetakeOnlyBySameUser | tickets/views.py:364-366 | after a take, the same user may take again (only `taken_at` moves) and any other user is refused |
| Lifecycle.CloseIdempotent | tickets/views.py:450-454 | closing a closed ticket again changes nothing in the row, and the first `resolved_at` is kept |
| Lifecycle.ResolveRestamps | tickets/views.py:406-409 | resolving again moves `resolved_at` to the new time |
| Lifecycle.SeedTakeWaitReturn | tickets/views.py:468-521 | with the seeded statuses, take → set-waiting → return-to-work succeeds and gives back exactly the taken ticket |
| Lifecycle.SeedCloseSolves | tickets/views.py:442-454 | with the seeded statuses, closing always succeeds and lands in the final status "Решено" |
| Lifecycle.ResolveAssignee | tickets/views.py:305-313 | blank text gives no assignee; otherwise there is an assignee iff the stripped id is all digits and names an existing user, and it is that user |
| Lifecycle.ApplyAutocomplete | tickets/views.py:288-313 | on the instance a valid form filled in: an existing category or client id replaces the instance's choice, an unknown one is ignored; the assignee comes from `ResolveAssignee`; every other field is kept |
| Lifecycle.EditedRow | tickets/views.py:280-315 | the saved row is the stored ticket with the six form fields, the autocompleted category and client (the stored ones without a known id) and the resolved assignee; id, creator, timestamps, resolution, organisation and Telegram fields are kept |
| Lifecycle.CreateComment | tickets/views.py:246-248 | "Обращение создано", with " с N вложениями" appended exactly when N > 0 |
| Lifecycle.EditAudits | tickets/views.py:317-336 | the intended edit audits: one row per changed field, the status row first and the assignee row last, carrying the old and new names ("Не назначен" for none) |
| Lifecycle.EditAuditsMeaning | tickets/views.py:317-336 | for the intended audits: every row names the edited ticket and the editor; a `status_changed` row exists iff the status changed and an `assigned` row iff the assignee changed (the code as written differs, see Findings) |
| Lifecycle.EditAsWrittenMeaning | tickets/views.py:280-336 | as written, an edit logs no status change at all, and an `assigned` row exactly when the assignee differs from the stored one |
| Lifecycle.StatusEditGoesUnlogged | tickets/views.py:280-323 | an edit that moves a ticket to another status and keeps its assignee: the intended audits hold one `status_changed` row, the code as written logs nothing |
| Lifecycle.UnchangedEditIsSilent | tickets/views.py:318-336 | an edit that keeps status and assignee writes no audit |
| Lifecycle.AdminTakeMatchesTake | tickets/admin.py:367-375 | on a ticket no one else holds, the bulk take's row equals `take_ticket`'s |
| Lifecycle.AdminTakeOverridesOwner | tickets/admin.py:371-374 | the bulk take reassigns a ticket held by someone else, which `take_ticket` refuses |
| Lifecycle.SeedAdminCloseMatchesClose | tickets/admin.py:385-399 | with the seeded statuses, the bulk close and `close_ticket` reach the same status; the bulk close stamps `closed_at`, `close_ticket` stamps `resolved_at` |
| Board.BulkTakeMeaning | tickets/admin.py:367-382 | after the bulk take, the table keeps its keys; every selected ticket has the requester, the working status and its own `taken_at`; the others are unchanged; one `taken` audit per selected ticket, in order |
| Board.BulkCloseMeaning | tickets/admin.py:385-399 | after the bulk close, the table keeps its keys; every selected ticket has the final status and its own `closed_at`; the others are unchanged; one `resolved` audit per selected ticket |
| Board.TicketBoard.TakeTicket | tickets/views.py:359-388 | 404 for an unknown id; otherwise the table and log change exactly as `Lifecycle.Take` says; the board stays valid |
| Board.TicketBoard.ResolveTicket | tickets/views.py:391-434 | 404 for an unknown id; a GET only shows the form; a POST changes table and log exactly as `Lifecycle.Resolve` says |
| Board.TicketBoard.CloseTicket | tickets/views.py:437-465 | 404 for an unknown id; otherwise exactly `Lifecycle.Close` |
| Board.TicketBoard.SetWaitingTicket | tickets/views.py:468-494 | 404 for an unknown id; otherwise exactly `Lifecycle.SetWaiting` |
| Board.TicketBoard.ReturnTicketToWork | tickets/views.py:497-521 | 404 for an unknown id; otherwise exactly `Lifecycle.ReturnToWork` |
| Board.TicketBoard.CreateTicket | tickets/views.py:191-258 | a valid form with a known category id and a known client id is saved under a fresh id as `NewTicket` (form fields, that category and client, resolved assignee, requester as creator, model defaults elsewhere), with one `created` audit; a missing or unknown category or client id makes the save fail with nothing changed; otherwise nothing changes |
| Board.TicketBoard.EditTicket | tickets/views.py:275-339 | 404 for an unknown id; a valid form saves `EditedRow`, so every field outside the form and the autocomplete is kept, and appends the audits as the code writes them (`EditAuditsAsWritten`); otherwise nothing changes |
| Board.SaveTaken | tickets/admin.py:371-382 | the loop leaves the table overwritten, in selection order, with each selected ticket taken by the requester at its own clock reading, and the log extended by one `taken` audit per ticket |
| Board.SaveClosed | tickets/admin.py:389-399 | the loop leaves the table overwritten with each selected ticket in the final status with its own `closed_at`, and the log extended by one `resolved` audit per ticket |
| Board.TicketBoard.TakeTickets | tickets/admin.py:367-382 | with no working status nothing changes; otherwise the table is the old one overwritten with each selected ticket taken, and one `taken` audit per ticket is appended; the board stays valid |
| Board.TicketBoard.CloseTickets | tickets/admin.py:385-399 | with no final status nothing changes; otherwise each selected ticket is closed in place, and one `resolved` audit per ticket is appended; the board stays valid |
| Board.TicketBoard.AdminSaveModel | tickets/admin.py:227-239 | a new ticket gets a fresh id and the requester as creator, with no audit; a changed ticket is saved as given, with one `updated` audit; `save_model` does not assign its creator, which arrives as stored because `created_by` is read-only in the admin (tickets/admin.py line 159), and is kept |
| Analytics.FirstNonEmpty | tickets/views.py:798-803 | the first value that is not '', 'None', 'null' or 'NULL'; none exactly when every value is such a sentinel |
| Analytics.KeepStrippedSound | tickets/views.py:863 | every kept tag is non-empty and is the strip of some piece |
| Analytics.KeepStrippedComplete | tickets/views.py:863 | every piece that is not blank yields its stripped form |
| Analytics.ParseTagsMeaning | tickets/views.py:863 | the tags of a field are non-empty, stripped and comma-free; each comes from a comma-separated piece, and each non-blank piece gives one |
| Analytics.EmptyFieldHasNoTags | tickets/views.py:862 | excluding empty `tags` fields loses no tag |
| Analytics.AppendEach | tickets/views.py:863-864 | the inner loop appends the tags of one field, in order, after those already collected |
| Analytics.CollectTags | tickets/views.py:860-864 | the `by_tags` loop yields the tags of the fields, field by field, in order |
| Analytics.AllTagsClean | tickets/views.py:862-864 | every collected tag is non-empty, stripped and comma-free |
| Analytics.CollectOrganizations | tickets/views.py:853-856 | one name per ticket whose client has an organisation; a name is collected iff some ticket has it |
| Analytics.CountTags | tickets/views.py:866 | `Counter`: distinct names, each paired with its number of occurrences, and every occurring name present |
| Analytics.InsertDescPermutes | tickets/views.py:867 | inserting an entry adds exactly that entry to the multiset of entries |
| Analytics.InsertDescSorted | tickets/views.py:867 | inserting into a count-descending list keeps it descending |
| Analytics.InsertKeepsDistinct | tickets/views.py:866-867 | inserting an entry with a new name keeps the names distinct |
| Analytics.SortByCountDesc | tickets/views.py:867 | the result is sorted by count descending and is a permutation of the input; distinct names stay distinct |
| Analytics.SortedKeepsCounts | tickets/views.py:866-867 | sorting keeps every entry a name of the input paired with its number of occurrences |
| Analytics.LeftOffIsSmaller | tickets/views.py:867 | a name missing from the first 20 sorted entries means the cut was made at 20 and the name counts no more than the 20th |
| Analytics.TopCounts | tickets/views.py:865-868 | at most 20 entries, sorted by count descending, with distinct names and true counts; a name left off occurs no more often than the 20th entry |
| Bot.OrElse | tickets/management/commands/bot.py:71 | Python's `a or b or ''` over optional strings |
| Bot.Classify | tickets/management/commands/bot.py:69-86 | `text` iff there is text or caption; otherwise the first present of photo … sticker, else `other`; the text is the placeholder, never empty |
| Bot.PlaceholderIsChoiceLabel | tickets/models.py:318-327 | every non-text placeholder is the stream model's label for that media code |
| Bot.OriginalDate | tickets/management/commands/bot.py:88-93 | `forward_date` when present, else the message date |
| Bot.ExternalId | tickets/management/commands/bot.py:95-102 | the forwarded user's id, else the forwarded chat's id; none exactly when neither exists |
| Bot.Title | tickets/management/commands/bot.py:130-136 | "Создано из группы X" for a forwarding chat titled X; else the first 100 characters of the text, or the default for empty text; never empty |
| Bot.ClassifiedTitle | tickets/management/commands/bot.py:131 | the classified text is never empty, so the title of a non-group message is its first 100 characters |
| Bot.FirstWhere | tickets/management/commands/bot.py:167 | `.filter(p).first()`: the earliest element satisfying `p`; an element satisfying `p` with none before it is the result; none exactly when none does |
| Bot.Creator | tickets/management/commands/bot.py:164-173 | the user of the first allowed access for the Telegram id; without one, the first staff user; without either, the first user; none exactly when neither an allowed access nor any user exists |
| Bot.TicketCategory | tickets/management/commands/bot.py:175-179 | the first top-level category whose name contains "Обращения от поставщиков"; without one, the first category; none exactly when there are no categories |
| Bot.NewStatus | tickets/management/commands/bot.py:181-182 | the first non-final status when one exists, else the first status of the table; none exactly for an empty table |
| Bot.PickClient | tickets/management/commands/bot.py:184-192 | the first client with the message's external id; without one, the first existing "Неизвестный клиент"; a new "Неизвестный клиент" with the next id is created exactly when neither exists |
| Bot.UnknownClientCreatedOnce | tickets/management/commands/bot.py:188-192 | once the unknown client has been created, no later message creates another |
| Bot.UpsertGroup | tickets/management/commands/bot.py:238-252 | get-or-create by chat id: a new group is unblocked and written to the stream; an existing group's title changes only to a non-empty new title; other groups are untouched |
| Bot.UpsertGroupIdempotent | tickets/management/commands/bot.py:244-252 | seeing the same chat twice changes nothing more |
| Bot.BotStore.ShouldLogToStream | tickets/management/commands/bot.py:232-253 | private chats are never logged and leave the groups alone; otherwise the groups become `UpsertGroup`, and the answer is "not blocked and writing to the stream" (true for a new group) |
| Bot.BotStore.LogMessage | tickets/management/commands/bot.py:215-230 | appends exactly the message's `StreamRow` and changes nothing else |
| Bot.BotStore.CreateTicketSync | tickets/management/commands/bot.py:162-213 | fails with nothing changed exactly when creator, category or status is missing; otherwise the chosen client (created at most once) and a new ticket under the next id |
| Bot.BotStore.FileTicket | tickets/management/commands/bot.py:190-213 | adds the unknown client only when it has to be created, saves the ticket under the next id (which was free) with the picked client, and keeps the store invariant (every ticket filed under an existing client) |
| Bot.BotStore.OnMessage | tickets/management/commands/bot.py:51-148 | a group message upserts its group, is logged (exactly its `StreamRow`) iff the group is unblocked and writes to the stream, and changes no client, ticket or counter; a private message is never logged; from an allowed sender it creates a ticket iff creator, category and status exist, filed under `PickClient`'s client with the classified text, title and date, under the next id; when no ticket is created, tickets, clients and both counters are unchanged |
| Backfill.TallyCoversVisited | tickets/management/commands/fill_organizations.py:84-114 | updated + skipped + errors equals the number of tickets without an organisation |
| Backfill.BackfilledMeaning | tickets/management/commands/fill_organizations.py:89-105 | a ticket with an organisation is unchanged; a visited ticket takes its client's organisation; a ticket whose client row is missing is unchanged |
| Backfill.BackfilledAll | tickets/management/commands/fill_organizations.py:81-95 | one pass over the table: every ticket becomes its back-filled form |
| Backfill.SecondPassUpdatesNothing | tickets/management/commands/fill_organizations.py:81 | a second pass updates no ticket, and leaves the table as the first pass did |
| Backfill.NothingToFillIsFixed | fill_organizations.py:34-36 | with no ticket lacking an organisation, the pass changes nothing |
| Backfill.BackfilledAllMeaning | tickets/management/commands/fill_organizations.py:81-95 | after one pass, tickets that had an organisation and tickets whose client is missing are unchanged, and any other ticket takes its client's organisation |
| Backfill.TallyStep | tickets/management/commands/fill_organizations.py:84-105 | the counters after one more ticket are those before it plus that ticket's visit |
| Backfill.FillOrganizations | tickets/management/commands/fill_organizations.py:76-114 | in place on the ticket array: the table becomes its back-filled form, and the counters are the tally, summing to the tickets visited |
| FillCommand.Handle | tickets/management/commands/fill_organizations.py:22-74 | returns early with nothing to fill; dry run changes nothing; without `--yes` it runs only on y/yes/да/д; it runs iff those hold, and then the table is back-filled |
| FillCommand.CountWithoutOrganization | tickets/management/commands/fill_organizations.py:35-36 | the number of tickets without an organisation |
| FillScript.FillOrganizationsScript | fill_organizations.py:23-61 | none exactly when nothing needs filling, and then nothing changes; otherwise the table is back-filled and the counters are its tally |
| FillScript.ConfirmAnswer | fill_organizations.py:115-119 | `--yes` as first argument confirms with "y" |
| FillScript.ScriptConfirmsLikeCommand | fill_organizations.py:115-121 | the script confirms iff `--yes` is given or the answer is one the command accepts |
| FillScript.RunScript | fill_organizations.py:106-125 | fills iff confirmed; unconfirmed runs change nothing; confirmed runs leave the table back-filled |

## Left out

- tickets/management/commands/link_replies.py: it reads model fields (`reply_to_message_id`, `telegram_message_id`) and calls a bot method that the modelled code does not define, so no faithful contract can be written for it.
- tickets/management/commands/init_data.py: only its status table is modelled, as the seed configuration `Statuses.Seed`. Categories, clients, templates and permissions are not.
- TelegramRoute: this model does not include it, because tickets/models.py defines no such model.
- tickets/forms.py and tickets/urls.py: field widgets and routes. Form validation is reduced to "a valid form is given" (`Option<TicketForm>`, the six model fields of the form).
- Telegram plumbing: polling, `start`, reply texts, logging, `sync_to_async`. Only the decisions and table updates of `on_message` are modelled.
- Database and rendering layer:
  - querysets, pagination, `render`/`redirect`/`messages` and the autocomplete endpoints are not modelled;
  - the dashboard, queue and list views are not modelled;
  - the XLSX export is not modelled;
  - `show_statistics`, and all console printing, are not modelled.
- Floating-point code: the `div` and `mod` filters and `file_size_display`.
- TicketCommentAdmin.save_model and the other admin configuration classes: left out, because they only configure lists and forms.
- Attachment storage: only the number of uploaded files enters, through the `created` audit comment.
- Transactions:
  - An exception inside the back-fill's `transaction.atomic()` is modelled as "this ticket counted as an error, the others go on". The database-level effect of catching an exception inside an atomic block is not modelled.
  - `_create_ticket_sync`'s rollback is modelled as "nothing changes".
- Backfill.FillOrganizations: reading `ticket.client` fails only when the client row is missing. Other exceptions are not modelled.
- Analytics.TopCounts: does not state how entries with equal counts are ordered. Python's stable sort keeps first-appearance order, and the insertion the model uses keeps it too, but the contract does not promise it.
- AdminDisplay.SlaStatus: `int(total_seconds() / 3600)` is a float division. It is modelled as exact integer division truncated toward zero over whole seconds.
- AdminDisplay.WorkingTimeDisplay: sub-second parts of the working time are not modelled, because times are whole seconds.
- Statuses.First: names are ordered by code point. The database collation may order names differently.
- Bot.NewStatus: the source orders non-final statuses by `order` alone. The model breaks ties by name, one of the orders the database may return.
- Bot.TicketCategory: `name__icontains` is modelled with a lower-casing that covers ASCII and the basic Cyrillic letters only. Other scripts are not case-folded.
- Lifecycle.ApplyAutocomplete: a category or client id that is not a number makes the source raise a `ValueError`, which its `except DoesNotExist` does not catch. The model takes these ids as already-parsed numbers (`Option<nat>`), so that error path is not modelled, in `ticket_create` or in `ticket_edit`.
- TicketFilters.StripFilter and TicketFilters.SplitFilter: the value is modelled as an optional string. The `str(value)` conversion that `strip` applies to numbers and other objects is not modelled, and neither is `split` on a value that is not a string.
- Lifecycle.ResolveAssignee: `isdigit` is modelled for ASCII digits only. Other Unicode digits are not modelled.
- Board.TicketBoard.CreateTicket and Board.TicketBoard.EditTicket: require the form's status to be in the status table. A valid form guarantees this, because the status field is a foreign key.
- Board.TicketBoard.TakeTickets and Board.TicketBoard.CloseTickets: the selection is a list of distinct existing ticket ids, as an admin queryset is, with one clock reading per ticket.

## Findings

| source | as written | input that shows it | evidently intended | confidence | as-written member | corrected member |
|---|---|---|---|---|---|---|
| tickets/views.py:280-323 | `old_status` is read after `form.is_valid()`, which has already copied the submitted `status` (a field of the form) onto the same instance, so `old_status != ticket.status` never holds and no `status_changed` audit is written | a stored ticket in "Новое" edited to "В работе" with the same assignee: no audit row at all | a `status_changed` row from "Новое" to "В работе", as `take_ticket` and `set_waiting` write for their moves | high; not executed | Lifecycle.StatusEditGoesUnlogged | Lifecycle.EditAuditsMeaning |

The board's `EditTicket` follows the code as written, so that it models what the view does; `EditAudits` is the intended definition, and the two lemmas above relate the two.
