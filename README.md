# Ticket bot core, modelled in Dafny

This project models the state-keeping core of a Discord support-ticket bot (`ticket_bot.py`).
Users open tickets from a panel. Each ticket is a private channel with an order form. Staff
close tickets and post an open/closed status banner. The model covers:

- **The ticket store** (`tickets.dfy`). This is the tickets document: guild id → channel id →
  ticket record. The class `Tickets.TicketStore` holds it in a `map` field. Its methods are the
  bot's store helpers: `get_ticket_data_for_guild`, `create_ticket_record`,
  `set_ticket_preview_message_id`, `close_ticket_record` and `update_order_field`. The class
  also has the commands that guard those writes: the Submit button, the Close button and
  `/close`, `/add`, `/remove`, the order-form modals, and the store side of
  `create_ticket_channel`. Each helper loads the whole snapshot, changes one entry and saves the
  snapshot back; the methods do the same on the field. Each method's `ensures` ties the new store
  to a pure function of the old one (`AfterCreate`, `AfterClose`, …). The lemmas next to those
  functions state what the bot promises. The invariant "closed exactly when a closing time is
  recorded" is kept as the class's `Valid()`.
- **Order-field normalisation** (`order_form.dfy`). These are the tip, payment-methods and
  delivery-notes rules applied to modal input, and the five default order details. `text.dfy`
  models the Python string operations they use (`strip`, `or`, `startswith`, `endswith`,
  `lower`, `replace`, `in`).
- **Channel naming** (`naming.dfy`). This is the name `create_ticket_channel` gives a new channel,
  by ticket type.
- **Server status** (`status.dfy`). The status document is held by `Status.StatusStore`. The
  file also has `get_server_status` and `set_server_status`, the choice of the status channel
  (the first-match loop of `/status`), and the `/status` command.

Discord calls are abstract inputs and outputs:
- A created channel is its id.
- A posted message is its message id.
- A permission change is a returned `PermissionChange` value.
- The banner to delete is a returned `BannerRef`.
- Timestamps and the `%m-%d` date are opaque parameters.

Behaviour of the code a reader might not expect; the model follows it:
- Creating a ticket does not check the order link. Only the panel's link modal (a required
  field) supplies one. A preview is posted for New Order tickets, and for other tickets only when
  the link is non-empty (`or order_link` is falsy for `""`).
- Closing an already closed ticket succeeds again and overwrites `closed_at`. There is no
  "already closed" refusal (`Tickets.CloseTwice`).
- Order fields stay writable after submission and after closing. Submission only sets a flag.
- `create_ticket_record` overwrites a record already stored at the same (guild, channel).
- `/status` deletes the old banner only when both stored ids are truthy (present and non-zero).
- `/status` writes nothing if posting the new banner raises.

## Model

| member | source | states |
|---|---|---|
| OrderForm.With | ticket_bot.py:178-179 | writing one order field sets that field to the value and leaves the other four as they were |
| OrderForm.Dollarize | ticket_bot.py:332-333 | the result starts with "$" or ends with "%": a value already of that shape is kept unchanged, any other value gets "$" prepended; a non-empty trimmed value stays non-empty and trimmed |
| OrderForm.NormalizeTip | ticket_bot.py:331-333 | every stored tip starts with "$" or ends with "%", is non-empty, and has no whitespace at either end |
| OrderForm.TipOfBlank | ticket_bot.py:331 | empty or whitespace-only tip input becomes "$0" |
| OrderForm.TipOfNonBlank | ticket_bot.py:331-333 | other tip input keeps its stripped text, with "$" prepended exactly when that text neither starts with "$" nor ends with "%" |
| OrderForm.TipIdempotent | ticket_bot.py:331-333 | normalising a normalised tip gives the same tip |
| OrderForm.WithPlaceholder | ticket_bot.py:300 | `value.strip() or placeholder` is never empty and has no whitespace at either end |
| OrderForm.PlaceholderRule | ticket_bot.py:300 | blank input gives the placeholder, other input its stripped text, and the rule is idempotent |
| OrderForm.NormalizePaymentMethods | ticket_bot.py:300 | the stored payment methods are never empty |
| OrderForm.PaymentMethodsRule | ticket_bot.py:300 | blank input stores "Not set (chef will confirm in ticket)", other input its stripped text; normalising twice equals once |
| OrderForm.NormalizeDeliveryNotes | ticket_bot.py:362 | the stored delivery notes are never empty |
| OrderForm.DeliveryNotesRule | ticket_bot.py:362 | blank input stores "N/A", other input its stripped text; normalising twice equals once |
| OrderForm.FormValue | ticket_bot.py:269-372 | the account-name modal (and the delivery-type select, lines 471-473) store their input verbatim; the payment, tip and notes modals store a non-empty trimmed value |
| OrderForm.DefaultsAreNormal | ticket_bot.py:135-141 | each default order detail is a fixed point of its field's rule, and a blank payment, tip or notes form restores exactly the default |
| OrderForm.PlaceholderIsNormal | ticket_bot.py:300 | a placeholder normalises to itself, and so does the empty input |
| OrderForm.TipDefaultIsNormal | ticket_bot.py:138 | the default tip "$0" normalises to itself, and empty tip input normalises to it |
| Naming.TypeSlug | ticket_bot.py:528 | the lower-cased, dash-joined type label keeps the label's length and has no spaces and no capitals |
| Naming.ChannelName | ticket_bot.py:523-528 | the name a new ticket channel gets, by type: "order-", the lower-cased user name, "-" and the month-day for New Order; "check-referral" for Check Referral; the type slug, "-" and the lower-cased user name otherwise; its shape is proved in `Naming.ChannelNameParts` and `Naming.ChannelNameWellFormed` |
| Naming.ChannelNameParts | ticket_bot.py:523-528 | New Order names start with "order-" and end with "-" and the date; Check Referral channels are all named "check-referral"; the other types start with their slug and "-" and end with the lower-cased user name |
| Naming.ChannelNameWellFormed | ticket_bot.py:523-528 | for a user name and date without spaces (and a date without capitals) every channel name has no spaces and no capitals |
| Tickets.Lookup | ticket_bot.py:111-114 | a record is found exactly when both the guild and the channel key exist, and it is the stored record |
| Tickets.Put | ticket_bot.py:123-126 | storing a record adds the guild when missing, leaves the other guilds' maps untouched, and changes only the lookup at that (guild, channel) |
| Tickets.EmptyGuildInvisible | ticket_bot.py:105-107 | saving an empty entry for a new guild changes no lookup and keeps the store well formed |
| Tickets.NewTicket | ticket_bot.py:127-143 | the record creation writes: open, created now, no closing time, no preview id, not submitted, the five default details; `Tickets.CreateThenLookup` proves it is what a lookup then returns |
| Tickets.AfterCreate | ticket_bot.py:117-144 | the store after `create_ticket_record`: the new record written at (guild, channel); characterised by `Tickets.CreateThenLookup` and `Tickets.CreateFrame` |
| Tickets.AfterPreview | ticket_bot.py:147-156 | the store after `set_ticket_preview_message_id`: unchanged when guild or ticket is missing, else only the preview id set; characterised by `Tickets.PreviewRule` |
| Tickets.AfterClose | ticket_bot.py:159-167 | the store after `close_ticket_record`: unchanged when guild or ticket is missing, else status closed and the closing time set; characterised by `Tickets.CloseRule` and `Tickets.CloseTwice` |
| Tickets.AfterFieldUpdate | ticket_bot.py:170-180 | the store after `update_order_field`: unchanged when guild or ticket is missing, else one order field replaced; characterised by `Tickets.FieldUpdateRule` |
| Tickets.AfterSubmit | ticket_bot.py:399-401 | the store after the Submit flag write, which indexes the record unguarded and so needs it to exist; characterised by `Tickets.SubmitRule` |
| Tickets.CreateThenLookup | ticket_bot.py:117-144 | after creation, lookup gives an open ticket with the given owner, type, link and time, no preview id, no closing time, not submitted, and exactly the five default details |
| Tickets.CreateFrame | ticket_bot.py:119-126 | creation leaves every other (guild, channel) entry as it was and adds the guild's key if it was missing |
| Tickets.CloseRule | ticket_bot.py:159-167 | closing an existing ticket sets status closed and the closing time and keeps owner, type, link and details; on a missing guild or channel the store is unchanged; other entries are untouched |
| Tickets.CloseTwice | ticket_bot.py:159-167 | closing twice equals closing once at the later time, so the status stays closed |
| Tickets.FieldUpdateRule | ticket_bot.py:170-180 | an update changes only that order field of the targeted ticket; with the guild or ticket absent the store is unchanged; other entries are untouched |
| Tickets.PreviewRule | ticket_bot.py:147-156 | setting the preview id is a no-op when the guild or ticket is absent, otherwise sets only that field; the last write wins |
| Tickets.SubmitRule | ticket_bot.py:399-401 | submission sets the submitted flag and changes nothing else, so status and details are kept |
| Tickets.ClosedStaysClosed | ticket_bot.py:147-180 | no preview, close, field or submit write reopens a closed ticket |
| Tickets.OperationsPreserveWellFormed | ticket_bot.py:117-180 | every store helper keeps "a closing time is recorded exactly when the ticket is closed" |
| Tickets.MayActOnTicket | ticket_bot.py:391 | the one guard of Submit (line 391), the Close button (line 616) and `/close` (line 683): the ticket's creator or a manage-channels holder; `Tickets.TicketStore.SubmitOrder` and `Tickets.TicketStore.CloseTicket` prove their inline checks refuse exactly when it fails |
| Tickets.OrderScenario | ticket_bot.py:398-401 | open a New Order ticket and set its tip: the stored tip is the normalised input; submitting then sets the flag while the ticket stays open and the tip unchanged |
| Tickets.OpenedTicketPreview | ticket_bot.py:560-565 | a new ticket carries a preview id exactly when it is a New Order or has a non-empty link; panel tickets that ask for a link get one, General Support and Check Referral tickets never do |
| Tickets.WantsPreview | ticket_bot.py:561 | the preview condition `ticket_type == "New Order" or order_link`, with an empty link falsy; `Tickets.OpenedTicketPreview` and `Tickets.TicketStore.CreateTicketChannel` prove the preview id is stored exactly when it holds |
| Tickets.TicketStore.GuildTickets | ticket_bot.py:102-108 | returns the guild's tickets and saves an empty entry for an unseen guild, changing nothing else |
| Tickets.TicketStore.CreateTicketRecord | ticket_bot.py:117-144 | the new store is the old one with the default record written at (guild, channel) |
| Tickets.TicketStore.SetPreviewMessageId | ticket_bot.py:147-156 | the new store is the old one with the preview id set on an existing ticket, or unchanged |
| Tickets.TicketStore.CloseTicketRecord | ticket_bot.py:159-167 | the new store is the old one with the existing ticket closed at the given time, or unchanged |
| Tickets.TicketStore.UpdateOrderField | ticket_bot.py:170-180 | the new store is the old one with one order field of an existing ticket replaced, or unchanged |
| Tickets.TicketStore.SubmitFormField | ticket_bot.py:269-372 | a form submission stores its field's normalised value through the field update, and does not check that the ticket exists |
| Tickets.TicketStore.SubmitOrder | ticket_bot.py:384-401 | refuses a channel without a ticket (not a ticket), then anyone but the owner or staff (unauthorised), in that order, leaving the store unchanged; otherwise only sets the submitted flag |
| Tickets.TicketStore.CloseTicket | ticket_bot.py:671-706 | as `/close` and the Close button (lines 604-639): not a ticket, then unauthorised unless owner or staff, store unchanged on refusal; otherwise the ticket is closed at the given time |
| Tickets.TicketStore.AddUser | ticket_bot.py:709-733 | manage-channels is checked before the ticket exists; on success the user is allowed to read and send in the channel |
| Tickets.TicketStore.RemoveUser | ticket_bot.py:736-760 | manage-channels is checked before the ticket exists; on success the user is denied reading the channel |
| Tickets.TicketStore.CreateTicketChannel | ticket_bot.py:513-565 | the channel gets the type's name, the record is created, and the preview id is recorded exactly when the ticket is a New Order or has a non-empty link |
| Status.StatusOf | ticket_bot.py:81-87 | `get_server_status` on a given document: the stored record, or closed with no banner for an unknown guild; proved in `Status.UnknownGuildIsClosed` and `Status.WriteReplaces` |
| Status.StaleBanner | ticket_bot.py:798-807 | an old banner is deleted only when both its message id and channel id are present and non-zero, and the deleted banner is the stored one |
| Status.UnknownGuildIsClosed | ticket_bot.py:81-87 | an unknown guild reads as closed with no message or channel, so there is no banner to delete |
| Status.WriteReplaces | ticket_bot.py:90-99 | a write replaces the guild's whole record and leaves every other guild's record |
| Status.ThreeToggles | ticket_bot.py:796-833 | after open, closed, open only the third banner is stored, and it is the one the next command deletes |
| Status.NamedIndex | ticket_bot.py:780-782 | the exact-name search returns the first channel with that name, or nothing when no channel has it |
| Status.FallbackIndex | ticket_bot.py:784-787 | the fallback search returns the first text channel whose lower-cased name contains "order" or "status", or nothing when none does |
| Status.StatusChannelFor | ticket_bot.py:780-794 | the status channel: the first channel named "order-status", else the first accepted text channel, else none; proved in `Status.StatusChannelChoice` and computed by `Status.FindStatusChannel` |
| Status.StatusChannelChoice | ticket_bot.py:780-794 | a channel named "order-status" always wins; otherwise the choice is an accepted text channel; none is found exactly when both searches fail |
| Status.FindFallbackChannel | ticket_bot.py:784-787 | the loop with `break` returns exactly the first accepted text channel, or none |
| Status.FindStatusChannel | ticket_bot.py:780-787 | the two-stage resolution returns the channel `StatusChannelFor` chooses |
| Status.StatusStore.GetServerStatus | ticket_bot.py:81-87 | returns the guild's record, or closed with no message or channel for an unknown guild |
| Status.StatusStore.SetServerStatus | ticket_bot.py:90-99 | replaces the guild's record entirely, leaves the other guilds alone, and returns the stored record |
| Status.StatusStore.SetStatus | ticket_bot.py:771-833 | refuses an actor without manage-messages, then a guild with no status channel, writing nothing either way; otherwise returns the old banner to delete and stores open/closed, the new message and the chosen channel |

## Left out

- Reading and writing `tickets.json` and `status.json`, including the empty- and corrupted-file fallback (lines 44-78). This is file I/O; both documents are in-memory maps held in class fields.
- Embeds, `build_order_preview_embed`, modals, views, buttons, the select menu and every ephemeral reply (lines 183-240 and the UI code around the modelled logic). These are presentation in the chat library.
- `/panel` and its administrator check (lines 644-668). It only posts the panel.
- Creating the category and the channel, permission overwrites and `set_permissions` (lines 518-539, 725, 752). The model takes the new channel's id as input and returns the permission change as a value.
- Sending, fetching, editing and deleting messages, including the swallowed failure of the old-banner delete (lines 798-809). The model returns the banner to delete. It assumes posting the new banner succeeds and yields its id. The source aborts the command, storing nothing, if that send raises.
- The 10-second wait and the channel deletion after a close (lines 627-629, 694-696). This is asynchronous timing owned by Discord.
- `datetime.now()` (lines 130, 166, 524). The time and the `%m-%d` date are parameters.
- Bot start-up, token loading and the `on_ready` sync (lines 9, 35-40, 245-249, 843-848).
- Interleaving of concurrent handlers. Every handler runs as one sequential read-modify-write. The lost-update race between two handlers is not modelled, and neither is the `KeyError` the Submit flag write would raise if the ticket vanished between its check and its write (hence `Tickets.AfterSubmit` requires the ticket).
- `Text.Lower`: models `str.lower()` on ASCII letters only; other Unicode case mappings are not modelled.
- `Status.FindStatusChannel`: takes `guild.channels` and `guild.text_channels` as two given sequences, in Discord's order; their contents and ordering are Discord's.
- Ids are integers and the ticket type is an enumeration. The source stores the type's label string, and keys its documents by the ids' decimal text, which is one-to-one with the integers.
