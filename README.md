# Advertisement bot: a Dafny model of its core

This project models the core of a Telegram bot that sells advertising slots on
community channels. A user picks a server from a paged catalog, writes the text
of an advertisement, optionally attaches a photo, and submits it. The
advertisement is stored as `pending` and a review request goes to that server's
moderation group, where a moderator approves or rejects it. An approved
advertisement is published to the server's channel first and only then marked
approved. Administrators are the users whose stored role is `admin` plus the ids
listed in the `ADMIN_IDS` environment value. They add servers through a
three-step dialogue, list the catalog, and promote registered users to
administrator.

The model has these modules, one file each:

- `wrappers.dfy`: `Option`, `Result` and the Python exceptions the handlers can raise.
- `strings.dfy`: the Python string operations the bot relies on. These are
  `str.split`, `str.isdigit`, `int()` and `str()` on integers, restricted to ASCII digits.
- `config.dfy`: the `ADMIN_IDS` parser of `config.py` line 7.
- `store.dfy`: the SQLite store of `database/db.py`. It is a class `Database`
  with the `servers` and `advertisements` tables as sequences in rowid order,
  the `users` table as a map, and one AUTOINCREMENT counter per table.
- `transport.dfy`: the Bot API as an `Outbox` that appends one message per
  successful call. A call to a chat in `unreachable` fails and records nothing.
- `fsm.dfy`: aiogram's per-user FSM context, which holds a state and a data dictionary.
- `payload.dfy`: the inline-button payloads `server_<id>`, `page_<n>`,
  `approve_<id>` and `reject_<id>`, how they are parsed back, and how callbacks are routed.
- `pager.dfy`: `get_servers_keyboard`, the catalog page of five servers with
  its "back"/"forward" row.
- `handlers.dfy`: the user handlers of `handlers.py` and the moderation decisions.
- `admin.dfy`: the handlers of `admin_panel.py`.
- `routing.dfy`: which message handler a text reaches. The admin router comes
  first and handlers are tried in registration order (`main.py` lines 29-30).
- `scenarios.dfy`: runs of several handlers in a row, written against the handlers' contracts.

Each handler is a method over the FSM context, the store and the outbox. A
router's state filter becomes a `requires` on the context. An exception that
aiogram would log becomes the outcome `Raised(e)`. The `finally` blocks that
clear the session are modelled, so these methods also show what a failure
leaves behind.

### Where the code differs from its evident intent

The model follows the code in each of these cases. Each case is stated in the
contract of the member named.

- Approve and reject never check that the advertisement is still `pending`. A
  second decision overwrites the first (`Handlers.ApproveEffect`,
  `Handlers.RejectEffect`; `Scenarios.RejectAfterApprove`).
- Rejecting an ad with a photo fails halfway. Its review request is a photo
  message (handlers.py lines 141-148), and `edit_text` (line 261) is refused
  on a photo message. The status is already `rejected` and the author has
  been told, but the review message is not deleted and keeps its buttons, so
  the ad can still be approved from it (`Handlers.RejectEffect`,
  `Handlers.RejectionNotes`; `Scenarios.RejectPhotoThenApprove`).
- An id typed for a new admin passes `isdigit()` however long it is. Above
  2^63 - 1 the SELECT cannot bind it (admin_panel.py line 157), so the handler
  raises with no reply and the session stays in WAITING_FOR_ADMIN_ID
  (`Admin.ProcessAdminId`; `Scenarios.AdminIdTooLarge`).
- An empty advertisement text is accepted. Only a message without any text
  (`None`) fails, and it fails at the insert with the NOT NULL constraint
  (`Store.Database.AddAdvertisement`).
- The chosen server id is not checked against the catalog. SQLite does not
  enforce the foreign key. A submission for a missing server therefore inserts
  the row and then raises `TypeError` on `server[3]`, which leaves an orphan
  pending row (`Handlers.Filed`).
- The session is cleared after a submission whether or not the insert and the
  sends succeeded (`Handlers.Submitted`).
- The "send without photo" button is not tied to a state. It submits whatever
  draft the session holds (`Handlers.HandleNoPhoto`).
- `UPDATE` of a status keeps every other row and field. An unknown id changes
  nothing (`Store.Database.UpdateAdvertisementStatus`).
- Approval publishes to the channel before it writes the status. A failed
  publication leaves the status as it was (`Handlers.Publish`).

## Model

| member | source | states |
|---|---|---|
| Strings.NatToString | handlers.py:71 | `str(n)` of a natural number is a non-empty digit string without a leading zero |
| Strings.IntToString | handlers.py:144 | `str(n)` is non-empty and is all digits exactly when `n >= 0` |
| Strings.ParseInt | config.py:7 | `int(s)` succeeds exactly on an optional sign followed by ASCII digits and gives their value; anything else raises ValueError |
| Strings.IsDigits | admin_panel.py:146 | `isdigit()` holds only of a non-empty string that starts with a digit, so a signed or space-led id that `int()` would accept is refused |
| Strings.NatRoundTrip | handlers.py:90 | the digits of `str(n)` denote `n` |
| Strings.IntRoundTrip | handlers.py:90 | `int(str(n)) == n` for every integer |
| Strings.Split | handlers.py:90 | `s.split(sep)` always has at least one piece |
| Strings.JoinSplit | config.py:7 | joining the pieces of a split with the separator gives the string back |
| Strings.SplitPiecesFree | config.py:7 | no piece of a split contains the separator |
| Strings.SplitJoin | handlers.py:90 | splitting a join of separator-free pieces gives those pieces back |
| Strings.SplitFree | handlers.py:90 | a string without the separator splits into itself alone |
| Strings.SplitAfterFree | handlers.py:90 | a separator-free prefix followed by the separator becomes the first piece, and the rest splits on its own |
| Strings.IntToStringFree | handlers.py:71 | a rendered integer contains no character other than digits and `-`, so no `_`, `,` or newline |
| Config.NonEmpty | config.py:7 | the `if id` filter keeps only non-empty pieces of its input and never adds any |
| Config.ConvertAll | config.py:7 | a successful conversion has one id per piece |
| Config.ConvertAllSpec | config.py:7 | conversion succeeds exactly when every piece is an integer literal, and the i-th id is then the value of the i-th piece |
| Config.ParseAdminIds | config.py:7 | an empty (or unset) `ADMIN_IDS` gives the empty list |
| Config.ParseAdminIdsSpec | config.py:7 | the list has one id per non-empty comma-separated piece, in order, each the value of its piece; a non-numeric piece makes the whole parse fail |
| Config.SplitAround | config.py:7 | splitting at one comma gives the pieces of the left side followed by those of the right side |
| Config.NonEmptyAppend | config.py:7 | the empty-piece filter distributes over concatenation |
| Config.DoubledCommaSkipped | config.py:7 | a doubled comma parses like a single one |
| Config.EdgeCommasSkipped | config.py:7 | leading and trailing commas are ignored |
| Config.ParseRenderRoundTrip | config.py:7 | parsing the comma-joined rendering of any id list gives that list back: nothing is lost, added, reordered or changed |
| Config.ConvertRendered | config.py:7 | converting the rendered pieces gives the ids back |
| Config.NonEmptyKeepsFull | config.py:7 | the filter keeps a list without empty pieces unchanged |
| Config.NonEmptyKeepsEvery | config.py:7 | the `if id` filter keeps every non-empty piece as often as it occurs and drops every empty one; with the concatenation lemma this fixes their order |
| Store.FindBy | database/db.py:86-89 | `SELECT ... WHERE id = ?` with `fetchone()` returns a row of the table with that id, and None exactly when no row has it |
| Store.FindAppended | database/db.py:119-122 | a row appended with a larger id than every earlier row is what the lookup of its id returns |
| Store.FindOther | database/db.py:119-122 | appending a row does not change the lookup of any other id |
| Store.WithStatus | database/db.py:107-113 | the update keeps the table's length, keeps every row with another id, and changes only the status of the rows with that id |
| Store.WithStatusAbsent | database/db.py:107-113 | updating an id that no row has leaves the table as it was |
| Store.WithStatusReadBack | database/db.py:107-113 | after the update the row reads back with the new status and every other field as before |
| Store.WithStatusFacts | database/db.py:107-113 | the update keeps ids ordered and bounded by the sequence, is a no-op for an unknown id, and reads back for a known one |
| Store.Database.constructor | database/db.py:26-63 | a fresh database has empty tables and both sequences at 0 |
| Store.Database.AddServer | database/db.py:65-73 | a NULL column raises IntegrityError and changes nothing; otherwise the row is stored under the next id, larger than every earlier id, that id is returned, and the lookup of it finds the row |
| Store.Database.GetServers | database/db.py:78-81 | one (id, name) pair per stored server, in rowid order, and nothing else |
| Store.Database.GetServer | database/db.py:86-89 | the server with that id, or None exactly when there is none |
| Store.Database.AddAdvertisement | database/db.py:94-105 | a NULL text raises IntegrityError and changes nothing; otherwise exactly one row (id, user, server, text, photo, `pending`) is appended under the next id, it reads back by that id, and every other id reads back as before; the server id is not checked |
| Store.Database.UpdateAdvertisementStatus | database/db.py:107-113 | only the status of the row with that id changes; an unknown id is a no-op; the row reads back with the new status |
| Store.Database.GetAdvertisement | database/db.py:119-122 | the advertisement with that id, or None exactly when there is none |
| Store.Database.AddUserIfNotExists | database/db.py:12-20 | the users table becomes `Registered(old, id, (username, full_name, 'user'))`; nothing else changes |
| Store.Registered | database/db.py:12-20 | the conditional insert adds the id, keeps every existing row (that id's included) as it was, and fills a new row with the given values |
| Store.RegisteredIdempotent | database/db.py:12-20 | registering the same id again changes nothing, whatever the second call carries |
| Store.Database.GetUserRole | database/db.py:134-137 | the stored role, or `user` for an unknown id |
| Store.Database.IsAdmin | database/db.py:127-132 | true exactly when the user is registered with role `admin`; an unknown user is never an administrator |
| Transport.Outbox.Deliver | handlers.py:42-48 | a Bot API call succeeds exactly when the chat is reachable, and only a successful call is recorded |
| Transport.Outbox.Reached | handlers.py:234-241 | the messages that go out from a run of awaited calls: the longest prefix whose chats are all reachable |
| Transport.Outbox.ReachedStops | handlers.py:234-241 | the run stops exactly at the first unreachable chat |
| Transport.Outbox.DeliverAll | handlers.py:234-241 | the awaited calls in order, stopping at the first failure: the outbox grows by `Reached(msgs)`, and the run succeeds exactly when every chat is reachable |
| Fsm.Context.SetState | handlers.py:56 | `set_state` changes the state and keeps the data |
| Fsm.Context.UpdateData | handlers.py:91 | `update_data` sets one key and keeps the state and every other key |
| Fsm.Context.Clear | handlers.py:204 | `clear` empties both state and data |
| Payload.ParseArg | handlers.py:90 | `int(data.split("_")[1])` fails only with IndexError or ValueError |
| Payload.Format | handlers.py:146-147 | the payload `f"{tag}_{n}"` the bot builds for a button |
| Payload.NoUnderscoreIndexError | handlers.py:90 | a payload without an underscore raises IndexError |
| Payload.FormatRoundTrip | handlers.py:71 | every payload `f"{tag}_{n}"` reads back as `n` |
| Payload.TrailingPiecesIgnored | handlers.py:90 | only the piece between the first and the second underscore is read |
| Payload.Tagged | handlers.py:88 | a built payload starts with its tag and `_` |
| Payload.Route | handlers.py:88-246 | the callback handler a payload reaches: the `F.data` filters in registration order, the first that matches wins |
| Payload.FixedPayloadsRoute | handlers.py:114-202 | "add_photo", "no_photo" and "cancel" reach their own handlers, and no other payload reaches those three |
| Payload.RouteServer | handlers.py:88 | `server_<n>` reaches `process_server_selection` |
| Payload.RoutePage | handlers.py:156 | `page_<n>` reaches `handle_page_navigation` and no handler registered before it |
| Payload.RouteApprove | handlers.py:207 | `approve_<n>` reaches `approve_advertisement` and no handler registered before it |
| Payload.RouteReject | handlers.py:246 | `reject_<n>` reaches `reject_advertisement` and no handler registered before it |
| Payload.RouteFormat | handlers.py:88-248 | every payload the bot builds reaches the callback handler of its own tag |
| Pager.PySlice | handlers.py:67 | for bounds 0 <= a <= b, Python's slice is the sub-sequence between the bounds clamped to the length |
| Pager.Shown | handlers.py:64-67 | a page shows at most five servers |
| Pager.GetServersKeyboard | handlers.py:58-86 | page p has one row per server `servers[5p .. 5p+5)` in catalog order, then the pagination row exactly when it is non-empty |
| Pager.PageSlice | handlers.py:64-68 | for page p >= 0, `servers[start:end]` is the run of `Shown` servers starting at 5p |
| Pager.ServerButton | handlers.py:70-73 | a server's button: its name as caption and `server_<id>` as payload |
| Pager.NavRow | handlers.py:76-84 | the pagination row is non-empty exactly when p > 0 or servers remain after page p |
| Pager.EveryServerListed | handlers.py:64-73 | server j is on page `j / 5`, in row `j % 5` |
| Pager.ServerButtonsReadBack | handlers.py:70-73 | every server button routes to the server selection and reads back as its server's id |
| Pager.PageButton | handlers.py:78-80 | a `page_<p>` payload reaches the page navigation and reads back as p |
| Pager.NavButtonsReadBack | handlers.py:76-84 | "back" is there exactly when p > 0 and leads to p-1; "forward" is there exactly when the next page shows a server and leads to p+1; both route to the page navigation |
| Pager.TwelveServers | handlers.py:58-86 | with twelve servers, page 0 shows servers 1-5 and only "forward", and page 2 shows servers 11-12 and only "back" |
| Handlers.HasAdminAccess | handlers.py:23 | access exactly for a stored `admin` role or an id in `ADMIN_IDS` |
| Handlers.MainMenu | handlers.py:19-29 | the "create" row always comes first; the admin-panel row is there exactly for those with access |
| Handlers.ReviewButtonsReadBack | handlers.py:188-193 | the review request's two buttons reach approve and reject and both read back the advertisement's id |
| Handlers.ReviewRequest | handlers.py:141-148 | the review request goes to the moderation group, as a photo exactly when there is one, and its caption ends with the ad text (also lines 185-194 for the text-only form) |
| Handlers.Publication | handlers.py:217-230 | approval posts a photo exactly when the stored photo id is non-empty, carrying the ad text as caption, and the text alone otherwise |
| Handlers.Start | handlers.py:31-48 | registers the sender without touching an existing row, clears the session, and greets with the main menu |
| Handlers.CreateAdvertisementEntry | handlers.py:50-56 | shows catalog page 0, then enters WAITING_FOR_SERVER; the data is kept |
| Handlers.HandlePageNavigation | handlers.py:156-162 | a malformed payload raises; otherwise the requested page replaces the message; the session is not touched |
| Handlers.ProcessServerSelection | handlers.py:88-99 | stores the parsed `server_id` (unchecked) and enters WAITING_FOR_TEXT; a malformed payload raises and changes nothing |
| Handlers.ProcessText | handlers.py:101-112 | stores the text (None or empty included) and enters CONFIRM_PHOTO_OPTION |
| Handlers.HandleAddPhoto | handlers.py:114-117 | asks for the photo and enters WAITING_FOR_PHOTO |
| Handlers.Submit | handlers.py:121-154 | without both draft keys nothing is stored and the session is cleared; with both the draft is filed and the session is cleared whatever happens |
| Handlers.Submitted | handlers.py:119-154 | the effect of `process_photo` / `handle_no_photo`: without both draft keys nothing is stored and the user is told to start over; with them the draft is filed and the session cleared |
| Handlers.File | handlers.py:129-151 | exactly one pending row is inserted before the server lookup; a missing server raises TypeError and leaves the row; otherwise the review request goes to the moderation group, then the acknowledgement to the author |
| Handlers.Filed | handlers.py:129-151 | the effect of filing a draft: one pending row appended with the next id, then the review request and the acknowledgement, each only if the one before it was delivered |
| Handlers.Forward | handlers.py:141-151 | the acknowledgement is sent only after the review request went out |
| Handlers.ProcessPhoto | handlers.py:119-154 | submission with the photo's file id |
| Handlers.HandleNoPhoto | handlers.py:165-199 | submission without a photo, from any state |
| Handlers.CancelAdvertisement | handlers.py:202-205 | clears the session from any state; the store is not touched |
| Handlers.ApproveAdvertisement | handlers.py:207-243 | a malformed payload raises and changes nothing; otherwise the approval of the parsed id |
| Handlers.Approve | handlers.py:211-241 | an unknown id changes nothing; a missing server raises TypeError before any send or write; a failed publication leaves the status; otherwise the ad is published, then marked approved whatever its status was, then the notes follow |
| Handlers.ApproveEffect | handlers.py:207-244 | the effect of `approve_advertisement` on the store and the outbox, case by case: unknown id, missing server, failed publication, success |
| Handlers.Publish | handlers.py:220-241 | the status is written only after the post reached the channel, and no other advertisement changes |
| Handlers.ApprovalNotes | handlers.py:234-241 | the calls after a successful publication: the author's notice, the answer in the moderation chat, and the deletion of the review message, in that order |
| Handlers.Decide | handlers.py:232-241 | the status write of a decision followed by its notes, which stop at the first failure |
| Handlers.NotesReach | handlers.py:234-241 | all notes of a decision arrive exactly when the author and the moderation chat are reachable |
| Handlers.RejectAdvertisement | handlers.py:246-264 | a malformed payload raises and changes nothing; otherwise the rejection of the parsed id |
| Handlers.Reject | handlers.py:250-262 | an unknown id changes nothing; otherwise the ad is marked rejected whatever its status was, then the author is told; a text review message is then edited and deleted, while for an ad with a photo `edit_text` on the photo message raises and the message stays |
| Handlers.RejectEffect | handlers.py:246-262 | the effect of `reject_advertisement`: an unknown id changes nothing; otherwise the status becomes rejected and the notes go out; it ends in `Done` only for an ad without a photo whose author and moderation chat are reachable |
| Handlers.RejectionNotes | handlers.py:255-262 | the author's notice comes first; the edit and the deletion of the review message follow exactly when the review message is text, so a photo review message is never deleted |
| Admin.AdminPanel | admin_panel.py:40-46 | the admin menu exactly for those with access, a refusal for everyone else |
| Admin.BackToMainMenu | admin_panel.py:49-51 | answers with the main menu; the session is not touched |
| Admin.AddServerStart | admin_panel.py:55-61 | ignored without access; otherwise asks for the name and enters WAITING_FOR_SERVER_NAME |
| Admin.LinesAppend | admin_panel.py:78-79 | one more server appends exactly its line to the listing |
| Admin.ListStep | admin_panel.py:78-79 | each loop iteration extends the response by the next server's line |
| Admin.FormatServerList | admin_panel.py:77-79 | the loop builds the header followed by one `"{id}. {name}\n"` per server, in order |
| Admin.LinesSplit | admin_panel.py:78-79 | the lines read back one per server, in catalog order, when no name holds a newline |
| Admin.HeaderSplit | admin_panel.py:77 | the header reads back as the title and a blank line |
| Admin.ServerListReadBack | admin_panel.py:77-81 | the listing reads back as title, blank line, one line per server in order, and a final empty piece |
| Admin.ServerListText | admin_panel.py:77-81 | the listing starts with its title, and there is more after the title exactly when the catalog is non-empty |
| Admin.ListServers | admin_panel.py:64-81 | ignored without access; "no servers yet" for an empty catalog; otherwise the listing |
| Admin.BackToAdminPanel | admin_panel.py:86-89 | the "back" branch of a step clears the session and shows the admin menu |
| Admin.ProcessServerName | admin_panel.py:84-93 | "back" clears the session; otherwise stores `server_name` and enters WAITING_FOR_CHANNEL_ID |
| Admin.ProcessChannelId | admin_panel.py:96-105 | "back" clears the session; otherwise stores `channel_id` and enters WAITING_FOR_MODERATION_GROUP |
| Admin.ProcessModerationGroup | admin_panel.py:108-128 | "back" clears the session and adds nothing; otherwise `add_server(name, channel, text)` with the collected values in that order; the session is cleared whether that succeeded or raised |
| Admin.StoreServer | admin_panel.py:115-125 | a server is added exactly when name, channel and group are all present; the success reply goes out after a successful insert and the error reply otherwise, each only if the chat is reachable |
| Admin.NewServer | admin_panel.py:115-121 | the server `add_server` stores: both collected keys with a text each, and a text for the moderation group; otherwise nothing is stored |
| Admin.AddAdmin | admin_panel.py:131-139 | a refusal without access; otherwise asks for the id and enters WAITING_FOR_ADMIN_ID |
| Admin.ProcessAdminId | admin_panel.py:141-175 | a message without text raises AttributeError; a non-digit input re-prompts, keeps the session and writes nothing; an id above 2^63 - 1 raises OverflowError at the SELECT with no reply, nothing written and the session kept; otherwise an unknown id clears the session and writes nothing, and a registered user becomes admin with every other user unchanged |
| Routing.BackBypassesAddServerSteps | admin_panel.py:49-51 | as registered, "back" in an add-server step reaches `back_to_main_menu`, never the step's own handler |
| Routing.IntendedRouting | admin_panel.py:84-89 | the intended routing differs from the registered one exactly for "back" in an add-server step, which it hands to that step |
| Routing.BackElsewhere | admin_panel.py:49-51 | in any other state "back" reaches `back_to_main_menu` under both routings |
| Routing.RouteMessage | main.py:29-30 | the handler a message reaches as registered: the admin router before the user router, each router's handlers in order, a handler without a state filter matching in every state |
| Routing.IsStart | handlers.py:31 | the `Command("start")` filter: the message has a text whose first space-separated word is `/start` |
| Routing.RouteAfterBack | admin_panel.py:55-175 | the handlers registered after `back_to_main_menu`, in registration order, followed by the user router's message handlers |
| Routing.RouteMessageIntended | admin_panel.py:84-113 | the routing the step handlers' "back" branches are written for: in an add-server step the step sees "back" first |
| Scenarios.FirstServer | database/db.py:65-73 | the first server of a fresh store gets id 1 |
| Scenarios.DraftAd | handlers.py:88-112 | choosing server 1 and typing a text leaves exactly those two keys in the session |
| Scenarios.SubmitDraft | handlers.py:165-199 | sending the draft without a photo stores the first ad as pending under id 1 and ends the session |
| Scenarios.ApproveStored | handlers.py:207-241 | approving that ad publishes it, and it reads back as approved with every other field unchanged |
| Scenarios.RejectAfterApprove | handlers.py:246-262 | a rejection after an approval overwrites the status, since neither handler checks for `pending` |
| Scenarios.RejectPhotoThenApprove | handlers.py:246-262 | rejecting an ad with a photo raises after the status write, records no deletion of the review message, and a later approval from that message still publishes and marks it approved |
| Scenarios.AdminIdTooLarge | admin_panel.py:146-157 | `str(2**63)` passes `isdigit()`, then the SELECT raises OverflowError and the session stays in WAITING_FOR_ADMIN_ID |
| Scenarios.BackDuringAddServer | admin_panel.py:49-51 | as registered, "back" in WAITING_FOR_SERVER_NAME shows the main menu, keeps the session in the step, and the next text is stored as the server name |

## Left out

- Message texts, Markdown and keyboard layout details are not modelled. Every fixed text is a `Notice` constant and keyboards keep only their captions and payloads.
- `created_at` is left out because the model has no clock.
- Connection handling (`__init__`, `close`) and logging are left out, along with environment reading (`load_dotenv`, `os.getenv`) and the unused `States` constants of `config.py`. The parser takes the raw `ADMIN_IDS` text as a parameter.
- Concurrency is left out: the model runs handlers one after another. Two moderators racing on the same advertisement are not modelled.
- `int()` and `isdigit()` are limited to ASCII digits. Unicode digits, surrounding whitespace and `_` separators, which Python's `int()` also accepts, are not modelled.
- The `/start` command filter is only modelled as the first space-separated word of the text being `/start`. aiogram's `Command` filter also reads a media caption and splits on any whitespace, so a photo captioned "/start" and the text "/start\nx" reach `start` in the bot but not in the model. The `/start@botname` form and deep-link arguments are not modelled either.
- Admin.StoreServer: the fallback to the error reply after a successful insert (admin_panel.py:123-125, when the success reply itself fails) cannot happen in the model. A send fails only for an unreachable chat, which stays unreachable, so the fallback send fails as well. The contract states the delivered reply for that reason. A transient failure of one call is not modelled.
- Store.Database.GetServers: the rows come back in insertion (rowid) order. `get_servers` has no ORDER BY, so this is SQLite's usual behaviour for a plain table scan, not a guarantee of SQL.
- The error reply of `process_moderation_group` carries `str(e)`. The model sends a single `AddServerFailed` notice instead.
- Telegram's 4096-character limit on a message text is not modelled. The review request adds about 20 characters in front of the ad text (handlers.py:185-194), so a text near the limit makes that send fail, with the pending row left behind. A long `list_servers` listing (admin_panel.py:77-81) fails the same way. In the model a text send fails only for an unreachable chat.
- Telegram's 1024-character limit on a photo caption is not modelled. A photo ad whose text is longer makes the review `send_photo` (handlers.py:141-148) fail, leaving the pending row without an acknowledgement to the author, and makes the channel post on approval (handlers.py:220-225) fail, so its status never changes. In the model a photo send fails only for an unreachable chat.
- The only send failure modelled is an unreachable chat, apart from `edit_text` on a photo message, which always fails. Other Bot API errors (rate limits, malformed Markdown, a message too old to delete) are not modelled.
- SQLite's 64-bit INTEGER range is modelled only where a typed number reaches a query (`Admin.ProcessAdminId`). Every other bound id is a Telegram user id or an id the bot itself built into a payload, and those fit in 64 bits.
- `process_admin_id` opens its own connection to `bot.db`. The model writes to the same `users` table through the `Database` object.
- The startup check in `main.py` and the polling loop are not modelled. The order in which `main.py` includes the routers is modelled in `routing.dfy`.

## Findings

| source | as written | input that shows it | evidently intended | confidence | as-written member | corrected member |
|---|---|---|---|---|---|---|
| admin_panel.py:49-51 | `back_to_main_menu` filters only on the text "⬅️ Назад" and is registered before the add-server step handlers. `main.py` lines 29-30 include this router first. So "back" typed in WAITING_FOR_SERVER_NAME, WAITING_FOR_CHANNEL_ID or WAITING_FOR_MODERATION_GROUP reaches it and not the step. The steps' own "back" branches (lines 86-89, 98-101, 110-113) are dead, and the session stays in the step. | an admin in WAITING_FOR_SERVER_NAME sends "⬅️ Назад", then "Main". The main menu is shown, and "Main" is then stored as the server name (`Scenarios.BackDuringAddServer`) | "back" in an add-server step clears the session and returns to the admin panel | high, not executed | Routing.BackBypassesAddServerSteps | Routing.IntendedRouting |
