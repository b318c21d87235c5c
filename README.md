# Resource catalog and reaction handling of the Discord chat bot

This project is a Dafny model of the core of a Discord bot that keeps a
catalog of links sorted by security category and reacts to emoji. It
covers four parts of the bot:

- **The category list and resource record** (`classes.dfy`). These are the
  eleven slash-command choices, each a display name and a stored value, and
  the `(url, category_id)` record that the store inserts.
- **The SQLite store** (`database.dfy`). The class `Database.Store` holds the
  rows of the `categories` and `resources` tables. SQLite gives each new row
  the largest rowid plus one, and no code deletes rows, so the model fixes
  every id to its row's position plus one.
  - Start-up seeds the categories with `create_categories` and
    `create_tables`.
  - `create_resource` inserts a link. An identical (url, category) pair is
    refused.
  - The pure queries `fetch_category`, `fetch_category_id`, `fetch_resource`
    and `fetch_resources` become functions, and their contracts state which
    row they return.
  - `fetch_all_resources` builds a dict in a loop. It is modelled as a
    method whose contract ties its result to the ordered category keys and
    the per-category url lists.
- **The resource commands** (`resources.dfy`).
  - `add_resource` checks that the link starts with an http(s) scheme,
    calls the store, and turns each of its outcomes into a response.
  - `get_resources` lists one category or the whole catalog. Each
    category's links are listed without repeats.
- **The emoji handler** (`emoji.dfy`).
  - A classifier decides from the emoji, the message and the direction
    whether the event grants a role, revokes it, pins, unpins, or is
    ignored.
  - The executor works on `Emoji.Client`, an abstract view of the platform:
    guilds with their roles and members' roles, and channels with their
    messages and pins.
  - Every exit path is modelled as an `Outcome`. A `RuntimeError` is caught
    and sent to the bot-logs channel. An exception that nothing catches
    (`AttributeError`, `Forbidden`, `NotFound`) escapes.

`formatting.dfy` holds the pieces of the response and logging helpers that
the core uses:
- the three response kinds;
- the bot-logs channel, modelled as a list of sent texts;
- the text `log_interaction` builds;
- Python's `str()` of a non-negative integer, `Formatting.IntToString`. A
  round trip through the decimal value shows that it denotes its argument.

Facts the model records about the source:
- `create_categories` inserts the eleven categories at every start-up. It
  has no "only if empty" guard, and `categories.name` has no UNIQUE
  constraint. A second start-up therefore appends eleven rows with the
  same names. A name keeps resolving to the row of the first start-up
  (`Database.RestartScenario`, `Database.FetchCategoryIdStable`). The model
  follows the code: there is no one-time seed and no unique column.
- The http(s) check happens in the command, not in the store. The store
  accepts any url.
- `resources.category_id` is declared with a foreign key to a `users`
  table that does not exist. SQLite does not enforce foreign keys unless
  they are switched on, so the declaration has no effect. The store's
  invariant instead records the property the code keeps by construction:
  every stored category id names an existing category row.
- The warning texts of `get_category_resources` and `get_all_resources`
  are kept exactly as the source file spells them. Their flag emoji and
  accented letter are UTF-8 bytes read as Windows-1252.

## Model

| member | source | states |
|---|---|---|
| Classes.CategoryChoicesCount | chatbot/classes.py:7-19 | the category list offers exactly eleven choices |
| Classes.CategoryValuesDistinct | chatbot/classes.py:7-19 | no two choices share a stored value, so a value names one category |
| Classes.CategoryNamesDistinct | chatbot/classes.py:7-19 | no two choices share a display name |
| Formatting.LogsChannel.constructor | chatbot/bot_commands/formatting.py:31-41 | a fresh bot-logs channel has sent nothing |
| Formatting.LogsChannel.LogBotAction | chatbot/bot_commands/formatting.py:92-116 | logging a bot action appends exactly that text to the channel and sends nothing else |
| Formatting.IntToString | chatbot/bot_commands/emoji.py:77 | the decimal text of an id is non-empty, made of digits only, and has no leading zero unless it is "0" |
| Formatting.DecimalRoundTrip | chatbot/bot_commands/emoji.py:77 | reading the decimal text back gives the same number |
| Formatting.IntToStringInjective | chatbot/bot_commands/emoji.py:124 | different ids print differently, so a message names one user or channel |
| Database.FetchCategoryId | chatbot/database.py:112-139 | None exactly when no row has the name; otherwise the id of the first row (in rowid order) that has it |
| Database.FetchCategory | chatbot/database.py:82-109 | None exactly when no row has the id; otherwise the name of the first row with that id |
| Database.UrlsIn | chatbot/database.py:142-166 | the url list gathered for one category is no longer than the table |
| Database.UrlsInMembers | chatbot/database.py:142-166 | a url is in a category's list iff some row of that category holds it |
| Database.UrlsInConcat | chatbot/database.py:142-166 | gathering over two tables in a row gives the first list followed by the second |
| Database.UrlsInEmpty | chatbot/database.py:142-166 | a category's list is empty iff the category is not a key of the dict |
| Database.CategoryKeys | chatbot/database.py:142-166 | the dict's keys are pairwise distinct and no more numerous than the rows |
| Database.CategoryKeysMembers | chatbot/database.py:142-166 | an id is a key iff some row has that category id |
| Database.FetchResources | chatbot/database.py:169-199 | an unknown or falsy category gives []; otherwise the list is `Database.UrlsIn` of the category: one url per row of that category, in rowid order, so a url is listed iff a row of that category holds it |
| Database.FetchResource | chatbot/database.py:202-240 | a row is found iff the category resolves to a truthy id and a row holds that exact (url, id) pair; the row returned is the first such row in rowid order |
| Database.FetchCategoryByPosition | chatbot/database.py:82-109 | in a table whose ids are positions, every id from 1 to the size names its own row |
| Database.FetchCategoryIdStable | chatbot/database.py:33-49 | rows appended later (a repeated seeding) never change the id a name resolves to |
| Database.FetchCategoryIdDistinct | chatbot/database.py:112-139 | two names that both resolve get different ids when they differ |
| Database.SeededChoicesResolve | chatbot/database.py:33-49 | after a seeding, every category choice resolves to a truthy id, so `add_resource` never meets the "no category" path for a listed choice |
| Database.Store.constructor | chatbot/database.py:16-30 | a new database has two empty tables, and both rowid counters start at 1 |
| Database.Store.CreateCategories | chatbot/database.py:33-49 | appends one row per choice, in list order, with consecutive fresh ids and the choice's value; earlier rows and the resources are untouched |
| Database.Store.CreateTables | chatbot/database.py:52-65 | existing tables are kept; the categories are seeded again as above |
| Database.Store.CreateResource | chatbot/database.py:243-288 | the row it inserts is built from the record's tuple (`Classes.AsTuple`: url, then category id); the duplicate error iff the (url, category) pair is stored; None iff the category does not resolve to a truthy id; otherwise one row is appended with a fresh positive id and no duplicate pair; nothing changes unless a row is created |
| Database.Store.FetchAllResources | chatbot/database.py:142-166 | the dict has one entry per category key in first-appearance order, each holding that category's urls in rowid order; no entry is empty and together they hold every row once |
| Database.DuplicateScenario | chatbot/database.py:243-288 | on a seeded database, a first link gets id 1, the same pair again is refused with the duplicate message, and the same link under another category gets id 2 |
| Database.RestartScenario | chatbot/database.py:33-65 | two start-ups leave 22 category rows, "crypto" at ids 1 and 12, and "crypto" resolves to id 1 |
| Emoji.Classify | chatbot/bot_commands/emoji.py:128-165 | ignored iff the emoji is not one of the three; a role step iff the emoji is a role emoji on the roles message; otherwise pin or unpin; add vs remove follows the event's direction |
| Emoji.PushPinAlwaysPins | chatbot/bot_commands/emoji.py:148-162 | the push-pin emoji pins on add and unpins on removal, on any message |
| Emoji.RoleEmojiElsewherePins | chatbot/bot_commands/emoji.py:148-162 | a role emoji on any other message is handled as a pin request |
| Emoji.MissingPermissions | chatbot/bot_commands/emoji.py:122-125 | the permission failure starts with the action and names the channel's id |
| Emoji.SetMemberRoles | chatbot/bot_commands/emoji.py:47-84 | changing one member's roles in one guild keeps every guild, the guild's roles and permission, and every other member's roles as they were |
| Emoji.GrantOutcome | chatbot/bot_commands/emoji.py:19-48 | `add_role` succeeds iff there is a member, the guild, the role and the right to give it (guild looked up with `Emoji.GetGuild`); no member escapes with AttributeError; a missing guild or role fails with its exact text; a missing right escapes with Forbidden |
| Emoji.Granted | chatbot/bot_commands/emoji.py:47 | after a successful `add_role` the member holds exactly its old roles plus the emoji's role |
| Emoji.GrantTwice | chatbot/bot_commands/emoji.py:19-48 | a second identical reaction-add succeeds again and leaves the platform as the first one did |
| Emoji.RevokeOutcome | chatbot/bot_commands/emoji.py:51-85 | `remove_role` succeeds iff the guild, the member (by id), the role and the right to take it are all there; otherwise it fails with the text of the first missing one, or escapes with Forbidden |
| Emoji.Revoked | chatbot/bot_commands/emoji.py:84 | after a successful `remove_role` the member holds exactly its old roles minus the emoji's role |
| Emoji.RevokeTwice | chatbot/bot_commands/emoji.py:51-85 | a second identical reaction-removal succeeds again and changes nothing more |
| Emoji.GrantThenRevoke | chatbot/bot_commands/emoji.py:19-85 | removing a role the member just gained, and did not hold before, restores the platform exactly |
| Emoji.PinOutcome | chatbot/bot_commands/emoji.py:88-125 | the pin request succeeds iff (to pin) there is a member, and the channel, the message and both permissions are there; a missing member or channel escapes with AttributeError; a missing message escapes with NotFound; a missing permission fails with the text naming the channel |
| Emoji.SetPinned | chatbot/bot_commands/emoji.py:117-120 | the message ends pinned iff it was a pin request; no other message's pin, no other channel and no permission changes |
| Emoji.PinTwice | chatbot/bot_commands/emoji.py:88-125 | pinning or unpinning a second time succeeds again and changes nothing more |
| Emoji.PinThenUnpin | chatbot/bot_commands/emoji.py:88-125 | unpinning a message that was just pinned, and was not pinned before, restores the channels exactly |
| Emoji.Client.AddRole | chatbot/bot_commands/emoji.py:19-48 | ends as `Emoji.GrantOutcome` says; Done iff every check passes, and then the platform becomes `Emoji.Granted`; otherwise nothing changes |
| Emoji.Client.RemoveRole | chatbot/bot_commands/emoji.py:51-85 | ends as `Emoji.RevokeOutcome` says; Done iff every check passes, and then the platform becomes `Emoji.Revoked`; otherwise nothing changes |
| Emoji.Client.HandlePinRequest | chatbot/bot_commands/emoji.py:88-125 | ends as `Emoji.PinOutcome` says; Done iff every step goes through, and then the channels become `Emoji.SetPinned`; otherwise nothing changes |
| Emoji.Client.ProcessEmojiReaction | chatbot/bot_commands/emoji.py:128-165 | runs the step `Emoji.Classify` picks and ends with that step's outcome and new state; an ignored emoji changes nothing; a caught failure (a missing guild, member, role or permission) is sent to the logs channel as exactly one entry and changes no state; nothing else is logged |
| Resources.AddResource | chatbot/bot_commands/resources.py:22-74 | a link without an http(s) scheme is refused and logged with no store change; a duplicate gives the duplicate message; an unresolved category gives the generic error and is logged; success iff none of these, and then exactly one row with that url and category is appended; the logged texts start with the `log_interaction` text (`Formatting.LogInteraction`) |
| Resources.GetCategoryResources | chatbot/bot_commands/resources.py:114-151 | a listing iff the category resolves and has rows, with one section under the display name holding exactly its links (the set built by `Resources.LinkSet`); otherwise the "no resources in" warning |
| Resources.GetAllResources | chatbot/bot_commands/resources.py:77-111 | a warning iff the catalog is empty; otherwise one section per category key, headed by the stored category name and holding exactly that category's links |
| Resources.ListingProperties | chatbot/bot_commands/resources.py:86-111 | the sections built from the grouped rows name stored categories and hold exactly their urls |
| Resources.GetResources | chatbot/bot_commands/resources.py:154-183 | a given category is answered by the one-category listing; with no category, the "no resources" warning iff the catalog is empty, otherwise one section per category key with the stored category name and exactly that category's links |

## Left out

- Raw SQL: the connection, `commit`, cursors and the text of the queries are not modelled. Each query appears as the function or method whose contract states the rows it reads or writes.
- The `sqlite3.Error` and `IntegrityError` handlers in the store only log to the program logger. A failing disk or a locked database is outside the model, so these paths are not modelled.
- The 64-bit rowid limit is not modelled; ids are unbounded integers.
- Concurrency is not modelled. The duplicate check and the insert in `create_resource` are two statements, and the model runs them as one step.
- The program logger (`programLogger`) output is not modelled; it is not visible to users.
- Responses are not modelled as embeds. A response is its kind plus its text or its sections. The colours, the title, the ephemeral flag and the `delete_after` timers are left out.
- The order of links within a listed section is not modelled: the source joins a Python `set`, whose order is not defined, so each section is a Dafny `set`.
- Resources.AddResource and Resources.GetResources: the `CommandInvokeError` path ("Wrong command.") of `add_resource` and of `get_resources` is not modelled. It depends on the platform's command dispatch, which is not part of this model. The user and command names that `log_interaction` reads from the interaction are parameters.
- Formatting.LogsChannel.LogBotAction: an unset logs channel and a failing send are not modelled. In the source the first only skips the send and the second raises a `RuntimeError` that escapes the handler.
- Emoji.Client: the platform's calls (`get_guild`, `get_role`, `get_member`, `get_channel`, `fetch_message`, `add_roles`, `remove_roles`, `pin`, `unpin`) are modelled by their effect on the maps of guilds and channels. The network and rate limits are not part of this model.
- Emoji.Client.HandlePinRequest: the `HTTPException` that `pin` raises when a channel is at its pin limit is not modelled.
- The bot's start-up, command registration and event wiring (`main.py`, `client.py`, `help.py`) are not part of this model. The event wiring shows only that an add event passes `is_added` true and a removal passes false (chatbot/client.py:160-174). That is the `isAdded` parameter here.
- Whether the tables exist is not modelled: `Store.constructor` starts from two empty tables, which is where `CREATE TABLE IF NOT EXISTS` leaves a new database.
