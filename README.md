# Primary-Role bot: a verified model

Primary-Role is a Discord bot that enforces one rule per server. A member who
lacks the server's *primary role* may hold no other role. The bot keeps a
per-server configuration table in SQLite: the primary role, and whether
automatic (reactive) scanning is on. It enforces the rule in two ways:

- reactively, on every member update, when auto scan is on;
- in bulk, through the `/sweep` command, which fetches the whole membership
  (paging from 1000 members on) and strips every role from non-compliant members.

Administrators configure it with `/enable`, `/disable`, `/primaryrole` (and, in
the trait-based handlers that the dispatcher does not call, `status` and
`primaryrole set|get`).

The model has these parts:

- `ids.dfy` (`Ids`): snowflake ids, the SQLite integer range, and decimal formatting with its round trip.
- `data.dfy` (`Data`): the configuration table as a `map` from guild to row.
  - Pure functions say what each SQL statement does to the table.
  - The class `AppData` owns the table. Its methods are proved against those functions.
- `commands.dfy` (`Commands`): command and option shapes, `get_option`, and a handler's `Outcome` (reply and new table).
- `bot_management.dfy`, `enable.dfy`, `disable.dfy`: `enable`, `disable` and `status`.
- `set_primary_role.dfy`, `primary_role.dfy`: the validation chain that sets the primary role, and the `set`/`get` subcommands.
- `sweep.dfy` (`Sweep`):
  - member classification and the removal loop;
  - the paging loop, which terminates for any membership and, over an ascending one, collects each member at most once and in order, and every member when no fetch fails;
  - the early-exit chain of `/sweep`.
- `handler.dfy` (`Handler`): the gateway handler's three events.
  - `interaction_create`: dispatch by command name.
  - `ready`: register every guild.
  - `guild_member_update`: reactive enforcement.

The platform and the database's failures are parameters, never effects:

- a `bool` for each failing write or read;
- `Option` values for platform fetches that can fail;
- functions `nat -> bool` for the outcome of the k-th removal or registration;
- the full membership that paged fetches read from, with the index of a failing fetch.

Where the code and its documentation disagree, the model follows the code:

- The reactive path removes the roles listed in the update event. It does not
  re-read the member's current roles. It has no bot exemption and no empty-role
  exemption, unlike the sweep (`Handler.ReactiveHasNoExemptions`).
- `enable` on a guild that has no row replies with success, but the guild still
  reads as disabled. The `UPDATE` finds no row and the missing row reads as
  false (`BotManagement.EnableUnregisteredStaysDisabled`).
- No per-server lock prevents two sweeps at once. Each sweep is modelled as a
  single call.
- `status` and the two-subcommand `primaryrole` handler exist, but the
  dispatcher in `src/main.rs` never routes to them. The dispatcher sends
  `primaryrole` to the stand-alone module. `Handler.InteractionCreate` dispatches
  exactly the four names `src/main.rs` matches.

## Model

| member | source | states |
|---|---|---|
| Ids.Decimal | src/commands/primary_role.rs:55 | the decimal text of a number is non-empty, all digits, without a leading zero |
| Ids.DecimalRoundTrip | src/commands/set_primary_role.rs:52 | parsing the formatted id gives the id back |
| Ids.DecimalInjective | src/commands/primary_role.rs:55 | two different ids never format to the same text |
| Data.AppData.constructor | src/data.rs:13-30 | opening the store keeps the table already stored there |
| Data.AppData.NewServer | src/data.rs:35-41 | success or error as the storage decides; on success the guild gains a fresh row only if it had none |
| Data.AppData.UpdateServerPrimaryRole | src/data.rs:47-59 | on success only an existing row's role column changes; a missing row is left missing |
| Data.AppData.IsAutoScanEnabled | src/data.rs:64-82 | enabled exactly when the read works, the row exists and its stored value is non-NULL and non-zero |
| Data.AppData.DisableAutoScan | src/data.rs:87-94 | on success an existing row's flag becomes 0; nothing else changes |
| Data.AppData.EnableAutoScan | src/data.rs:99-106 | on success an existing row's flag becomes 1; nothing else changes |
| Data.AppData.GetPrimaryRole | src/data.rs:113-132 | a role only for a working read of a row whose value is non-NULL and positive, and then that stored value exactly |
| Data.RegisterUnseen | src/data.rs:35-41 | a first registration creates a row with auto scan on and no role, and adds no other guild |
| Data.RegisterIdempotent | src/data.rs:37 | `INSERT OR IGNORE`: registering a registered guild changes nothing; twice equals once |
| Data.UpdatesCreateNoRow | src/data.rs:52-58 | the updates never create a row; an unregistered guild stays disabled with no role |
| Data.SetRoleFrame | src/data.rs:47-59 | setting the role touches only that guild's role column |
| Data.SetAutoScanFrame | src/data.rs:87-106 | enabling or disabling touches only that guild's flag and keeps its role |
| Data.AutoScanReflectsLast | src/data.rs:64-106 | the flag reads as the last enable or disable, on a registered guild only |
| Data.SetAutoScanIdempotent | src/data.rs:87-106 | setting the same flag twice is setting it once |
| Data.PrimaryRoleNone | src/data.rs:113-132 | no role is read exactly for a missing row, a NULL value or a value below one |
| Data.PrimaryRoleRoundTrip | src/data.rs:47-59 | on a registered guild the role stored is the role read back |
| Data.AutoScanScenario | src/data.rs:146-159 | two guilds registered and the second disabled: first enabled, second disabled, unknown guild disabled |
| Commands.FirstMatchIsFirst | src/commands/commands.rs:18-26 | no match exactly when no option has the name; otherwise an element with the name and none before it |
| Commands.GetOption | src/commands/commands.rs:18-26 | the scan returns the first option with the name, or None exactly when there is none |
| BotManagement.EnableRun | src/commands/bot_management.rs:15-25 | reply and new table are those of the enable transition: no guild, database error, or done with the flag set |
| BotManagement.DisableRun | src/commands/bot_management.rs:45-55 | reply and new table are those of the disable transition |
| BotManagement.StatusRun | src/commands/bot_management.rs:76-83 | the reply is the no-guild message, or the prefix and "enabled" exactly when the flag reads as on |
| BotManagement.EnableEffect | src/commands/bot_management.rs:15-25 | each error path replies with its own message and leaves the table; success leaves a registered guild enabled, keeps its role and changes no other row |
| BotManagement.DisableEffect | src/commands/bot_management.rs:45-55 | the same for disable: a guild reads as disabled afterwards and nothing else changes |
| BotManagement.DisableTwice | src/commands/bot_management.rs:45-55 | disabling twice leaves the same table as once |
| BotManagement.StatusReflectsStore | src/commands/bot_management.rs:76-83 | with a guild and a working read, "enabled" is reported exactly when the flag is on, otherwise "disabled" |
| BotManagement.EnableUnregisteredStaysDisabled | src/commands/bot_management.rs:15-25 | enable on a guild without a row replies success and the guild still reads disabled |
| BotManagement.EnableDisableStatus | src/commands/bot_management.rs:15-83 | on a registered guild, enable then status reports enabled; disable then status reports disabled |
| Enable.Run | src/commands/enable.rs:14-24 | reply and new table are the enable transition's |
| Disable.Run | src/commands/disable.rs:12-22 | reply and new table are the disable transition's |
| SetPrimaryRole.Apply | src/commands/primary_role.rs:18-41 | reply and new table follow the validation chain: option, role value, guild, role list, membership in it, write |
| SetPrimaryRole.Run | src/commands/set_primary_role.rs:28-53 | the stand-alone command follows the same chain with the guild of its command data |
| SetPrimaryRole.WriteOnlyAfterValidation | src/commands/set_primary_role.rs:29-52 | the table changes only after every check passed and the write succeeded; the success reply comes exactly then and names the chosen role |
| SetPrimaryRole.FailureRepliesDiffer | src/commands/set_primary_role.rs:30-49 | no failure reply has the form of the success reply |
| SetPrimaryRole.SetThenRead | src/commands/set_primary_role.rs:44-52 | a validated set reads back as the chosen role on a registered guild; on an unregistered one it still replies success and nothing is stored |
| SetPrimaryRole.UpdatedMessageNamesRole | src/commands/set_primary_role.rs:52 | the digits after the success prefix read back as the role id |
| PrimaryRole.Set | src/commands/primary_role.rs:11-42 | a value that is not a subcommand gives "Invalid command data"; otherwise the validation chain applies |
| PrimaryRole.Get | src/commands/primary_role.rs:44-56 | the reply is the no-guild message, the no-role message or the stored role, from the store unchanged |
| PrimaryRole.Run | src/commands/primary_role.rs:61-71 | the first option selects set, get, or the unknown/missing-subcommand replies |
| PrimaryRole.OnlySetWrites | src/commands/primary_role.rs:61-71 | a missing or unknown subcommand replies with its message; only a validated, successful set changes the table |
| PrimaryRole.GetReportsStoredRole | src/commands/primary_role.rs:44-56 | get names role r exactly when r is the stored primary role, and says none is set exactly when there is none |
| PrimaryRole.SetThenGet | src/commands/primary_role.rs:11-56 | set with a server role, then get, reports that role |
| Sweep.SweepMembers | src/commands/sweep.rs:11-49 | requests are those of the classification, in order; the count is the successful ones, at most the requests and the members; the summary names both counts |
| Sweep.RevocationsBounded | src/commands/sweep.rs:14-40 | at most one request per member |
| Sweep.SuccessesBounded | src/commands/sweep.rs:31-40 | the count never exceeds the requests, and equals them when every request succeeds |
| Sweep.RevocationsSound | src/commands/sweep.rs:17-31 | every request is for a member that must lose all roles, with exactly its role list |
| Sweep.RequestsForAppend | src/commands/sweep.rs:14-40 | the requests for a user split over concatenated batches |
| Sweep.NoRequestsForStranger | src/commands/sweep.rs:14-40 | no request names a user that is not a member needing removal |
| Sweep.ExactlyOneRequest | src/commands/sweep.rs:14-40 | with unique ids, a member that must lose its roles gets exactly one request, and a compliant, bot or role-less member none |
| Sweep.ClassifyOrder | src/commands/sweep.rs:17-29 | holders of the primary role are compliant; removal exactly for non-bots without it holding some role |
| Sweep.AscendingIsUnique | src/commands/sweep.rs:90 | a membership listed by ascending id has unique ids |
| Sweep.AfterElements | src/commands/sweep.rs:83 | every member after the cursor is a member above it |
| Sweep.AfterMonotone | src/commands/sweep.rs:90 | moving the cursor forward never adds members to fetch |
| Sweep.AfterShrinks | src/commands/sweep.rs:90 | moving the cursor to a member after it strictly shrinks what is left |
| Sweep.PageProgress | src/commands/sweep.rs:83-90 | continuing after a non-empty page leaves strictly fewer members, so paging terminates |
| Sweep.AfterAllAbove | src/commands/sweep.rs:83 | when every member is above the cursor, nothing is filtered |
| Sweep.AfterCursor | src/commands/sweep.rs:90 | over an ascending list, after member n-1 come exactly the members from n on |
| Sweep.AfterStart | src/commands/sweep.rs:80-83 | the first fetch, with no cursor, sees the whole list |
| Sweep.RestIsSuffix | src/commands/sweep.rs:83 | with the cursor at the last collected member, the next page is the next slice of the list |
| Sweep.StopCounts | src/commands/sweep.rs:86-97 | the fetch that ends paging (failed, empty or short) fixes the collected length and the fetch count |
| Sweep.Paginate | src/commands/sweep.rs:79-101 | for any membership the loop ends, and the members it collects and the fetches it makes are those of paging by cursor (`Sweep.Paged`): stop on an empty batch, append a short one and stop, append a full one and continue after its last member |
| Sweep.FetchPage | src/commands/sweep.rs:83 | one fetch returns the page after the cursor, at most 1000 members, and nothing when it fails |
| Sweep.FetchedFromGuild | src/commands/sweep.rs:83 | every member a fetch returns is a member of the guild lying after the cursor |
| Sweep.PagingStep | src/commands/sweep.rs:83-97 | an empty fetch ends paging with what was collected; a short one is appended and ends it; a full one is appended and paging goes on after its last member, with strictly fewer members left |
| Sweep.PagesFromPositions | src/commands/sweep.rs:80-97 | when the cursor at each collected prefix leaves exactly the rest of the list, paging appends the list 1000 members at a time until a fetch fails or a short page comes |
| Sweep.CollectedCounts | src/commands/sweep.rs:86-97 | paging 1000 at a time collects the list up to the failing fetch (all of it when none fails), with the closed-form number of fetches |
| Sweep.PagedAscending | src/commands/sweep.rs:79-103 | over an ascending membership paging collects the list's prefix up to the failing fetch, once and in order, with n/1000+1 fetches or one more than the failing fetch's number, whichever is fewer |
| Sweep.Run | src/commands/sweep.rs:61-119 | reply and job equal `Sweep.RunOutcome`: the guild, count, primary-role and zero-count exits with their replies and no sweep; below 1000 a failed unpaged fetch has its own reply and a successful one starts the sweep over exactly its members; from 1000 the sweep covers what paging collects; a started sweep carries the stored primary role and its reply names the number fetched |
| Sweep.SweepConservation | src/commands/sweep.rs:11-103 | over an ascending membership with no failing fetch, every member is collected in n/1000+1 fetches; each member that must lose its roles gets exactly one request for its whole role list and every other member none; successes never exceed requests, nor requests members |
| Sweep.PagingBoundaries | src/commands/sweep.rs:8 | 2500 members take three fetches; an exact multiple of 1000 ends on an empty fetch |
| Handler.Decide | src/main.rs:88-116 | roles are removed exactly when scanning is on, a primary role is set, the event lacks it and the member is found; the request is the event's role list |
| Handler.GuildMemberUpdate | src/main.rs:79-117 | the reaction is the decision on the stored flag and primary role, reading both only |
| Handler.ReactiveAgreesWithSweep | src/main.rs:99-112 | for a non-bot member with roles, the reactive path removes exactly when the sweep would |
| Handler.ReactiveHasNoExemptions | src/main.rs:99-112 | unlike the sweep, bots and role-less members are still sent a removal |
| Handler.HandlerFor | src/main.rs:24-32 | a handler exactly for enable, disable, sweep and primaryrole |
| Handler.InteractionCreate | src/main.rs:17-44 | a response exactly for commands with a known name; each name's reply and table are its handler's; for sweep the reply is `Sweep.RunOutcome`'s, and a started sweep issues the classification's removal requests and its summary with the successful count, while an unstarted one issues nothing; only sweep issues removals |
| Handler.Ready | src/main.rs:46-77 | the table after connecting registers each guild in order, skipping the failed registrations |
| Handler.RegisterAllRows | src/main.rs:49-76 | a guild has a row after connecting exactly when it had one or a registration of it succeeded; old rows unchanged, new rows fresh |

## Left out

- Networking, the gateway and HTTP calls are left out. Every platform answer
  (member count, role list, member list, member lookup, removal outcome) is a
  parameter.
- The sleeps between removals and between pages are left out: they only pace
  requests.
- The `tokio::spawn` of the sweep is left out. The dispatcher runs the sweep
  directly after the reply is computed, and returns its removal requests and
  summary.
- The direct message with the summary is left out: its result is discarded,
  and the log line after it reports only the counts. The model returns the text.
- `create_response` and its failure are left out: it is only logged.
- The `Mutex` around the store is left out. Events are handled one at a time,
  so no interleaving is modelled.
- Start-up is left out: `main`, the `.env` token, client construction and
  logging.
- The `register()` builders and `set_commands` are left out. They describe
  commands to the platform and do not touch the store. `Handler.Ready` models
  only the registration of guilds in the table.
- SQLite internals are left out. Statement text, prepare and step are reduced
  to their effect on the table, and each failure is a flag.
- Ids are limited to 1..2^63-1. A larger id is formatted into the SQL text as a
  decimal literal that SQLite reads as a real number: the insert into the
  integer key column fails, and a stored real role id fails the integer read.
  The model does not cover that range.
- Data.AppData.constructor: the panics when the database cannot be opened or
  the table cannot be created are left out; the constructor takes the table as
  it is after a successful open.
- The proptest state-machine harness in `src/data.rs` is left out. Only the
  plain unit test is modelled, by `Data.AutoScanScenario`.
- The `DiscordCommand` trait is not modelled as a trait. Its implementations are
  module members with the same inputs: `BotManagement`, `PrimaryRole`, `Sweep.Run`.
- The source has two wiring mismatches. `src/main.rs` calls `AppData::new()`
  with no path, and calls `commands::sweep::run` as a free function. The model
  takes the store as it is opened, and connects to the `run` that exists.
- The unpaged member fetch (below 1000 members) is a single oracle value. The
  model does not say that the platform returns all members.
- `get_option` in `src/commands/set_primary_role.rs:11-19` is identical to the
  one in `src/commands/commands.rs`. Both are modelled by `Commands.GetOption`.
- Sweep.PagedAscending: the closed form of what paging collects is proved
  only for a membership the platform lists in ascending id order. That is how
  the platform pages by "after" id. For other orders `Sweep.Paginate` is still
  proved to end and to match the cursor paging of `Sweep.Paged`, with no closed
  form.
