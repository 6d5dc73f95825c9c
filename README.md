# ELO bot command logic, modelled in Dafny

This project models the decision logic inside two command modules of the
ELO Discord bot. In the bot, each guild (Discord server) runs its own
competition. Players register, earn points and are shown ranks. A rank is a
role tied to a point threshold.

- `Modules/Info.cs` holds the read-only commands:
  - the rank listing (`Ranks`);
  - the player profile and the rank it shows (`Profile`);
  - the paged leaderboard (`Leaderboard`), with its helpers `GetPages` and `GetPlayerLines`.
- `Modules/UserCommands.cs` holds the commands that change state:
  - `Register`;
  - the two `Rename` overloads.

Files:

- `models.dfy` (module `Models`): the database records `Competition`, `Player`, `Rank` and `ManualGameScoreUpdate`, and an `Option` type for C# `null` and `int?`.
- `collections.dfy` (module `Collections`): what the handlers take from LINQ and from `SplitList`:
  - `Where`;
  - a stable descending sort `SortDesc`;
  - `Chunk`, for splitting into groups of 20;
  - `Flatten`.
- `info.dfy` (module `Info`): the commands of `Info.cs`, as pure functions. `GetPlayerLines` and `GetPages` are methods with loops, as in the source. `Leaderboard` is a method: it orders the guild's players and passes them to `PagedReply`, the method for the rest of the handler, which splits them into groups and calls `GetPages`.
- `user_commands.dfy` (module `UserCommands`): the class `Store` holds one guild's competition record and its player table. Its methods `Register` and `Rename` follow the handlers step by step, and `modifies` frames say which fields they may change. Each method is tied to a specification function (`RegisterResult`, `RenameResult`). The guard order, the error cases and the new state are proved about those functions.

Discord replies become outcome datatypes, one constructor per reply. Database
queries become sequences (rows in query order) or maps (lookup by key). The
player table therefore has three shapes, one per way the code reaches it: the
leaderboard query scans rows (a sequence), the profile's `Find` looks up the
guild-and-user key (a map by `PlayerKey`), and the user commands go through a
service scoped to one guild (a map by user).
Inputs that come from code not shown here become parameters:

- the premium registration limit;
- the responses of the role update;
- the user's nickname, username and hierarchy;
- the bot's hierarchy and its `ManageNicknames` permission;
- the registration time;
- the competition's nickname format.

Two comparisons in the code are modelled exactly as written:

- The profile compares thresholds with a strict `<` (`Modules/Info.cs:64`).
  A player whose points equal a threshold is shown the rank below it
  (`ExactThresholdIsNotHeld`).
- Registration is rejected only when `limit < RegistrationCount`
  (`Modules/UserCommands.cs:46`). With a count of 5 and a limit of 5,
  registration succeeds and the count becomes 6
  (`CountEqualToLimitRegisters`).

## Model

| member | source | states |
|---|---|---|
| `Info.ProfileRank` | Modules/Info.cs:63-64 | the shown rank is one of the ranks, its threshold is strictly below the player's points, and no other rank below the points has a higher threshold; there is no rank exactly when every threshold is at or above the points (including no ranks at all) |
| `Info.ProfileRankMonotone` | Modules/Info.cs:64 | when a lower score shows a rank, a higher score also shows one, with a threshold at least as high |
| `Info.ExactThresholdIsNotHeld` | Modules/Info.cs:64 | with thresholds 0, 50 and 100, a player on exactly 50 points is shown the rank at 0 |
| `Info.Profile` | Modules/Info.cs:40-69 | the target defaults to the caller; a missing player row gives "you are not registered" for the caller and "that user is not registered" for anyone else; otherwise the reply holds the stored player, and its rank (and so the rank line) obeys the highest-strictly-below rule over the guild's ranks |
| `Info.GuildRanks` | Modules/Info.cs:25 | keeps the ranks of the guild, each as often as it occurs in the rows, and no others |
| `Info.GuildPlayers` | Modules/Info.cs:97 | keeps the players of the guild, each as often as it occurs in the rows, and no others |
| `Info.ShowRanks` | Modules/Info.cs:20-33 | no guild ranks gives the "no ranks" reply; otherwise one line per guild rank (the lines are a permutation of the ranks' lines), ordered by threshold from highest to lowest, each line being the line of one of the guild's ranks |
| `Info.ShownWinModifier` | Modules/Info.cs:32 | the rank's win modifier when it is set, otherwise the competition's default win modifier |
| `Info.ShownLossModifier` | Modules/Info.cs:32 | the rank's loss modifier when it is set, otherwise the competition's default loss modifier |
| `Info.LineOf` | Modules/Info.cs:32 | a listing line shows the rank's role and threshold, and its win and loss modifiers by the override-else-default rule |
| `Info.RankLines` | Modules/Info.cs:32 | the `Select` over the sorted ranks: one line per rank, line i being the line of rank i |
| `Info.RankLinesPermutation` | Modules/Info.cs:32 | reordering the ranks only reorders their lines |
| `Collections.SortDesc` | Modules/Info.cs:100 | `OrderByDescending`: the result is a permutation of the input, sorted by the key from largest to smallest |
| `Collections.Where` | Modules/Info.cs:64 | `Where`: every kept element is in the input and passes the test; every element that passes is kept as often as it occurs in the input, and every element that fails is dropped |
| `Collections.Chunk` | Modules/Info.cs:99-100 | the groups put back together give the input; every group is non-empty and has at most n elements; all but the last have exactly n; no groups exactly when the input is empty |
| `Info.Ranked` | Modules/Info.cs:100 | the guild's players reordered (a permutation), highest points first |
| `Info.Numbered` | Modules/Info.cs:141-145 | line i carries place `start + i`, and the name and points of player i; one line per player |
| `Info.GetPlayerLines` | Modules/Info.cs:136-149 | returns `startValue + |players|` and exactly the numbered lines from `startValue` |
| `Info.GetPages` | Modules/Info.cs:115-133 | one page per group, in group order; page k numbers its players from 1 plus the sizes of groups 0 to k-1; all pages together number all players 1, 2, 3, ... with no gap or repeat |
| `Info.PagedReply` | Modules/Info.cs:100-111 | the ordered players split into pages of 20: none gives the "no registered users" reply; otherwise the pages together list exactly those players in order, numbered from 1, every page holds 1 to 20 lines, all but the last exactly 20, and each carries the leaderboard title |
| `Info.Leaderboard` | Modules/Info.cs:90-113 | no guild players gives the "no registered users" reply; otherwise the pages together list the guild's players by points from highest to lowest, numbered from 1; pages hold 1 to 20 lines, and all but the last hold exactly 20 |
| `UserCommands.ChosenName` | Modules/UserCommands.cs:29-32 | the given name, or the username when no name was given |
| `UserCommands.RegisterResult` | Modules/UserCommands.cs:26-66 | a registered user with re-registration off is rejected and nothing changes; a new user is rejected when `limit < RegistrationCount` and nothing changes; a new user with count at most the limit is created and the count rises by exactly 1; an allowed re-registration changes only that player's name, never the count; every success stores the chosen name and keeps the table keyed by user in this guild |
| `UserCommands.Store.Register` | Modules/UserCommands.cs:26-66 | the handler's step-by-step state change gives exactly `RegisterResult`'s reply, competition and table; it keeps the store's invariant, so a registered record belongs to the calling user and this guild |
| `UserCommands.ReRegistrationCountsOnce` | Modules/UserCommands.cs:35-42 | when re-registration is allowed, registering again after a success keeps the count, and the new table is the old one with only that user's name changed |
| `UserCommands.CountEqualToLimitRegisters` | Modules/UserCommands.cs:45-54 | with the count equal to the limit, a new user is still registered and the count ends one above the limit |
| `UserCommands.NicknameDecision` | Modules/UserCommands.cs:113-130 | the nickname is pushed exactly when name updates are on, the current name differs from the new one, the user is strictly below the bot and the bot can manage nicknames; otherwise exactly one reason is given, or none when updates are off or the names already match |
| `UserCommands.RenameResult` | Modules/UserCommands.cs:84-132 | guards in order (not registered, self-rename off, no name), each failure leaving the table unchanged; once all pass, the record is saved with the new name whatever the nickname decision is (the push is assumed to return normally), and the reply carries the old name and that decision |
| `UserCommands.Store.Rename` | Modules/UserCommands.cs:84-132 | the handler's step-by-step change gives exactly `RenameResult`'s reply and table; the renamed record belongs to the calling user and this guild; the competition record is outside its frame |
| `UserCommands.RenameIdempotent` | Modules/UserCommands.cs:107-132 | renaming again to the same name stores the same table |
| `UserCommands.RenameMention` | Modules/UserCommands.cs:70-80 | the mention overload only replies: "rename yourself without the mention" exactly when the mentioned user is the caller, otherwise "use RenameUser"; it is a function, so it changes no state |

## Left out

- Discord messages, embeds, colours, mentions and the pagination UI: modelled as outcome constructors and line records, not text.
- Name sanitising (`GetDisplayNameSafe`, `Format.Sanitize`) and date formatting: lines carry the raw display name, and the profile carries the record.
- Database and service persistence (`Database`, `GetOrCreateCompetition`, `SavePlayer`, `SaveCompetition`): the store is an in-memory record and map. "Get or create" is not modelled; the store holds an existing competition.
- `CreatePlayer`: its code is not part of this model. The stand-in creates a record with zero points and counters and the given date.
- `UpdateUserAsync` (role and nickname synchronisation) and `gUser.ModifyAsync`: these are Discord I/O. Their responses are an input, and the nickname push is the `SetNickname` action.
- `UserCommands.Store.Register` and `UserCommands.RegisterResult`: in the re-registration path, the model writes the renamed record to the table. In the source, only the in-memory record is renamed, and whether that reaches storage depends on the service, which is not part of this model.
- `UserCommands.RenameResult`: the nickname push `gUser.ModifyAsync` (`Modules/UserCommands.cs:119`) is assumed to return normally. If it throws, the save at line 132 is skipped and the stored name does not change, which the model does not capture.
- `UserCommands.RegisterResult`: `UpdateUserAsync` (`Modules/UserCommands.cs:59`) is assumed to return normally. If it throws after a new registration, the count and the new player are already saved, but the register replies are not sent; the model does not capture that failure.
- `Collections.Where`: the contract states which elements are kept and how often, not that they keep their input order. Since the results are sorted next, only the order among ties depends on it (see `Collections.SortDesc`).
- `GetRegistrationLimit`, `GetNickname` and `FormatRegisterMessage`: not part of this model. The limit and the computed nickname enter as parameters, and the register message is represented by the player record in the `Registered` outcome.
- Discord hierarchy and permission semantics: taken as given integers and a flag.
- `SplitList` is not part of this model. `Chunk` specifies it as consecutive groups of the given size.
- `Collections.SortDesc`: the sort keeps the input order among equal keys, as `OrderByDescending` does. This stability holds by construction but is not stated in a contract, so ties between equal thresholds or equal points are not characterised.
- 32-bit integer width: points, places and the registration counter are unbounded integers. The source's `int` would overflow only past 2^31 - 1 registrations or leaderboard places.
- Async run modes and concurrency: not modelled.
- `ManualGameScoreUpdate`: kept as a record only, since it has no behaviour in the modelled code.
