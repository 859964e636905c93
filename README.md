# DiscordLevelBot: leveling step and level tables, in Dafny

This project models the two core pieces of the DiscordLevelBot Discord bot and proves
properties of the model.

- The per-message progression step of the `Leveling` cog (`on_message`). A guild message
  from a human member registers a lock for its author. It then reads the guild's gain
  range and stacking policy, adds a random gain to the author's `(level, exp)` record and
  recomputes the level with `calculation_level`. On a level-up it stores `(level, 0)` and
  hands out the reward roles configured for the new level. When roles do not stack and
  some role was added, it also removes every other configured role; when no role was
  added, it stops there (cogs/leveling.py:58-59).
- The MySQL tables behind the `Database` class. These are `guild_settings`,
  `guild_level_roles` and `user_levels`, each a map from its primary key to the rest of the
  row. Getters and ranking queries are functions over those maps. The INSERT, UPDATE and
  DELETE statements are methods of the class `Tables.Database`.

Files:

- `ordering.dfy` (module `Ordering`): what the SQL engine contributes. This is a
  deterministic `ORDER BY value [DESC]` over keyed rows (`Ordered`, with `ListsInOrder`
  proved of it) and `SUM(value)` (`SumValues`, with the lemma that the sum does not
  depend on the order rows are visited).
- `ranking.dfy` (module `Ranks`): `RANK() OVER (ORDER BY value DESC)`. A row's rank is
  one plus the number of rows in scope whose value is strictly greater. The ranked listing
  is proved sorted, complete and without duplicates. Ties are proved to share a rank, and
  a row after a strict drop is proved to be ranked by its position.
- `database.dfy` (module `Tables`): the three tables, the getters and ranking queries as
  functions, and the statements as methods of `Database`.
- `leveling.dfy` (module `Leveling`): the reward-role filters and the progression
  function. It also holds the record store that `on_message` calls, the `Member` whose
  role set changes, and the class `Leveling`. That class has the `_locks` registry and
  `OnMessage`. `OnMessage` is split into the lock step (`LockFor`), the body of
  `async with lock:` (`UnderLock`) and the reward step (`RewardLevelUp`, which uses
  `GrantLevelRoles`).

Three inputs that the program takes from outside are parameters here:

- The random draw of `random.randint(min_exp, max_exp)` is the parameter `draw`. The caller
  must supply a draw inside the range whenever the range is not empty.
- `calculation_level` is the field `calculationLevel`, an uninterpreted function. It is
  imported from `utils/util.py`, but that file does not define it.
- Discord role membership is the set `Member.roles`.

Two properties of the progression as written are proved as lemmas rather than logged as
defects, because the curve that would decide whether they are intended is not in the
repository:

- `LevelFallsBackAfterLevelUp`: a level-up resets exp to 0, but the level is recomputed
  from exp on every message. The message after a level-up can therefore store a lower
  level than the one just announced.
- `LevelCapped`: suppose the curve is monotone, is 0 below a threshold and at least 1 at
  it, and no single gain reaches that threshold. Then a new user (one whose record starts
  in the first band, as the `(0, 0)` record of a new user does) can never get past
  `calculation_level(threshold - 1 + max gain)`.

## Model

| member | source | states |
|---|---|---|
| Tables.GetGuildSetting | database/database.py:121-125 | the stored (min_exp, max_exp, stack_level_roles) row of the guild, or (15, 25, False) when the guild has none |
| Tables.Database.UpdateGuildSetting | database/database.py:127-141 | upsert of the whole row: afterwards the guild reads exactly the written triple and every other guild reads what it read before |
| Tables.Database.DeleteGuildSetting | database/database.py:148-150 | the guild's row is removed, so it reads the defaults again; other guilds are unchanged |
| Tables.GetGuildLevelRoles | database/database.py:157-161 | no ensures of its own, so that its callers stay cheap to verify; its contract is the lemma Tables.GuildLevelRolesListed on the next row |
| Tables.GuildLevelRolesListed | database/database.py:157-161 | get_guild_level_roles lists exactly the guild's configured (role, level) pairs (both directions), each role once, levels ascending |
| Tables.LevelRolesListed | database/database.py:157-161 | any listing of the guild's roles in `ORDER BY level ASC` order holds exactly the configured pairs, with distinct roles and ascending levels |
| Tables.GetGuildLevelRole | database/database.py:168-172 | Some exactly when (guild, role) is configured, and then the level is the one get_guild_level_roles lists for that role |
| Tables.Database.CreateGuildLevelRole | database/database.py:181-184 | a plain INSERT: fails with a duplicate-key error and changes nothing when (guild_id, role_id) exists (PRIMARY KEY at database/database.py:84), otherwise adds exactly that row |
| Tables.Database.DeleteGuildLevelRole | database/database.py:191-194 | removes exactly the one (guild, role) row; get_guild_level_role then returns None |
| Tables.Database.DeleteAllGuildLevelRoles | database/database.py:201-204 | removes exactly the guild's rows, keeps every other row with its level, and the guild's role list is then empty |
| Tables.GetUserLevel | database/database.py:211-215 | the exp of the (user, guild, channel) row, 0 when there is none |
| Tables.ChannelsOfUser | database/database.py:223 | the `WHERE user_id AND guild_id` scope: exactly the user's channel rows in the guild, with their exp |
| Tables.UsersOfChannel | database/database.py:236 | the `WHERE guild_id AND channel_id` scope: exactly the channel's user rows, with their exp |
| Tables.UserTotals | database/database.py:275 | `GROUP BY user_id`: one entry per user with a row in the guild, holding the SUM of that user's exp |
| Tables.ChannelTotals | database/database.py:301 | `GROUP BY channel_id`: one entry per channel with a row in the guild, holding the SUM of that channel's exp |
| Tables.GetUserLevelTotal | database/database.py:222-226 | None exactly when the user has no row in the guild (SUM over no rows is a single NULL row); otherwise the sum of the user's exp over all channels |
| Tables.GetUserLevelRank | database/database.py:235-239 | None exactly when the user has no row in the channel; otherwise a rank of at least 1, and the row (user, exp, rank) appears in the channel ranking |
| Tables.GetUserLevelRankTotal | database/database.py:248-252 | None exactly when the user has no total in the guild; otherwise a rank of at least 1, and the row (user, total, rank) appears in the guild ranking |
| Tables.GetUserLevelRanking | database/database.py:261-265 | the channel's users with their exp and RANK(), every row exactly once, exp descending |
| Tables.GetUserLevelRankingTotal | database/database.py:274-278 | the guild's users with their SUM(exp) and RANK(), every user exactly once, total descending |
| Tables.GetUserLevelRankingChannel | database/database.py:287-291 | the user's channels in the guild with their exp and RANK(), exp descending |
| Tables.GetUserLevelRankingTotalChannel | database/database.py:300-304 | the guild's channels with their SUM(exp) and RANK(), total descending |
| Tables.Database.AddUserLevel | database/database.py:314-317 | additive upsert: the key's exp becomes its previous value (0 when absent) plus exp, every other row is unchanged, and the user then has a total in the guild |
| Tables.AddRaisesTotal | database/database.py:314-317 | the upsert raises the user's guild total by exactly the amount added; from no rows, the total becomes that amount |
| Tables.SumAfterAdd | database/database.py:315 | adding exp to one entry of a scope (0 when absent) adds exp to the scope's SUM |
| Tables.RemoveExp | database/database.py:327-330 | the intended clamped subtraction: same keys (no row is created), the row's exp becomes old - amount when that is not negative and 0 otherwise, and other rows are unchanged |
| Tables.Database.RemoveUserLevelExp | database/database.py:327-330 | the table becomes RemoveExp of the old table |
| Tables.RemoveExpAsWritten | database/database.py:327-330 | the statement as MySQL evaluates it on an INT UNSIGNED column: it fails with the out-of-range error exactly when the row exists and the amount exceeds its exp |
| Tables.RemoveAsWrittenAgrees | database/database.py:327-330 | wherever the statement as written succeeds, it gives the same table as the clamped subtraction |
| Tables.RemoveMoreThanStoredFails | database/database.py:327-330 | a row with 5 exp asked to lose 10: the statement as written fails, the clamped subtraction leaves 0 |
| Tables.Database.DeleteUserLevel | database/database.py:339-342 | removes exactly the one (user, guild, channel) row |
| Tables.Database.DeleteUserLevelTotal | database/database.py:349-352 | removes exactly the user's rows in the guild, in every channel, keeps every other row with its exp, and the user then has no total |
| Tables.Database.DeleteAllUserLevels | database/database.py:359-362 | removes exactly the guild's rows, keeps every other row with its exp, and the guild ranking is then empty |
| Tables.Database.constructor | database/database.py:14-17 | a new Database starts not initialized, over the rows the server already holds (taken as parameters, since the rows outlive the object); it does not empty the tables |
| Tables.Database.Init | database/database.py:97 | init sets the initialized flag |
| Tables.Database.IsInitialized | database/database.py:109-114 | is_initialized returns the flag |
| Ordering.First | database/database.py:158 | the row an ordered scan returns first comes before every other row (by value, ties by key) |
| Ordering.Ordered | database/database.py:158 | no ensures of its own, so that its callers stay cheap to verify; its contract is the lemma Ordering.OrderedListsInOrder on the next row |
| Ordering.OrderedListsInOrder | database/database.py:158 | `ORDER BY value` lists every row of the scope exactly once, no key twice, each with its own value, in order |
| Ordering.SumValues | database/database.py:223 | the sum of the values of a set of rows: 0 for no rows (SQL's NULL for an empty scope is handled by Tables.GetUserLevelTotal), and every row's value is at most the sum; that it does not depend on the visiting order is Ordering.SumRemove |
| Ordering.SumRemove | database/database.py:223 | SUM does not depend on the order of the rows: it is any one row's value plus the SUM of the others |
| Ordering.SumUpdate | database/database.py:223 | overwriting one row changes SUM by the difference at that row |
| Ranks.RankOf | database/database.py:262 | RANK() is one plus the number of rows with a strictly greater value, between 1 and the number of rows |
| Ranks.RankMonotone | database/database.py:262 | a value at least as great never ranks behind, and a strictly greater value ranks strictly ahead |
| Ranks.RankTie | database/database.py:262 | equal values share their rank |
| Ranks.Ranking | database/database.py:262 | each row of the scope exactly once with its value and RANK(), values descending and ranks ascending |
| Ranks.RankAtPosition | database/database.py:262 | competition ranking: the first row has rank 1, and a row after a strict drop in value has rank equal to its position |
| Leveling.Progress | cogs/leveling.py:41-48 | the stored level becomes calculation_level(exp + gain) in both branches; a level-up happens exactly when that exceeds the stored level, and the stored exp is then 0, otherwise exp + gain |
| Leveling.LevelFallsBackAfterLevelUp | cogs/leveling.py:41-48 | after a level-up, a next message whose exp maps to a lower level stores that lower level |
| Leveling.LevelCapped | cogs/leveling.py:41-48 | with a monotone curve and every gain below the first threshold, no run of messages takes a new user past calculation_level(threshold - 1 + max gain) |
| Leveling.RolesToAdd | cogs/leveling.py:55-57 | exactly the configured rows whose level equals the new level |
| Leveling.RolesToRemove | cogs/leveling.py:63-65 | exactly the configured rows whose level differs from the new level |
| Leveling.RewardPartition | cogs/leveling.py:55-65 | since role ids are unique per guild (database/database.py:84), the added and removed roles are disjoint and together make up the whole configured table |
| Leveling.RolesAfterLevelUp | cogs/leveling.py:54-68 | the role set after a level-up; no ensures of its own, its contract is the lemma Leveling.RolesAfterLevelUpMeaning on the next row (and Leveling.RewardPartition) |
| Leveling.RolesAfterLevelUpMeaning | cogs/leveling.py:54-68 | with nothing to add, no role changes whatever the stacking; with stacking, only roles are added; without stacking, the configured roles held afterwards are exactly those of the new level; unconfigured roles are never touched |
| Leveling.GuildLevelRolesDistinct | database/database.py:84 | the role list a guild reads back has no role twice |
| Leveling.GrantLevelRoles | cogs/leveling.py:54-68 | the member's roles become RolesAfterLevelUp of the old roles: add_roles for each row of the new level, then, unless roles stack, remove_roles for every other row |
| Leveling.LevelStore.GetUserLevel | cogs/leveling.py:32-34 | the stored record of (user, guild), None when there is none |
| Leveling.LevelStore.CreateUserLevel | cogs/leveling.py:35-36 | writes (0, 0) for (user, guild) and changes nothing else |
| Leveling.LevelStore.UpdateUserLevel | cogs/leveling.py:45-47 | writes the given (level, exp) for (user, guild) and changes nothing else |
| Leveling.Leveling.constructor | cogs/leveling.py:12-14 | the lock registry starts empty |
| Leveling.Leveling.LockFor | cogs/leveling.py:21-23 | afterwards the author has a lock; an existing lock is reused and never replaced, no entry is removed and no other entry is added, and a lock is created only on first use |
| Leveling.Leveling.RewardLevelUp | cogs/leveling.py:54-68 | the author's roles become RolesAfterLevelUp over the guild's level roles as get_guild_level_roles returns them |
| Leveling.Leveling.UnderLock | cogs/leveling.py:25-72 | the store and the roles change as Handled says: an empty gain range raises after the record was created; otherwise the record becomes Progress of the current record, and roles change only on a level-up |
| Leveling.Leveling.OnMessage | cogs/leveling.py:17-72 | a bot's message or a direct message changes no record, lock or role; any other message registers the author's lock and is Handled |

## Left out

- Mutual exclusion and async interleaving of `asyncio.Lock` (cogs/leveling.py:25). Only the registry of locks is modelled; a lock never blocks.
- `random.randint` (cogs/leveling.py:41) is the parameter `draw`. When `min_exp > max_exp`, randint raises ValueError. This is the outcome `EmptyGainRange`, reached after the lock and the record were created, as in the source.
- The body of `calculation_level` and `calculation_next_level_exp`. Both are imported at cogs/leveling.py:8, but utils/util.py does not define them. The curve is an uninterpreted function.
- The Discord calls: the "LEVEL UP!" message, `add_roles`/`remove_roles` as network calls (only their effect on the role set is kept), and the `rank` command (cogs/leveling.py:50-52, 74-89). `rank` also calls `get_user_rank`, which database/database.py does not define.
- The store shape that `on_message` uses is not the one database/database.py provides. `on_message` calls `get_user_level(user, guild)` returning `(level, exp)`, `create_user_level` and `update_user_level`. database/database.py:206 has a three-argument `get_user_level` returning one exp value and has neither of the other two. `bot.db` is a `database.Database` (main.py:20), so as written the two-argument call at cogs/leveling.py:32-34 raises TypeError (missing `channel_id`) on every guild message from a human member, after the lock is registered and the guild setting is read; no store write, level-up or role change then happens. The model instead follows `on_message` as it is meant to run: the store is a per-(user, guild) map in `Leveling.LevelStore`, and `create_user_level` is taken to write `(0, 0)`.
- The `if not guild_setting:` branch (cogs/leveling.py:27-29) is not modelled. `get_guild_setting` always returns a non-empty tuple, so the branch is never taken, and the `create_guild_setting` it would call does not exist.
- Connection and pool handling, `close`, and table creation (database/database.py:19-62, 64-107). Only the keys the CREATE TABLE statements declare, and the `initialized` flag, are kept.
- The order of rows with equal values. SQL leaves it unspecified; the model orders ties by ascending key.
- Tables.Database.AddUserLevel: does not model the INT UNSIGNED upper bound (4294967295) on `exp`, because the model's integers are unbounded; an addition beyond the bound fails in MySQL but not here.
- The default argument values of `update_guild_setting`, `add_user_level` and `remove_user_level_exp`; the model's callers pass every argument.
- Column value types: ids, levels and exp are `nat`. BIGINT UNSIGNED and INT UNSIGNED widths are not enforced.
- `main.py`, `cogs/debug.py`, `cogs/admin.py`, `utils/util.py` and the JavaScript variant under `src/` are not part of this model.

## Findings

| source | as written | input that shows it | evidently intended | confidence | as-written member | corrected member |
|---|---|---|---|---|---|---|
| database/database.py:327-330 | `SET exp = GREATEST(user_levels.exp - %s, 0)` on an INT UNSIGNED column. The subtraction is unsigned, so MySQL raises error 1690 (BIGINT UNSIGNED value is out of range) before GREATEST sees it. | a row holding exp 5, `remove_user_level_exp(..., exp=10)` | the row's exp becomes 0: a subtraction clamped at zero | not executed; depends on the server's sql_mode (no NO_UNSIGNED_SUBTRACTION) | Tables.RemoveExpAsWritten, Tables.RemoveMoreThanStoredFails | Tables.RemoveExp, used by Tables.Database.RemoveUserLevelExp |
