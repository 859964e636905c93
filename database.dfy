/** The MySQL store of database/database.py: three keyed tables and the statements the
    `Database` class runs over them. Each table is a map from its primary key to the
    rest of its row; the getters and ranking queries are functions over those maps and
    the INSERT/UPDATE/DELETE statements are methods of the class `Database`. */
module Tables {
  import opened Ordering
  import opened Ranks

  /** Discord snowflakes are BIGINT UNSIGNED columns; levels and exp are INT UNSIGNED. */
  type GuildId = nat
  type RoleId = nat
  type UserId = nat
  type ChannelId = nat
  type Level = nat
  type Exp = nat

  datatype Option<T> = None | Some(value: T)

  /** A row of guild_settings without its key. */
  datatype GuildSetting = GuildSetting(minExp: nat, maxExp: nat, stackLevelRoles: bool)

  /** The row get_guild_setting reports for a guild without one, and the defaults of
      update_guild_setting's parameters. */
  const DefaultGuildSetting := GuildSetting(15, 25, false)

  /** Errors the statements can raise. */
  datatype SqlError =
    | DuplicateEntry       // INSERT of a primary key that already exists
    | UnsignedOutOfRange   // MySQL error 1690: an UNSIGNED expression went below zero

  datatype Result<T> = Ok(value: T) | Err(error: SqlError)

  /** guild_settings: PRIMARY KEY (guild_id). */
  type GuildSettings = map<GuildId, GuildSetting>
  /** guild_level_roles: PRIMARY KEY (guild_id, role_id), value level. */
  type LevelRoles = map<(GuildId, RoleId), Level>
  /** user_levels: PRIMARY KEY (user_id, guild_id, channel_id), value exp. */
  type UserLevels = map<(UserId, GuildId, ChannelId), Exp>

  // ----- guild_settings -----

  /** get_guild_setting: the stored row, or the defaults when the guild has none. */
  function GetGuildSetting(settings: GuildSettings, guild: GuildId): (s: GuildSetting)
    ensures guild in settings ==> s == settings[guild]
    ensures guild !in settings ==> s == GuildSetting(15, 25, false)
  {
    if guild in settings then settings[guild] else DefaultGuildSetting
  }

  // ----- guild_level_roles -----

  /** The level of every role configured for the guild. */
  function RolesOf(levelRoles: LevelRoles, guild: GuildId): (roles: map<RoleId, Level>)
    ensures forall role :: role in roles <==> (guild, role) in levelRoles
    ensures forall role | role in roles :: roles[role] == levelRoles[(guild, role)]
  {
    var ids := set key | key in levelRoles && key.0 == guild :: key.1;
    map role | role in ids :: levelRoles[(guild, role)]
  }

  /** get_guild_level_roles: the guild's (role_id, level) rows, `ORDER BY level ASC`;
      each configured role appears exactly once. */
  function GetGuildLevelRoles(levelRoles: LevelRoles, guild: GuildId): seq<(RoleId, Level)>
  {
    Ordered(RolesOf(levelRoles, guild), false)
  }

  /** What get_guild_level_roles returns: exactly the guild's configured (role, level)
      pairs, each role once, levels ascending. */
  lemma GuildLevelRolesListed(levelRoles: LevelRoles, guild: GuildId)
    ensures var rows := GetGuildLevelRoles(levelRoles, guild);
      forall row :: row in rows <==> (guild, row.0) in levelRoles && levelRoles[(guild, row.0)] == row.1
    ensures var rows := GetGuildLevelRoles(levelRoles, guild);
      forall i, j | 0 <= i < j < |rows| :: rows[i].0 != rows[j].0 && rows[i].1 <= rows[j].1
  {
    OrderedListsInOrder(RolesOf(levelRoles, guild), false);
    LevelRolesListed(levelRoles, guild, GetGuildLevelRoles(levelRoles, guild));
  }

  lemma LevelRolesListed(levelRoles: LevelRoles, guild: GuildId, rows: seq<(RoleId, Level)>)
    requires ListsInOrder(RolesOf(levelRoles, guild), false, rows)
    ensures forall row :: row in rows <==> (guild, row.0) in levelRoles && levelRoles[(guild, row.0)] == row.1
    ensures forall i, j | 0 <= i < j < |rows| :: rows[i].0 != rows[j].0 && rows[i].1 <= rows[j].1
  {
    var roles := RolesOf(levelRoles, guild);
    forall row | row in rows ensures (guild, row.0) in levelRoles && levelRoles[(guild, row.0)] == row.1 {
      var i :| 0 <= i < |rows| && rows[i] == row;
    }
    forall row: (RoleId, Level) | (guild, row.0) in levelRoles && levelRoles[(guild, row.0)] == row.1 ensures row in rows {
      assert row.0 in roles && row == (row.0, roles[row.0]);
    }
    forall i, j | 0 <= i < j < |rows| ensures rows[i].0 != rows[j].0 && rows[i].1 <= rows[j].1 {
      assert Before(false, rows[i], rows[j]);
    }
  }

  /** get_guild_level_role: the role's level, or None when the guild does not configure it. */
  function GetGuildLevelRole(levelRoles: LevelRoles, guild: GuildId, role: RoleId): (level: Option<Level>)
    ensures level.Some? <==> (guild, role) in levelRoles
    ensures level.Some? ==> (role, level.value) in GetGuildLevelRoles(levelRoles, guild)
  {
    GuildLevelRolesListed(levelRoles, guild);
    if (guild, role) in levelRoles then Some(levelRoles[(guild, role)]) else None
  }

  // ----- user_levels -----

  /** get_user_level: the exp of one (user, guild, channel) row, 0 when there is none. */
  function GetUserLevel(userLevels: UserLevels, user: UserId, guild: GuildId, channel: ChannelId): (exp: Exp)
    ensures (user, guild, channel) in userLevels ==> exp == userLevels[(user, guild, channel)]
    ensures (user, guild, channel) !in userLevels ==> exp == 0
  {
    if (user, guild, channel) in userLevels then userLevels[(user, guild, channel)] else 0
  }

  /** The user's rows in the guild, by channel (`WHERE user_id = … AND guild_id = …`). */
  function ChannelsOfUser(userLevels: UserLevels, user: UserId, guild: GuildId): (rows: map<ChannelId, Exp>)
    ensures forall c :: c in rows <==> (user, guild, c) in userLevels
    ensures forall c | c in rows :: rows[c] == userLevels[(user, guild, c)]
  {
    var ids := set key | key in userLevels && key.0 == user && key.1 == guild :: key.2;
    map c | c in ids :: userLevels[(user, guild, c)]
  }

  /** The rows of one channel of the guild, by user (`WHERE guild_id = … AND channel_id = …`). */
  function UsersOfChannel(userLevels: UserLevels, guild: GuildId, channel: ChannelId): (rows: map<UserId, Exp>)
    ensures forall u :: u in rows <==> (u, guild, channel) in userLevels
    ensures forall u | u in rows :: rows[u] == userLevels[(u, guild, channel)]
  {
    var ids := set key | key in userLevels && key.1 == guild && key.2 == channel :: key.0;
    map u | u in ids :: userLevels[(u, guild, channel)]
  }

  /** `SUM(exp) … WHERE guild_id = … GROUP BY user_id`: one total per user with a row in the guild. */
  function UserTotals(userLevels: UserLevels, guild: GuildId): (totals: map<UserId, nat>)
    ensures forall u :: u in totals <==> ChannelsOfUser(userLevels, u, guild) != map[]
    ensures forall u | u in totals :: totals[u] == SumValues(ChannelsOfUser(userLevels, u, guild))
  {
    var ids := set key | key in userLevels && key.1 == guild :: key.0;
    var totals := map u | u in ids :: SumValues(ChannelsOfUser(userLevels, u, guild));
    forall u | ChannelsOfUser(userLevels, u, guild) != map[] ensures u in ids {
      var c :| c in ChannelsOfUser(userLevels, u, guild);
      assert (u, guild, c) in userLevels;
    }
    forall u | u in ids ensures ChannelsOfUser(userLevels, u, guild) != map[] {
      var key :| key in userLevels && key.1 == guild && key.0 == u;
      assert key.2 in ChannelsOfUser(userLevels, u, guild);
    }
    totals
  }

  /** `SUM(exp) … WHERE guild_id = … GROUP BY channel_id`: one total per channel with a row in the guild. */
  function ChannelTotals(userLevels: UserLevels, guild: GuildId): (totals: map<ChannelId, nat>)
    ensures forall c :: c in totals <==> UsersOfChannel(userLevels, guild, c) != map[]
    ensures forall c | c in totals :: totals[c] == SumValues(UsersOfChannel(userLevels, guild, c))
  {
    var ids := set key | key in userLevels && key.1 == guild :: key.2;
    var totals := map c | c in ids :: SumValues(UsersOfChannel(userLevels, guild, c));
    forall c | UsersOfChannel(userLevels, guild, c) != map[] ensures c in ids {
      var u :| u in UsersOfChannel(userLevels, guild, c);
      assert (u, guild, c) in userLevels;
    }
    forall c | c in ids ensures UsersOfChannel(userLevels, guild, c) != map[] {
      var key :| key in userLevels && key.1 == guild && key.2 == c;
      assert key.0 in UsersOfChannel(userLevels, guild, c);
    }
    totals
  }

  /** get_user_level_total: `SELECT SUM(exp)` returns one row even when nothing matches,
      holding NULL, so a user without rows in the guild gets None, not 0. */
  function GetUserLevelTotal(userLevels: UserLevels, user: UserId, guild: GuildId): (total: Option<nat>)
    ensures total.None? <==> forall c :: (user, guild, c) !in userLevels
    ensures total.Some? ==> total.value == SumValues(ChannelsOfUser(userLevels, user, guild))
  {
    var rows := ChannelsOfUser(userLevels, user, guild);
    if rows == map[] then None else Some(SumValues(rows))
  }

  /** get_user_level_rank: the RANK() of the user's row among the channel's rows by exp,
      None when the user has no row there; it is the rank the channel ranking lists. */
  function GetUserLevelRank(userLevels: UserLevels, user: UserId, guild: GuildId, channel: ChannelId): (rank: Option<nat>)
    ensures rank.None? <==> (user, guild, channel) !in userLevels
    ensures rank.Some? ==> 1 <= rank.value
    ensures rank.Some? ==>
      RankedRow(user, userLevels[(user, guild, channel)], rank.value) in GetUserLevelRanking(userLevels, guild, channel)
  {
    var scope := UsersOfChannel(userLevels, guild, channel);
    if user in scope then Some(RankOf(scope, user)) else None
  }

  /** get_user_level_rank_total: the RANK() of the user's SUM(exp) among the guild's users. */
  function GetUserLevelRankTotal(userLevels: UserLevels, user: UserId, guild: GuildId): (rank: Option<nat>)
    ensures rank.None? <==> GetUserLevelTotal(userLevels, user, guild).None?
    ensures rank.Some? ==> 1 <= rank.value
    ensures rank.Some? ==>
      RankedRow(user, GetUserLevelTotal(userLevels, user, guild).value, rank.value) in GetUserLevelRankingTotal(userLevels, guild)
  {
    var scope := UserTotals(userLevels, guild);
    if user in scope then Some(RankOf(scope, user)) else None
  }

  /** get_user_level_ranking: (user_id, exp, rank) for the channel's rows, exp descending. */
  function GetUserLevelRanking(userLevels: UserLevels, guild: GuildId, channel: ChannelId): (rows: seq<RankedRow>)
    ensures IsRanking(UsersOfChannel(userLevels, guild, channel), rows)
  {
    Ranking(UsersOfChannel(userLevels, guild, channel))
  }

  /** get_user_level_ranking_total: (user_id, SUM(exp), rank) over the guild, total descending. */
  function GetUserLevelRankingTotal(userLevels: UserLevels, guild: GuildId): (rows: seq<RankedRow>)
    ensures IsRanking(UserTotals(userLevels, guild), rows)
  {
    Ranking(UserTotals(userLevels, guild))
  }

  /** get_user_level_ranking_channel: (channel_id, exp, rank) over the user's channels in the guild. */
  function GetUserLevelRankingChannel(userLevels: UserLevels, user: UserId, guild: GuildId): (rows: seq<RankedRow>)
    ensures IsRanking(ChannelsOfUser(userLevels, user, guild), rows)
  {
    Ranking(ChannelsOfUser(userLevels, user, guild))
  }

  /** get_user_level_ranking_total_channel: (channel_id, SUM(exp), rank) over the guild's channels. */
  function GetUserLevelRankingTotalChannel(userLevels: UserLevels, guild: GuildId): (rows: seq<RankedRow>)
    ensures IsRanking(ChannelTotals(userLevels, guild), rows)
  {
    Ranking(ChannelTotals(userLevels, guild))
  }

  // ----- statement semantics -----

  /** add_user_level's upsert `exp = user_levels.exp + new.exp` raises the user's guild
      total by exactly the amount added (from nothing, the total becomes that amount). */
  lemma AddRaisesTotal(userLevels: UserLevels, user: UserId, guild: GuildId, channel: ChannelId, exp: Exp)
    ensures
      var added := userLevels[(user, guild, channel) := GetUserLevel(userLevels, user, guild, channel) + exp];
      var before := GetUserLevelTotal(userLevels, user, guild);
      GetUserLevelTotal(added, user, guild) == Some((if before.Some? then before.value else 0) + exp)
  {
    WriteRaisesTotal(userLevels, user, guild, channel, GetUserLevel(userLevels, user, guild, channel) + exp, exp);
  }

  /** Writing `v` = old exp + `exp` into one row of the user raises the user's total by `exp`. */
  lemma WriteRaisesTotal(userLevels: UserLevels, user: UserId, guild: GuildId, channel: ChannelId, v: Exp, exp: Exp)
    requires v == GetUserLevel(userLevels, user, guild, channel) + exp
    ensures var before := GetUserLevelTotal(userLevels, user, guild);
      GetUserLevelTotal(userLevels[(user, guild, channel) := v], user, guild) == Some((if before.Some? then before.value else 0) + exp)
  {
    var rows := ChannelsOfUser(userLevels, user, guild);
    TotalWithRow(userLevels[(user, guild, channel) := v], user, guild, channel);
    ChannelsOfUserUpdate(userLevels, user, guild, channel, v);
    SumAfterAdd(rows, channel, v, exp);
    TotalOrZero(userLevels, user, guild);
  }

  /** A user with a row in the guild has a total: the sum over the user's rows. */
  lemma TotalWithRow(userLevels: UserLevels, user: UserId, guild: GuildId, channel: ChannelId)
    requires (user, guild, channel) in userLevels
    ensures GetUserLevelTotal(userLevels, user, guild) == Some(SumValues(ChannelsOfUser(userLevels, user, guild)))
  {
    assert channel in ChannelsOfUser(userLevels, user, guild);
  }

  /** A missing total (SUM over no rows) counts as 0. */
  lemma TotalOrZero(userLevels: UserLevels, user: UserId, guild: GuildId)
    ensures var total := GetUserLevelTotal(userLevels, user, guild);
      (if total.Some? then total.value else 0) == SumValues(ChannelsOfUser(userLevels, user, guild))
  {
  }

  /** Adding exp to one entry (0 when absent) adds exp to the sum. */
  lemma SumAfterAdd(rows: map<nat, nat>, channel: nat, v: nat, exp: nat)
    requires v == (if channel in rows then rows[channel] else 0) + exp
    ensures SumValues(rows[channel := v]) == SumValues(rows) + exp
  {
    SumUpdate(rows, channel, v);
    if channel !in rows {
      assert rows - {channel} == rows;
    }
  }

  /** Writing one row of the user changes only that channel of the user's rows. */
  lemma ChannelsOfUserUpdate(userLevels: UserLevels, user: UserId, guild: GuildId, channel: ChannelId, v: Exp)
    ensures ChannelsOfUser(userLevels[(user, guild, channel) := v], user, guild)
         == ChannelsOfUser(userLevels, user, guild)[channel := v]
  {
  }

  /** The clamped subtraction remove_user_level_exp is meant to perform: the row's exp
      becomes max(exp - amount, 0); no row is created and no other row changes. */
  function RemoveExp(userLevels: UserLevels, key: (UserId, GuildId, ChannelId), amount: Exp): (r: UserLevels)
    ensures r.Keys == userLevels.Keys
    ensures key in userLevels ==> r[key] <= userLevels[key]
    ensures key in userLevels && amount <= userLevels[key] ==> r[key] + amount == userLevels[key]
    ensures key in userLevels && amount > userLevels[key] ==> r[key] == 0
    ensures forall k | k in userLevels && k != key :: r[k] == userLevels[k]
  {
    if key in userLevels then
      userLevels[key := if userLevels[key] > amount then userLevels[key] - amount else 0]
    else userLevels
  }

  /** remove_user_level_exp as MySQL evaluates it: `user_levels.exp - %s` subtracts from an
      INT UNSIGNED column, so it is an unsigned subtraction that fails with error 1690 as
      soon as the amount exceeds the stored exp; GREATEST(…, 0) never sees a negative value. */
  function RemoveExpAsWritten(userLevels: UserLevels, key: (UserId, GuildId, ChannelId), amount: Exp): (r: Result<UserLevels>)
    ensures key in userLevels && amount > userLevels[key] <==> r == Err(UnsignedOutOfRange)
  {
    if key !in userLevels then Ok(userLevels)
    else if amount > userLevels[key] then Err(UnsignedOutOfRange)
    else Ok(userLevels[key := userLevels[key] - amount])
  }

  /** Where the amount does not exceed the stored exp, the statement as written and the
      clamped subtraction agree; they differ only where the clamp was meant to act. */
  lemma RemoveAsWrittenAgrees(userLevels: UserLevels, key: (UserId, GuildId, ChannelId), amount: Exp)
    ensures RemoveExpAsWritten(userLevels, key, amount).Ok? ==>
      RemoveExpAsWritten(userLevels, key, amount).value == RemoveExp(userLevels, key, amount)
  {
  }

  /** The input that shows it: a row holding 5 exp, asked to lose 10, makes the statement
      fail instead of leaving 0. */
  lemma RemoveMoreThanStoredFails()
    ensures RemoveExpAsWritten(map[(1, 2, 3) := 5], (1, 2, 3), 10) == Err(UnsignedOutOfRange)
    ensures RemoveExp(map[(1, 2, 3) := 5], (1, 2, 3), 10) == map[(1, 2, 3) := 0]
  {
  }

  /** The `Database` object: its `initialized` flag and the three tables. */
  class Database {
    var initialized: bool
    var guildSettings: GuildSettings
    var levelRoles: LevelRoles
    var userLevels: UserLevels

    /** A new `Database` object over the rows the MySQL server already holds: the rows
        outlive the object, and only the `initialized` flag starts afresh. */
    constructor (guildSettings: GuildSettings, levelRoles: LevelRoles, userLevels: UserLevels)
      ensures !initialized
      ensures this.guildSettings == guildSettings && this.levelRoles == levelRoles && this.userLevels == userLevels
    {
      initialized := false;
      this.guildSettings, this.levelRoles, this.userLevels := guildSettings, levelRoles, userLevels;
    }

    /** init: `CREATE TABLE IF NOT EXISTS` keeps existing rows; the flag becomes true. */
    method Init()
      modifies this`initialized
      ensures initialized
    {
      initialized := true;
    }

    /** is_initialized. */
    method IsInitialized() returns (r: bool)
      ensures r <==> initialized
    {
      r := initialized;
    }

    /** update_guild_setting: `INSERT … ON DUPLICATE KEY UPDATE` writes the whole row. */
    method UpdateGuildSetting(guild: GuildId, minExp: nat, maxExp: nat, stackLevelRoles: bool)
      modifies this`guildSettings
      ensures guildSettings == old(guildSettings)[guild := GuildSetting(minExp, maxExp, stackLevelRoles)]
      ensures GetGuildSetting(guildSettings, guild) == GuildSetting(minExp, maxExp, stackLevelRoles)
      ensures forall g | g != guild :: GetGuildSetting(guildSettings, g) == GetGuildSetting(old(guildSettings), g)
    {
      guildSettings := guildSettings[guild := GuildSetting(minExp, maxExp, stackLevelRoles)];
    }

    /** delete_guild_setting: afterwards the guild reads as the defaults again. */
    method DeleteGuildSetting(guild: GuildId)
      modifies this`guildSettings
      ensures guildSettings == old(guildSettings) - {guild}
      ensures GetGuildSetting(guildSettings, guild) == DefaultGuildSetting
      ensures forall g | g != guild :: GetGuildSetting(guildSettings, g) == GetGuildSetting(old(guildSettings), g)
    {
      guildSettings := guildSettings - {guild};
    }

    /** create_guild_level_role: a plain INSERT, which fails on an existing (guild, role) key. */
    method CreateGuildLevelRole(guild: GuildId, role: RoleId, level: Level) returns (result: Result<()>)
      modifies this`levelRoles
      ensures (guild, role) in old(levelRoles) ==> result == Err(DuplicateEntry) && levelRoles == old(levelRoles)
      ensures (guild, role) !in old(levelRoles) ==>
        result == Ok(()) && levelRoles == old(levelRoles)[(guild, role) := level]
      ensures result.Ok? ==> GetGuildLevelRole(levelRoles, guild, role) == Some(level)
    {
      if (guild, role) in levelRoles {
        result := Err(DuplicateEntry);
      } else {
        levelRoles := levelRoles[(guild, role) := level];
        result := Ok(());
      }
    }

    /** delete_guild_level_role: removes the one (guild, role) row. */
    method DeleteGuildLevelRole(guild: GuildId, role: RoleId)
      modifies this`levelRoles
      ensures levelRoles == old(levelRoles) - {(guild, role)}
      ensures GetGuildLevelRole(levelRoles, guild, role) == None
    {
      levelRoles := levelRoles - {(guild, role)};
    }

    /** delete_all_guild_level_roles: removes every row of the guild and nothing else. */
    method DeleteAllGuildLevelRoles(guild: GuildId)
      modifies this`levelRoles
      ensures forall key :: key in levelRoles <==> key in old(levelRoles) && key.0 != guild
      ensures forall key | key in levelRoles :: levelRoles[key] == old(levelRoles)[key]
      ensures GetGuildLevelRoles(levelRoles, guild) == []
    {
      levelRoles := map key | key in levelRoles && key.0 != guild :: levelRoles[key];
      assert RolesOf(levelRoles, guild) == map[];
    }

    /** add_user_level: additive upsert; an absent row starts from 0. */
    method AddUserLevel(user: UserId, guild: GuildId, channel: ChannelId, exp: Exp)
      modifies this`userLevels
      ensures userLevels == old(userLevels)[(user, guild, channel) := GetUserLevel(old(userLevels), user, guild, channel) + exp]
      ensures GetUserLevelTotal(userLevels, user, guild).Some?
    {
      AddRaisesTotal(userLevels, user, guild, channel, exp);
      userLevels := userLevels[(user, guild, channel) := GetUserLevel(userLevels, user, guild, channel) + exp];
    }

    /** remove_user_level_exp, with the clamp at zero that GREATEST(…, 0) is there for;
        an absent row stays absent. */
    method RemoveUserLevelExp(user: UserId, guild: GuildId, channel: ChannelId, exp: Exp)
      modifies this`userLevels
      ensures userLevels == RemoveExp(old(userLevels), (user, guild, channel), exp)
    {
      userLevels := RemoveExp(userLevels, (user, guild, channel), exp);
    }

    /** delete_user_level: removes the one (user, guild, channel) row. */
    method DeleteUserLevel(user: UserId, guild: GuildId, channel: ChannelId)
      modifies this`userLevels
      ensures userLevels == old(userLevels) - {(user, guild, channel)}
    {
      userLevels := userLevels - {(user, guild, channel)};
    }

    /** delete_user_level_total: removes the user's rows in every channel of the guild. */
    method DeleteUserLevelTotal(user: UserId, guild: GuildId)
      modifies this`userLevels
      ensures forall key :: key in userLevels <==> key in old(userLevels) && !(key.0 == user && key.1 == guild)
      ensures forall key | key in userLevels :: userLevels[key] == old(userLevels)[key]
      ensures GetUserLevelTotal(userLevels, user, guild) == None
    {
      userLevels := map key | key in userLevels && !(key.0 == user && key.1 == guild) :: userLevels[key];
    }

    /** delete_all_user_levels: removes every row of the guild and nothing else. */
    method DeleteAllUserLevels(guild: GuildId)
      modifies this`userLevels
      ensures forall key :: key in userLevels <==> key in old(userLevels) && key.1 != guild
      ensures forall key | key in userLevels :: userLevels[key] == old(userLevels)[key]
      ensures GetUserLevelRankingTotal(userLevels, guild) == []
    {
      userLevels := map key | key in userLevels && key.1 != guild :: userLevels[key];
      assert UserTotals(userLevels, guild) == map[];
    }
  }
}
