/** cogs/leveling.py: the `Leveling` cog's per-message progression step. A message from
    a guild member registers a lock for its author, reads the guild's gain range and
    stacking policy, adds a random gain to the author's (level, exp) record, recomputes
    the level with `calculation_level`, and on a level-up hands out the reward roles the
    guild configured for the new level. */
module Leveling {
  import opened Tables

  /** An asyncio.Lock; the model keeps only its identity (it never blocks). */
  class Lock {
    constructor ()
    {
    }
  }

  /** The author of a guild message as discord.py presents it: a member whose role set
      add_roles and remove_roles change. */
  class Member {
    const id: UserId
    const bot: bool
    var roles: set<RoleId>

    constructor (id: UserId, bot: bool, roles: set<RoleId>)
      ensures this.id == id && this.bot == bot && this.roles == roles
    {
      this.id, this.bot, this.roles := id, bot, roles;
    }
  }

  /** An inbound message: its author and its guild (None for a direct message). */
  datatype Message = Message(author: Member, guild: Option<GuildId>)

  /** The (level, exp) record on_message keeps per (user, guild). */
  datatype UserLevel = UserLevel(level: Level, exp: Exp)

  /** What one message did; LevelUp carries the two levels of the "LEVEL UP!" announcement. */
  datatype Outcome =
    | Skipped                       // a bot's message or a direct message
    | EmptyGainRange                // random.randint(min_exp, max_exp) raised: min_exp > max_exp
    | Stored(record: UserLevel)     // no level-up; the record written back
    | LevelUp(from: Level, to: Level)

  /** on_message returns at once for a bot author or a message outside a guild. */
  predicate Skips(message: Message)
  {
    message.author.bot || message.guild.None?
  }

  /** The record get_user_level yields after on_message's get-or-create: the stored one,
      or the fresh record create_user_level writes (level 0, no exp). */
  function CurrentRecord(records: map<(UserId, GuildId), UserLevel>, key: (UserId, GuildId)): (r: UserLevel)
    ensures key !in records ==> r == UserLevel(0, 0)
    ensures key in records ==> r == records[key]
  {
    if key in records then records[key] else UserLevel(0, 0)
  }

  /** random.randint(min_exp, max_exp) can return draw: the range is inclusive. */
  predicate GainInRange(setting: GuildSetting, draw: Exp)
  {
    setting.minExp <= draw <= setting.maxExp
  }

  // ----- the experience step -----

  /** The message levels the author up: the stored level is below calculation_level of
      the increased exp. */
  predicate LevelsUp(record: UserLevel, gain: Exp, calculationLevel: Exp -> Level)
  {
    record.level < calculationLevel(record.exp + gain)
  }

  /** The record on_message writes back after a gain. */
  function Progress(record: UserLevel, gain: Exp, calculationLevel: Exp -> Level): (next: UserLevel)
    ensures next.level == calculationLevel(record.exp + gain)
    ensures LevelsUp(record, gain, calculationLevel) <==> next.level > record.level
    ensures LevelsUp(record, gain, calculationLevel) ==> next.exp == 0
    ensures !LevelsUp(record, gain, calculationLevel) ==> next.exp == record.exp + gain
  {
    var increasedExp := record.exp + gain;
    var increasedLevel := calculationLevel(increasedExp);
    if record.level < increasedLevel then UserLevel(increasedLevel, 0)
    else UserLevel(increasedLevel, increasedExp)
  }

  /** Without a level-up the stored level is recomputed from the stored exp, and since
      the level-up branch resets exp to 0, a message after a level-up can store a lower
      level than the one just announced. */
  lemma LevelFallsBackAfterLevelUp(record: UserLevel, first: Exp, second: Exp, calculationLevel: Exp -> Level)
    requires LevelsUp(record, first, calculationLevel)
    requires calculationLevel(second) < calculationLevel(record.exp + first)
    ensures Progress(record, first, calculationLevel).exp == 0
    ensures Progress(Progress(record, first, calculationLevel), second, calculationLevel)
      == UserLevel(calculationLevel(second), second)
    ensures Progress(Progress(record, first, calculationLevel), second, calculationLevel).level
      < Progress(record, first, calculationLevel).level
  {
  }

  /** The record after a run of messages with the given gains. */
  function Run(record: UserLevel, gains: seq<Exp>, calculationLevel: Exp -> Level): UserLevel
    decreases |gains|
  {
    if gains == [] then record
    else Run(Progress(record, gains[0], calculationLevel), gains[1..], calculationLevel)
  }

  /** The band a run stays in: exp below the first threshold, and level 0 unless exp was just reset. */
  ghost predicate InFirstBand(record: UserLevel, threshold: Exp, cap: Level)
  {
    record.exp < threshold && record.level <= cap && (record.exp == 0 || record.level == 0)
  }

  /** Because exp restarts from 0 at every level-up while the level is recomputed from
      that exp, progress is capped: if calculation_level is monotone, gives level 0 below
      `threshold` and at least 1 from it on, and no single gain reaches `threshold`, then
      no sequence of messages takes a new user past calculation_level(threshold - 1 + maxGain). */
  lemma {:induction false} LevelCapped(record: UserLevel, gains: seq<Exp>, calculationLevel: Exp -> Level,
                                       threshold: Exp, maxGain: Exp)
    requires forall a, b | a <= b :: calculationLevel(a) <= calculationLevel(b)
    requires forall e: Exp | e < threshold :: calculationLevel(e) == 0
    requires 1 <= calculationLevel(threshold)
    requires maxGain < threshold
    requires forall i | 0 <= i < |gains| :: gains[i] <= maxGain
    requires InFirstBand(record, threshold, calculationLevel(threshold - 1 + maxGain))
    ensures InFirstBand(Run(record, gains, calculationLevel), threshold, calculationLevel(threshold - 1 + maxGain))
    decreases |gains|
  {
    if gains != [] {
      var cap := calculationLevel(threshold - 1 + maxGain);
      var e := record.exp + gains[0];
      var next := Progress(record, gains[0], calculationLevel);
      if e < threshold {
        assert calculationLevel(e) == 0;
      } else {
        assert record.level == 0 && calculationLevel(threshold) <= calculationLevel(e);
        assert calculationLevel(e) <= cap;
      }
      assert InFirstBand(next, threshold, cap);
      LevelCapped(next, gains[1..], calculationLevel, threshold, maxGain);
    }
  }

  // ----- reward roles -----

  /** The role ids of a list of (role_id, level) rows. */
  function RoleIds(rows: seq<(RoleId, Level)>): set<RoleId>
  {
    set row | row in rows :: row.0
  }

  /** Taking one more row of a list takes one more role id. */
  lemma RoleIdsExtend(rows: seq<(RoleId, Level)>, i: nat)
    requires i < |rows|
    ensures RoleIds(rows[..i + 1]) == RoleIds(rows[..i]) + {rows[i].0}
  {
    assert rows[..i + 1] == rows[..i] + [rows[i]];
  }

  /** No role id appears twice (guild_level_roles has PRIMARY KEY (guild_id, role_id)). */
  predicate DistinctRoles(rows: seq<(RoleId, Level)>)
  {
    forall i, j | 0 <= i < j < |rows| :: rows[i].0 != rows[j].0
  }

  /** add_level_roles: the configured rows for exactly the new level, in table order. */
  function RolesToAdd(levelRoles: seq<(RoleId, Level)>, level: Level): (rows: seq<(RoleId, Level)>)
    ensures forall row :: row in rows <==> row in levelRoles && row.1 == level
  {
    if levelRoles == [] then []
    else (if levelRoles[0].1 == level then [levelRoles[0]] else []) + RolesToAdd(levelRoles[1..], level)
  }

  /** remove_level_roles: the configured rows for every other level, in table order. */
  function RolesToRemove(levelRoles: seq<(RoleId, Level)>, level: Level): (rows: seq<(RoleId, Level)>)
    ensures forall row :: row in rows <==> row in levelRoles && row.1 != level
  {
    if levelRoles == [] then []
    else (if levelRoles[0].1 != level then [levelRoles[0]] else []) + RolesToRemove(levelRoles[1..], level)
  }

  /** The member's roles after a level-up: nothing changes when no role is configured for
      the new level; otherwise those roles are added and, unless roles stack, every other
      configured role is removed. */
  function RolesAfterLevelUp(roles: set<RoleId>, levelRoles: seq<(RoleId, Level)>, level: Level, stack: bool): set<RoleId>
  {
    var added := RolesToAdd(levelRoles, level);
    if added == [] then roles
    else if stack then roles + RoleIds(added)
    else (roles + RoleIds(added)) - RoleIds(RolesToRemove(levelRoles, level))
  }

  /** Because role ids are distinct, the roles added and the roles removed never share a
      role, and together they are the whole configured table. */
  lemma RewardPartition(levelRoles: seq<(RoleId, Level)>, level: Level)
    requires DistinctRoles(levelRoles)
    ensures RoleIds(RolesToAdd(levelRoles, level)) !! RoleIds(RolesToRemove(levelRoles, level))
    ensures RoleIds(RolesToAdd(levelRoles, level)) + RoleIds(RolesToRemove(levelRoles, level)) == RoleIds(levelRoles)
  {
    var added, removed := RolesToAdd(levelRoles, level), RolesToRemove(levelRoles, level);
    forall role | role in RoleIds(added) ensures role !in RoleIds(removed) {
      var a :| a in added && a.0 == role;
      forall b | b in removed ensures b.0 != role {
        var i :| 0 <= i < |levelRoles| && levelRoles[i] == a;
        var j :| 0 <= j < |levelRoles| && levelRoles[j] == b;
        assert i != j;
      }
    }
    forall role | role in RoleIds(levelRoles) ensures role in RoleIds(added) + RoleIds(removed) {
      var row :| row in levelRoles && row.0 == role;
      if row.1 == level {
        assert row in added;
      } else {
        assert row in removed;
      }
    }
  }

  /** What a level-up does to the member's roles, per the stacking policy; roles the
      guild does not configure are never touched. */
  lemma RolesAfterLevelUpMeaning(roles: set<RoleId>, levelRoles: seq<(RoleId, Level)>, level: Level, stack: bool)
    requires DistinctRoles(levelRoles)
    ensures RolesToAdd(levelRoles, level) == [] ==> RolesAfterLevelUp(roles, levelRoles, level, stack) == roles
    ensures stack ==>
      RolesAfterLevelUp(roles, levelRoles, level, stack) == roles + RoleIds(RolesToAdd(levelRoles, level))
    ensures !stack && RolesToAdd(levelRoles, level) != [] ==>
      RolesAfterLevelUp(roles, levelRoles, level, stack) * RoleIds(levelRoles) == RoleIds(RolesToAdd(levelRoles, level))
    ensures RolesAfterLevelUp(roles, levelRoles, level, stack) - RoleIds(levelRoles) == roles - RoleIds(levelRoles)
  {
    RewardPartition(levelRoles, level);
  }

  /** The list get_guild_level_roles returns has no role twice. */
  lemma GuildLevelRolesDistinct(levelRoles: LevelRoles, guild: GuildId)
    ensures DistinctRoles(GetGuildLevelRoles(levelRoles, guild))
  {
    GuildLevelRolesListed(levelRoles, guild);
  }

  // ----- the lock registry -----

  /** After the lock step the author has a lock; every lock that existed is kept as it
      was, and no other entry is added. */
  ghost predicate LockRegistered(before: map<UserId, Lock>, after: map<UserId, Lock>, user: UserId)
  {
    && after.Keys == before.Keys + {user}
    && forall u | u in before :: after[u] == before[u]
  }

  /** What random.randint(min_exp, max_exp) can return; any draw when the range is
      empty, since randint then raises instead of returning. */
  predicate DrawAllowed(setting: GuildSetting, draw: Exp)
  {
    setting.minExp <= setting.maxExp ==> GainInRange(setting, draw)
  }

  /** One handled message of the user `key.0` in guild `key.1`, from the record store and
      role set before to those after: an empty gain range raises after the record was
      created; otherwise the record is progressed by the gain and, on a level-up, the
      member's roles follow the guild's level roles. */
  ghost predicate Handled(before: map<(UserId, GuildId), UserLevel>, after: map<(UserId, GuildId), UserLevel>,
                          rolesBefore: set<RoleId>, rolesAfter: set<RoleId>, outcome: Outcome,
                          key: (UserId, GuildId), setting: GuildSetting, levelRoles: seq<(RoleId, Level)>,
                          draw: Exp, calculationLevel: Exp -> Level)
  {
    var record := CurrentRecord(before, key);
    var next := Progress(record, draw, calculationLevel);
    if setting.minExp > setting.maxExp then
      && outcome == EmptyGainRange
      && after == before[key := record]
      && rolesAfter == rolesBefore
    else if LevelsUp(record, draw, calculationLevel) then
      && outcome == LevelUp(record.level, next.level)
      && after == before[key := next]
      && rolesAfter == RolesAfterLevelUp(rolesBefore, levelRoles, next.level, setting.stackLevelRoles)
    else
      && outcome == Stored(next)
      && after == before[key := next]
      && rolesAfter == rolesBefore
  }

  /** The per-(user, guild) record store on_message calls: get_user_level,
      create_user_level and update_user_level with the shapes on_message uses. */
  class LevelStore {
    var records: map<(UserId, GuildId), UserLevel>

    constructor ()
      ensures records == map[]
    {
      records := map[];
    }

    method GetUserLevel(user: UserId, guild: GuildId) returns (record: Option<UserLevel>)
      ensures (user, guild) in records <==> record.Some?
      ensures record.Some? ==> record.value == records[(user, guild)]
    {
      record := if (user, guild) in records then Some(records[(user, guild)]) else None;
    }

    method CreateUserLevel(user: UserId, guild: GuildId)
      modifies this
      ensures records == old(records)[(user, guild) := UserLevel(0, 0)]
    {
      records := records[(user, guild) := UserLevel(0, 0)];
    }

    method UpdateUserLevel(user: UserId, guild: GuildId, level: Level, exp: Exp)
      modifies this
      ensures records == old(records)[(user, guild) := UserLevel(level, exp)]
    {
      records := records[(user, guild) := UserLevel(level, exp)];
    }
  }

  /** The level-up branch's role changes (cogs/leveling.py:54-68): add_roles for each
      row of the new level, then, unless roles stack, remove_roles for every other row;
      with no row for the new level, on_message returns before touching any role. */
  method GrantLevelRoles(member: Member, levelRoles: seq<(RoleId, Level)>, level: Level, stack: bool)
    modifies member
    ensures member.roles == RolesAfterLevelUp(old(member.roles), levelRoles, level, stack)
  {
    var addLevelRoles := RolesToAdd(levelRoles, level);
    if |addLevelRoles| == 0 {
      return;
    }
    for i := 0 to |addLevelRoles|
      invariant member.roles == old(member.roles) + RoleIds(addLevelRoles[..i])
    {
      RoleIdsExtend(addLevelRoles, i);
      member.roles := member.roles + {addLevelRoles[i].0};
    }
    assert addLevelRoles[..|addLevelRoles|] == addLevelRoles;
    if !stack {
      var removeLevelRoles := RolesToRemove(levelRoles, level);
      for i := 0 to |removeLevelRoles|
        invariant member.roles == (old(member.roles) + RoleIds(addLevelRoles)) - RoleIds(removeLevelRoles[..i])
      {
        RoleIdsExtend(removeLevelRoles, i);
        member.roles := member.roles - {removeLevelRoles[i].0};
      }
      assert removeLevelRoles[..|removeLevelRoles|] == removeLevelRoles;
    }
  }

  /** The cog: its lock registry, the store, and the level curve it imports. */
  class Leveling {
    var locks: map<UserId, Lock>
    const db: Database
    const store: LevelStore
    const calculationLevel: Exp -> Level

    constructor (db: Database, store: LevelStore, calculationLevel: Exp -> Level)
      ensures locks == map[]
      ensures this.db == db && this.store == store && this.calculationLevel == calculationLevel
    {
      this.db, this.store, this.calculationLevel := db, store, calculationLevel;
      locks := map[];
    }

    /** The lock step of on_message: the author's lock, created and registered on the
        author's first message. */
    method LockFor(user: UserId) returns (lock: Lock)
      modifies this`locks
      ensures LockRegistered(old(locks), locks, user)
      ensures lock == locks[user]
      ensures user !in old(locks) ==> fresh(lock)
    {
      if user in locks {
        lock := locks[user];
      } else {
        lock := new Lock();
        locks := locks[user := lock];
      }
    }

    /** The reward step after a level-up: reads the guild's level roles and grants them. */
    method RewardLevelUp(author: Member, guild: GuildId, level: Level, stack: bool)
      modifies author
      ensures author.roles == RolesAfterLevelUp(old(author.roles), GetGuildLevelRoles(db.levelRoles, guild), level, stack)
    {
      var levelRoles := GetGuildLevelRoles(db.levelRoles, guild);
      GrantLevelRoles(author, levelRoles, level, stack);
    }

    /** The body of `async with lock:` for a guild message of `author`. `draw` is the
        value random.randint(min_exp, max_exp) returns. */
    method UnderLock(author: Member, guild: GuildId, draw: Exp) returns (outcome: Outcome)
      requires DrawAllowed(GetGuildSetting(db.guildSettings, guild), draw)
      modifies store, author
      ensures Handled(old(store.records), store.records, old(author.roles), author.roles, outcome,
                      (author.id, guild), GetGuildSetting(db.guildSettings, guild),
                      GetGuildLevelRoles(db.levelRoles, guild), draw, calculationLevel)
    {
      var user := author.id;
      var setting := GetGuildSetting(db.guildSettings, guild);
      var record := store.GetUserLevel(user, guild);
      if record.None? {
        store.CreateUserLevel(user, guild);
        record := store.GetUserLevel(user, guild);
      }
      assert record == Some(CurrentRecord(old(store.records), (user, guild)));
      var level, exp := record.value.level, record.value.exp;
      if setting.minExp > setting.maxExp {
        return EmptyGainRange;
      }
      var increasedExp := exp + draw;
      var increasedLevel := calculationLevel(increasedExp);

      if level < increasedLevel {
        store.UpdateUserLevel(user, guild, increasedLevel, 0);
        assert store.records == old(store.records)[(user, guild) := Progress(record.value, draw, calculationLevel)];
        outcome := LevelUp(level, increasedLevel);

        RewardLevelUp(author, guild, increasedLevel, setting.stackLevelRoles);
      } else {
        store.UpdateUserLevel(user, guild, increasedLevel, increasedExp);
        assert UserLevel(increasedLevel, increasedExp) == Progress(record.value, draw, calculationLevel);
        outcome := Stored(UserLevel(increasedLevel, increasedExp));
      }
    }

    /** on_message. `draw` is the value random.randint(min_exp, max_exp) returns. */
    method OnMessage(message: Message, draw: Exp) returns (outcome: Outcome)
      requires !Skips(message) ==> DrawAllowed(GetGuildSetting(db.guildSettings, message.guild.value), draw)
      modifies this`locks, store, message.author
      ensures Skips(message) ==>
        && outcome == Skipped
        && locks == old(locks)
        && store.records == old(store.records)
        && message.author.roles == old(message.author.roles)
      ensures !Skips(message) ==>
        && LockRegistered(old(locks), locks, message.author.id)
        && (message.author.id !in old(locks) ==> fresh(locks[message.author.id]))
        && Handled(old(store.records), store.records, old(message.author.roles), message.author.roles, outcome,
                   (message.author.id, message.guild.value), GetGuildSetting(db.guildSettings, message.guild.value),
                   GetGuildLevelRoles(db.levelRoles, message.guild.value), draw, calculationLevel)
    {
      if message.author.bot || message.guild.None? {
        return Skipped;
      }
      var lock := LockFor(message.author.id);
      outcome := UnderLock(message.author, message.guild.value, draw);
    }
  }
}
