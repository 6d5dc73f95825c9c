/** Records of the ELO competition database that the command handlers read
    and write. Identifiers are Discord snowflakes (unsigned 64-bit in the
    source); here they are only compared, so they are natural numbers. */
module Models {

  /** A value that may be missing: a C# `null` reference or an unset `int?`. */
  datatype Option<T> = None | Some(value: T)

  type GuildId = nat
  type UserId = nat
  type RoleId = nat

  /** Per-guild configuration and the registration counter. */
  datatype Competition = Competition(
    guildId: GuildId,
    defaultWinModifier: int,
    defaultLossModifier: int,
    allowReRegister: bool,
    allowSelfRename: bool,
    updateNames: bool,
    registrationCount: int)

  /** A registered participant of one guild's competition. */
  datatype Player = Player(
    guildId: GuildId,
    userId: UserId,
    displayName: string,
    points: int,
    wins: int,
    losses: int,
    draws: int,
    games: int,
    registrationDate: int)

  /** The composite key of a player row: guild and user. */
  datatype PlayerKey = PlayerKey(guild: GuildId, user: UserId)

  /** A named tier: the role granted from `points` on, with optional
      per-rank win/loss modifiers that override the competition defaults. */
  datatype Rank = Rank(
    guildId: GuildId,
    roleId: RoleId,
    points: int,
    winModifier: Option<int>,
    lossModifier: Option<int>)

  /** An administrative score adjustment record. It carries no behaviour in
      the modelled code and is kept as data only. */
  datatype ManualGameScoreUpdate = ManualGameScoreUpdate(
    guildId: GuildId,
    userId: UserId,
    manualGameId: int,
    modifyAmount: int)
}
