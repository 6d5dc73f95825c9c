/** The state-changing commands of `Modules/UserCommands.cs`: registration
    and self-rename. One guild's service state is a `Store` holding the
    competition record and the player table keyed by user. The Discord side
    (messages, role sync, nickname push) becomes outcome values: what the
    handler would reply, and the nickname it would push. */
module UserCommands {
  import opened Models

  /** The name a registration uses: the one given, else the username. */
  function ChosenName(name: Option<string>, username: string): (r: string)
    ensures name.Some? ==> r == name.value
    ensures name.None? ==> r == username
  {
    if name.None? then username else name.value
  }

  /** Stand-in for `Service.CreatePlayer(guild, user, name)`, whose code is
      not part of this model: a fresh record with zero points and counters. */
  function CreatePlayer(guild: GuildId, user: UserId, name: string, registeredAt: int): Player {
    Player(guild, user, name, 0, 0, 0, 0, 0, registeredAt)
  }

  /** The player table belongs to `guild` and is keyed by each row's user. */
  ghost predicate TableOf(guild: GuildId, players: map<UserId, Player>) {
    forall u :: u in players ==> players[u].userId == u && players[u].guildId == guild
  }

  // ---------------------------------------------------------------------
  // Register

  datatype RegisterOutcome =
    | ReRegisterForbidden                  // "You are not allowed to re-register."
    | RegistrationLimitExceeded(limit: int)
    | Registered(player: Player, roleResponses: seq<string>)

  datatype Registration = Registration(outcome: RegisterOutcome, competition: Competition, players: map<UserId, Player>)

  /** What `RegisterAsync(name)` does to the competition and the table.
      `limit` is the premium registration limit and `roleResponses` what the
      role/nickname update reported; both come from code outside this model. */
  function RegisterResult(comp: Competition, players: map<UserId, Player>, guild: GuildId, user: UserId,
                          username: string, name: Option<string>, limit: int, registeredAt: int,
                          roleResponses: seq<string>): (r: Registration)
    // an already registered user, re-registration off: rejected, nothing changes
    ensures user in players && !comp.allowReRegister ==>
              r == Registration(ReRegisterForbidden, comp, players)
    // a new user over the limit (count strictly above it): rejected, nothing changes
    ensures user !in players && limit < comp.registrationCount ==>
              r == Registration(RegistrationLimitExceeded(limit), comp, players)
    // a new user within the limit (count at most the limit): created, count + 1
    ensures user !in players && comp.registrationCount <= limit ==>
              && r.outcome.Registered?
              && r.competition == comp.(registrationCount := comp.registrationCount + 1)
              && r.players == players[user := CreatePlayer(guild, user, ChosenName(name, username), registeredAt)]
    // an allowed re-registration: only the name changes, the count does not
    ensures user in players && comp.allowReRegister ==>
              && r.outcome.Registered?
              && r.competition == comp
              && r.players == players[user := players[user].(displayName := ChosenName(name, username))]
    // every success stores and reports the record under the chosen name
    ensures r.outcome.Registered? ==>
              && user in r.players
              && r.players[user] == r.outcome.player
              && r.outcome.player.displayName == ChosenName(name, username)
              && r.outcome.roleResponses == roleResponses
              && r.players.Keys == players.Keys + {user}
    ensures TableOf(guild, players) ==> TableOf(guild, r.players)
  {
    var chosen := ChosenName(name, username);
    if user in players then
      if !comp.allowReRegister then Registration(ReRegisterForbidden, comp, players)
      else
        var player := players[user].(displayName := chosen);
        Registration(Registered(player, roleResponses), comp, players[user := player])
    else if limit < comp.registrationCount then
      Registration(RegistrationLimitExceeded(limit), comp, players)
    else
      var player := CreatePlayer(guild, user, chosen, registeredAt);
      Registration(Registered(player, roleResponses),
                   comp.(registrationCount := comp.registrationCount + 1),
                   players[user := player])
  }

  /** Registering again right after a registration, with re-registration
      allowed, keeps the registration count and every stored record except
      the registering user's name. */
  lemma ReRegistrationCountsOnce(comp: Competition, players: map<UserId, Player>, guild: GuildId, user: UserId,
                                 username: string, name: Option<string>, name2: Option<string>,
                                 limit: int, limit2: int, at: int, at2: int, resp: seq<string>, resp2: seq<string>)
    requires comp.allowReRegister
    requires RegisterResult(comp, players, guild, user, username, name, limit, at, resp).outcome.Registered?
    ensures var first := RegisterResult(comp, players, guild, user, username, name, limit, at, resp);
            var second := RegisterResult(first.competition, first.players, guild, user, username, name2, limit2, at2, resp2);
            && second.outcome.Registered?
            && second.competition.registrationCount == first.competition.registrationCount
            && second.players == first.players[user := first.players[user].(displayName := ChosenName(name2, username))]
  {
  }

  /** A registration with the count equal to the limit still succeeds and
      leaves the count one above the limit. */
  lemma CountEqualToLimitRegisters(comp: Competition, players: map<UserId, Player>, guild: GuildId, user: UserId,
                                   username: string, name: Option<string>, at: int, resp: seq<string>)
    requires user !in players
    ensures var r := RegisterResult(comp, players, guild, user, username, name, comp.registrationCount, at, resp);
            r.outcome.Registered? && r.competition.registrationCount == comp.registrationCount + 1
  {
  }

  // ---------------------------------------------------------------------
  // Rename

  /** What happens to the Discord nickname after a successful rename. */
  datatype NicknameAction =
    | KeepNickname                // names off, or already equal: no message
    | SetNickname(nickname: string)
    | UserOutranksBot             // "You have a higher permission level than the bot ..."
    | MissingManageNicknames      // "The bot does not have the `ManageNicknames` permission ..."

  /** Lines 113-130: the push needs name updates on, a differing name, the
      user strictly below the bot, and the permission; otherwise one reason,
      or none when there is nothing to change. */
  function NicknameDecision(updateNames: bool, currentName: string, newName: string,
                            userHierarchy: int, botHierarchy: int, manageNicknames: bool): (a: NicknameAction)
    ensures a.SetNickname? <==>
              updateNames && currentName != newName && userHierarchy < botHierarchy && manageNicknames
    ensures a.SetNickname? ==> a.nickname == newName
    ensures a.KeepNickname? <==> !updateNames || currentName == newName
    ensures a.UserOutranksBot? <==> updateNames && currentName != newName && userHierarchy >= botHierarchy
    ensures a.MissingManageNicknames? <==>
              updateNames && currentName != newName && userHierarchy < botHierarchy && !manageNicknames
  {
    if updateNames && currentName != newName then
      if userHierarchy < botHierarchy then
        if manageNicknames then SetNickname(newName) else MissingManageNicknames
      else UserOutranksBot
    else KeepNickname
  }

  datatype RenameOutcome =
    | RenameNotRegistered          // "You are not registered yet."
    | SelfRenameForbidden          // "You are not allowed to rename yourself."
    | NameMissing                  // "You must specify a new name in order to be renamed."
    | Renamed(originalName: string, player: Player, nickname: NicknameAction)

  datatype Renaming = Renaming(outcome: RenameOutcome, players: map<UserId, Player>)

  /** What `RenameAsync(name)` does to the table. The guild member's current
      name is `nickname ?? username`; `getNickname` is the competition's
      nickname format, whose code is not part of this model. */
  function RenameResult(comp: Competition, players: map<UserId, Player>, user: UserId, name: Option<string>,
                        nickname: Option<string>, username: string, userHierarchy: int, botHierarchy: int,
                        manageNicknames: bool, getNickname: (Competition, Player) -> string): (r: Renaming)
    // guard 1: not registered
    ensures user !in players ==> r == Renaming(RenameNotRegistered, players)
    // guard 2: self-rename off
    ensures user in players && !comp.allowSelfRename ==> r == Renaming(SelfRenameForbidden, players)
    // guard 3: no name
    ensures user in players && comp.allowSelfRename && name.None? ==> r == Renaming(NameMissing, players)
    // all guards pass: the record is saved under the new name, nickname or not
    ensures user in players && comp.allowSelfRename && name.Some? ==>
              var renamed := players[user].(displayName := name.value);
              var current := if nickname.Some? then nickname.value else username;
              && r.players == players[user := renamed]
              && r.outcome == Renamed(players[user].displayName, renamed,
                                      NicknameDecision(comp.updateNames, current, getNickname(comp, renamed),
                                                       userHierarchy, botHierarchy, manageNicknames))
    ensures !r.outcome.Renamed? ==> r.players == players
  {
    if user !in players then Renaming(RenameNotRegistered, players)
    else if !comp.allowSelfRename then Renaming(SelfRenameForbidden, players)
    else if name.None? then Renaming(NameMissing, players)
    else
      var player := players[user].(displayName := name.value);
      var current := if nickname.Some? then nickname.value else username;
      var action := NicknameDecision(comp.updateNames, current, getNickname(comp, player),
                                     userHierarchy, botHierarchy, manageNicknames);
      Renaming(Renamed(players[user].displayName, player, action), players[user := player])
  }

  /** Renaming twice to the same name stores the same table as once. */
  lemma RenameIdempotent(comp: Competition, players: map<UserId, Player>, user: UserId, name: Option<string>,
                         nickname: Option<string>, username: string, userHierarchy: int, botHierarchy: int,
                         manageNicknames: bool, getNickname: (Competition, Player) -> string)
    ensures var once := RenameResult(comp, players, user, name, nickname, username, userHierarchy, botHierarchy,
                                     manageNicknames, getNickname);
            RenameResult(comp, once.players, user, name, nickname, username, userHierarchy, botHierarchy,
                         manageNicknames, getNickname).players == once.players
  {
  }

  /** The answer to `Rename @user name`: a hint only. */
  datatype MentionHint =
    | RenameWithoutMention         // "Try renaming yourself without the @mention ..."
    | UseRenameUser                // "To rename another user, use the `RenameUser` command instead."

  /** `RenameAsync(user, name)`: the hint depends only on whether the
      mentioned user is the caller. */
  function RenameMention(mentioned: UserId, caller: UserId): (r: MentionHint)
    ensures r == RenameWithoutMention <==> mentioned == caller
    ensures r == UseRenameUser <==> mentioned != caller
  {
    if mentioned == caller then RenameWithoutMention else UseRenameUser
  }

  // ---------------------------------------------------------------------
  // The service state

  /** One guild's competition record and player table. */
  class Store {
    const guild: GuildId
    var competition: Competition
    var players: map<UserId, Player>

    ghost predicate Valid()
      reads this
    {
      competition.guildId == guild && TableOf(guild, players)
    }

    constructor (guild: GuildId, competition: Competition, players: map<UserId, Player>)
      requires competition.guildId == guild && TableOf(guild, players)
      ensures Valid()
      ensures this.guild == guild && this.competition == competition && this.players == players
    {
      this.guild := guild;
      this.competition := competition;
      this.players := players;
    }

    /** `RegisterAsync(name)`. */
    method Register(user: UserId, username: string, name: Option<string>, limit: int, registeredAt: int,
                    roleResponses: seq<string>) returns (outcome: RegisterOutcome)
      requires Valid()
      modifies this`competition, this`players
      ensures Valid()
      ensures outcome.Registered? ==> outcome.player.userId == user && outcome.player.guildId == guild
      ensures var r := RegisterResult(old(competition), old(players), guild, user, username, name, limit,
                                      registeredAt, roleResponses);
              outcome == r.outcome && competition == r.competition && players == r.players
    {
      var chosen := if name.None? then username else name.value;
      var player: Player;
      if user in players {
        player := players[user];
        if !competition.allowReRegister {
          return ReRegisterForbidden;
        }
      } else {
        if limit < competition.registrationCount {
          return RegistrationLimitExceeded(limit);
        }
        player := CreatePlayer(guild, user, chosen, registeredAt);
        players := players[user := player];
        competition := competition.(registrationCount := competition.registrationCount + 1);
      }
      player := player.(displayName := chosen);
      players := players[user := player];
      outcome := Registered(player, roleResponses);
    }

    /** `RenameAsync(name)`: three guards in order, then the nickname
      decision and the save. */
    method Rename(user: UserId, name: Option<string>, nickname: Option<string>, username: string,
                  userHierarchy: int, botHierarchy: int, manageNicknames: bool,
                  getNickname: (Competition, Player) -> string) returns (outcome: RenameOutcome)
      requires Valid()
      modifies this`players
      ensures Valid()
      ensures outcome.Renamed? ==> outcome.player.userId == user && outcome.player.guildId == guild
      ensures var r := RenameResult(competition, old(players), user, name, nickname, username,
                                    userHierarchy, botHierarchy, manageNicknames, getNickname);
              outcome == r.outcome && players == r.players
    {
      if user !in players {
        return RenameNotRegistered;
      }
      var player := players[user];
      if !competition.allowSelfRename {
        return SelfRenameForbidden;
      }
      if name.None? {
        return NameMissing;
      }
      var originalName := player.displayName;
      player := player.(displayName := name.value);
      var newName := getNickname(competition, player);
      var currentName := if nickname.Some? then nickname.value else username;
      var action := KeepNickname;
      if competition.updateNames && currentName != newName {
        if userHierarchy < botHierarchy {
          if manageNicknames {
            action := SetNickname(newName);
          } else {
            action := MissingManageNicknames;
          }
        } else {
          action := UserOutranksBot;
        }
      }
      players := players[user := player];
      outcome := Renamed(originalName, player, action);
    }
  }
}
