/**
 * The `primaryrole` command with `set` and `get` subcommands. `set` runs the
 * same validation chain as the stand-alone command, after checking that its
 * value is a subcommand; `get` only reads the store.
 */
module PrimaryRole {
  import opened Ids
  import opened Data
  import opened Commands
  import SetPrimaryRole

  const InvalidData := "Invalid command data"
  const NoSubcommand := "No subcommand given"
  const UnknownSubcommand := "Unknown subcommand"
  const GetNoGuild := "No server ID found"
  const NoPrimarySet := "No primary role set for this server"
  const PrimaryIsPrefix := "The primary role for this server is "

  function PrimaryIsMessage(r: RoleId): string {
    PrimaryIsPrefix + Decimal(r)
  }

  function SetTransition(t: Table, guild: Option<GuildId>, value: OptionValue,
                         serverRoles: Option<set<RoleId>>, dbFails: bool): Outcome
  {
    if value.SubCommand? then SetPrimaryRole.SetRoleChain(t, guild, value.options, serverRoles, dbFails)
    else Outcome(InvalidData, t)
  }

  function GetReply(t: Table, guild: Option<GuildId>, readFails: bool): string {
    match guild
    case None => GetNoGuild
    case Some(g) =>
      var role := if readFails then None else PrimaryRole(t, g);
      if role.None? then NoPrimarySet else PrimaryIsMessage(role.value)
  }

  /** The whole command: the first option names the subcommand. */
  function RunTransition(t: Table, command: CommandInteraction, serverRoles: Option<set<RoleId>>,
                         dbFails: bool, readFails: bool): Outcome
  {
    if command.data.options == [] then Outcome(NoSubcommand, t)
    else
      var sub := command.data.options[0];
      if sub.name == "set" then SetTransition(t, command.guildId, sub.value, serverRoles, dbFails)
      else if sub.name == "get" then Outcome(GetReply(t, command.data.guildId, readFails), t)
      else Outcome(UnknownSubcommand, t)
  }

  method Set(data: AppData, guild: Option<GuildId>, value: OptionValue,
             serverRoles: Option<set<RoleId>>, dbFails: bool) returns (msg: string)
    modifies data
    ensures Outcome(msg, data.rows) == SetTransition(old(data.rows), guild, value, serverRoles, dbFails)
  {
    if !value.SubCommand? {
      return InvalidData;
    }
    msg := SetPrimaryRole.Apply(data, guild, value.options, serverRoles, dbFails);
  }

  /** `get` only reads the store. */
  method Get(data: AppData, command: CommandInteraction, readFails: bool) returns (msg: string)
    ensures msg == GetReply(data.rows, command.data.guildId, readFails)
  {
    var options := command.data;
    if options.guildId.None? {
      return GetNoGuild;
    }
    var primaryRole := data.GetPrimaryRole(options.guildId.value, readFails);
    if primaryRole.None? {
      return NoPrimarySet;
    }
    return PrimaryIsMessage(primaryRole.value);
  }

  method Run(data: AppData, command: CommandInteraction, serverRoles: Option<set<RoleId>>,
             dbFails: bool, readFails: bool) returns (msg: string)
    modifies data
    ensures Outcome(msg, data.rows) == RunTransition(old(data.rows), command, serverRoles, dbFails, readFails)
  {
    if |command.data.options| == 0 {
      return NoSubcommand;
    }
    var subcommand := command.data.options[0];
    if subcommand.name == "set" {
      msg := Set(data, command.guildId, subcommand.value, serverRoles, dbFails);
    } else if subcommand.name == "get" {
      msg := Get(data, command, readFails);
    } else {
      msg := UnknownSubcommand;
    }
  }

  /** Only a `set` subcommand can change the table; a missing, unknown or `get` subcommand leaves it alone. */
  lemma OnlySetWrites(t: Table, command: CommandInteraction, serverRoles: Option<set<RoleId>>,
                      dbFails: bool, readFails: bool)
    ensures command.data.options == [] ==>
              RunTransition(t, command, serverRoles, dbFails, readFails) == Outcome(NoSubcommand, t)
    ensures command.data.options != [] && command.data.options[0].name !in {"set", "get"} ==>
              RunTransition(t, command, serverRoles, dbFails, readFails) == Outcome(UnknownSubcommand, t)
    ensures RunTransition(t, command, serverRoles, dbFails, readFails).table != t ==>
              command.data.options != [] && command.data.options[0].name == "set"
              && command.data.options[0].value.SubCommand?
              && var opts := command.data.options[0].value.options;
                 SetPrimaryRole.Validated(command.guildId, opts, serverRoles) && !dbFails
  {
    if command.data.options != [] && command.data.options[0].name == "set"
       && command.data.options[0].value.SubCommand? {
      SetPrimaryRole.WriteOnlyAfterValidation(t, command.guildId, command.data.options[0].value.options,
                                              serverRoles, dbFails);
    }
  }

  /** With a guild and a working read, `get` reports the stored role exactly when there is one. */
  lemma {:induction false} GetReportsStoredRole(t: Table, g: GuildId, r: RoleId)
    ensures GetReply(t, Some(g), false) == PrimaryIsMessage(r) <==> PrimaryRole(t, g) == Some(r)
    ensures GetReply(t, Some(g), false) == NoPrimarySet <==> PrimaryRole(t, g) == None
  {
    if PrimaryRole(t, g).Some? {
      var stored := PrimaryRole(t, g).value;
      if PrimaryIsMessage(stored) == PrimaryIsMessage(r) {
        assert Decimal(stored) == PrimaryIsMessage(stored)[|PrimaryIsPrefix|..];
        assert Decimal(r) == PrimaryIsMessage(r)[|PrimaryIsPrefix|..];
        DecimalInjective(stored, r);
      }
      assert NoPrimarySet[0] != PrimaryIsMessage(stored)[0];
    } else {
      assert NoPrimarySet[0] != PrimaryIsMessage(r)[0];
    }
  }

  /** `set` of a role held by the server, then `get`, on a registered guild: `get` reports that role. */
  lemma SetThenGet(t: Table, g: GuildId, role: RoleId, roles: set<RoleId>)
    requires g in t && role in roles
    ensures var opts := [Commands.CommandDataOption("role_id", Commands.Role(role))];
            var o := SetTransition(t, Some(g), Commands.SubCommand(opts), Some(roles), false);
            o.message == SetPrimaryRole.UpdatedMessage(role) && GetReply(o.table, Some(g), false) == PrimaryIsMessage(role)
  {
    PrimaryRoleRoundTrip(t, g, role);
  }
}
