/**
 * The `primaryrole` command as the dispatcher calls it: read the `role_id`
 * option, check that the role exists in the server, then store it.
 *
 * The role list of the server is a value: `None` when fetching it fails,
 * otherwise the set of role ids the server has.
 */
module SetPrimaryRole {
  import opened Ids
  import opened Data
  import opened Commands

  const NoRoleGiven := "No role ID given"
  const InvalidRole := "Given role ID is invalid"
  const NoGuild := "No server ID found"
  const RolesFetchFailed := "Failed to get list of roles from the server"
  const RoleNotInServer := "Given role is not in this server"
  const DbError := "Failed to update primary role in the database"
  const UpdatedPrefix := "Updated primary role to "

  function UpdatedMessage(r: RoleId): string {
    UpdatedPrefix + Decimal(r)
  }

  /** The role the options name: the first `role_id` option, if it holds a role. */
  function ChosenRole(options: seq<CommandDataOption>): Option<RoleId> {
    match FirstMatch("role_id", options)
    case None => None
    case Some(opt) => AsRoleId(opt.value)
  }

  /**
   * The validation chain, in its order: a `role_id` option, a role value, a
   * guild, a readable role list holding the role; only then the write.
   */
  function SetRoleChain(t: Table, guild: Option<GuildId>, options: seq<CommandDataOption>,
                        serverRoles: Option<set<RoleId>>, dbFails: bool): Outcome
  {
    match FirstMatch("role_id", options)
    case None => Outcome(NoRoleGiven, t)
    case Some(opt) =>
      match AsRoleId(opt.value)
      case None => Outcome(InvalidRole, t)
      case Some(r) =>
        match guild
        case None => Outcome(NoGuild, t)
        case Some(g) =>
          match serverRoles
          case None => Outcome(RolesFetchFailed, t)
          case Some(roles) =>
            if r !in roles then Outcome(RoleNotInServer, t)
            else if dbFails then Outcome(DbError, t)
            else Outcome(UpdatedMessage(r), SetRole(t, g, r))
  }

  /** The chain against the store; shared by this command and the `set` subcommand. */
  method Apply(data: AppData, guild: Option<GuildId>, options: seq<CommandDataOption>,
               serverRoles: Option<set<RoleId>>, dbFails: bool) returns (msg: string)
    modifies data
    ensures Outcome(msg, data.rows) == SetRoleChain(old(data.rows), guild, options, serverRoles, dbFails)
  {
    var option := GetOption("role_id", options);
    if option.None? {
      return NoRoleGiven;
    }
    var newId := AsRoleId(option.value.value);
    if newId.None? {
      return InvalidRole;
    }
    if guild.None? {
      return NoGuild;
    }
    if serverRoles.None? {
      return RolesFetchFailed;
    }
    if newId.value !in serverRoles.value {
      return RoleNotInServer;
    }
    var result := data.UpdateServerPrimaryRole(guild.value, newId.value, dbFails);
    if result.Err? {
      return DbError;
    }
    return UpdatedMessage(newId.value);
  }

  method Run(data: AppData, options: CommandData, serverRoles: Option<set<RoleId>>, dbFails: bool)
    returns (msg: string)
    modifies data
    ensures Outcome(msg, data.rows) == SetRoleChain(old(data.rows), options.guildId, options.options, serverRoles, dbFails)
  {
    msg := Apply(data, options.guildId, options.options, serverRoles, dbFails);
  }

  /** True when the chain reaches the write: a role option, a guild, and a readable role list holding the role. */
  predicate Validated(guild: Option<GuildId>, options: seq<CommandDataOption>, serverRoles: Option<set<RoleId>>) {
    ChosenRole(options).Some? && guild.Some? && serverRoles.Some? && ChosenRole(options).value in serverRoles.value
  }

  /** A reply of the success form. */
  predicate IsUpdatedReply(m: string) {
    |m| >= |UpdatedPrefix| && m[..|UpdatedPrefix|] == UpdatedPrefix
  }

  /**
   * The table is written only after every check passed and the role was found in
   * the server's role list; every failure leaves it as it was. The success reply
   * is given exactly when the checks pass and the write succeeds, and it names
   * the chosen role.
   */
  lemma WriteOnlyAfterValidation(t: Table, guild: Option<GuildId>, options: seq<CommandDataOption>,
                                 serverRoles: Option<set<RoleId>>, dbFails: bool)
    ensures var o := SetRoleChain(t, guild, options, serverRoles, dbFails);
            o.table == t
            || (Validated(guild, options, serverRoles) && !dbFails
                && o.table == SetRole(t, guild.value, ChosenRole(options).value))
    ensures IsUpdatedReply(SetRoleChain(t, guild, options, serverRoles, dbFails).message)
            <==> Validated(guild, options, serverRoles) && !dbFails
    ensures Validated(guild, options, serverRoles) && !dbFails ==>
              SetRoleChain(t, guild, options, serverRoles, dbFails).message == UpdatedMessage(ChosenRole(options).value)
  {
    var m := SetRoleChain(t, guild, options, serverRoles, dbFails).message;
    if Validated(guild, options, serverRoles) && !dbFails {
      assert m == UpdatedPrefix + Decimal(ChosenRole(options).value);
      assert m[..|UpdatedPrefix|] == UpdatedPrefix;
    } else {
      assert m in {NoRoleGiven, InvalidRole, NoGuild, RolesFetchFailed, RoleNotInServer, DbError};
      FailureRepliesDiffer();
    }
  }

  /** No failure reply has the success form. */
  lemma FailureRepliesDiffer()
    ensures !IsUpdatedReply(NoRoleGiven) && !IsUpdatedReply(InvalidRole) && !IsUpdatedReply(NoGuild)
    ensures !IsUpdatedReply(RolesFetchFailed) && !IsUpdatedReply(RoleNotInServer) && !IsUpdatedReply(DbError)
  {
    assert UpdatedPrefix[0] == 'U';
    assert NoRoleGiven[0] == 'N' && InvalidRole[0] == 'G' && NoGuild[0] == 'N';
    assert RolesFetchFailed[0] == 'F' && RoleNotInServer[0] == 'G' && DbError[0] == 'F';
  }

  /** Success with a named role: the reply names it, and the guild then reads it back when it has a row. */
  lemma SetThenRead(t: Table, g: GuildId, options: seq<CommandDataOption>, roles: set<RoleId>)
    requires Validated(Some(g), options, Some(roles))
    ensures var o := SetRoleChain(t, Some(g), options, Some(roles), false);
            o.message == UpdatedMessage(ChosenRole(options).value)
            && (g in t ==> PrimaryRole(o.table, g) == Some(ChosenRole(options).value))
            && (g !in t ==> o.table == t && PrimaryRole(o.table, g) == None)
  {
    if g in t {
      PrimaryRoleRoundTrip(t, g, ChosenRole(options).value);
    }
  }

  /** The reply names the role: the number after the fixed prefix reads back as the role id. */
  lemma UpdatedMessageNamesRole(r: RoleId)
    ensures var m := UpdatedMessage(r);
            var prefix := |UpdatedPrefix|;
            |m| > prefix && (forall i :: prefix <= i < |m| ==> IsDigit(m[i])) && ParseDecimal(m[prefix..]) == r
  {
    var m := UpdatedMessage(r);
    assert m[|UpdatedPrefix|..] == Decimal(r);
    DecimalRoundTrip(r);
  }
}
