/**
 * The gateway event handler: dispatch of command interactions by name, guild
 * registration when the bot connects, and reactive enforcement on every member
 * update. The store is the one object the handler owns; the platform's answers
 * are values passed in.
 */
module Handler {
  import opened Ids
  import opened Data
  import opened Commands
  import Sweep
  import Enable
  import Disable
  import BotManagement
  import SetPrimaryRole

  // Reactive enforcement.

  /** A member update as the platform delivers it: the guild, the user and the member's roles. */
  datatype MemberUpdateEvent = MemberUpdateEvent(guildId: GuildId, userId: UserId, roles: seq<RoleId>)

  /** The handler's course for one event; only the last two fetch the member. */
  datatype Reaction =
    | AutoScanOff
    | NoPrimaryRole
    | HoldsPrimary
    | MemberNotFound
    | RemoveRoles(userId: UserId, roles: seq<RoleId>)

  /**
   * The decision: stop when auto scan is off, when no primary role is set, or
   * when the event's roles hold it; otherwise fetch the member and, when found,
   * ask for the event's whole role list to be removed. No member is exempt here.
   */
  function Decide(enabled: bool, primary: Option<RoleId>, e: MemberUpdateEvent, memberFound: bool): (r: Reaction)
    ensures r.RemoveRoles? <==> enabled && primary.Some? && primary.value !in e.roles && memberFound
    ensures r.RemoveRoles? ==> r == RemoveRoles(e.userId, e.roles)
    ensures (r.RemoveRoles? || r == MemberNotFound) <==> enabled && primary.Some? && primary.value !in e.roles
  {
    if !enabled then AutoScanOff
    else if primary.None? then NoPrimaryRole
    else if primary.value in e.roles then HoldsPrimary
    else if !memberFound then MemberNotFound
    else RemoveRoles(e.userId, e.roles)
  }

  /**
   * Handles one update. `scanReadFails` and `roleReadFails` stand for failing
   * reads of the two columns, `memberFound` for the member fetch. The outcome of
   * the removal itself is only logged, so it does not appear. The store is only read.
   */
  method GuildMemberUpdate(data: AppData, e: MemberUpdateEvent, scanReadFails: bool, roleReadFails: bool,
                           memberFound: bool) returns (r: Reaction)
    ensures r == Decide(!scanReadFails && AutoScanOn(data.rows, e.guildId),
                        if roleReadFails then None else PrimaryRole(data.rows, e.guildId), e, memberFound)
  {
    var enabled := data.IsAutoScanEnabled(e.guildId, scanReadFails);
    if !enabled {
      return AutoScanOff;
    }
    var primaryRole := data.GetPrimaryRole(e.guildId, roleReadFails);
    if primaryRole.None? {
      return NoPrimaryRole;
    }
    if primaryRole.value !in e.roles {
      if !memberFound {
        return MemberNotFound;
      }
      return RemoveRoles(e.userId, e.roles);
    }
    return HoldsPrimary;
  }

  /**
   * Against the sweep's classification: for a member that is not a bot and holds
   * some role, the reactive path removes roles exactly when the sweep would.
   */
  lemma ReactiveAgreesWithSweep(p: RoleId, e: MemberUpdateEvent)
    requires e.roles != []
    ensures Decide(true, Some(p), e, true).RemoveRoles?
            <==> Sweep.Classify(Sweep.Member(e.userId, e.roles, false), p) == Sweep.MustRevokeAll
  {
  }

  /**
   * Unlike the sweep, the reactive path has no bot exemption and no empty-role
   * shortcut: a bot lacking the primary role is stripped, and a member with no
   * roles still gets a removal request, for the empty list.
   */
  lemma ReactiveHasNoExemptions(p: RoleId, u: UserId, x: RoleId)
    requires x != p
    ensures Sweep.Classify(Sweep.Member(u, [x], true), p) == Sweep.ExemptBot
    ensures Decide(true, Some(p), MemberUpdateEvent(1, u, [x]), true) == RemoveRoles(u, [x])
    ensures Sweep.Classify(Sweep.Member(u, [], false), p) == Sweep.NoRolesHeld
    ensures Decide(true, Some(p), MemberUpdateEvent(1, u, []), true) == RemoveRoles(u, [])
  {
  }

  // Command dispatch.

  datatype Interaction = Command(command: CommandInteraction) | NonCommand

  datatype CommandHandler = EnableCommand | DisableCommand | SweepCommand | PrimaryRoleCommand

  /** The handler for a command name; other names are left for other bots. */
  function HandlerFor(name: string): (h: Option<CommandHandler>)
    ensures h.Some? <==> name in {"enable", "disable", "sweep", "primaryrole"}
  {
    if name == "enable" then Some(EnableCommand)
    else if name == "disable" then Some(DisableCommand)
    else if name == "sweep" then Some(SweepCommand)
    else if name == "primaryrole" then Some(PrimaryRoleCommand)
    else None
  }

  /** What the platform and the database answer while one interaction is handled. */
  datatype Platform = Platform(
    dbFails: bool,
    readFails: bool,
    serverRoles: Option<set<RoleId>>,
    memberCount: Option<nat>,
    unpaged: Option<seq<Sweep.Member>>,
    membership: seq<Sweep.Member>,
    failAt: Option<nat>,
    removeOk: nat -> bool)

  /**
   * Handles one interaction: non-commands and unknown names get no response;
   * the four known names run their handler and respond with its reply. A sweep
   * that starts is then run directly; its removal requests and its summary
   * message are returned with the response.
   */
  method InteractionCreate(data: AppData, interaction: Interaction, env: Platform)
    returns (response: Option<string>, removals: seq<Sweep.Removal>, summary: Option<string>)
    modifies data
    ensures response.Some? <==> interaction.Command? && HandlerFor(interaction.command.data.name).Some?
    ensures response.None? ==> data.rows == old(data.rows)
    ensures (removals != [] || summary.Some?) ==> interaction.Command? && interaction.command.data.name == "sweep"
    ensures interaction.Command? && interaction.command.data.name == "enable" ==>
              Outcome(response.value, data.rows)
              == BotManagement.EnableTransition(old(data.rows), interaction.command.guildId, env.dbFails)
    ensures interaction.Command? && interaction.command.data.name == "disable" ==>
              Outcome(response.value, data.rows)
              == BotManagement.DisableTransition(old(data.rows), interaction.command.guildId, env.dbFails)
    ensures interaction.Command? && interaction.command.data.name == "primaryrole" ==>
              Outcome(response.value, data.rows)
              == SetPrimaryRole.SetRoleChain(old(data.rows), interaction.command.data.guildId,
                                            interaction.command.data.options, env.serverRoles, env.dbFails)
    ensures interaction.Command? && interaction.command.data.name == "sweep" ==> data.rows == old(data.rows)
    ensures interaction.Command? && interaction.command.data.name == "sweep" ==>
              var o := Sweep.RunOutcome(old(data.rows), interaction.command.guildId, env.memberCount, env.readFails,
                                        env.unpaged, env.membership, env.failAt);
              response == Some(o.reply)
              && (o.job.None? ==> removals == [] && summary.None?)
              && (o.job.Some? ==>
                    removals == Sweep.Revocations(o.job.value.members, o.job.value.primaryRole)
                    && summary == Some(Sweep.SummaryText(|o.job.value.members|,
                                                         Sweep.CountSuccesses(env.removeOk, |removals|))))
  {
    removals, summary := [], None;
    if interaction.NonCommand? {
      return None, removals, summary;
    }
    var command := interaction.command;
    var handler := HandlerFor(command.data.name);
    if handler.None? {
      return None, removals, summary;
    }
    var content: string;
    match handler.value {
      case EnableCommand =>
        content := Enable.Run(data, command, env.dbFails);
      case DisableCommand =>
        content := Disable.Run(data, command, env.dbFails);
      case SweepCommand =>
        var job;
        content, job := Sweep.Run(data, command.guildId, env.memberCount, env.readFails,
                                  env.unpaged, env.membership, env.failAt);
        if job.Some? {
          var removed, report;
          removed, removals, report := Sweep.SweepMembers(job.value.members, job.value.primaryRole, env.removeOk);
          summary := Some(report);
        }
      case PrimaryRoleCommand =>
        content := SetPrimaryRole.Run(data, command.data, env.serverRoles, env.dbFails);
    }
    response := Some(content);
  }

  // Connection.

  /** The table after registering `guilds` in order, where registration number `i` fails exactly if `fails(i)`. */
  function RegisterAll(t: Table, guilds: seq<GuildId>, fails: nat -> bool): Table {
    if guilds == [] then t
    else
      var i := |guilds| - 1;
      var before := RegisterAll(t, guilds[..i], fails);
      if fails(i) then before else Register(before, guilds[i])
  }

  /**
   * Registers every guild the bot is in. A failing registration is only logged:
   * the loop goes on with the next guild.
   */
  method Ready(data: AppData, guilds: seq<GuildId>, fails: nat -> bool)
    modifies data
    ensures data.rows == RegisterAll(old(data.rows), guilds, fails)
  {
    for i := 0 to |guilds|
      invariant data.rows == RegisterAll(old(data.rows), guilds[..i], fails)
    {
      assert guilds[..i + 1][..i] == guilds[..i];
      var _ := data.NewServer(guilds[i], fails(i));
    }
    assert guilds[..|guilds|] == guilds;
  }

  /**
   * After connecting, a guild has a row exactly when it had one before or one of
   * its registrations succeeded; rows that existed are untouched, and every new
   * row is fresh: auto scan on, no primary role.
   */
  lemma {:induction false} RegisterAllRows(t: Table, guilds: seq<GuildId>, fails: nat -> bool, g: GuildId)
    ensures g in RegisterAll(t, guilds, fails) <==>
            g in t || exists i :: 0 <= i < |guilds| && guilds[i] == g && !fails(i)
    ensures g in t ==> RegisterAll(t, guilds, fails)[g] == t[g]
    ensures g !in t && g in RegisterAll(t, guilds, fails) ==> RegisterAll(t, guilds, fails)[g] == FreshRow
  {
    if guilds != [] {
      var n := |guilds| - 1;
      var init := guilds[..n];
      RegisterAllRows(t, init, fails, g);
      if g in RegisterAll(t, guilds, fails) && g !in t && g !in RegisterAll(t, init, fails) {
        assert guilds[n] == g && !fails(n);
      }
      if exists i :: 0 <= i < |guilds| && guilds[i] == g && !fails(i) {
        var i :| 0 <= i < |guilds| && guilds[i] == g && !fails(i);
        if i < n {
          assert init[i] == g;
        }
      }
      if exists i :: 0 <= i < |init| && init[i] == g && !fails(i) {
        var i :| 0 <= i < |init| && init[i] == g && !fails(i);
        assert guilds[i] == g;
      }
    }
  }
}
