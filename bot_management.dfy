/**
 * The `enable`, `disable` and `status` commands: switch reactive enforcement on
 * or off for the invoking guild, or report whether it is on.
 *
 * Each transition function gives the reply and the table after the command; each
 * method performs the command against the store and is proved to match it.
 */
module BotManagement {
  import opened Ids
  import opened Data
  import opened Commands

  const EnableNoGuild := "No server ID found, unable to enable auto scanning"
  const EnableDbError := "Failed updating the database, unable to enable auto scanning"
  const EnableDone := "Automatic role scanning is now active"

  const DisableNoGuild := "No server ID given, unable to disable auto scanning"
  const DisableDbError := "A database error occurred, unable to disable auto scanning"
  const DisableDone := "Automatic Role Scanning is no longer active"

  const StatusNoGuild := "No server ID found, unable to check status"
  const StatusPrefix := "Automatic role scanning is currently "

  /** `enable` on table `t` when the write fails exactly if `dbFails`. */
  function EnableTransition(t: Table, guild: Option<GuildId>, dbFails: bool): Outcome {
    match guild
    case None => Outcome(EnableNoGuild, t)
    case Some(g) => if dbFails then Outcome(EnableDbError, t) else Outcome(EnableDone, SetAutoScan(t, g, true))
  }

  function DisableTransition(t: Table, guild: Option<GuildId>, dbFails: bool): Outcome {
    match guild
    case None => Outcome(DisableNoGuild, t)
    case Some(g) => if dbFails then Outcome(DisableDbError, t) else Outcome(DisableDone, SetAutoScan(t, g, false))
  }

  /** The reply of `status`; the read fails exactly if `readFails`. */
  function StatusReply(t: Table, guild: Option<GuildId>, readFails: bool): string {
    match guild
    case None => StatusNoGuild
    case Some(g) => StatusPrefix + (if !readFails && AutoScanOn(t, g) then "enabled" else "disabled")
  }

  method EnableRun(data: AppData, command: CommandInteraction, dbFails: bool) returns (msg: string)
    modifies data
    ensures Outcome(msg, data.rows) == EnableTransition(old(data.rows), command.guildId, dbFails)
  {
    if command.guildId.None? {
      return EnableNoGuild;
    }
    var guildId := command.guildId.value;
    var result := data.EnableAutoScan(guildId, dbFails);
    if result.Err? {
      return EnableDbError;
    }
    return EnableDone;
  }

  method DisableRun(data: AppData, command: CommandInteraction, dbFails: bool) returns (msg: string)
    modifies data
    ensures Outcome(msg, data.rows) == DisableTransition(old(data.rows), command.guildId, dbFails)
  {
    if command.guildId.None? {
      return DisableNoGuild;
    }
    var guildId := command.guildId.value;
    var result := data.DisableAutoScan(guildId, dbFails);
    if result.Err? {
      return DisableDbError;
    }
    return DisableDone;
  }

  /** `status` only reads the store. */
  method StatusRun(data: AppData, command: CommandInteraction, readFails: bool) returns (msg: string)
    ensures msg == StatusReply(data.rows, command.guildId, readFails)
  {
    if command.guildId.None? {
      return StatusNoGuild;
    }
    var isEnabled := data.IsAutoScanEnabled(command.guildId.value, readFails);
    return StatusPrefix + (if isEnabled then "enabled" else "disabled");
  }

  /**
   * `enable` without a guild or with a failing write replies with its own message
   * and leaves the table alone; otherwise it replies that scanning is active and a
   * registered guild reads as enabled, while nothing else in the table changes.
   */
  lemma EnableEffect(t: Table, guild: Option<GuildId>, dbFails: bool)
    ensures guild.None? ==> EnableTransition(t, guild, dbFails) == Outcome(EnableNoGuild, t)
    ensures guild.Some? && dbFails ==> EnableTransition(t, guild, dbFails) == Outcome(EnableDbError, t)
    ensures guild.Some? && !dbFails ==>
              EnableTransition(t, guild, dbFails).message == EnableDone
              && (AutoScanOn(EnableTransition(t, guild, dbFails).table, guild.value) <==> guild.value in t)
    ensures EnableTransition(t, guild, dbFails).table.Keys == t.Keys
    ensures forall h :: h in t && Some(h) != guild ==> EnableTransition(t, guild, dbFails).table[h] == t[h]
    ensures guild.Some? ==>
              PrimaryRole(EnableTransition(t, guild, dbFails).table, guild.value) == PrimaryRole(t, guild.value)
  {
    if guild.Some? {
      SetAutoScanFrame(t, guild.value, true);
    }
  }

  /** The same for `disable`: a registered guild reads as disabled afterwards, and nothing else changes. */
  lemma DisableEffect(t: Table, guild: Option<GuildId>, dbFails: bool)
    ensures guild.None? ==> DisableTransition(t, guild, dbFails) == Outcome(DisableNoGuild, t)
    ensures guild.Some? && dbFails ==> DisableTransition(t, guild, dbFails) == Outcome(DisableDbError, t)
    ensures guild.Some? && !dbFails ==>
              DisableTransition(t, guild, dbFails).message == DisableDone
              && !AutoScanOn(DisableTransition(t, guild, dbFails).table, guild.value)
    ensures DisableTransition(t, guild, dbFails).table.Keys == t.Keys
    ensures forall h :: h in t && Some(h) != guild ==> DisableTransition(t, guild, dbFails).table[h] == t[h]
    ensures guild.Some? ==>
              PrimaryRole(DisableTransition(t, guild, dbFails).table, guild.value) == PrimaryRole(t, guild.value)
  {
    if guild.Some? {
      SetAutoScanFrame(t, guild.value, false);
    }
  }

  /** Disabling twice leaves the same table as disabling once. */
  lemma DisableTwice(t: Table, guild: Option<GuildId>, dbFails: bool)
    ensures var once := DisableTransition(t, guild, dbFails);
            DisableTransition(once.table, guild, dbFails).table == once.table
  {
    if guild.Some? {
      SetAutoScanIdempotent(t, guild.value, false);
    }
  }

  /** With a guild and a working read, the word `status` reports is the stored flag. */
  lemma StatusReflectsStore(t: Table, g: GuildId)
    ensures StatusReply(t, Some(g), false) == StatusPrefix + "enabled" <==> AutoScanOn(t, g)
    ensures StatusReply(t, Some(g), false) == StatusPrefix + "disabled" <==> !AutoScanOn(t, g)
  {
    assert (StatusPrefix + "enabled")[|StatusPrefix|] != (StatusPrefix + "disabled")[|StatusPrefix|];
  }

  /**
   * A guild without a row reads as disabled, and still does after `enable`
   * reports success: the update finds no row to change.
   */
  lemma EnableUnregisteredStaysDisabled(t: Table, g: GuildId)
    requires g !in t
    ensures StatusReply(t, Some(g), false) == StatusPrefix + "disabled"
    ensures var after := EnableTransition(t, Some(g), false);
            after.message == EnableDone && StatusReply(after.table, Some(g), false) == StatusPrefix + "disabled"
  {
    UpdatesCreateNoRow(t, g, 1, true);
  }

  /** On a registered guild, `enable` then `status` reports enabled, and `disable` then `status` disabled. */
  lemma EnableDisableStatus(t: Table, g: GuildId)
    requires g in t
    ensures StatusReply(EnableTransition(t, Some(g), false).table, Some(g), false) == StatusPrefix + "enabled"
    ensures StatusReply(DisableTransition(t, Some(g), false).table, Some(g), false) == StatusPrefix + "disabled"
  {
    AutoScanReflectsLast(t, g, true);
    AutoScanReflectsLast(t, g, false);
  }
}
