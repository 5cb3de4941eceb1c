/**
 * The stand-alone `disable` command the dispatcher calls. It behaves exactly as
 * the `disable` command of the bot-management module.
 */
module Disable {
  import opened Data
  import opened Commands
  import BotManagement

  method Run(data: AppData, command: CommandInteraction, dbFails: bool) returns (msg: string)
    modifies data
    ensures Outcome(msg, data.rows) == BotManagement.DisableTransition(old(data.rows), command.guildId, dbFails)
  {
    if command.guildId.None? {
      return BotManagement.DisableNoGuild;
    }
    var result := data.DisableAutoScan(command.guildId.value, dbFails);
    if result.Err? {
      return BotManagement.DisableDbError;
    }
    return BotManagement.DisableDone;
  }
}
