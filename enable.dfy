/**
 * The stand-alone `enable` command the dispatcher calls. It behaves exactly as
 * the `enable` command of the bot-management module.
 */
module Enable {
  import opened Data
  import opened Commands
  import BotManagement

  method Run(data: AppData, command: CommandInteraction, dbFails: bool) returns (msg: string)
    modifies data
    ensures Outcome(msg, data.rows) == BotManagement.EnableTransition(old(data.rows), command.guildId, dbFails)
  {
    if command.guildId.None? {
      return BotManagement.EnableNoGuild;
    }
    var result := data.EnableAutoScan(command.guildId.value, dbFails);
    if result.Err? {
      return BotManagement.EnableDbError;
    }
    return BotManagement.EnableDone;
  }
}
