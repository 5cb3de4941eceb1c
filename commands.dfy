/**
 * What every command handler shares: the shape of an incoming command, option
 * lookup by name, and the result of a handler seen as a transition of the store.
 */
module Commands {
  import opened Ids
  import Data

  /** The value of one command option, for the kinds the handlers look at. */
  datatype OptionValue =
    | SubCommand(options: seq<CommandDataOption>)
    | Role(roleId: RoleId)
    | User(userId: UserId)
    | Text(text: string)
    | Integer(number: int)
    | Boolean(flag: bool)

  datatype CommandDataOption = CommandDataOption(name: string, value: OptionValue)

  /** The command's name, its options and the guild it was issued in, as the command data carries them. */
  datatype CommandData = CommandData(name: string, options: seq<CommandDataOption>, guildId: Option<GuildId>)

  /** An application command interaction: the guild it came from and its data. */
  datatype CommandInteraction = CommandInteraction(guildId: Option<GuildId>, data: CommandData)

  /** A handler's observable effect: the reply shown to the user and the table afterwards. */
  datatype Outcome = Outcome(message: string, table: Data.Table)

  /** The role an option value names, if it is a role option. */
  function AsRoleId(v: OptionValue): Option<RoleId> {
    if v.Role? then Some(v.roleId) else None
  }

  /** The first option in `opts` called `name`. */
  function FirstMatch(name: string, opts: seq<CommandDataOption>): Option<CommandDataOption> {
    if opts == [] then None
    else if opts[0].name == name then Some(opts[0])
    else FirstMatch(name, opts[1..])
  }

  /**
   * What the first match means: it is absent exactly when no option has the name,
   * and otherwise it is an element of the list with that name, with no earlier
   * element of that name.
   */
  lemma {:induction false} FirstMatchIsFirst(name: string, opts: seq<CommandDataOption>)
    ensures FirstMatch(name, opts).None? <==> forall i :: 0 <= i < |opts| ==> opts[i].name != name
    ensures FirstMatch(name, opts).Some? ==>
              exists i :: 0 <= i < |opts| && opts[i] == FirstMatch(name, opts).value && opts[i].name == name
                          && forall j :: 0 <= j < i ==> opts[j].name != name
  {
    if opts != [] && opts[0].name != name {
      FirstMatchIsFirst(name, opts[1..]);
      if FirstMatch(name, opts[1..]).Some? {
        var i :| 0 <= i < |opts[1..]| && opts[1..][i] == FirstMatch(name, opts[1..]).value
                 && opts[1..][i].name == name && forall j :: 0 <= j < i ==> opts[1..][j].name != name;
        assert opts[i + 1] == opts[1..][i];
        forall j | 0 <= j < i + 1
          ensures opts[j].name != name
        {
          if j > 0 { assert opts[j] == opts[1..][j - 1]; }
        }
      } else {
        forall i | 0 <= i < |opts|
          ensures opts[i].name != name
        {
          if i > 0 { assert opts[i] == opts[1..][i - 1]; }
        }
      }
    }
  }

  /**
   * Looks an option up by name, scanning the list in order and returning a copy
   * of the first option with that name. The list itself is not changed: it is a value.
   */
  method GetOption(name: string, vec: seq<CommandDataOption>) returns (r: Option<CommandDataOption>)
    ensures r == FirstMatch(name, vec)
    ensures r.None? <==> forall i :: 0 <= i < |vec| ==> vec[i].name != name
    ensures r.Some? ==> exists i :: 0 <= i < |vec| && vec[i] == r.value && r.value.name == name
                                    && forall j :: 0 <= j < i ==> vec[j].name != name
  {
    for i := 0 to |vec|
      invariant forall j :: 0 <= j < i ==> vec[j].name != name
      invariant FirstMatch(name, vec) == FirstMatch(name, vec[i..])
    {
      assert vec[i..][1..] == vec[i + 1..];
      if vec[i].name == name {
        return Some(vec[i]);
      }
    }
    return None;
  }
}
