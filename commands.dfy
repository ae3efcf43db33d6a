/** The command registry (src/commands/index.ts): a name-keyed map that
    the constructor fills with the five commands and that `execute`
    dispatches through. Running a command is modelled by that command's
    module; here dispatch yields the command and the options it receives. */
module Commands {
  import opened Wrappers
  import opened Types
  import ConvertCommand
  import SettingsCommand
  import HelpCommand
  import ExplainCommand
  import UpdateCommand

  /** The five commands, in registration order. */
  const Defaults: seq<Command> :=
    [ConvertCommand.Info, SettingsCommand.Info, HelpCommand.Info, ExplainCommand.Info, UpdateCommand.Info]

  const DefaultNames: set<string> := {"convert", "settings", "help", "explain", "update"}

  /** The error `execute` throws for an unknown name. */
  function NotFound(name: string): string {
    "Command \"" + name + "\" not found. Use \"-help or -h\" to see available commands."
  }

  /** A dispatched call: the command whose `execute` runs, and its options. */
  datatype Dispatch = Dispatch(command: Command, options: Options)

  class CommandManager {
    var commands: map<string, Command>

    /** Every entry is filed under its own name. */
    predicate Valid()
      reads this
    {
      forall name :: name in commands ==> commands[name].name == name
    }

    /** The constructor: an empty map, then the five registrations. */
    constructor()
      ensures Valid() && commands == DefaultRegistry
    {
      commands := map[];
      new;
      Register(ConvertCommand.Info);
      Register(SettingsCommand.Info);
      Register(HelpCommand.Info);
      Register(ExplainCommand.Info);
      Register(UpdateCommand.Info);
    }

    /** `register`: files `c` under its name, replacing an earlier command
        of that name; every other entry stays. */
    method Register(c: Command)
      modifies this
      requires Valid()
      ensures Valid()
      ensures commands == old(commands)[c.name := c]
      ensures forall name :: name != c.name ==> (name in commands <==> name in old(commands))
      ensures forall name :: name != c.name && name in commands ==> commands[name] == old(commands)[name]
    {
      commands := commands[c.name := c];
    }

    /** `execute`: the registered command with the options, or the error. */
    function Execute(name: string, options: Options): (r: Result<Dispatch, string>)
      reads this
      ensures name in commands <==> r.Ok?
      ensures r.Ok? ==> r.value == Dispatch(commands[name], options)
      ensures r.Err? ==> r.error == NotFound(name)
    {
      if name in commands then Ok(Dispatch(commands[name], options)) else Err(NotFound(name))
    }

    /** `getCommands`: the registry. */
    function GetCommands(): (m: map<string, Command>)
      reads this
      ensures m == commands
    {
      commands
    }
  }

  /** The registry as the constructor leaves it, as a value. */
  const DefaultRegistry: map<string, Command> := map[
    "convert" := ConvertCommand.Info, "settings" := SettingsCommand.Info, "help" := HelpCommand.Info,
    "explain" := ExplainCommand.Info, "update" := UpdateCommand.Info]

  /** The constructor's registry holds exactly the five names, each with
      its own command, and dispatch finds each of them. */
  lemma DefaultRegistryShape()
    ensures DefaultRegistry.Keys == DefaultNames
    ensures forall i :: 0 <= i < |Defaults| ==>
              Defaults[i].name in DefaultRegistry && DefaultRegistry[Defaults[i].name] == Defaults[i]
  {
    assert DefaultNames == {Defaults[0].name, Defaults[1].name, Defaults[2].name, Defaults[3].name, Defaults[4].name};
  }

  /** No default name starts with '-', so a flag-like name is never found. */
  lemma FlagNamesNotRegistered(name: string)
    requires |name| > 0 && name[0] == '-'
    ensures name !in DefaultRegistry
  {
  }
}
