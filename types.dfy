/** The shared shapes of the tool: the three safety levels, the result of a
    conversion, the options a command receives, the command records of the
    registry and the client configuration. */
module Types {
  import opened Wrappers
  import opened Json

  /** Risk level of a generated command; only `Dangerous` asks for confirmation. */
  datatype SafetyLevel = Safe | Caution | Dangerous {
    /** The level's wire name, as the model writes it and as history records store it. */
    function Name(): string {
      match this
      case Safe => "safe"
      case Caution => "caution"
      case Dangerous => "dangerous"
    }
  }

  /** What a conversion request produces. */
  datatype ShellCommandResult = ShellCommandResult(command: string, explanation: string, safety: SafetyLevel)

  /** The `CommandOptions` object built by the argument router: `query` is
      `options.query` and `rest` is `options._`; None is an absent property. */
  datatype Options = Options(query: Option<string>, rest: Option<seq<string>>)

  /** `{}`. */
  const NoOptions := Options(None, None)

  /** A registered command: its name and description. What running it does
      is modelled by the module that stands for its source file. */
  datatype Command = Command(name: string, description: string)

  /** The client configuration. The fields hold whatever the settings file
      or the environment supplied, hence JSON values rather than strings. */
  datatype CerebrasConfig = CerebrasConfig(apiKey: Json, baseUrl: Json, model: Json)
}
