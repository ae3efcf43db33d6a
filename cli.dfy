/** The entry point (src/index.ts): the argument router and the start-up
    sequence. `process.argv.slice(2)` is the parameter `args`. */
module Cli {
  import opened Wrappers
  import opened JsText
  import opened Json
  import opened Types
  import opened Config
  import opened Commands

  /** The command name and options the router picks. */
  datatype Route = Route(command: string, options: Options)

  const CanYou := "can you "

  /** `parseArguments`: the flags first, then the "can you " form, then a
      plain query, then the first argument taken as a command name. The
      lower-casing compares ASCII letters only, which decides this prefix
      exactly. Every convert route carries its query as its one rest
      argument; any other command name is the first argument itself, a
      flag, sent with the remaining arguments and never with a query: the
      `convert` test of the last case cannot succeed. */
  function ParseArguments(args: seq<string>): (r: Route)
    ensures r.command == "convert" ==> r.options.query.Some? && r.options.rest == Some([r.options.query.value])
    ensures r.command !in {"help", "settings", "explain", "convert"} ==>
              |args| > 0 && r.command == args[0] && StartsWith(args[0], "-")
              && r.options == Options(None, Some(args[1..]))
  {
    if |args| == 0 then Route("help", NoOptions)
    else
      var first := args[0];
      if first == "-settings" || first == "--settings" then Route("settings", NoOptions)
      else if first == "-e" || first == "--explain" then Route("explain", Options(None, Some(args[1..])))
      else if first == "-h" || first == "-help" || first == "--help" then Route("help", NoOptions)
      else
        var full := Join(args, " ");
        if StartsWithIgnoringCase(full, CanYou) then
          var query := full[|CanYou|..];
          Route("convert", Options(Some(query), Some([query])))
        else if !StartsWith(first, "-") then
          Route("convert", Options(Some(full), Some([full])))
        else
          var rest := args[1..];
          assert first[0] == first[..1][0] == '-';
          Route(first, Options(if first == "convert" && |rest| > 0 then Some(Join(rest, " ")) else None, Some(rest)))
  }

  /** No arguments: help, with no options. */
  lemma NoArgumentsShowHelp()
    ensures ParseArguments([]) == Route("help", NoOptions)
  {
  }

  /** The flags are looked at first, in their order. */
  lemma FlagsFirst(args: seq<string>)
    requires |args| > 0
    ensures args[0] in {"-settings", "--settings"} ==> ParseArguments(args) == Route("settings", NoOptions)
    ensures args[0] in {"-e", "--explain"} ==> ParseArguments(args) == Route("explain", Options(None, Some(args[1..])))
    ensures args[0] in {"-h", "-help", "--help"} ==> ParseArguments(args) == Route("help", NoOptions)
  {
  }

  /** A flag the router does not know goes out under its own name, with
      the other arguments and no query. */
  lemma UnknownFlagFallsThrough(args: seq<string>)
    requires |args| > 0 && StartsWith(args[0], "-")
    requires args[0] !in {"-settings", "--settings", "-e", "--explain", "-h", "-help", "--help"}
    ensures ParseArguments(args) == Route(args[0], Options(None, Some(args[1..])))
  {
    var full := Join(args, " ");
    if |args| > 1 {
      JoinCons(args[0], args[1..], " ");
      assert args == [args[0]] + args[1..];
    }
    assert full[0] == args[0][0] == '-';
  }

  /** The text "can you " then `t` has the prefix, and `t` follows it. */
  lemma CanYouPrefix(t: string)
    ensures StartsWithIgnoringCase(CanYou + t, CanYou)
    ensures (CanYou + t)[|CanYou|..] == t
  {
    forall i | 0 <= i < |CanYou|
      ensures AsciiLower((CanYou + t)[i]) == CanYou[i]
    {
      assert (CanYou + t)[i] == CanYou[i];
    }
  }

  /** Two words joined before a non-empty list, with `p` standing for
      the joined words and both separators. */
  lemma JoinTwoBefore(a: string, b: string, rest: seq<string>, sep: string, p: string)
    requires |rest| > 0 && p == a + sep + b + sep
    ensures Join([a, b] + rest, sep) == p + Join(rest, sep)
  {
    assert [a, b] + rest == [a] + ([b] + rest);
    JoinCons(a, [b] + rest, sep);
    JoinCons(b, rest, sep);
  }

  /** The words "can" and "you" joined before a request. */
  lemma JoinCanYou(rest: seq<string>)
    requires |rest| > 0
    ensures Join(["can", "you"] + rest, " ") == CanYou + Join(rest, " ")
  {
    JoinTwoBefore("can", "you", rest, " ", CanYou);
  }

  /** The word `convert` is not taken as a command name: it stays at the
      head of the query. */
  lemma ConvertWordStaysInQuery()
    ensures ParseArguments(["convert", "ls"]) == Route("convert", Options(Some("convert ls"), Some(["convert ls"])))
  {
    assert ["convert", "ls"][1..] == ["ls"];
    assert Join(["convert", "ls"], " ") == "convert ls";
    assert "convert"[..1] == "c";
    assert AsciiLower("convert ls"[1]) != CanYou[1];
  }

  /** "can you" followed by a request converts the request alone. */
  lemma CanYouStripped(rest: seq<string>)
    requires |rest| > 0
    ensures ParseArguments(["can", "you"] + rest) == Route("convert", Options(Some(Join(rest, " ")), Some([Join(rest, " ")])))
  {
    JoinCanYou(rest);
    CanYouPrefix(Join(rest, " "));
    assert (["can", "you"] + rest)[0] == "can";
  }

  /** Without a request the words do not make the "can you " prefix: the
      whole text is the query. */
  lemma CanYouAloneIsQuery()
    ensures ParseArguments(["can", "you"]) == Route("convert", Options(Some("can you"), Some(["can you"])))
  {
    assert ["can", "you"][1..] == ["you"];
    assert Join(["can", "you"], " ") == "can you";
    assert "can"[..1] == "c";
  }

  /** `-update` is routed under its own name, which is not registered. */
  lemma UpdateFlagNotFound(manager: CommandManager, options: Options)
    requires manager.commands == DefaultRegistry
    ensures ParseArguments(["-update"]) == Route("-update", Options(None, Some([])))
    ensures manager.Execute("-update", options) == Err(NotFound("-update"))
  {
    UnknownFlagFallsThrough(["-update"]);
    FlagNamesNotRegistered("-update");
  }

  /** How a run of the program ends before the command itself runs: the
      settings file could not be created while loading, the router's
      choice, or the dispatch error reported by `main`. */
  datatype Start = StartupFailed(message: string) | Dispatched(call: Dispatch) | Reported(message: string)

  /** Loading the modules creates the settings file when it is absent;
      `main` then routes the arguments and dispatches. */
  method Run(files: Files, args: seq<string>, createFault: Option<Thrown>) returns (r: Start)
    modifies files
    ensures old(files.settings) != Missing ==> files.settings == old(files.settings)
    ensures old(files.settings) == Missing ==>
              files.settings == (if createFault.None? then Holds(JObject(map[])) else Missing)
    ensures files.history == old(files.history)
    ensures old(files.settings) == Missing && createFault.Some? ==>
              r == StartupFailed("Failed to create settings file: " + MessageOf(createFault.value))
    ensures !(old(files.settings) == Missing && createFault.Some?) ==>
              (ParseArguments(args).command in DefaultRegistry ==>
                 r == Dispatched(Dispatch(DefaultRegistry[ParseArguments(args).command], ParseArguments(args).options)))
              && (ParseArguments(args).command !in DefaultRegistry ==> r == Reported(NotFound(ParseArguments(args).command)))
  {
    var created := files.EnsureSettingsFileExists(createFault);
    if created.Fail? {
      return StartupFailed(created.error);
    }
    var manager := new CommandManager();
    var route := ParseArguments(args);
    var call := manager.Execute(route.command, route.options);
    match call
    case Ok(d) => r := Dispatched(d);
    case Err(e) => r := Reported(e);
  }
}
