/** The explain command (src/commands/explain.ts): which command is
    analysed, the menu built from the analysis, its page size and the
    dispatch on the chosen entry. The prompts' answers, the service's
    analysis and the child process are inputs. This flow neither asks for
    confirmation nor writes history, so it does not touch the
    configuration files at all. */
module ExplainCommand {
  import opened Wrappers
  import opened JsText
  import opened Json
  import opened Types
  import opened CerebrasService

  const Info := Command("explain", "Analyze and explain shell commands")

  const KeyHintTrigger := "API key not configured"
  const MaxPageSize := 8

  // ---------------------------------------------------------------------
  // The command to analyse

  /** `options._?.join(' ')`, when that is truthy. */
  function ProvidedCommand(options: Options): (c: Option<string>)
    ensures c.Some? ==> c.value != "" && options.rest.Some? && c.value == Join(options.rest.value, " ")
    ensures c.None? ==> options.rest.None? || Join(options.rest.value, " ") == ""
  {
    if options.rest.Some? && Join(options.rest.value, " ") != "" then Some(Join(options.rest.value, " ")) else None
  }

  /** The prompt asked when no command was provided. */
  datatype CommandPrompt = Typed(attempts: seq<string>) | PromptTtyError | PromptFailed(message: string)

  /** The validator turns blank answers away; the first other answer, trimmed, is taken. */
  function FirstAccepted(attempts: seq<string>): (r: Option<string>)
    ensures r.None? <==> forall i :: 0 <= i < |attempts| ==> Trim(attempts[i]) == ""
    ensures r.Some? ==>
              r.value != "" &&
              exists i :: 0 <= i < |attempts| && r.value == Trim(attempts[i]) && forall j :: 0 <= j < i ==> Trim(attempts[j]) == ""
  {
    if attempts == [] then None
    else if Trim(attempts[0]) != "" then Some(Trim(attempts[0]))
    else
      var r := FirstAccepted(attempts[1..]);
      assert forall i :: 1 <= i < |attempts| ==> attempts[i] == attempts[1..][i - 1];
      r
  }

  // ---------------------------------------------------------------------
  // The menu

  /** What a menu entry does: run a command (the value as the analysis
      gave it), explain the original command, or leave. */
  datatype Action = RunChoice(command: Json) | ExplainChoice(original: string) | ExitChoice

  datatype Choice = Choice(name: string, action: Action)

  const ExplainLabel := "📖 Get detailed explanation"
  const ExitLabel := "❌ Exit"

  function FixLabel(fix: Json): string {
    "🔧 Execute Suggested Fix: " + ToJsString(fix)
  }

  /** The 1-based number an alternative is shown with, in the menu and in the printed list. */
  function Ordinal(i: nat): string {
    NatToString(i + 1)
  }

  function AltLabel(i: nat, alt: Json): string {
    "🔄 Execute Alternative " + Ordinal(i) + ": " + ToJsString(alt)
  }

  /** The printed list's line for an alternative. */
  function AltLine(i: nat, alt: Json): string {
    Ordinal(i) + ". \U{1b}[36m" + ToJsString(alt) + "\U{1b}[0m"
  }

  /** The number of menu entries for an analysis. */
  function ChoiceCount(analysis: CommandAnalysis): nat {
    (if Truthy(analysis.suggestedFix) then 1 else 0) + |analysis.alternatives| + 2
  }

  /** The entries `showAnalysisMenu` pushes, in order. */
  method BuildChoices(original: string, analysis: CommandAnalysis) returns (choices: seq<Choice>)
    ensures |choices| == ChoiceCount(analysis)
    ensures Truthy(analysis.suggestedFix) ==>
              choices[0] == Choice(FixLabel(analysis.suggestedFix.value), RunChoice(analysis.suggestedFix.value))
    ensures var offset := if Truthy(analysis.suggestedFix) then 1 else 0;
            forall i :: 0 <= i < |analysis.alternatives| ==>
              choices[offset + i] == Choice(AltLabel(i, analysis.alternatives[i]), RunChoice(analysis.alternatives[i]))
    ensures choices[|choices| - 2] == Choice(ExplainLabel, ExplainChoice(original))
    ensures choices[|choices| - 1] == Choice(ExitLabel, ExitChoice)
  {
    choices := [];
    if Truthy(analysis.suggestedFix) {
      var fix := analysis.suggestedFix.value;
      choices := choices + [Choice(FixLabel(fix), RunChoice(fix))];
    }
    var offset := |choices|;
    var alts := analysis.alternatives;
    var i := 0;
    while i < |alts|
      invariant 0 <= i <= |alts|
      invariant |choices| == offset + i
      invariant Truthy(analysis.suggestedFix) ==>
                  offset == 1 && choices[0] == Choice(FixLabel(analysis.suggestedFix.value), RunChoice(analysis.suggestedFix.value))
      invariant !Truthy(analysis.suggestedFix) ==> offset == 0
      invariant forall j :: 0 <= j < i ==> choices[offset + j] == Choice(AltLabel(j, alts[j]), RunChoice(alts[j]))
    {
      choices := choices + [Choice(AltLabel(i, alts[i]), RunChoice(alts[i]))];
      i := i + 1;
    }
    choices := choices + [Choice(ExplainLabel, ExplainChoice(original))];
    choices := choices + [Choice(ExitLabel, ExitChoice)];
  }

  /** `Math.min(choices.length, 8)`. */
  function PageSize(count: nat): (size: nat)
    ensures size <= count && size <= MaxPageSize
    ensures size == count || size == MaxPageSize
  {
    Min(count, MaxPageSize)
  }

  /** Every menu has at least the explain and exit entries, so its page
      shows between 2 and 8 of them. */
  lemma PageSizeBounds(analysis: CommandAnalysis)
    ensures 2 <= PageSize(ChoiceCount(analysis)) <= MaxPageSize
  {
  }

  /** Entry names that differ in their number differ, whatever follows
      the number: the ':' after it ends the digit run. */
  lemma NumberedNamesDiffer(p: string, d1: string, d2: string, x: string, y: string)
    requires IsDigits(d1) && IsDigits(d2) && d1 != d2
    ensures p + d1 + ":" + x != p + d2 + ":" + y
  {
    var s, t := p + d1 + ":" + x, p + d2 + ":" + y;
    if |d1| < |d2| {
      assert s[|p| + |d1|] == ':' && t[|p| + |d1|] == d2[|d1|];
    } else if |d2| < |d1| {
      assert t[|p| + |d2|] == ':' && s[|p| + |d2|] == d1[|d2|];
    } else {
      var k :| 0 <= k < |d1| && d1[k] != d2[k];
      assert s[|p| + k] == d1[k] && t[|p| + k] == d2[k];
    }
  }

  /** Different alternatives get different entry names. */
  lemma AltLabelsDistinct(i: nat, j: nat, a: Json, b: Json)
    requires i != j
    ensures AltLabel(i, a) != AltLabel(j, b)
  {
    if Ordinal(i) == Ordinal(j) {
      NatToStringInjective(i + 1, j + 1);
    }
    var p := "🔄 Execute Alternative ";
    NumberedNamesDiffer(p, Ordinal(i), Ordinal(j), " " + ToJsString(a), " " + ToJsString(b));
    assert AltLabel(i, a) == p + Ordinal(i) + ":" + (" " + ToJsString(a));
    assert AltLabel(j, b) == p + Ordinal(j) + ":" + (" " + ToJsString(b));
  }

  // ---------------------------------------------------------------------
  // The command

  /** The answer to the menu: the position of the chosen entry, a TTY
      error, or another prompt failure. */
  datatype MenuAnswer = Pick(index: nat) | MenuTtyError | MenuFailed(message: string)

  datatype ExplainOutcome =
    | InteractiveUnavailable
    | StillPrompting
    | KeyHintShown
    | Reported(message: string)
    | PrintedPlain(analysis: CommandAnalysis)
    | Executed(chosen: Json)
    | Explained(command: string)
    | Completed

  /** An error reaching `execute`'s handler that is not a TTY error. */
  function Handle(message: string): (o: ExplainOutcome)
    ensures o == KeyHintShown <==> Contains(message, KeyHintTrigger)
    ensures o != KeyHintShown ==> o == Reported(message)
  {
    if Contains(message, KeyHintTrigger) then KeyHintShown else Reported(message)
  }

  /** The command that is analysed: the provided one, else the accepted answer. */
  function CommandToAnalyze(options: Options, prompt: CommandPrompt): Option<string> {
    if ProvidedCommand(options).Some? then ProvidedCommand(options)
    else if prompt.Typed? then FirstAccepted(prompt.attempts)
    else None
  }

  /** Which entry sits at position `k`, by the menu's layout: the fix,
      the alternatives, explain, exit. */
  function PickedOutcome(command: string, analysis: CommandAnalysis, k: nat): ExplainOutcome {
    var offset := if Truthy(analysis.suggestedFix) then 1 else 0;
    if k < offset then Executed(analysis.suggestedFix.value)
    else if k < offset + |analysis.alternatives| then Executed(analysis.alternatives[k - offset])
    else if k == offset + |analysis.alternatives| then Explained(command)
    else Completed
  }

  /** The last entry exits, the one before it explains the original
      command, every earlier one runs a command. */
  lemma PickedOutcomeLayout(command: string, analysis: CommandAnalysis, k: nat)
    requires k < ChoiceCount(analysis)
    ensures k == ChoiceCount(analysis) - 1 <==> PickedOutcome(command, analysis, k) == Completed
    ensures k == ChoiceCount(analysis) - 2 <==> PickedOutcome(command, analysis, k) == Explained(command)
    ensures k < ChoiceCount(analysis) - 2 <==> PickedOutcome(command, analysis, k).Executed?
    ensures k == 0 && Truthy(analysis.suggestedFix) ==> PickedOutcome(command, analysis, k) == Executed(analysis.suggestedFix.value)
  {
  }

  /** `showAnalysisMenu`'s decision on the menu answer. */
  method AnalysisMenu(command: string, analysis: CommandAnalysis, menu: MenuAnswer) returns (outcome: ExplainOutcome)
    requires menu.Pick? ==> menu.index < ChoiceCount(analysis)
    ensures menu == MenuTtyError ==> outcome == PrintedPlain(analysis)
    ensures menu.MenuFailed? ==> outcome == Handle(menu.message)
    ensures menu.Pick? ==> outcome == PickedOutcome(command, analysis, menu.index)
  {
    var choices := BuildChoices(command, analysis);
    match menu
    case MenuTtyError =>
      outcome := PrintedPlain(analysis);
    case MenuFailed(m) =>
      outcome := Handle(m);
    case Pick(k) =>
      match choices[k].action
      case RunChoice(c) => outcome := Executed(c);
      case ExplainChoice(c) => outcome := Explained(c);
      case ExitChoice => outcome := Completed;
  }

  /** `execute` and `showAnalysisMenu`. `analysisOf` is what the service
      returns or throws for the command to analyse. */
  method Execute(options: Options, prompt: CommandPrompt, analysisOf: string -> Result<CommandAnalysis, string>,
                 menu: MenuAnswer)
    returns (outcome: ExplainOutcome)
    requires (CommandToAnalyze(options, prompt).Some? && analysisOf(CommandToAnalyze(options, prompt).value).Ok? && menu.Pick?)
             ==> menu.index < ChoiceCount(analysisOf(CommandToAnalyze(options, prompt).value).value)
    ensures ProvidedCommand(options).None? && prompt == PromptTtyError ==> outcome == InteractiveUnavailable
    ensures ProvidedCommand(options).None? && prompt.PromptFailed? ==> outcome == Handle(prompt.message)
    ensures ProvidedCommand(options).None? && prompt.Typed? && FirstAccepted(prompt.attempts).None? ==>
              outcome == StillPrompting
    ensures CommandToAnalyze(options, prompt).Some? ==>
              var command := CommandToAnalyze(options, prompt).value;
              match analysisOf(command)
              case Err(m) => outcome == Handle(m)
              case Ok(analysis) =>
                match menu
                case MenuTtyError => outcome == PrintedPlain(analysis)
                case MenuFailed(m) => outcome == Handle(m)
                case Pick(k) => outcome == PickedOutcome(command, analysis, k)
  {
    var command: string;
    var provided := ProvidedCommand(options);
    if provided.Some? {
      command := provided.value;
    } else {
      match prompt
      case PromptTtyError =>
        return InteractiveUnavailable;
      case PromptFailed(m) =>
        return Handle(m);
      case Typed(attempts) =>
        var accepted := FirstAccepted(attempts);
        if accepted.None? {
          return StillPrompting;
        }
        command := accepted.value;
    }
    var reply := analysisOf(command);
    if reply.Err? {
      return Handle(reply.error);
    }
    outcome := AnalysisMenu(command, reply.value, menu);
  }
}
