/** The convert command (src/commands/convert.ts): the choice of the query,
    the three-way menu, the confirmation gate for dangerous commands and
    the history records an execution writes. The service's answer, the
    menu answer, the confirmation answer and the child process are inputs;
    escape sequences and messages are only modelled where a decision
    depends on them. */
module ConvertCommand {
  import opened Wrappers
  import opened JsText
  import opened Json
  import opened Types
  import opened Config

  const Info := Command("convert", "Convert natural language to shell command")

  /** The text an error message is tested for before the key hint is shown. */
  const KeyHintTrigger := "API key not configured"

  // ---------------------------------------------------------------------
  // Query selection

  /** `options.query || options._?.[0]`; None when that is falsy, which
      prints the usage text. */
  function SelectQuery(options: Options): (q: Option<string>)
    ensures q.Some? ==> q.value != ""
    ensures options.query.Some? && options.query.value != "" ==> q == options.query
    ensures !(options.query.Some? && options.query.value != "") ==>
              (q.Some? <==> options.rest.Some? && |options.rest.value| > 0 && options.rest.value[0] != "")
    ensures !(options.query.Some? && options.query.value != "") && q.Some? ==> q.value == options.rest.value[0]
  {
    if options.query.Some? && options.query.value != "" then options.query
    else if options.rest.Some? && |options.rest.value| > 0 && options.rest.value[0] != "" then Some(options.rest.value[0])
    else None
  }

  // ---------------------------------------------------------------------
  // Safety marks

  /** `getSafetyEmoji`. */
  function SafetyEmoji(safety: string): string {
    match safety
    case "safe" => "✅"
    case "caution" => "⚠️"
    case "dangerous" => "🚨"
    case _ => "❓"
  }

  /** `getSafetyColor`: green, yellow, red, and white for anything else. */
  function SafetyColor(safety: string): string {
    match safety
    case "safe" => "\U{1b}[32m"
    case "caution" => "\U{1b}[33m"
    case "dangerous" => "\U{1b}[31m"
    case _ => "\U{1b}[37m"
  }

  /** The three levels get three different marks, none of them the
      default; every other string gets the default. */
  lemma SafetyMarksDistinct(a: SafetyLevel, b: SafetyLevel, other: string)
    requires other != "safe" && other != "caution" && other != "dangerous"
    ensures a != b ==> SafetyEmoji(a.Name()) != SafetyEmoji(b.Name()) && SafetyColor(a.Name()) != SafetyColor(b.Name())
    ensures SafetyEmoji(a.Name()) != SafetyEmoji(other) && SafetyColor(a.Name()) != SafetyColor(other)
    ensures SafetyEmoji(other) == "❓" && SafetyColor(other) == "\U{1b}[37m"
  {
  }

  // ---------------------------------------------------------------------
  // Executing a command

  /** The answer to the dangerous-command confirmation: yes, no (the
      default), or a prompt that threw. */
  datatype Confirmation = Proceed | Decline | ConfirmFailed(message: string)

  /** How the spawned child goes: the code `close` reports (None for
      `null`), or `spawn` throws. */
  datatype ChildExit = Exits(code: Option<int>) | SpawnThrows(message: string)

  /** How `executeCommand` ends. */
  datatype RunOutcome = Declined | Finished(code: Option<int>) | ExecutionFailed(message: string)

  /** The record written before the child starts: no code, no verdict. */
  function PendingEntry(command: string, at: string, safety: string): HistoryEntry {
    HistoryEntry(command, at, safety, None, None, None)
  }

  /** The record written on `close`: `exitCode = code || 0`, `success = code === 0`. */
  function ClosedEntry(command: string, at: string, safety: string, code: Option<int>): (e: HistoryEntry)
    ensures e.exitCode == Some(if code.Some? then code.value else 0)
    ensures e.success == Some(code == Some(0))
    ensures e.command == command && e.safety == safety && e.error.None?
  {
    HistoryEntry(command, at, safety, Some(code.GetOr(0)), Some(code == Some(0)), None)
  }

  /** The record written when the execution throws. */
  function FailedEntry(command: string, at: string, safety: string, message: string): HistoryEntry {
    HistoryEntry(command, at, safety, None, Some(false), Some(message))
  }

  /** The history after saving each record in turn. */
  function Logged(h: seq<Json>, entries: seq<HistoryEntry>): (r: seq<Json>)
    ensures entries != [] ==> 1 <= |r| <= HistoryLimit && r[|r| - 1] == EntryJson(entries[|entries| - 1])
    decreases |entries|
  {
    if entries == [] then h
    else Logged(KeepLast(h + [EntryJson(entries[0])], HistoryLimit), entries[1..])
  }

  /** The child is started unless the command is dangerous and the user did not agree. */
  predicate Runs(safety: string, confirm: Confirmation) {
    safety != "dangerous" || confirm == Proceed
  }

  /** The record written once the child has gone. */
  function LastEntry(command: string, at: string, safety: string, child: ChildExit): HistoryEntry {
    match child
    case Exits(code) => ClosedEntry(command, at, safety, code)
    case SpawnThrows(message) => FailedEntry(command, at, safety, message)
  }

  /** The records `executeCommand` writes, in order. */
  function Records(command: string, safety: string, confirm: Confirmation, child: ChildExit,
                   startedAt: string, endedAt: string): seq<HistoryEntry> {
    if Runs(safety, confirm) then [PendingEntry(command, startedAt, safety), LastEntry(command, endedAt, safety, child)]
    else if confirm.ConfirmFailed? then [FailedEntry(command, endedAt, safety, confirm.message)]
    else []
  }

  /** How `executeCommand` ends. */
  function RunResult(safety: string, confirm: Confirmation, child: ChildExit): RunOutcome {
    if Runs(safety, confirm) then
      match child
      case Exits(code) => Finished(code)
      case SpawnThrows(message) => ExecutionFailed(message)
    else if confirm.ConfirmFailed? then ExecutionFailed(confirm.message)
    else Declined
  }

  /** What the gate and the two records come to, case by case. */
  lemma RecordsCases(command: string, safety: string, confirm: Confirmation, child: ChildExit,
                     startedAt: string, endedAt: string)
    ensures var r, o := Records(command, safety, confirm, child, startedAt, endedAt), RunResult(safety, confirm, child);
      && (safety == "dangerous" && confirm == Decline ==> o == Declined && r == [])
      && (safety == "dangerous" && confirm.ConfirmFailed? ==>
            o == ExecutionFailed(confirm.message) && r == [FailedEntry(command, endedAt, safety, confirm.message)])
      && (Runs(safety, confirm) ==>
            |r| == 2 && r[0] == PendingEntry(command, startedAt, safety) && r[0].exitCode.None? && r[0].success.None?)
      && (Runs(safety, confirm) && child.Exits? ==>
            o == Finished(child.code) && r[1].exitCode == Some(child.code.GetOr(0))
            && r[1].success == Some(child.code == Some(0)))
      && (Runs(safety, confirm) && child.SpawnThrows? ==>
            o == ExecutionFailed(child.message) && r[1] == FailedEntry(command, endedAt, safety, child.message)
            && r[1].success == Some(false) && r[1].error == Some(child.message))
      && (forall i :: 0 <= i < |r| ==> r[i].command == command && r[i].safety == safety)
  {
  }

  /** `executeCommand`: the gate, then one record before the child starts
      and one when it closes or the execution throws. `startedAt` and
      `endedAt` are the clock readings of the two records. */
  method ExecuteCommand(files: Files, command: string, safety: string, confirm: Confirmation, child: ChildExit,
                        startedAt: string, endedAt: string)
    returns (outcome: RunOutcome, entries: seq<HistoryEntry>)
    modifies files
    ensures outcome == RunResult(safety, confirm, child)
    ensures entries == Records(command, safety, confirm, child, startedAt, endedAt)
    ensures files.settings == old(files.settings)
    ensures entries == [] ==> files.history == old(files.history)
    ensures files.LoadCommandHistory() == Logged(old(files.LoadCommandHistory()), entries)
  {
    if safety == "dangerous" {
      match confirm
      case Decline =>
        return Declined, [];
      case ConfirmFailed(message) =>
        var failed := FailedEntry(command, endedAt, safety, message);
        files.SaveCommandHistory(failed, false);
        entries := [failed];
        assert entries[1..] == [];
        return ExecutionFailed(message), entries;
      case Proceed =>
    }
    outcome, entries := RunAndRecord(files, command, safety, child, startedAt, endedAt);
  }

  /** The two records around a started child. */
  method RunAndRecord(files: Files, command: string, safety: string, child: ChildExit,
                      startedAt: string, endedAt: string)
    returns (outcome: RunOutcome, entries: seq<HistoryEntry>)
    modifies files
    ensures outcome == RunResult(safety, Proceed, child)
    ensures entries == [PendingEntry(command, startedAt, safety), LastEntry(command, endedAt, safety, child)]
    ensures files.settings == old(files.settings)
    ensures files.LoadCommandHistory() == Logged(old(files.LoadCommandHistory()), entries)
  {
    ghost var h0 := files.LoadCommandHistory();
    var pending := PendingEntry(command, startedAt, safety);
    files.SaveCommandHistory(pending, false);
    ghost var h1 := files.LoadCommandHistory();
    var last := LastEntry(command, endedAt, safety, child);
    outcome := match child
      case Exits(code) => Finished(code)
      case SpawnThrows(message) => ExecutionFailed(message);
    files.SaveCommandHistory(last, false);
    entries := [pending, last];
    LoggedTwo(h0, h1, files.LoadCommandHistory(), pending, last);
  }

  /** Two saves in a row log both records. */
  lemma LoggedTwo(h0: seq<Json>, h1: seq<Json>, h2: seq<Json>, a: HistoryEntry, b: HistoryEntry)
    requires h1 == KeepLast(h0 + [EntryJson(a)], HistoryLimit)
    requires h2 == KeepLast(h1 + [EntryJson(b)], HistoryLimit)
    ensures h2 == Logged(h0, [a, b])
  {
    assert [a, b][1..] == [b] && [b][1..] == [];
    assert Logged(h0, [a, b]) == Logged(h1, [b]);
    assert Logged(h1, [b]) == Logged(h2, []);
  }

  /** Saving one more record extends the logged history by it. */
  lemma {:induction false} LoggedStep(h: seq<Json>, entries: seq<HistoryEntry>, e: HistoryEntry)
    ensures Logged(h, entries + [e]) == KeepLast(Logged(h, entries) + [EntryJson(e)], HistoryLimit)
    decreases |entries|
  {
    if entries == [] {
      assert ([] + [e])[1..] == [];
    } else {
      assert (entries + [e])[0] == entries[0];
      assert (entries + [e])[1..] == entries[1..] + [e];
      LoggedStep(KeepLast(h + [EntryJson(entries[0])], HistoryLimit), entries[1..], e);
    }
  }

  /** A child ended by a signal (null code) is recorded with exit code 0
      and as a failure. */
  lemma SignalledChildRecordsZero(command: string, at: string, safety: string)
    ensures ClosedEntry(command, at, safety, None).exitCode == Some(0)
    ensures ClosedEntry(command, at, safety, None).success == Some(false)
  {
  }

  // ---------------------------------------------------------------------
  // The command

  /** The values of the three menu choices, in order. */
  const MenuActions: seq<string> := ["execute", "explain", "exit"]

  /** The answer to the menu: a choice's value, a TTY error, or another prompt failure. */
  datatype MenuAnswer = Picked(action: string) | MenuTtyError | MenuFailed(message: string)

  /** How the command ends. */
  datatype ConvertOutcome =
    | UsageShown
    | KeyHintShown
    | Reported(message: string)
    | PrintedPlain(result: ShellCommandResult)
    | Explained(command: string)
    | Cancelled
    | Ran(run: RunOutcome)

  /** An error reaching `execute`'s handler: the key hint when the message
      names the missing key, the generic handler otherwise. */
  function Handle(message: string): (o: ConvertOutcome)
    ensures o == KeyHintShown <==> Contains(message, KeyHintTrigger)
    ensures o != KeyHintShown ==> o == Reported(message)
  {
    if Contains(message, KeyHintTrigger) then KeyHintShown else Reported(message)
  }

  /** `execute` and `showCommandPrompt`. `reply` is what the service call
      returns or throws. */
  method Execute(files: Files, options: Options, reply: Result<ShellCommandResult, string>, menu: MenuAnswer,
                 confirm: Confirmation, child: ChildExit, startedAt: string, endedAt: string)
    returns (outcome: ConvertOutcome, entries: seq<HistoryEntry>)
    modifies files
    ensures files.settings == old(files.settings)
    ensures entries == [] ==> files.history == old(files.history)
    ensures files.LoadCommandHistory() == Logged(old(files.LoadCommandHistory()), entries)
    ensures SelectQuery(options).None? ==> outcome == UsageShown
    ensures !outcome.Ran? ==> entries == []
    ensures SelectQuery(options).Some? && reply.Err? ==> outcome == Handle(reply.error)
    ensures SelectQuery(options).Some? && reply.Ok? ==>
              match menu
              case MenuTtyError => outcome == PrintedPlain(reply.value)
              case MenuFailed(m) => outcome == Handle(m)
              case Picked(a) =>
                (a == "execute" <==> outcome.Ran?)
                && (a == "explain" <==> outcome == Explained(reply.value.command))
                && (a != "execute" && a != "explain" <==> outcome == Cancelled)
    ensures outcome.Ran? ==> SelectQuery(options).Some? && reply.Ok? && menu == Picked("execute")
    ensures outcome.Ran? && reply.Ok? ==>
              outcome.run == RunResult(reply.value.safety.Name(), confirm, child)
              && entries == Records(reply.value.command, reply.value.safety.Name(), confirm, child, startedAt, endedAt)
  {
    entries := [];
    var query := SelectQuery(options);
    if query.None? {
      return UsageShown, entries;
    }
    if reply.Err? {
      return Handle(reply.error), entries;
    }
    var result := reply.value;
    match menu
    case MenuTtyError =>
      outcome := PrintedPlain(result);
    case MenuFailed(m) =>
      outcome := Handle(m);
    case Picked(action) =>
      if action == "execute" {
        var run;
        run, entries := ExecuteCommand(files, result.command, result.safety.Name(), confirm, child,
                                       startedAt, endedAt);
        outcome := Ran(run);
      } else if action == "explain" {
        outcome := Explained(result.command);
      } else {
        outcome := Cancelled;
      }
  }

  /** Only a dangerous command asks; declining writes nothing and starts nothing. */
  lemma OnlyDangerousAsks(safety: SafetyLevel, confirm: Confirmation)
    ensures safety != Dangerous ==> Runs(safety.Name(), confirm)
    ensures safety == Dangerous ==> (Runs(safety.Name(), confirm) <==> confirm == Proceed)
  {
  }
}
