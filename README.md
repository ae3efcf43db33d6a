# vcmd in Dafny

A model of the decision logic of `vcmd`, a command-line tool. `vcmd` sends a
natural-language request to a chat-completion service, gets a shell command
back, shows how dangerous it is and runs it on request. It also asks the
service to analyse a command, and it keeps its settings and a bounded
command history in two files.

The model covers these parts of the tool:

- **Response extractor** (`CerebrasService`, `CerebrasServiceLemmas`). It
  trims the reply, strips code fences and a leading `json` tag, and takes the
  text from the first `{` to the last `}`. `parseResponse` then checks the
  three fields, maps an unknown safety level to `caution`, and falls back to
  a pattern scan. The two analysis parsers fill in defaults and never fail.
  `JSON.parse` is a function parameter, `parse: string -> Option<JsonObject>`.
- **Argument router** (`Cli`) and **command registry** (`Commands`). The
  registry is a class over a name-keyed map.
- **Update command** (`UpdateCommand`). It covers version ordering, the
  "try npm, then bun" loop and the stderr-keyword rule for success.
- **Configuration and history** (`Config`). The two files are fields of the
  class `Files`. The module covers the precedence settings > environment >
  default, and the history log that keeps its last 50 records.
- **Convert and explain flows** (`ConvertCommand`, `ExplainCommand`). These
  cover the confirmation gate for dangerous commands, the history records a
  run writes, and the analysis menu with its page size.
- **Small maps**: the safety marks, the settings record (`SettingsCommand`),
  the second `getOSType` (`HelpCommand`) and `parseCommandOptions` (`Utils`).

Shared modules sit under these:

- `Wrappers`: `Option`, `Result`, `Outcome`.
- `JsText`: the JavaScript string operations the code uses, such as `trim`,
  `split`, `join`, `indexOf` and `String(n)`.
- `Json`: a small JSON value with JavaScript truthiness.
- `Types`: the records of `src/types/index.ts`.

### Inputs in place of effects

Effects become inputs:

- the user's answers to prompts and menus;
- the service's reply, or the error it throws;
- a child process's exit code, spawn error and stderr chunks;
- the platform string;
- the environment variables;
- the clock readings stored in history records;
- the faults a file write can raise.

### Code and description disagree

The usage text of the help command (`src/commands/help.ts:16`, `31-32`)
gives `-update` and `-update --auto` as the way to run the update command. The router has no case for `-update`. It sends the flag
on under the name `-update`, which is never registered, so dispatch fails
with "not found". The model follows the code. `Cli.UpdateFlagNotFound`
proves the error.

The fallthrough case of the router tests `command === 'convert'`. That test
can never succeed, because that case is only reached when the first argument
starts with `-`. `vcmd convert ls` is therefore a plain query whose text is
"convert ls" (`Cli.ConvertWordStaysInQuery`).

## Model

| member | source | states |
|---|---|---|
| CerebrasService.GetOsType | src/services/cerebras.ts:100-117 | six platforms get their labels; every other string, and only those, gets "Unix-like" |
| HelpCommand.GetOsType | src/commands/help.ts:46-63 | the switch of the help command: the same six labels and "Unix-like" in the default case |
| HelpCommand.GetOsTypeAgrees | src/commands/help.ts:46-63 | the two copies of `getOSType` agree on every platform string |
| CerebrasService.RemoveJsonFences | src/services/cerebras.ts:123 | global removal of ```json (any case) and the whitespace after it never lengthens the text |
| CerebrasService.RemoveFences | src/services/cerebras.ts:123 | global removal of ``` and the whitespace after it never lengthens the text |
| CerebrasService.StripJsonTag | src/services/cerebras.ts:124 | removal of a leading `json` tag leaves a suffix of the text |
| CerebrasService.JsonSpan | src/services/cerebras.ts:126-133 | no span exactly when there is no `{` strictly before a `}`; a span starts with `{`, ends with `}` and sits in the text with no `{` before it and no `}` after it |
| CerebrasService.NormalizeSafety | src/services/cerebras.ts:141-144 | a valid safety string keeps its level; every other value becomes caution |
| CerebrasService.FirstMatchFrom | src/services/cerebras.ts:156-157 | the leftmost position at which the field pattern matches, or proof that it matches nowhere |
| CerebrasService.Clean | src/services/cerebras.ts:121-124 | trimming, the two fence removals and the tag removal never lengthen the reply |
| CerebrasService.StrictParse | src/services/cerebras.ts:126-150 | there is a strict result exactly when an object parses out of the span and its command, explanation and safety are all truthy |
| CerebrasService.Recover | src/services/cerebras.ts:156-165 | the pattern scan succeeds exactly when both the command and the explanation pattern match, and its result is always caution |
| CerebrasService.ParseFailure | src/services/cerebras.ts:167 | the error text is the fixed prefix, the first 200 characters of the raw reply (all of it when shorter) and "..." |
| CerebrasService.ParseResponse | src/services/cerebras.ts:119-169 | the strict result when there is one, otherwise the recovered one; fails, with the 200-character error, exactly when both fail |
| CerebrasService.AlternativesOf | src/services/cerebras.ts:340 | an array gives its items; anything else gives the empty list |
| CerebrasService.OrDefault | src/services/cerebras.ts:338 | a truthy value is kept; otherwise the default text is used |
| CerebrasService.ParseAnalysisResponse | src/services/cerebras.ts:321-350 | never fails and never has an explanation; with no parsed object it is the fixed fallback; otherwise the analysis is the parsed one when truthy, else "Unable to analyze the command failure.", the fix is passed through, and the alternatives are the array's items or the empty list |
| CerebrasService.ParseCommandAnalysisResponse | src/services/cerebras.ts:432-468 | never fails; with no parsed object it is its own fixed fallback; otherwise the analysis is the parsed one when truthy, else its own default text, fix and explanation are passed through, and the alternatives are the array's items or the empty list |
| CerebrasServiceLemmas.MatchFieldSound | src/services/cerebras.ts:156-157 | a match is a non-empty run without quotes, after the key, optional whitespace and a quote, and it is followed by a closing quote |
| CerebrasServiceLemmas.MatchFieldComplete | src/services/cerebras.ts:156-157 | the key, whitespace and a quoted run without quotes always match, whatever follows |
| CerebrasServiceLemmas.RemoveJsonFencesDeletes | src/services/cerebras.ts:123 | removing json fences only deletes characters (multiset inclusion) |
| CerebrasServiceLemmas.RemoveFencesDeletes | src/services/cerebras.ts:123 | removing plain fences only deletes characters (multiset inclusion) |
| CerebrasServiceLemmas.CleanOnlyDeletes | src/services/cerebras.ts:121-124 | every character of the cleaned text, with its multiplicity, comes from the reply |
| CerebrasServiceLemmas.RemoveFencesLeavesNoFence | src/services/cerebras.ts:123 | no ``` survives the removal of plain fences |
| CerebrasServiceLemmas.CleanLeavesNoFence | src/services/cerebras.ts:121-124 | the cleaned text holds no ```, tagged or not |
| CerebrasServiceLemmas.FencesAroundObject | src/services/cerebras.ts:123 | both removals applied to a reply that holds one fenced object: the opening fence goes and the text on either side of the object stays |
| CerebrasServiceLemmas.ExtractsEmbeddedObject | src/services/cerebras.ts:121-134 | for a reply that holds one object, bare or fenced (with or without a json tag), the extracted span is exactly that object |
| CerebrasServiceLemmas.EmbeddedObjectParses | src/services/cerebras.ts:121-135 | such a reply parses to whatever `JSON.parse` gives for the object |
| CerebrasServiceLemmas.StrictPathDecides | src/services/cerebras.ts:137-150 | when the three fields are truthy, the result is the trimmed command and explanation and the normalised safety |
| CerebrasServiceLemmas.BlankCommandComesBackEmpty | src/services/cerebras.ts:137-147 | a command made only of whitespace passes the truthiness check and comes back empty |
| CerebrasServiceLemmas.SafetyComesFromModel | src/services/cerebras.ts:141-149 | a result whose level is not caution has exactly the level the parsed object named |
| CerebrasServiceLemmas.RecoveredFieldsComeFromReply | src/services/cerebras.ts:156-165 | a recovered result has safety caution, and a command and explanation that are non-empty, hold no quote and occur quoted after their key in the reply |
| CerebrasServiceLemmas.FoundFieldOccurs | src/services/cerebras.ts:156-157 | a found field occurs in the text after its key, colon, whitespace and an opening quote |
| CerebrasServiceLemmas.NoQuoteNoMatch | src/services/cerebras.ts:156-157 | text without a quote matches no field |
| CerebrasServiceLemmas.NoBraceNoQuoteFails | src/services/cerebras.ts:126-167 | a reply with no `{` and no quote fails with the error that carries its first 200 characters |
| CerebrasServiceLemmas.EmbeddedReplyParses | src/services/cerebras.ts:119-150 | a sentence followed by an object, bare or fenced, whose three fields are truthy gives those fields, with command and explanation trimmed |
| CerebrasServiceLemmas.UnparsableAnalysisFallsBack | src/services/cerebras.ts:343-349 | with no parsable object both analysis parsers return their fixed fallback, with no fix and no alternatives |
| CerebrasServiceLemmas.AnalysisParsersAgree | src/services/cerebras.ts:337-341 | when the object names an analysis, the two parsers agree on every field except `explanation` |
| CerebrasServiceLemmas.AnalysisOnlyReply | src/services/cerebras.ts:453-458 | an object holding only an analysis gives that analysis, no fix, no alternatives and no explanation |
| Cli.NoArgumentsShowHelp | src/index.ts:10-12 | no arguments route to help with empty options |
| Cli.FlagsFirst | src/index.ts:16-31 | `-settings`/`--settings` give settings; `-e`/`--explain` give explain with the remaining arguments; `-h`/`-help`/`--help` give help |
| Cli.CanYouStripped | src/index.ts:34-44 | "can" "you" followed by words converts the words joined by spaces, without the prefix |
| Cli.CanYouAloneIsQuery | src/index.ts:34-56 | "can" "you" alone do not make the "can you " prefix, so the whole text is the query |
| Cli.UnknownFlagFallsThrough | src/index.ts:58-67 | an unknown flag is routed under its own name, with the remaining arguments and no query |
| Cli.ParseArguments | src/index.ts:7-68 | every convert route has a query, and its rest list is exactly that query; any command name other than help, settings, explain and convert is the first argument, which starts with `-`, with the remaining arguments and no query |
| Cli.ConvertWordStaysInQuery | src/index.ts:47-65 | `convert ls` is a plain query "convert ls"; the `convert` test of the fallthrough case never applies |
| Cli.UpdateFlagNotFound | src/index.ts:58-67 | `-update` is routed as `-update`, and the default registry answers with the not-found error |
| Cli.Run | src/index.ts:70-79 | a missing settings file is created as `{}`, or stays missing when the write fails, and that failure stops the program with its message; an existing file is left alone; otherwise the routed name is dispatched to its registered command or reported as not found; the history is untouched |
| Commands.CommandManager.constructor | src/commands/index.ts:11-22 | the registry holds the five default commands and is valid |
| Commands.CommandManager.Register | src/commands/index.ts:24-26 | `c` is filed under its name, replacing an earlier one; every other entry stays as it was |
| Commands.CommandManager.Execute | src/commands/index.ts:28-35 | a registered name dispatches to its command with the options, unchanged; an unregistered one gives the not-found error |
| Commands.CommandManager.GetCommands | src/commands/index.ts:37-39 | the registry map itself |
| Commands.DefaultRegistryShape | src/commands/index.ts:16-22 | the default registry's keys are exactly `convert`, `settings`, `help`, `explain` and `update`, each filed with its own command |
| Commands.FlagNamesNotRegistered | src/commands/index.ts:28-34 | no name starting with `-` is registered by default |
| Config.EntryJson | src/config/index.ts:15-22 | the stored record has the three fixed fields and exactly the optional fields that are present |
| Config.EntryRoundTrip | src/config/index.ts:85-92 | a stored record reads back as the record that was stored |
| Config.KeepLast | src/config/index.ts:90 | `slice(-n)` for `n >= 1`: `min(len, n)` elements, and they are the tail of the list |
| Config.KeepLastAppend | src/config/index.ts:88-90 | appending then keeping the last `n` keeps the last `n - 1` old elements in order, then the new one |
| Config.ConfigFrom | src/config/index.ts:43-57 | the key comes from the settings if truthy, otherwise from the environment, otherwise it is the not-configured error; base URL and model take the first truthy value of settings, environment and default; null settings throw |
| Config.Files.constructor | src/config/index.ts:6-7 | the two files start in the given states |
| Config.Files.LoadSettings | src/config/index.ts:24-33 | the parsed file, or `{}` when the file is missing or unreadable |
| Config.Files.SaveSettings | src/config/index.ts:35-41 | the file holds the new settings; a failed write leaves it unchanged and fails with "Failed to save settings: " and the message; the history is untouched |
| Config.Files.EnsureSettingsFileExists | src/config/index.ts:63-71 | writes `{}` only when the file is absent; an existing file is left alone; a failed write fails with "Failed to create settings file: " and the message |
| Config.Files.LoadCommandHistory | src/config/index.ts:73-83 | the stored array's elements; `[]` when the file is missing, unreadable or holds something other than an array |
| Config.Files.SaveCommandHistory | src/config/index.ts:85-95 | never fails; the history becomes the last 50 of the loaded history with the record appended; a failed write leaves it as it was; the settings are untouched |
| Config.SavedHistoryShape | src/config/index.ts:88-90 | after a save the history has `min(old + 1, 50)` records, the new one last, and the surviving old ones in order |
| Config.SavedSettingsWin | src/config/index.ts:43-57 | settings that hold all three values are used as they are, whatever the environment holds |
| ConvertCommand.SelectQuery | src/commands/convert.ts:21-25 | `options.query` when truthy, otherwise the first rest argument when truthy, otherwise none, which prints the usage text |
| ConvertCommand.SafetyEmoji | src/commands/convert.ts:225-232 | the emoji of a safety string, with "❓" as the default; `SafetyMarksDistinct` states its properties |
| ConvertCommand.SafetyColor | src/commands/convert.ts:234-241 | the colour of a safety string, with white as the default; `SafetyMarksDistinct` states its properties |
| ConvertCommand.SafetyMarksDistinct | src/commands/convert.ts:225-241 | the three levels get three different emojis and colours, none of them the default; every other string gets the default |
| ConvertCommand.ClosedEntry | src/commands/convert.ts:167-177 | the close record has exit code `code` or 0 and success exactly when the code is 0 |
| ConvertCommand.Logged | src/config/index.ts:85-95 | after at least one save the history has between 1 and 50 records, and the last one saved is last |
| ConvertCommand.Records | src/commands/convert.ts:120-223 | the history records one run writes; `RecordsCases` states them case by case |
| ConvertCommand.RunResult | src/commands/convert.ts:120-223 | how one run ends, for each input case; `ExecuteCommand` is proved against it |
| ConvertCommand.RecordsCases | src/commands/convert.ts:120-223 | a declined dangerous command writes nothing; a failed confirmation writes one failure record; a started child writes a pending record, then a close record or a failure record; every record carries the command and its safety |
| ConvertCommand.ExecuteCommand | src/commands/convert.ts:120-223 | the outcome and the records are those of the gate and the child; the history is the old history with each record saved in turn; the settings are untouched |
| ConvertCommand.RunAndRecord | src/commands/convert.ts:139-222 | a started child writes the pending record and then the closing one, each saved in turn |
| ConvertCommand.LoggedTwo | src/commands/convert.ts:143-177 | two saves in a row log both records |
| ConvertCommand.LoggedStep | src/config/index.ts:85-95 | one more save extends the logged history by that record, trimmed to 50 |
| ConvertCommand.SignalledChildRecordsZero | src/commands/convert.ts:168-176 | a child ended by a signal (null code) is recorded with exit code 0 and as a failure |
| ConvertCommand.Handle | src/commands/convert.ts:35-45 | a message naming the missing API key gives the key hint; every other message is reported |
| ConvertCommand.Execute | src/commands/convert.ts:20-99 | no query gives the usage text; a reply error is handled; `execute` runs the command with its safety, `explain` explains it, anything else cancels; a TTY error prints the result; other menu errors are handled; only `execute` writes history, and it writes exactly the records of `executeCommand` |
| ConvertCommand.OnlyDangerousAsks | src/commands/convert.ts:122-137 | only a dangerous command asks for confirmation; declining writes nothing and starts nothing |
| ExplainCommand.ProvidedCommand | src/commands/explain.ts:21-26 | the rest arguments joined by spaces, when that is non-empty |
| ExplainCommand.FirstAccepted | src/commands/explain.ts:28-41 | blank answers are turned away; the first other answer is taken, trimmed |
| ExplainCommand.BuildChoices | src/commands/explain.ts:85-111 | `(fix ? 1 : 0) + |alternatives| + 2` entries: the fix first when truthy, alternative `i` at its offset and labelled `i + 1`, explain of the original second to last, exit last |
| ExplainCommand.PageSize | src/commands/explain.ts:133 | `min(count, 8)`: never above 8 or above the count, and equal to one of them |
| ExplainCommand.PageSizeBounds | src/commands/explain.ts:103-133 | every menu shows between 2 and 8 entries on a page |
| ExplainCommand.AltLabelsDistinct | src/commands/explain.ts:95-99 | different alternatives get different entry names |
| ExplainCommand.NumberedNamesDiffer | src/commands/explain.ts:97 | names that differ in their number differ, whatever follows the number |
| ExplainCommand.Handle | src/commands/explain.ts:60-66 | a message naming the missing API key gives the key hint; every other message is reported |
| ExplainCommand.PickedOutcome | src/commands/explain.ts:85-111 | what the `k`-th menu entry does; `PickedOutcomeLayout` states the layout |
| ExplainCommand.PickedOutcomeLayout | src/commands/explain.ts:103-111 | the last entry exits, the one before it explains the original command, and every earlier one runs a command |
| ExplainCommand.AnalysisMenu | src/commands/explain.ts:113-161 | a pick runs exactly the chosen command, explains the original, or completes; a TTY error prints the plain list; other errors are handled |
| ExplainCommand.Execute | src/commands/explain.ts:19-68 | the command is the provided one or the accepted answer; a TTY error while prompting gives the "interactive mode not available" outcome; only blank answers keep the prompt open; service errors are handled; otherwise the menu decides |
| SettingsCommand.KeyPreview | src/commands/settings.ts:37 | a string key is shown as its first `min(8, len)` characters, a prefix of the key; any other value throws |
| SettingsCommand.CurrentPreview | src/commands/settings.ts:34-40 | null settings throw; without a truthy key nothing is shown; a truthy key is shown when it is a string, and the preview has at most 8 characters |
| SettingsCommand.TrimmedOr | src/commands/settings.ts:58-59 | the trimmed answer when it is non-empty, otherwise the default |
| SettingsCommand.BuildSettings | src/commands/settings.ts:56-60 | the record has exactly `apiKey`, `baseUrl` and `model`: the trimmed key, then the trimmed answers or the defaults |
| SettingsCommand.ConfigureSettings | src/commands/settings.ts:10-74 | a preview error is reported; a blank key saves nothing; the warning appears exactly for a non-blank key without `csk-`; the record is saved unless the write fails, and a failed write leaves the file as it was |
| SettingsCommand.SavedSettingsConfigure | src/commands/settings.ts:56-62 | the saved record is the configuration the client then uses, whatever the environment holds |
| SettingsCommand.LeadingSpaceWarnsButSavesPrefix | src/commands/settings.ts:49-57 | " csk-1" warns, yet the saved key starts with `csk-` |
| UpdateCommand.Segments | src/commands/update.ts:87-88 | one number per dot-separated piece: its digits' value, or 0 when it is not a digit string |
| UpdateCommand.Compare | src/commands/update.ts:90-98 | the reference order: -1, 0 or 1, lexicographic on the segment lists padded with zeros |
| UpdateCommand.CompareVersions | src/commands/update.ts:86-99 | the loop returns the reference order of the two segment lists |
| UpdateCommand.CompareReflexive | src/commands/update.ts:90-98 | every version equals itself |
| UpdateCommand.CompareAntisymmetric | src/commands/update.ts:90-96 | swapping the versions negates the result |
| UpdateCommand.CompareTransitive | src/commands/update.ts:90-96 | the order is transitive |
| UpdateCommand.CompareHeadsEqual | src/commands/update.ts:90-96 | with equal first segments the rest decides |
| UpdateCommand.CompareTrailingZero | src/commands/update.ts:91-92 | a trailing zero segment does not change the order |
| UpdateCommand.ZeroListCompare | src/commands/update.ts:91-92 | `[0]` compares like the empty list |
| UpdateCommand.FirstDifferenceDecides | src/commands/update.ts:90-96 | the first index at which the segments differ decides the result |
| UpdateCommand.SameSegmentsEqual | src/commands/update.ts:90-98 | versions with the same segment at every index compare equal |
| UpdateCommand.AppendedZeroSegment | src/commands/update.ts:87-92 | `v` followed by ".0" compares like `v` against any version ("1.2" equals "1.2.0") |
| UpdateCommand.ZeroSegmentAppended | src/commands/update.ts:87 | appending ".0" adds one zero segment |
| UpdateCommand.RunCommand | src/commands/update.ts:131-161 | success exactly when the child closes with code 0 and no stderr chunk contains `error` or `Error`; a spawn error is a failure |
| UpdateCommand.SplitKeywordNotSeen | src/commands/update.ts:145-149 | each chunk is tested on its own, so a keyword split across two chunks is not seen |
| UpdateCommand.FailedEndFails | src/commands/update.ts:153-159 | a non-zero or null exit code, or an error event, is a failure whatever stderr held |
| UpdateCommand.PerformUpdate | src/commands/update.ts:101-129 | tries npm then bun and stops at the first success; success exactly when some manager succeeded, with the tried list up to it; both are tried when both fail |
| UpdateCommand.Execute | src/commands/update.ts:12-45 | no latest version is a failed check; a current version not older than the latest gives "already latest"; otherwise the update runs exactly when `--auto` is among the arguments |
| Utils.Entries | src/utils/index.ts:12-13 | one `key: value` rendering per entry, in order |
| Utils.ParseCommandOptionsShort | src/utils/index.ts:11-15 | no entries give the empty string; one entry gives that entry alone |
| Utils.ParseCommandOptions | src/utils/index.ts:11-15 | the entry renderings joined by ", "; its properties are the rows below |
| Utils.ParseCommandOptionsOrder | src/utils/index.ts:12-14 | the first entry comes first, then ", " and the rest, in the order of the given entries list |
| Utils.ParseCommandOptionsSeparators | src/utils/index.ts:14 | `n` entries without ", " inside them give exactly `n - 1` separators |
| Utils.EntrySeparators | src/utils/index.ts:13 | an entry holds ", " only where its key or its value does |
| Utils.CountSeparatorsConcat | src/utils/index.ts:14 | separators in a concatenation: those of each side, plus one exactly at a `,` / space boundary |
| Utils.JoinSeparators | src/utils/index.ts:14 | pieces without ", " joined by ", " hold one separator fewer than there are pieces |
| Json.Truthy | src/services/cerebras.ts:137 | JavaScript truthiness of a member: a missing member and `null` are falsy, as are `false`, 0 and "" |
| Json.ToJsString | src/services/cerebras.ts:147 | `String(v)` of a JSON value: arrays joined by ",", `null` items as "", objects as "[object Object]" |
| JsText.Trim | src/commands/settings.ts:57 | `trim`: the slice left after removing the longest whitespace prefix and suffix; neither end is whitespace |
| JsText.TrimEmptyIffBlank | src/commands/settings.ts:44 | trimming gives the empty string exactly for a blank answer |
| JsText.IndexOf | src/services/cerebras.ts:126 | `indexOf`: the first position holding the character, or -1 when there is none |
| JsText.LastIndexOf | src/services/cerebras.ts:127 | `lastIndexOf`: the last position holding the character, or -1 when there is none |
| JsText.Split | src/commands/update.ts:87 | `split` on one character returns at least one piece |
| JsText.SplitPiecesFree | src/commands/update.ts:87 | no piece holds the separator |
| JsText.SplitJoin | src/commands/update.ts:87 | joining the pieces with the separator gives back the text |
| JsText.SplitAppend | src/commands/update.ts:87 | appending the separator and a piece without one adds that piece |
| JsText.NatToString | src/commands/explain.ts:97 | `String(n)` is a non-empty run of digits |
| JsText.DigitsRoundTrip | src/commands/explain.ts:97 | reading back the rendered number gives the number |
| JsText.NatToStringInjective | src/commands/explain.ts:97 | different numbers render differently |

## Left out

- The HTTP calls (`convertToShellCommand`, `explainCommand`, `analyzeFailedCommand`, `analyzeCommand`) and the prompt texts. The reply text, or the error the call throws, is an input. A missing API key is thrown before the call's `try`, so it reaches the commands unwrapped; other errors arrive wrapped as "Cerebras API error: …". The model takes that message as a given.
- `JSON.parse` and `JSON.stringify`: parsing is a function parameter. Storing a value and loading it back is assumed to give the value back.
- `cleanMarkdownFromText`: a chain of JavaScript regular expressions with lazy quantifiers and back-references, applied only to text that is printed.
- Child processes, stdout and stderr streaming, `SIGINT` handlers and `process.exit`. They become an exit code, a spawn error and a sequence of stderr chunks.
- The child's `error` event in the convert and explain flows only prints, so it is not modelled.
- ExplainCommand.Execute: the command a pick runs is reported as the outcome; the run itself prints only and writes no history.
- The detailed explanation fetched by `explain` and `getDetailedExplanation` is printed only. The model records that it was asked for.
- `inquirer` and `readline` prompts: the answers are inputs. TTY errors are input cases.
- Console output, ANSI colours other than the safety colours, and the help text.
- `getCurrentVersion` and `getLatestVersion`, which read package.json and query the npm registry. Both versions are inputs.
- `new Date().toISOString()`: timestamps are inputs.
- `getSettingsFilePath` and the file paths built with `os.homedir()`.
- `os.platform()`: the platform is an input.
- UpdateCommand.Segments: segments are read as digit strings; any other segment counts as 0. Any segment whose JavaScript `Number` value differs from the value of its digits is not modelled: signs, exponents, hex, surrounding spaces, and digit strings above 2^53 (more than 15 digits), which `Number` rounds, so that "9007199254740993" and "9007199254740992" compare equal in the program but not in the model.
- UpdateCommand.Execute: `options.auto` is never set by the router, so only `--auto` among the arguments is modelled.
- Utils.ParseCommandOptions: takes the list `Object.entries` returns. The model does not compute that order (integer-like keys first, ascending, then the rest in insertion order) and does not require the keys to be distinct.
- Cli.ParseArguments: `toLowerCase` is modelled on ASCII letters only. No other character lowercases to one of the letters of "can you ", so the prefix test is decided the same way.
- Characters are Unicode scalar values rather than UTF-16 code units; `substring(0, 8)` and `substring(8)` differ only for characters outside the Basic Multilingual Plane.
- Commands.CommandManager.GetCommands: returns the map as a value. Later registrations do not show through an earlier result, as they would through the live `Map`.
- Config.Files.SaveSettings: a failed write is assumed to leave the file unchanged. A partial write is not modelled.
- Config.Files.SaveCommandHistory: a failed write is assumed to leave the history file unchanged. A truncated or partial write is not modelled.
- ConvertCommand.ExecuteCommand: the history writes are assumed to succeed. `saveCommandHistory` swallows write failures; `Config.Files.SaveCommandHistory` models that on its own.
- The text `errorHandler` prints is modelled as the reported message.
- Plain JSON numbers are integers; floating-point values are not modelled.
