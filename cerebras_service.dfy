/** The response extractor of the completion client (src/services/cerebras.ts):
    the platform label, the shared cleaning and span-location front end,
    and the three parsers that turn the model's reply text into a
    conversion result or a command analysis. The HTTP calls that fetch the
    reply are not modelled; the reply text is an input, and `JSON.parse` is
    the parameter `parse`. */
module CerebrasService {
  import opened Wrappers
  import opened JsText
  import opened Json
  import opened Types

  // ---------------------------------------------------------------------
  // Platform label

  /** The platforms the prompts name specially, and their labels. */
  const PlatformLabels: map<string, string> := map[
    "win32" := "Windows", "darwin" := "macOS", "linux" := "Linux",
    "freebsd" := "FreeBSD", "openbsd" := "OpenBSD", "sunos" := "Solaris"]

  const FallbackOsLabel := "Unix-like"

  /** `getOSType`: the label for a platform string, by the table above,
      and "Unix-like" for every platform the table does not name. */
  function GetOsType(platform: string): (os: string)
    ensures os == (if platform in PlatformLabels then PlatformLabels[platform] else FallbackOsLabel)
    ensures os == FallbackOsLabel <==> platform !in PlatformLabels
  {
    if platform == "win32" then "Windows"
    else if platform == "darwin" then "macOS"
    else if platform == "linux" then "Linux"
    else if platform == "freebsd" then "FreeBSD"
    else if platform == "openbsd" then "OpenBSD"
    else if platform == "sunos" then "Solaris"
    else "Unix-like"
  }

  // ---------------------------------------------------------------------
  // Cleaning: trim, remove code fences, remove a leading language tag

  const Fence := "```"

  /** The pattern ```json (letters in any case) starts `s`. */
  predicate JsonFenceAt(s: string) {
    |s| >= 7 && s[..3] == Fence && StartsWithIgnoringCase(s[3..], "json")
  }

  /** The pattern ``` starts `s`. */
  predicate FenceAt(s: string) {
    |s| >= 3 && s[..3] == Fence
  }

  /** Global, case-insensitive removal of ```json together with the
      whitespace after it, scanning left to right as a global regular
      expression replacement does. */
  function RemoveJsonFences(s: string): (r: string)
    ensures |r| <= |s|
    decreases |s|
  {
    if s == [] then []
    else if JsonFenceAt(s) then RemoveJsonFences(TrimStart(s[7..]))
    else [s[0]] + RemoveJsonFences(s[1..])
  }

  /** Global removal of ``` together with the whitespace after it. */
  function RemoveFences(s: string): (r: string)
    ensures |r| <= |s|
    decreases |s|
  {
    if s == [] then []
    else if FenceAt(s) then RemoveFences(TrimStart(s[3..]))
    else [s[0]] + RemoveFences(s[1..])
  }

  /** Removal of a leading "json" (any case) and the whitespace after it,
      at the very start of the text only. */
  function StripJsonTag(s: string): (r: string)
    ensures |r| <= |s| && r == s[|s| - |r|..]
  {
    if StartsWithIgnoringCase(s, "json") then TrimStart(s[4..]) else s
  }

  /** The cleaning front end shared by the three parsers, in the source's order. */
  function Clean(content: string): (c: string)
    ensures |c| <= |content|
  {
    StripJsonTag(RemoveFences(RemoveJsonFences(Trim(content))))
  }

  // ---------------------------------------------------------------------
  // Span location

  /** `v` occurs in `s` at `i` with no `{` before it and no `}` after it. */
  predicate OutermostAt(s: string, i: int, v: string) {
    0 <= i <= |s| - |v| && v == s[i..i + |v|]
    && (forall k :: 0 <= k < i ==> s[k] != '{')
    && (forall k :: i + |v| <= k < |s| ==> s[k] != '}')
  }

  /** From the first `{` to the last `}`, both included; None when either
      is missing or the first `{` is not strictly before the last `}`. */
  function JsonSpan(s: string): (r: Option<string>)
    ensures r.None? <==> !exists i, j :: 0 <= i < j < |s| && s[i] == '{' && s[j] == '}'
    ensures r.Some? ==> |r.value| >= 2 && r.value[0] == '{' && r.value[|r.value| - 1] == '}'
    ensures r.Some? ==> exists i :: OutermostAt(s, i, r.value)
  {
    var start := IndexOf(s, '{');
    var end := LastIndexOf(s, '}');
    if start == -1 || end == -1 || start >= end then
      None
    else
      var v := s[start..end + 1];
      assert OutermostAt(s, start, v);
      Some(v)
  }

  /** The span the parsers hand to `JSON.parse`. */
  function Extract(content: string): Option<string> {
    JsonSpan(Clean(content))
  }

  /** The span parsed; None when there is no span or it does not parse. */
  function ParsedObject(parse: string -> Option<JsonObject>, content: string): Option<JsonObject> {
    match Extract(content)
    case None => None
    case Some(span) => parse(span)
  }

  // ---------------------------------------------------------------------
  // Conversion result parser

  const ValidSafety: set<Json> := {JString("safe"), JString("caution"), JString("dangerous")}

  /** A valid safety value keeps its level; any other value, whatever its
      type, becomes `Caution`. */
  function NormalizeSafety(v: Json): (level: SafetyLevel)
    ensures v in ValidSafety ==> v == JString(level.Name())
    ensures v !in ValidSafety ==> level == Caution
  {
    if v == JString("safe") then Safe
    else if v == JString("dangerous") then Dangerous
    else Caution
  }

  /** The strict path of `parseResponse`: the three fields must be truthy;
      command and explanation come back as trimmed strings. */
  function StrictParse(parse: string -> Option<JsonObject>, content: string): (r: Option<ShellCommandResult>)
    ensures r.Some? <==>
              ParsedObject(parse, content).Some?
              && Truthy(Member(ParsedObject(parse, content).value, "command"))
              && Truthy(Member(ParsedObject(parse, content).value, "explanation"))
              && Truthy(Member(ParsedObject(parse, content).value, "safety"))
  {
    match ParsedObject(parse, content)
    case None => None
    case Some(obj) =>
      var command, explanation, safety := Member(obj, "command"), Member(obj, "explanation"), Member(obj, "safety");
      if !Truthy(command) || !Truthy(explanation) || !Truthy(safety) then None
      else Some(ShellCommandResult(Trim(ToJsString(command.value)), Trim(ToJsString(explanation.value)),
                                   NormalizeSafety(safety.value)))
  }

  function FieldPrefix(key: string): string {
    "\"" + key + "\":"
  }

  /** The regular expression `"key":`, optional whitespace, then a quoted
      run of one or more non-quote characters, matched at the start of `s`:
      the captured run. */
  function MatchFieldAt(s: string, key: string): Option<string> {
    QuotedRunAfter(s, FieldPrefix(key))
  }

  /** `s` starts with `p`, then whitespace up to position `i`, then `v`
      between quotes. */
  predicate QuotedRunAt(s: string, p: string, i: int, v: string) {
    StartsWith(s, p) && |p| <= i && i + |v| + 2 <= |s| && AllWhitespace(s[|p|..i])
    && s[i] == '"' && s[i + 1..i + 1 + |v|] == v && s[i + 1 + |v|] == '"'
  }

  /** `s` starts with `p`, optional whitespace and a quoted run of one or
      more non-quote characters: the run. */
  function QuotedRunAfter(s: string, p: string): Option<string> {
    if !StartsWith(s, p) then None
    else
      var i := |p| + LeadingBlank(s[|p|..]);
      if i == |s| || s[i] != '"' then None
      else
        var k := IndexOf(s[i + 1..], '"');
        if k <= 0 then None else Some(s[i + 1..i + 1 + k])
  }

  /** The field pattern matches at position `k` of `s`. */
  predicate MatchesAt(s: string, key: string, k: nat)
    requires k <= |s|
  {
    MatchFieldAt(s[k..], key).Some?
  }

  /** The leftmost position from `i` on where the field pattern matches, or -1. */
  function FirstMatchFrom(s: string, key: string, i: nat): (k: int)
    requires i <= |s|
    ensures k == -1 ==> forall j :: i <= j <= |s| ==> !MatchesAt(s, key, j)
    ensures k != -1 ==> (i <= k <= |s| && MatchesAt(s, key, k)
                         && forall j :: i <= j < k ==> !MatchesAt(s, key, j))
    decreases |s| - i
  {
    if MatchesAt(s, key, i) then i
    else if i == |s| then -1
    else FirstMatchFrom(s, key, i + 1)
  }

  /** `content.match(...)`: the capture of the leftmost match. */
  function FindField(s: string, key: string): Option<string> {
    var k := FirstMatchFrom(s, key, 0);
    if k == -1 then None else MatchFieldAt(s[k..], key)
  }

  /** The recovery path: both fields found by the pattern scan over the
      original text, taken untrimmed, with safety `Caution`. */
  function Recover(content: string): (r: Option<ShellCommandResult>)
    ensures r.Some? <==> FindField(content, "command").Some? && FindField(content, "explanation").Some?
    ensures r.Some? ==> r.value.safety == Caution
  {
    match (FindField(content, "command"), FindField(content, "explanation"))
    case (Some(command), Some(explanation)) => Some(ShellCommandResult(command, explanation, Caution))
    case _ => None
  }

  /** The error `parseResponse` throws: the first 200 characters of the original text. */
  const ParseFailurePrefix := "Failed to parse AI response. Raw content: "

  function ParseFailure(content: string): (e: string)
    ensures |e| == |ParseFailurePrefix| + Min(200, |content|) + 3
    ensures e[..|ParseFailurePrefix|] == ParseFailurePrefix
    ensures e[|ParseFailurePrefix|..|e| - 3] == content[..Min(200, |content|)]
  {
    ParseFailurePrefix + content[..Min(200, |content|)] + "..."
  }

  /** `parseResponse`: the strict path, else the recovery scan, else the error. */
  function ParseResponse(parse: string -> Option<JsonObject>, content: string): (r: Result<ShellCommandResult, string>)
    ensures r.Err? <==> StrictParse(parse, content).None? && Recover(content).None?
    ensures StrictParse(parse, content).Some? ==> r == Ok(StrictParse(parse, content).value)
    ensures StrictParse(parse, content).None? && Recover(content).Some? ==> r == Ok(Recover(content).value)
    ensures r.Err? ==> r.error == ParseFailure(content)
  {
    match StrictParse(parse, content)
    case Some(result) => Ok(result)
    case None =>
      match Recover(content)
      case Some(result) => Ok(result)
      case None => Err(ParseFailure(content))
  }

  // ---------------------------------------------------------------------
  // Analysis parsers

  /** A command analysis. Its fields hold what the parsed object held:
      `suggestedFix` and `explanation` are passed through (None is
      `undefined`), `alternatives` is an array's elements or empty. */
  datatype CommandAnalysis = CommandAnalysis(
    analysis: Json, suggestedFix: Option<Json>, alternatives: seq<Json>, explanation: Option<Json>)

  const FailureAnalysisDefault := "Unable to analyze the command failure."
  const FailureAnalysisFallback := "Failed to parse the analysis. The command likely failed due to syntax errors, missing dependencies, or permission issues."
  const CommandAnalysisDefault := "Unable to analyze the command."
  const CommandAnalysisFallback := "Failed to parse the analysis. The command might have syntax errors or require different approaches."

  /** `Array.isArray(v) ? v : []`. */
  function AlternativesOf(v: Option<Json>): (alts: seq<Json>)
    ensures (v.Some? && v.value.JArray?) ==> alts == v.value.items
    ensures !(v.Some? && v.value.JArray?) ==> alts == []
  {
    if v.Some? && v.value.JArray? then v.value.items else []
  }

  /** `v || d`. */
  function OrDefault(v: Option<Json>, d: string): (r: Json)
    ensures Truthy(v) ==> Some(r) == v
    ensures !Truthy(v) ==> r == JString(d)
  {
    if Truthy(v) then v.value else JString(d)
  }

  /** `parseAnalysisResponse`: never fails; a missing span or a parse
      failure gives the fixed fallback. */
  function ParseAnalysisResponse(parse: string -> Option<JsonObject>, content: string): (r: CommandAnalysis)
    ensures Truthy(Some(r.analysis)) && r.explanation.None?
    ensures ParsedObject(parse, content).None? ==>
              r == CommandAnalysis(JString(FailureAnalysisFallback), None, [], None)
    ensures ParsedObject(parse, content).Some? ==>
              var obj := ParsedObject(parse, content).value;
              (Truthy(Member(obj, "analysis")) ==> Some(r.analysis) == Member(obj, "analysis"))
              && (!Truthy(Member(obj, "analysis")) ==> r.analysis == JString(FailureAnalysisDefault))
              && r.suggestedFix == Member(obj, "suggestedFix")
              && (Member(obj, "alternatives").Some? && Member(obj, "alternatives").value.JArray? ==>
                    r.alternatives == Member(obj, "alternatives").value.items)
              && (!(Member(obj, "alternatives").Some? && Member(obj, "alternatives").value.JArray?) ==>
                    r.alternatives == [])
  {
    match ParsedObject(parse, content)
    case None => CommandAnalysis(JString(FailureAnalysisFallback), None, [], None)
    case Some(obj) =>
      CommandAnalysis(OrDefault(Member(obj, "analysis"), FailureAnalysisDefault),
                      Member(obj, "suggestedFix"), AlternativesOf(Member(obj, "alternatives")), None)
  }

  /** `parseCommandAnalysisResponse`: the same shape, with `explanation`
      passed through and its own default and fallback texts. */
  function ParseCommandAnalysisResponse(parse: string -> Option<JsonObject>, content: string): (r: CommandAnalysis)
    ensures Truthy(Some(r.analysis))
    ensures ParsedObject(parse, content).None? ==>
              r == CommandAnalysis(JString(CommandAnalysisFallback), None, [], None)
    ensures ParsedObject(parse, content).Some? ==>
              var obj := ParsedObject(parse, content).value;
              (Truthy(Member(obj, "analysis")) ==> Some(r.analysis) == Member(obj, "analysis"))
              && (!Truthy(Member(obj, "analysis")) ==> r.analysis == JString(CommandAnalysisDefault))
              && r.suggestedFix == Member(obj, "suggestedFix")
              && r.explanation == Member(obj, "explanation")
              && (Member(obj, "alternatives").Some? && Member(obj, "alternatives").value.JArray? ==>
                    r.alternatives == Member(obj, "alternatives").value.items)
              && (!(Member(obj, "alternatives").Some? && Member(obj, "alternatives").value.JArray?) ==>
                    r.alternatives == [])
  {
    match ParsedObject(parse, content)
    case None => CommandAnalysis(JString(CommandAnalysisFallback), None, [], None)
    case Some(obj) =>
      CommandAnalysis(OrDefault(Member(obj, "analysis"), CommandAnalysisDefault),
                      Member(obj, "suggestedFix"), AlternativesOf(Member(obj, "alternatives")),
                      Member(obj, "explanation"))
  }
}
