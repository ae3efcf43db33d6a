/** The configuration store (src/config/index.ts): the settings file, the
    bounded command history and the precedence that builds the client
    configuration. The two files are abstract state held by a `Files`
    object; what a file holds is its content as `JSON.parse` reads it, so
    `JSON.stringify` followed by `JSON.parse` is the identity here. The
    environment is a parameter. */
module Config {
  import opened Wrappers
  import opened JsText
  import opened Json
  import opened Types

  const HistoryLimit := 50
  const DefaultBaseUrl := "https://api.cerebras.ai/v1"
  const DefaultModel := "llama-4-scout-17b-16e-instruct"
  const ApiKeyMissing := "API key not configured. Please run: vcmd settings"
  /** The TypeError that reading `settings.apiKey` raises when the settings file holds `null`. */
  const NullSettingsError := "Cannot read properties of null (reading 'apiKey')"

  /** A file: absent, present but unreadable or not valid JSON, or holding a value. */
  datatype FileState = Missing | Unreadable | Holds(value: Json)

  /** What a failed write throws: an `Error` with its message, or some other value. */
  datatype Thrown = Thrown(message: string) | NonError

  /** `error instanceof Error ? error.message : 'Unknown error'`. */
  function MessageOf(t: Thrown): string {
    match t
    case Thrown(m) => m
    case NonError => "Unknown error"
  }

  /** A history record. `exitCode`, `success` and `error` are optional. */
  datatype HistoryEntry = HistoryEntry(
    command: string, timestamp: string, safety: string,
    exitCode: Option<int>, success: Option<bool>, error: Option<string>)

  /** `JSON.stringify` leaves out the properties that are undefined. */
  function OptionalField<T>(m: map<string, Json>, key: string, v: Option<T>, enc: T -> Json): map<string, Json> {
    if v.Some? then m[key := enc(v.value)] else m
  }

  /** The stored form of a history record. */
  function EntryJson(e: HistoryEntry): (j: Json)
    ensures j.JObject?
    ensures Property(j, "command") == Some(JString(e.command))
    ensures Property(j, "timestamp") == Some(JString(e.timestamp))
    ensures Property(j, "safety") == Some(JString(e.safety))
    ensures Property(j, "exitCode") == (if e.exitCode.Some? then Some(JNumber(e.exitCode.value)) else None)
    ensures Property(j, "success") == (if e.success.Some? then Some(JBool(e.success.value)) else None)
    ensures Property(j, "error") == (if e.error.Some? then Some(JString(e.error.value)) else None)
    ensures j.fields.Keys <= {"command", "timestamp", "safety", "exitCode", "success", "error"}
  {
    var base := map["command" := JString(e.command), "timestamp" := JString(e.timestamp),
                    "safety" := JString(e.safety)];
    var withCode := OptionalField(base, "exitCode", e.exitCode, (n: int) => JNumber(n));
    var withSuccess := OptionalField(withCode, "success", e.success, (b: bool) => JBool(b));
    JObject(OptionalField(withSuccess, "error", e.error, (s: string) => JString(s)))
  }

  /** Reading a stored record back: the inverse of `EntryJson`. */
  function EntryOf(j: Json): Option<HistoryEntry> {
    var command, timestamp, safety := Property(j, "command"), Property(j, "timestamp"), Property(j, "safety");
    if command.Some? && command.value.JString? && timestamp.Some? && timestamp.value.JString?
       && safety.Some? && safety.value.JString?
    then
      var code, success, error := Property(j, "exitCode"), Property(j, "success"), Property(j, "error");
      Some(HistoryEntry(command.value.s, timestamp.value.s, safety.value.s,
                        if code.Some? && code.value.JNumber? then Some(code.value.n) else None,
                        if success.Some? && success.value.JBool? then Some(success.value.b) else None,
                        if error.Some? && error.value.JString? then Some(error.value.s) else None))
    else None
  }

  /** A stored record reads back as the record that was stored. */
  lemma EntryRoundTrip(e: HistoryEntry)
    ensures EntryOf(EntryJson(e)) == Some(e)
  {
  }

  /** The last `n` elements, or all of them when there are fewer: for
      `n >= 1` this is `xs.slice(-n)`. For `n == 0` it is empty, whereas
      `slice(-0)` is the whole list; the history only uses `n == 50`. */
  function KeepLast<T>(xs: seq<T>, n: nat): (r: seq<T>)
    ensures |r| == Min(|xs|, n)
    ensures r == xs[|xs| - |r|..]
  {
    if |xs| <= n then xs else xs[|xs| - n..]
  }

  /** Appending then keeping the last `n` keeps the last `n - 1` of the old
      elements in their order, followed by the new one. */
  lemma KeepLastAppend<T>(xs: seq<T>, x: T, n: nat)
    requires n >= 1
    ensures KeepLast(xs + [x], n) == KeepLast(xs, n - 1) + [x]
  {
    var ys := xs + [x];
    var r := KeepLast(ys, n);
    var s := KeepLast(xs, n - 1);
    assert |r| == |s| + 1;
    forall i | 0 <= i < |r|
      ensures r[i] == (s + [x])[i]
    {
      assert r[i] == ys[|ys| - |r| + i];
      if i < |s| {
        assert s[i] == xs[|xs| - |s| + i];
      }
    }
  }

  /** Settings > environment > default: `a || b || c` on the three sources. */
  function FirstTruthy(a: Option<Json>, b: Option<Json>, d: Json): Json {
    if Truthy(a) then a.value else if Truthy(b) then b.value else d
  }

  /** `process.env[name]`: None when the variable is not set. */
  function EnvValue(env: map<string, string>, name: string): Option<Json> {
    if name in env then Some(JString(env[name])) else None
  }

  /** `getCerebrasConfig` on the loaded settings and the environment. */
  function ConfigFrom(settings: Json, env: map<string, string>): (r: Result<CerebrasConfig, string>)
    // a `null` settings file makes the property read throw
    ensures settings.JNull? ==> r == Err(NullSettingsError)
    // the key comes from the settings when they hold a truthy one
    ensures !settings.JNull? && Truthy(Property(settings, "apiKey")) ==>
              r.Ok? && Some(r.value.apiKey) == Property(settings, "apiKey")
    // otherwise from a non-empty environment variable
    ensures !settings.JNull? && !Truthy(Property(settings, "apiKey"))
            && "CEREBRAS_API_KEY" in env && env["CEREBRAS_API_KEY"] != "" ==>
              r.Ok? && r.value.apiKey == JString(env["CEREBRAS_API_KEY"])
    // and with neither the call fails
    ensures !settings.JNull? && !Truthy(Property(settings, "apiKey"))
            && ("CEREBRAS_API_KEY" !in env || env["CEREBRAS_API_KEY"] == "") ==>
              r == Err(ApiKeyMissing)
    // a configuration always has truthy fields
    ensures r.Ok? ==> Truthy(Some(r.value.apiKey)) && Truthy(Some(r.value.baseUrl)) && Truthy(Some(r.value.model))
    // the two other fields each take the first truthy source
    ensures r.Ok? && Truthy(Property(settings, "baseUrl")) ==> Some(r.value.baseUrl) == Property(settings, "baseUrl")
    ensures r.Ok? && !Truthy(Property(settings, "baseUrl")) && Truthy(EnvValue(env, "CEREBRAS_BASE_URL")) ==>
              r.value.baseUrl == JString(env["CEREBRAS_BASE_URL"])
    ensures r.Ok? && !Truthy(Property(settings, "baseUrl")) && !Truthy(EnvValue(env, "CEREBRAS_BASE_URL")) ==>
              r.value.baseUrl == JString(DefaultBaseUrl)
    ensures r.Ok? && Truthy(Property(settings, "model")) ==> Some(r.value.model) == Property(settings, "model")
    ensures r.Ok? && !Truthy(Property(settings, "model")) && Truthy(EnvValue(env, "CEREBRAS_MODEL")) ==>
              r.value.model == JString(env["CEREBRAS_MODEL"])
    ensures r.Ok? && !Truthy(Property(settings, "model")) && !Truthy(EnvValue(env, "CEREBRAS_MODEL")) ==>
              r.value.model == JString(DefaultModel)
  {
    if settings.JNull? then Err(NullSettingsError)
    else
      var givenKey := Property(settings, "apiKey");
      var apiKey := if Truthy(givenKey) then givenKey else EnvValue(env, "CEREBRAS_API_KEY");
      if !Truthy(apiKey) then Err(ApiKeyMissing)
      else
        Ok(CerebrasConfig(
             apiKey.value,
             FirstTruthy(Property(settings, "baseUrl"), EnvValue(env, "CEREBRAS_BASE_URL"), JString(DefaultBaseUrl)),
             FirstTruthy(Property(settings, "model"), EnvValue(env, "CEREBRAS_MODEL"), JString(DefaultModel))))
  }

  /** The settings file and the history file. */
  class Files {
    var settings: FileState
    var history: FileState

    constructor(settings: FileState, history: FileState)
      ensures this.settings == settings && this.history == history
    {
      this.settings := settings;
      this.history := history;
    }

    /** `loadSettings`: the parsed file, or `{}` when the file is missing
        or cannot be read or parsed. */
    function LoadSettings(): (s: Json)
      reads this
      ensures settings.Holds? ==> s == settings.value
      ensures !settings.Holds? ==> s == JObject(map[])
    {
      if settings.Holds? then settings.value else JObject(map[])
    }

    /** `saveSettings`: the file holds `s` afterwards; a failed write
        leaves it as it was and throws with the write error's message. */
    method SaveSettings(s: Json, fault: Option<Thrown>) returns (r: Outcome<string>)
      modifies this
      ensures fault.None? ==> r == Pass && settings == Holds(s)
      ensures fault.Some? ==> r == Fail("Failed to save settings: " + MessageOf(fault.value))
                              && settings == old(settings)
      ensures history == old(history)
    {
      if fault.Some? {
        return Fail("Failed to save settings: " + MessageOf(fault.value));
      }
      settings := Holds(s);
      return Pass;
    }

    /** `ensureSettingsFileExists`: writes `{}` only when the file is
        absent; an existing file, readable or not, is left alone. */
    method EnsureSettingsFileExists(fault: Option<Thrown>) returns (r: Outcome<string>)
      modifies this
      ensures old(settings) != Missing ==> r == Pass && settings == old(settings)
      ensures old(settings) == Missing && fault.None? ==> r == Pass && settings == Holds(JObject(map[]))
      ensures old(settings) == Missing && fault.Some? ==>
                r == Fail("Failed to create settings file: " + MessageOf(fault.value)) && settings == Missing
      ensures history == old(history)
    {
      if settings == Missing {
        if fault.Some? {
          return Fail("Failed to create settings file: " + MessageOf(fault.value));
        }
        settings := Holds(JObject(map[]));
      }
      return Pass;
    }

    /** `loadCommandHistory`: the parsed array's elements; `[]` when the
        file is missing, unreadable, or holds anything but an array. */
    function LoadCommandHistory(): (h: seq<Json>)
      reads this
      ensures history.Holds? && history.value.JArray? ==> h == history.value.items
      ensures !(history.Holds? && history.value.JArray?) ==> h == []
    {
      if history.Holds? && history.value.JArray? then history.value.items else []
    }

    /** `saveCommandHistory`: load, append the record, keep the last 50 and
        write them back. Nothing is thrown; a failed write leaves the file
        as it was. */
    method SaveCommandHistory(entry: HistoryEntry, writeFails: bool)
      modifies this
      ensures !writeFails ==> history == Holds(JArray(KeepLast(old(LoadCommandHistory()) + [EntryJson(entry)], HistoryLimit)))
      ensures !writeFails ==> LoadCommandHistory() == KeepLast(old(LoadCommandHistory()) + [EntryJson(entry)], HistoryLimit)
      ensures writeFails ==> history == old(history)
      ensures settings == old(settings)
    {
      var h := LoadCommandHistory();
      h := h + [EntryJson(entry)];
      var trimmed := KeepLast(h, HistoryLimit);
      if !writeFails {
        history := Holds(JArray(trimmed));
      }
    }
  }

  /** The history after a save: `min(old + 1, 50)` records, the new one
      last, the surviving old ones in their order. */
  lemma SavedHistoryShape(h: seq<Json>, e: HistoryEntry)
    ensures |KeepLast(h + [EntryJson(e)], HistoryLimit)| == Min(|h| + 1, HistoryLimit) <= HistoryLimit
    ensures KeepLast(h + [EntryJson(e)], HistoryLimit)[Min(|h| + 1, HistoryLimit) - 1] == EntryJson(e)
    ensures KeepLast(h + [EntryJson(e)], HistoryLimit) == KeepLast(h, HistoryLimit - 1) + [EntryJson(e)]
  {
    KeepLastAppend(h, EntryJson(e), HistoryLimit);
  }

  /** A configuration the settings file holds in full is used as it is,
      whatever the environment says. */
  lemma SavedSettingsWin(key: string, url: string, model: string, env: map<string, string>)
    requires key != "" && url != "" && model != ""
    ensures ConfigFrom(JObject(map["apiKey" := JString(key), "baseUrl" := JString(url), "model" := JString(model)]), env)
         == Ok(CerebrasConfig(JString(key), JString(url), JString(model)))
  {
  }
}
