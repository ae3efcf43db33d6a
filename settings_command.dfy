/** The settings command (src/commands/settings.ts): the three answers to
    the prompts become the settings record, which replaces the settings
    file. The answers are inputs; what is printed is not modelled beyond
    the key preview and the `csk-` warning. */
module SettingsCommand {
  import opened Wrappers
  import opened JsText
  import opened Json
  import opened Types
  import opened Config

  const Info := Command("settings", "Configure API key and other settings")

  const KeyPrefix := "csk-"
  /** The TypeError of `apiKey.substring` on a truthy key that is not a string. */
  const NotAStringKey := "currentSettings.apiKey.substring is not a function"

  /** `apiKey.substring(0, 8)` on the stored key. */
  function KeyPreview(key: Json): (r: Result<string, string>)
    ensures key.JString? ==> r.Ok? && r.value == key.s[..Min(8, |key.s|)]
    ensures key.JString? ==> |r.value| <= 8 && StartsWith(key.s, r.value)
    ensures !key.JString? ==> r == Err(NotAStringKey)
  {
    if key.JString? then Ok(key.s[..Min(8, |key.s|)]) else Err(NotAStringKey)
  }

  /** What is shown before the prompts: the preview of a stored key when
      there is one, or the error reading the stored settings throws. */
  function CurrentPreview(current: Json): (r: Result<Option<string>, string>)
    ensures current.JNull? ==> r == Err(NullSettingsError)
    ensures !current.JNull? && !Truthy(Property(current, "apiKey")) ==> r == Ok(None)
    ensures !current.JNull? && Truthy(Property(current, "apiKey")) ==>
              (r.Ok? <==> Property(current, "apiKey").value.JString?)
    ensures r.Ok? && r.value.Some? ==> |r.value.value| <= 8
  {
    if current.JNull? then Err(NullSettingsError)
    else
      var key := Property(current, "apiKey");
      if !Truthy(key) then Ok(None)
      else
        match KeyPreview(key.value)
        case Ok(p) => Ok(Some(p))
        case Err(e) => Err(e)
  }

  /** `answer.trim() || fallback`. */
  function TrimmedOr(answer: string, fallback: string): (r: string)
    ensures Trim(answer) != "" ==> r == Trim(answer)
    ensures Trim(answer) == "" ==> r == fallback
  {
    var t := Trim(answer);
    if t != "" then t else fallback
  }

  /** The record saved from the three answers. */
  function BuildSettings(apiKey: string, baseUrl: string, model: string): (s: Json)
    ensures s.JObject? && s.fields.Keys == {"apiKey", "baseUrl", "model"}
    ensures Property(s, "apiKey") == Some(JString(Trim(apiKey)))
    ensures Property(s, "baseUrl") == Some(JString(TrimmedOr(baseUrl, DefaultBaseUrl)))
    ensures Property(s, "model") == Some(JString(TrimmedOr(model, DefaultModel)))
  {
    JObject(map["apiKey" := JString(Trim(apiKey)),
                "baseUrl" := JString(TrimmedOr(baseUrl, DefaultBaseUrl)),
                "model" := JString(TrimmedOr(model, DefaultModel))])
  }

  /** The warning looks at the answer as typed, before trimming. */
  predicate Warns(apiKey: string) {
    !StartsWith(apiKey, KeyPrefix)
  }

  /** How a run ends: the key was blank and nothing was saved, the record
      was saved, or an error was reported. */
  datatype SettingsResult = KeyRequired | Saved(settings: Json) | Failed(message: string)

  /** A run: the preview shown first, whether the `csk-` warning was shown, how it ended. */
  datatype SettingsRun = SettingsRun(preview: Option<string>, warned: bool, result: SettingsResult)

  /** `configureSettings` and the error handler of `execute` around it. */
  method ConfigureSettings(files: Files, apiKey: string, baseUrl: string, model: string, fault: Option<Thrown>)
    returns (run: SettingsRun)
    modifies files
    ensures files.history == old(files.history)
    ensures CurrentPreview(old(files.LoadSettings())).Err? ==>
              run == SettingsRun(None, false, Failed(CurrentPreview(old(files.LoadSettings())).error))
    ensures CurrentPreview(old(files.LoadSettings())).Ok? ==>
              run.preview == CurrentPreview(old(files.LoadSettings())).value
    ensures run.result == KeyRequired <==> CurrentPreview(old(files.LoadSettings())).Ok? && Trim(apiKey) == ""
    ensures run.warned <==> CurrentPreview(old(files.LoadSettings())).Ok? && Trim(apiKey) != "" && Warns(apiKey)
    ensures run.result.Saved? <==> CurrentPreview(old(files.LoadSettings())).Ok? && Trim(apiKey) != "" && fault.None?
    ensures run.result.Saved? ==> run.result.settings == BuildSettings(apiKey, baseUrl, model)
                                  && files.settings == Holds(run.result.settings)
    ensures !run.result.Saved? ==> files.settings == old(files.settings)
    ensures CurrentPreview(old(files.LoadSettings())).Ok? && Trim(apiKey) != "" && fault.Some? ==>
              run.result == Failed("Failed to save settings: " + MessageOf(fault.value))
  {
    var current := files.LoadSettings();
    var shown := CurrentPreview(current);
    if shown.Err? {
      return SettingsRun(None, false, Failed(shown.error));
    }
    if Trim(apiKey) == "" {
      return SettingsRun(shown.value, false, KeyRequired);
    }
    var warned := Warns(apiKey);
    var settings := BuildSettings(apiKey, baseUrl, model);
    var saved := files.SaveSettings(settings, fault);
    if saved.Fail? {
      return SettingsRun(shown.value, warned, Failed(saved.error));
    }
    return SettingsRun(shown.value, warned, Saved(settings));
  }

  /** The saved record is the configuration the client then uses,
      whatever the environment holds. */
  lemma SavedSettingsConfigure(apiKey: string, baseUrl: string, model: string, env: map<string, string>)
    requires Trim(apiKey) != ""
    ensures ConfigFrom(BuildSettings(apiKey, baseUrl, model), env)
         == Ok(CerebrasConfig(JString(Trim(apiKey)), JString(TrimmedOr(baseUrl, DefaultBaseUrl)),
                              JString(TrimmedOr(model, DefaultModel))))
  {
    var url, m := TrimmedOr(baseUrl, DefaultBaseUrl), TrimmedOr(model, DefaultModel);
    assert url != "" && m != "";
    SavedSettingsWin(Trim(apiKey), url, m, env);
  }

  /** An answer with a leading space warns, yet the saved key starts with `csk-`. */
  lemma LeadingSpaceWarnsButSavesPrefix()
    ensures Warns(" csk-1")
    ensures StartsWith(Trim(" csk-1"), KeyPrefix)
  {
    assert " csk-1" == " " + "csk-1" && "csk-1" == "csk-1" + "";
    TrimStartConcat(" ", "csk-1");
    TrimStartBlank(" ");
    TrimEndConcat("csk-1", "");
    assert Trim(" csk-1") == "csk-1";
  }
}
