/**
 * `ProvisioningService` and `parse_payload` of src/inkycal/provisioning.py:
 * the helpers a setup transport calls to join Wi-Fi, read and write the
 * `.env` file and merge settings into the YAML configuration.
 *
 * The files are fields of the service: `envFile` is the text of the `.env`
 * file (`None` while it does not exist) and `config` is the mapping the YAML
 * file loads as (`{}` while it does not exist). Commands go to the injected
 * `runner`; `nmcliInstalled` is whether `shutil.which("nmcli")` finds it.
 */
module Provisioning {
  import opened Wrappers
  import opened Text
  import opened JsonValue
  import opened EnvFile
  import Sorting

  /** A `subprocess.CompletedProcess` as the runner reports it. */
  datatype Completed = Completed(returncode: int, stdout: string, stderr: string)

  type CommandRunner = seq<string> -> Completed

  // ---------------------------------------------------------------- update_settings

  const SleepKeys: seq<string> := ["enabled", "start", "end", "banner_text"]
  const DisplayKeys: seq<string> := ["rotate_degrees", "saturation", "border"]

  /** The keys `update_settings` may change at the top level of the configuration. */
  const TopLevelKeys: set<string> := {"timezone", "poll_interval_minutes", "sleep", "display"}

  /**
   * Why `update_settings` raises: `int()` refused the poll interval, or a
   * section to be updated is present but is not a mapping (`TypeError` on
   * item assignment).
   */
  datatype SettingsError = NotAnInteger(key: string) | NotAMapping(key: string)

  /** The entries of `updates` whose keys are listed in `allowed`. */
  function Pick(updates: map<string, Json>, allowed: seq<string>): (r: map<string, Json>)
    ensures forall k :: k in r <==> k in updates && k in allowed
    ensures forall k :: k in r ==> r[k] == updates[k]
  {
    map k | k in updates && k in allowed :: updates[k]
  }

  /**
   * `section = config.setdefault(name, {})`, then the listed keys of
   * `settings[name]` (when that is a dict) are copied into the section.
   */
  function MergeSection(config: map<string, Json>, settings: map<string, Json>,
                        name: string, allowed: seq<string>): Result<map<string, Json>, SettingsError>
  {
    var withDefault := if name in config then config else config[name := Obj(map[])];
    var section := withDefault[name];
    var picked := if name in settings && settings[name].Obj? then Pick(settings[name].fields, allowed) else map[];
    if picked == map[] then Ok(withDefault)
    else if !section.Obj? then Err(NotAMapping(name))
    else Ok(withDefault[name := Obj(section.fields + picked)])
  }

  /** The configuration `update_settings` writes, or why it raises before writing. */
  function MergeSettings(config: map<string, Json>, settings: map<string, Json>): Result<map<string, Json>, SettingsError> {
    var withTimezone := if "timezone" in settings then config["timezone" := settings["timezone"]] else config;
    if "poll_interval_minutes" in settings && PyInt(settings["poll_interval_minutes"]).None? then
      Err(NotAnInteger("poll_interval_minutes"))
    else
      var withPoll := if "poll_interval_minutes" in settings
        then withTimezone["poll_interval_minutes" := Int(PyInt(settings["poll_interval_minutes"]).value)]
        else withTimezone;
      match MergeSection(withPoll, settings, "sleep", SleepKeys)
      case Err(e) => Err(e)
      case Ok(withSleep) => MergeSection(withSleep, settings, "display", DisplayKeys)
  }

  /**
   * A merged section: created empty when absent; when it is a mapping, the
   * allowed updates replace their keys and every other key stays; when it is
   * not a mapping, the merge fails exactly when there is something to copy.
   */
  lemma MergeSectionCases(config: map<string, Json>, settings: map<string, Json>, name: string, allowed: seq<string>)
    ensures var r := MergeSection(config, settings, name, allowed);
      var picked := if name in settings && settings[name].Obj? then Pick(settings[name].fields, allowed) else map[];
      && (r.Err? <==> name in config && !config[name].Obj? && picked != map[])
      && (r.Ok? ==>
            && name in r.value
            && (forall k :: k in r.value <==> k in config || k == name)
            && (forall k :: k in config && k != name ==> r.value[k] == config[k])
            && (name !in config ==> r.value[name] == Obj(picked))
            && (name in config && config[name].Obj? ==> r.value[name] == Obj(config[name].fields + picked))
            && (name in config && !config[name].Obj? ==> r.value[name] == config[name]))
  {
    var picked := if name in settings && settings[name].Obj? then Pick(settings[name].fields, allowed) else map[];
    if name !in config {
      assert map[] + picked == picked;
    } else if config[name].Obj? && picked == map[] {
      assert config[name].fields + picked == config[name].fields;
    }
  }

  /**
   * `update_settings` touches only `timezone`, `poll_interval_minutes`,
   * `sleep` and `display`; every other top-level key keeps its value, the two
   * sections always exist afterwards, and the scalar settings take the given
   * values.
   */
  lemma MergeSettingsPreserves(config: map<string, Json>, settings: map<string, Json>)
    requires MergeSettings(config, settings).Ok?
    ensures var c := MergeSettings(config, settings).value;
      && (forall k :: k in c <==> k in config || k == "sleep" || k == "display"
                                  || (k == "timezone" && k in settings) || (k == "poll_interval_minutes" && k in settings))
      && (forall k :: k in config && k !in TopLevelKeys ==> c[k] == config[k])
      && "sleep" in c && "display" in c
      && ("timezone" in settings ==> c["timezone"] == settings["timezone"])
      && ("timezone" !in settings && "timezone" in config ==> c["timezone"] == config["timezone"])
      && ("poll_interval_minutes" in settings ==>
            c["poll_interval_minutes"] == Int(PyInt(settings["poll_interval_minutes"]).value))
  {
    var withTimezone := if "timezone" in settings then config["timezone" := settings["timezone"]] else config;
    if "poll_interval_minutes" !in settings || PyInt(settings["poll_interval_minutes"]).Some? {
      var withPoll := if "poll_interval_minutes" in settings
        then withTimezone["poll_interval_minutes" := Int(PyInt(settings["poll_interval_minutes"]).value)]
        else withTimezone;
      MergeSectionCases(withPoll, settings, "sleep", SleepKeys);
      var withSleep := MergeSection(withPoll, settings, "sleep", SleepKeys).value;
      MergeSectionCases(withSleep, settings, "display", DisplayKeys);
    }
  }

  /** The two ways `update_settings` can fail. */
  lemma MergeSettingsErrors(config: map<string, Json>, settings: map<string, Json>)
    ensures MergeSettings(config, settings) == Err(NotAnInteger("poll_interval_minutes")) <==>
      "poll_interval_minutes" in settings && PyInt(settings["poll_interval_minutes"]).None?
    ensures MergeSettings(config, settings).Err? && MergeSettings(config, settings).error.NotAMapping? ==>
      MergeSettings(config, settings).error.key in {"sleep", "display"}
      && MergeSettings(config, settings).error.key in config
      && !config[MergeSettings(config, settings).error.key].Obj?
  {
    var withTimezone := if "timezone" in settings then config["timezone" := settings["timezone"]] else config;
    if "poll_interval_minutes" !in settings || PyInt(settings["poll_interval_minutes"]).Some? {
      var withPoll := if "poll_interval_minutes" in settings
        then withTimezone["poll_interval_minutes" := Int(PyInt(settings["poll_interval_minutes"]).value)]
        else withTimezone;
      MergeSectionCases(withPoll, settings, "sleep", SleepKeys);
      if MergeSection(withPoll, settings, "sleep", SleepKeys).Ok? {
        MergeSectionCases(MergeSection(withPoll, settings, "sleep", SleepKeys).value, settings, "display", DisplayKeys);
      }
    }
  }

  // ---------------------------------------------------------------- set_wifi and _get_wifi_status

  /** The `nmcli` command `set_wifi` runs; the password pair only for a non-empty password. */
  function ConnectCommand(ssid: string, password: string): seq<string> {
    ["nmcli", "device", "wifi", "connect", ssid] + (if password != "" then ["password", password] else [])
  }

  lemma ConnectCommandShape(ssid: string, password: string)
    ensures var cmd := ConnectCommand(ssid, password);
      && cmd[..4] == ["nmcli", "device", "wifi", "connect"] && cmd[4] == ssid
      && (password == "" <==> |cmd| == 5)
      && (password != "" ==> |cmd| == 7 && cmd[5] == "password" && cmd[6] == password)
  {
  }

  /** What `set_wifi` returns when it does not raise. */
  datatype WifiConnectResult = NmcliNotInstalled | Attempted(connected: bool, stdout: string, stderr: string)

  /** `_get_wifi_status`. */
  datatype NmcliStatus = NmcliMissing | QueryFailed(error: string) | Active(ssid: string) | Inactive

  const StatusQuery: seq<string> := ["nmcli", "-t", "-f", "active,ssid", "dev", "wifi"]

  predicate IsActiveLine(line: string) {
    StartsWith(line, "yes:")
  }

  /** `line.split(":", 1)[1]`: the text after the first colon. */
  function AfterFirstColon(line: string): string {
    var i := FindChar(line, ':');
    if i == |line| then "" else line[i + 1..]
  }

  /** The parse of the `nmcli -t -f active,ssid dev wifi` result. */
  function StatusFromNmcli(result: Completed): NmcliStatus {
    if result.returncode != 0 then QueryFailed(Strip(result.stderr))
    else
      var lines := SplitLines(result.stdout);
      var i := Sorting.FirstIndex(lines, IsActiveLine);
      if i == |lines| then Inactive else Active(AfterFirstColon(lines[i]))
  }

  lemma ActiveLineSplits(line: string)
    requires IsActiveLine(line)
    ensures line == "yes:" + AfterFirstColon(line)
  {
    assert line[..4] == "yes:";
    assert FindChar(line, ':') == 3 by {
      assert line[0] != ':' && line[1] != ':' && line[2] != ':' && line[3] == ':';
    }
    assert line == line[..4] + line[4..];
  }

  /**
   * A failed query reports its stripped error output; otherwise the first
   * line starting "yes:" names the connected network, and without such a
   * line nothing is connected.
   */
  lemma StatusFromNmcliCases(result: Completed)
    ensures var r := StatusFromNmcli(result);
      var lines := SplitLines(result.stdout);
      && (result.returncode != 0 <==> r.QueryFailed?)
      && (r.QueryFailed? ==> r.error == Strip(result.stderr))
      && (result.returncode == 0 ==> (r.Inactive? <==> forall line :: line in lines ==> !StartsWith(line, "yes:")))
      && (r.Active? ==> exists i :: 0 <= i < |lines| && lines[i] == "yes:" + r.ssid
                          && forall j :: 0 <= j < i ==> !StartsWith(lines[j], "yes:"))
  {
    var lines := SplitLines(result.stdout);
    Sorting.FirstIndexNone(lines, IsActiveLine);
    var i := Sorting.FirstIndex(lines, IsActiveLine);
    if result.returncode == 0 && i < |lines| {
      ActiveLineSplits(lines[i]);
    }
  }

  // ---------------------------------------------------------------- parse_payload

  /** Why `parse_payload` raises `ValueError`. */
  datatype PayloadError = InvalidJson | NotAnObject

  /** `parse_payload`: the decoded object, or the reason it is refused. */
  function ParsePayload(payload: string, decode: JsonDecoder): (r: Result<map<string, Json>, PayloadError>)
    ensures decode(payload).None? <==> r == Err(InvalidJson)
    ensures r == Err(NotAnObject) <==> decode(payload).Some? && !decode(payload).value.Obj?
    ensures r.Ok? <==> decode(payload).Some? && decode(payload).value.Obj?
    ensures r.Ok? ==> decode(payload) == Some(Obj(r.value))
  {
    match decode(payload)
    case None => Err(InvalidJson)
    case Some(Obj(fields)) => Ok(fields)
    case Some(_) => Err(NotAnObject)
  }

  // ---------------------------------------------------------------- credentials, status and apply

  /** `bool(env.get(key))`: the key is set to a non-empty value. */
  predicate Has(env: map<string, string>, key: string) {
    key in env && env[key] != ""
  }

  /** The `.env` updates `set_icloud_credentials` writes. */
  function IcloudUpdates(username: string, appPassword: string): map<string, string> {
    map["ICLOUD_USERNAME" := Strip(username), "ICLOUD_APP_PASSWORD" := Strip(appPassword)]
  }

  /** An argument `set_google_oauth_paths` takes into account: given and non-empty. */
  predicate Given(path: Option<string>) {
    path.Some? && path.value != ""
  }

  /** The `.env` updates `set_google_oauth_paths` collects. */
  function GoogleUpdates(credentialsJson: Option<string>, tokenJson: Option<string>): (r: map<string, string>)
    ensures "GOOGLE_CREDENTIALS_JSON" in r <==> Given(credentialsJson)
    ensures "GOOGLE_TOKEN_JSON" in r <==> Given(tokenJson)
    ensures Given(credentialsJson) ==> r["GOOGLE_CREDENTIALS_JSON"] == credentialsJson.value
    ensures Given(tokenJson) ==> r["GOOGLE_TOKEN_JSON"] == tokenJson.value
    ensures r == map[] <==> !Given(credentialsJson) && !Given(tokenJson)
    ensures forall k :: k in r ==> k == "GOOGLE_CREDENTIALS_JSON" || k == "GOOGLE_TOKEN_JSON"
  {
    var withCredentials := if Given(credentialsJson) then map["GOOGLE_CREDENTIALS_JSON" := credentialsJson.value] else map[];
    if Given(tokenJson) then withCredentials["GOOGLE_TOKEN_JSON" := tokenJson.value] else withCredentials
  }

  /** A non-empty name of capital letters and underscores is a safe `.env` key. */
  predicate ConstantName(k: string) {
    k != [] && forall i :: 0 <= i < |k| ==> ('A' <= k[i] <= 'Z' || k[i] == '_')
  }

  lemma ConstantNameSafe(k: string)
    requires ConstantName(k)
    ensures SafeKey(k)
  {
    assert k[0] in k && k[|k| - 1] in k;
  }

  lemma CredentialKeysSafe()
    ensures SafeKey("ICLOUD_USERNAME") && SafeKey("ICLOUD_APP_PASSWORD")
    ensures SafeKey("GOOGLE_CREDENTIALS_JSON") && SafeKey("GOOGLE_TOKEN_JSON")
  {
    ConstantNameSafe("ICLOUD_USERNAME");
    ConstantNameSafe("ICLOUD_APP_PASSWORD");
    ConstantNameSafe("GOOGLE_CREDENTIALS_JSON");
    ConstantNameSafe("GOOGLE_TOKEN_JSON");
  }

  /** Updates under safe keys with safe values are safe. */
  lemma IcloudUpdatesSafe(username: string, appPassword: string)
    requires SafeValue(Strip(username)) && SafeValue(Strip(appPassword))
    ensures SafeEnv(IcloudUpdates(username, appPassword))
  {
    CredentialKeysSafe();
  }

  lemma GoogleUpdatesSafe(credentialsJson: Option<string>, tokenJson: Option<string>)
    requires Given(credentialsJson) ==> SafeValue(credentialsJson.value)
    requires Given(tokenJson) ==> SafeValue(tokenJson.value)
    ensures SafeEnv(GoogleUpdates(credentialsJson, tokenJson))
  {
    CredentialKeysSafe();
  }

  /** After a merge, an updated key is set exactly when its new value is non-empty. */
  lemma HasAfterUpdate(env: map<string, string>, updates: map<string, string>, key: string)
    requires key in updates
    ensures Has(env + updates, key) <==> updates[key] != ""
  {
  }

  /** What `get_status` reports. */
  datatype ServiceStatus = ServiceStatus(wifi: NmcliStatus, config: map<string, Json>,
                                         hasIcloudUsername: bool, hasIcloudAppPassword: bool,
                                         hasGoogleCredentialsPath: bool, hasGoogleTokenPath: bool)

  /** What `apply` returns. */
  datatype ApplyResult = NotRestarted | SystemctlMissing | Restarted(restarted: bool, stdout: string, stderr: string)

  const RestartCommand: seq<string> := ["systemctl", "restart", "inkycal.timer", "inkycal-deepclean.timer"]

  // ---------------------------------------------------------------- the service

  class ProvisioningService {
    const runner: CommandRunner
    const nmcliInstalled: bool
    var envFile: Option<string>
    var config: map<string, Json>

    constructor (runner: CommandRunner, nmcliInstalled: bool, envFile: Option<string>, config: map<string, Json>)
      ensures this.runner == runner && this.nmcliInstalled == nmcliInstalled
      ensures this.envFile == envFile && this.config == config
    {
      this.runner := runner;
      this.nmcliInstalled := nmcliInstalled;
      this.envFile := envFile;
      this.config := config;
    }

    /**
     * `set_wifi`: a blank SSID is refused (`ValueError`); without `nmcli`
     * nothing runs; otherwise the connect command for the stripped SSID runs
     * and success is a zero return code.
     */
    method SetWifi(ssid: string, password: string) returns (r: Result<WifiConnectResult, string>)
      ensures r.Err? <==> Strip(ssid) == ""
      ensures Strip(ssid) != "" && !nmcliInstalled ==> r == Ok(NmcliNotInstalled)
      ensures Strip(ssid) != "" && nmcliInstalled ==>
        var result := runner(ConnectCommand(Strip(ssid), password));
        r == Ok(Attempted(result.returncode == 0, Strip(result.stdout), Strip(result.stderr)))
    {
      var name := Strip(ssid);
      if name == "" {
        return Err("Wi-Fi SSID is required.");
      }
      if !nmcliInstalled {
        return Ok(NmcliNotInstalled);
      }
      var cmd := ["nmcli", "device", "wifi", "connect", name];
      if password != "" {
        cmd := cmd + ["password", password];
      }
      assert cmd == ConnectCommand(name, password);
      var result := runner(cmd);
      var ok := result.returncode == 0;
      return Ok(Attempted(ok, Strip(result.stdout), Strip(result.stderr)));
    }

    /** `_get_wifi_status`. */
    function WifiStatus(): (r: NmcliStatus)
      ensures !nmcliInstalled <==> r == NmcliMissing
      ensures nmcliInstalled ==> r == StatusFromNmcli(runner(StatusQuery))
    {
      if !nmcliInstalled then NmcliMissing else StatusFromNmcli(runner(StatusQuery))
    }

    /** `_load_env`: the lines of the file, parsed one after another into a map. */
    method LoadEnv() returns (values: map<string, string>)
      ensures values == LoadEnvText(envFile)
    {
      values := map[];
      if envFile.None? {
        return;
      }
      var lines := SplitLines(envFile.value);
      for i := 0 to |lines|
        invariant values == Collect(ParseLines(lines[..i]))
      {
        CollectParseStep(lines, i);
        var line := Strip(lines[i]);
        if line == "" || StartsWith(line, "#") || '=' !in line {
          continue;
        }
        var j := FindChar(line, '=');
        var key, value := line[..j], line[j + 1..];
        values := values[Strip(key) := StripQuotes(Strip(value))];
      }
      assert lines[..|lines|] == lines;
    }

    /**
     * `_update_env`: the loaded map updated with `updates` is written back,
     * one `key="value"` line per key in key order, newline-terminated.
     */
    method UpdateEnv(updates: map<string, string>)
      modifies this`envFile
      ensures envFile == Some(RenderEnv(LoadEnvText(old(envFile)) + updates))
      ensures SafeEnv(updates) ==> LoadEnvText(envFile) == LoadEnvText(old(envFile)) + updates
    {
      var env := LoadEnv();
      env := env + updates;
      var keys := SortedKeys(env.Keys);
      var lines := RenderLines(keys, env);
      envFile := Some(JoinOn(lines, '\n') + "\n");
      if SafeEnv(updates) {
        UpdateEnvRoundTrip(old(envFile), updates);
      }
    }

    /**
     * `update_settings`: on success the merged configuration is written; on
     * failure nothing is.
     */
    method UpdateSettings(settings: map<string, Json>) returns (r: Result<(), SettingsError>)
      modifies this`config
      ensures MergeSettings(old(config), settings).Ok? ==>
        r == Ok(()) && config == MergeSettings(old(config), settings).value
      ensures MergeSettings(old(config), settings).Err? ==>
        r == Err(MergeSettings(old(config), settings).error) && config == old(config)
    {
      var c := config;
      if "timezone" in settings {
        c := c["timezone" := settings["timezone"]];
      }
      if "poll_interval_minutes" in settings {
        var minutes := PyInt(settings["poll_interval_minutes"]);
        if minutes.None? {
          return Err(NotAnInteger("poll_interval_minutes"));
        }
        c := c["poll_interval_minutes" := Int(minutes.value)];
      }
      var withSleep := SetDefaultAndCopy(c, settings, "sleep", SleepKeys);
      if withSleep.Err? {
        return Err(withSleep.error);
      }
      var withDisplay := SetDefaultAndCopy(withSleep.value, settings, "display", DisplayKeys);
      if withDisplay.Err? {
        return Err(withDisplay.error);
      }
      config := withDisplay.value;
      return Ok(());
    }

    /** The `setdefault` and copy loop for one section. */
    static method SetDefaultAndCopy(c: map<string, Json>, settings: map<string, Json>, name: string, keys: seq<string>)
      returns (r: Result<map<string, Json>, SettingsError>)
      ensures r == MergeSection(c, settings, name, keys)
    {
      var withDefault := c;
      if name !in withDefault {
        withDefault := withDefault[name := Obj(map[])];
      }
      var section := withDefault[name];
      if !(name in settings && settings[name].Obj?) {
        return Ok(withDefault);
      }
      var updates := settings[name].fields;
      for i := 0 to |keys|
        invariant section.Obj? ==> withDefault[name].Obj? && section == Obj(withDefault[name].fields + Pick(updates, keys[..i]))
        invariant !section.Obj? ==> section == withDefault[name] && Pick(updates, keys[..i]) == map[]
      {
        assert keys[..i + 1] == keys[..i] + [keys[i]];
        if keys[i] in updates {
          if !section.Obj? {
            assert keys[i] in Pick(updates, keys);
            return Err(NotAMapping(name));
          }
          section := Obj(section.fields[keys[i] := updates[keys[i]]]);
          assert Pick(updates, keys[..i + 1]) == Pick(updates, keys[..i])[keys[i] := updates[keys[i]]];
        } else {
          assert Pick(updates, keys[..i + 1]) == Pick(updates, keys[..i]);
        }
      }
      assert keys[..|keys|] == keys;
      if Pick(updates, keys) == map[] {
        if section.Obj? {
          assert withDefault[name].fields + map[] == withDefault[name].fields;
        }
        assert section == withDefault[name];
        assert withDefault[name := section] == withDefault;
      }
      return Ok(withDefault[name := section]);
    }

    /**
     * `get_status`: the Wi-Fi query, the loaded configuration and which
     * credentials the `.env` file sets; a missing file sets none.
     */
    function GetStatus(): (r: ServiceStatus)
      reads this
      ensures r.wifi == WifiStatus() && r.config == config
      ensures envFile.None? ==>
        !r.hasIcloudUsername && !r.hasIcloudAppPassword && !r.hasGoogleCredentialsPath && !r.hasGoogleTokenPath
    {
      var env := LoadEnvText(envFile);
      ServiceStatus(WifiStatus(), config, Has(env, "ICLOUD_USERNAME"), Has(env, "ICLOUD_APP_PASSWORD"),
                    Has(env, "GOOGLE_CREDENTIALS_JSON"), Has(env, "GOOGLE_TOKEN_JSON"))
    }

    /**
     * `set_icloud_credentials`: the stripped pair is merged into the `.env`
     * file; when it reads back, the status reports each credential exactly
     * when it is non-blank.
     */
    method SetIcloudCredentials(username: string, appPassword: string)
      modifies this`envFile
      ensures envFile == Some(RenderEnv(LoadEnvText(old(envFile)) + IcloudUpdates(username, appPassword)))
      ensures SafeValue(Strip(username)) && SafeValue(Strip(appPassword)) ==>
        && LoadEnvText(envFile) == LoadEnvText(old(envFile)) + IcloudUpdates(username, appPassword)
        && (GetStatus().hasIcloudUsername <==> Strip(username) != "")
        && (GetStatus().hasIcloudAppPassword <==> Strip(appPassword) != "")
    {
      var updates := IcloudUpdates(username, appPassword);
      var before := LoadEnvText(envFile);
      if SafeValue(Strip(username)) && SafeValue(Strip(appPassword)) {
        IcloudUpdatesSafe(username, appPassword);
      }
      UpdateEnv(updates);
      HasAfterUpdate(before, updates, "ICLOUD_USERNAME");
      HasAfterUpdate(before, updates, "ICLOUD_APP_PASSWORD");
    }

    /**
     * `set_google_oauth_paths`: the given non-empty paths are merged into the
     * `.env` file, and without any the file is not touched.
     */
    method SetGoogleOauthPaths(credentialsJson: Option<string>, tokenJson: Option<string>)
      modifies this`envFile
      ensures GoogleUpdates(credentialsJson, tokenJson) == map[] ==> envFile == old(envFile)
      ensures GoogleUpdates(credentialsJson, tokenJson) != map[] ==>
        envFile == Some(RenderEnv(LoadEnvText(old(envFile)) + GoogleUpdates(credentialsJson, tokenJson)))
      ensures (Given(credentialsJson) ==> SafeValue(credentialsJson.value)) && (Given(tokenJson) ==> SafeValue(tokenJson.value)) ==>
        && LoadEnvText(envFile) == LoadEnvText(old(envFile)) + GoogleUpdates(credentialsJson, tokenJson)
        && (Given(credentialsJson) ==> GetStatus().hasGoogleCredentialsPath)
        && (Given(tokenJson) ==> GetStatus().hasGoogleTokenPath)
    {
      var updates := GoogleUpdates(credentialsJson, tokenJson);
      var before := LoadEnvText(envFile);
      if updates != map[] {
        if (Given(credentialsJson) ==> SafeValue(credentialsJson.value)) && (Given(tokenJson) ==> SafeValue(tokenJson.value)) {
          GoogleUpdatesSafe(credentialsJson, tokenJson);
        }
        UpdateEnv(updates);
        if Given(credentialsJson) {
          HasAfterUpdate(before, updates, "GOOGLE_CREDENTIALS_JSON");
        }
        if Given(tokenJson) {
          HasAfterUpdate(before, updates, "GOOGLE_TOKEN_JSON");
        }
      } else {
        assert LoadEnvText(envFile) + updates == LoadEnvText(envFile);
      }
    }

    /**
     * `apply`: nothing when no restart is asked for or `systemctl` is
     * missing; otherwise one `systemctl restart` of both timers, reported as
     * restarted exactly when it exits with 0.
     */
    method Apply(restartService: bool, systemctlAvailable: bool) returns (r: ApplyResult)
      ensures r == NotRestarted <==> !restartService
      ensures r == SystemctlMissing <==> restartService && !systemctlAvailable
      ensures r.Restarted? ==> (r.restarted <==> runner(RestartCommand).returncode == 0)
      ensures r.Restarted? ==> r.stdout == Strip(runner(RestartCommand).stdout) && r.stderr == Strip(runner(RestartCommand).stderr)
    {
      if !restartService {
        return NotRestarted;
      }
      if !systemctlAvailable {
        return SystemctlMissing;
      }
      var result := runner(RestartCommand);
      return Restarted(result.returncode == 0, Strip(result.stdout), Strip(result.stderr));
    }
  }
}
