/**
 * `ProvisioningDaemon` of src/inkycal/provisioning_daemon.py: a state field
 * driven by one handler per provisioning message. Each handler validates its
 * JSON payload, performs its effects and sets the state; no handler looks at
 * the current state first.
 *
 * Effects are recorded in `effects` in the order they are issued: a command
 * passed to `_run`, a write of the `.env` file, a write of the configuration;
 * each is printed instead in dry-run mode and carried out otherwise. A command executed outside
 * dry-run mode fails as the injected `commandSucceeds` says, which stops the
 * handler with a `CalledProcessError`.
 */
module ProvisioningDaemon {
  import opened Wrappers
  import opened Text
  import opened JsonValue
  import EnvFile
  import Sorting

  datatype DaemonState = Idle | WifiConnecting | WifiConnected | IcloudPending | SettingsPending | ApplyingChanges | Done

  /** The state as the source spells it. */
  function StateName(s: DaemonState): (name: string)
    ensures name != ""
  {
    match s
    case Idle => "idle"
    case WifiConnecting => "wifi_connecting"
    case WifiConnected => "wifi_connected"
    case IcloudPending => "icloud_pending"
    case SettingsPending => "settings_pending"
    case ApplyingChanges => "applying_changes"
    case Done => "done"
  }

  /** Distinct states have distinct names. */
  lemma StateNamesDistinct(a: DaemonState, b: DaemonState)
    ensures StateName(a) == StateName(b) <==> a == b
  {
  }

  /**
   * `ProvisioningSettings`. The text fields hold whatever JSON value the
   * payload carried: the source does not check their type.
   */
  datatype ProvisioningSettings = ProvisioningSettings(
    timezone: Json, sleepStart: Json, sleepEnd: Json,
    portraitRotation: int, refreshMinutes: int,
    deepCleanDay: Json, deepCleanTime: Json)

  /** What a handler raises. */
  datatype DaemonError =
    | Invalid(message: string)       // ProvisioningError
    | MissingKey(key: string)        // KeyError from payload[key]
    | NotAnInteger(key: string)      // ValueError or TypeError from int()
    | NotText(key: string)           // AttributeError or TypeError on a value that is not a string
    | CommandFailed(cmd: seq<string>) // CalledProcessError from subprocess.run(check=True)

  datatype Effect = Ran(cmd: seq<string>) | WroteEnv(content: string) | WroteConfig(settings: ProvisioningSettings)

  /** `_parse_json`. */
  function ParseJson(raw: string, decode: JsonDecoder): (r: Result<map<string, Json>, DaemonError>)
    ensures decode(raw).None? ==> r == Err(Invalid("Invalid JSON payload"))
    ensures decode(raw).Some? && !decode(raw).value.Obj? ==> r == Err(Invalid("Payload must be an object"))
    ensures r.Ok? <==> decode(raw).Some? && decode(raw).value.Obj?
    ensures r.Ok? ==> decode(raw) == Some(Obj(r.value))
  {
    match decode(raw)
    case None => Err(Invalid("Invalid JSON payload"))
    case Some(Obj(fields)) => Ok(fields)
    case Some(_) => Err(Invalid("Payload must be an object"))
  }

  /** `payload.get(key, default).strip()`. */
  function StrippedText(payload: map<string, Json>, key: string, default: string): (r: Result<string, DaemonError>)
    ensures key !in payload ==> r == Ok(Strip(default))
    ensures key in payload ==> (r.Ok? <==> payload[key].Str?)
    ensures key in payload && payload[key].Str? ==> r == Ok(Strip(payload[key].s))
    ensures r.Err? ==> r.error == NotText(key)
  {
    match Get(payload, key, Str(default))
    case Str(s) => Ok(Strip(s))
    case _ => Err(NotText(key))
  }

  // ---------------------------------------------------------------- on_wifi_config

  datatype WifiRequest = WifiRequest(ssid: string, password: string, country: string)

  /** The checks of `on_wifi_config`, in the order the source makes them. */
  function ValidateWifi(payload: map<string, Json>): Result<WifiRequest, DaemonError> {
    match StrippedText(payload, "ssid", "")
    case Err(e) => Err(e)
    case Ok(ssid) =>
      var password := Get(payload, "password", Str(""));
      match StrippedText(payload, "country", "US")
      case Err(e) => Err(e)
      case Ok(country) =>
        if ssid == "" then Err(Invalid("Wi-Fi SSID is required"))
        else if !password.Str? then Err(NotText("password"))
        else if |password.s| < 8 then Err(Invalid("Wi-Fi password must be at least 8 chars"))
        else Ok(WifiRequest(ssid, password.s, country))
  }

  /**
   * A request is accepted exactly when the SSID is non-blank text and the
   * password is text of at least 8 characters (and the country, if given, is
   * text); the SSID and country are stripped, the password is kept as sent,
   * and the country defaults to "US".
   */
  lemma ValidateWifiCases(payload: map<string, Json>)
    ensures var r := ValidateWifi(payload);
      var ssid := Get(payload, "ssid", Str(""));
      var password := Get(payload, "password", Str(""));
      var country := Get(payload, "country", Str("US"));
      && (r.Ok? <==> ssid.Str? && country.Str? && Strip(ssid.s) != "" && password.Str? && |password.s| >= 8)
      && (r.Ok? ==> r.value == WifiRequest(Strip(ssid.s), password.s, Strip(country.s)))
      && (ssid.Str? && country.Str? && Strip(ssid.s) == "" ==> r == Err(Invalid("Wi-Fi SSID is required")))
      && (ssid.Str? && country.Str? && Strip(ssid.s) != "" && password.Str? && |password.s| < 8 ==>
            r == Err(Invalid("Wi-Fi password must be at least 8 chars")))
      && ("country" !in payload && r.Ok? ==> r.value.country == "US")
  {
  }

  /** The two `_run` calls of `_configure_wifi`. */
  function WifiCommands(req: WifiRequest): seq<seq<string>> {
    [["nmcli", "radio", "wifi", "on"],
     ["nmcli", "device", "wifi", "connect", req.ssid, "password", req.password, "ifname", "wlan0", "--",
      "wifi-sec.key-mgmt", "wpa-psk", "wifi.country", req.country]]
  }

  // ---------------------------------------------------------------- on_google_oauth_code and on_icloud_config

  /** The checks of `on_google_oauth_code`: both stripped values non-blank. */
  function ValidateOauth(payload: map<string, Json>): (r: Result<(string, string), DaemonError>)
    ensures r.Ok? ==> r.value.0 != "" && r.value.1 != ""
  {
    match StrippedText(payload, "code", "")
    case Err(e) => Err(e)
    case Ok(code) =>
      match StrippedText(payload, "state", "")
      case Err(e) => Err(e)
      case Ok(state) =>
        if code == "" || state == "" then Err(Invalid("Google OAuth code + state are required"))
        else Ok((code, state))
  }

  /** The checks of `on_icloud_config`: both stripped values non-blank. */
  function ValidateIcloud(payload: map<string, Json>): (r: Result<(string, string), DaemonError>)
    ensures r.Ok? ==> r.value.0 != "" && r.value.1 != ""
  {
    match StrippedText(payload, "username", "")
    case Err(e) => Err(e)
    case Ok(username) =>
      match StrippedText(payload, "app_password", "")
      case Err(e) => Err(e)
      case Ok(appPassword) =>
        if username == "" || appPassword == "" then Err(Invalid("iCloud username and app_password are required"))
        else Ok((username, appPassword))
  }

  /**
   * Blank or missing credentials are refused with the handler's message, a
   * value that is not text fails at its `strip()` (the first key first), and
   * accepted credentials are the stripped texts.
   */
  lemma ValidateTextPairCases(payload: map<string, Json>)
    ensures var u := Get(payload, "username", Str(""));
      var p := Get(payload, "app_password", Str(""));
      var r := ValidateIcloud(payload);
      && (r.Ok? <==> u.Str? && p.Str? && Strip(u.s) != "" && Strip(p.s) != "")
      && (r.Ok? ==> r.value == (Strip(u.s), Strip(p.s)))
      && (!u.Str? ==> r == Err(NotText("username")))
      && (u.Str? && !p.Str? ==> r == Err(NotText("app_password")))
      && (u.Str? && p.Str? && (Strip(u.s) == "" || Strip(p.s) == "") ==>
            r == Err(Invalid("iCloud username and app_password are required")))
    ensures var c := Get(payload, "code", Str(""));
      var s := Get(payload, "state", Str(""));
      var r := ValidateOauth(payload);
      && (r.Ok? <==> c.Str? && s.Str? && Strip(c.s) != "" && Strip(s.s) != "")
      && (r.Ok? ==> r.value == (Strip(c.s), Strip(s.s)))
      && (!c.Str? ==> r == Err(NotText("code")))
      && (c.Str? && !s.Str? ==> r == Err(NotText("state")))
      && (c.Str? && s.Str? && (Strip(c.s) == "" || Strip(s.s) == "") ==>
            r == Err(Invalid("Google OAuth code + state are required")))
  {
  }

  /** One `{key}={value}` line of `_write_env`. */
  function PlainLine(k: string, v: string): string {
    k + "=" + v
  }

  /** What `_write_env({"ICAL_USER": ..., "ICAL_PASS": ...})` writes. */
  function IcloudEnvContent(username: string, appPassword: string): string {
    PlainLine("ICAL_USER", username) + "\n" + PlainLine("ICAL_PASS", appPassword) + "\n"
  }

  /** Values the daemon can write and read back: one stripped line, no double quote at either end. */
  predicate Writable(v: string) {
    v != "" && EnvFile.SafeValue(v) && Strip(v) == v
  }

  /**
   * The file holds exactly the two lines, and `_load_env` reads back exactly
   * the keys ICAL_USER and ICAL_PASS with the accepted values.
   */
  lemma IcloudEnvReadsBack(username: string, appPassword: string)
    requires Writable(username) && Writable(appPassword)
    ensures SplitLines(IcloudEnvContent(username, appPassword))
         == [PlainLine("ICAL_USER", username), PlainLine("ICAL_PASS", appPassword)]
    ensures EnvFile.LoadEnvText(Some(IcloudEnvContent(username, appPassword)))
         == map["ICAL_USER" := username, "ICAL_PASS" := appPassword]
  {
    IcalKeysSafe();
    PlainLineParses("ICAL_USER", username);
    PlainLineParses("ICAL_PASS", appPassword);
    LoadTwoLines(PlainLine("ICAL_USER", username), PlainLine("ICAL_PASS", appPassword),
                 ("ICAL_USER", username), ("ICAL_PASS", appPassword));
  }

  /** A file of two newline-terminated entry lines loads as the two entries, the second winning. */
  lemma LoadTwoLines(l1: string, l2: string, a: (string, string), b: (string, string))
    requires HasNoLineBreak(l1) && HasNoLineBreak(l2)
    requires EnvFile.ParseEnvLine(l1) == Some(a) && EnvFile.ParseEnvLine(l2) == Some(b)
    ensures SplitLines(l1 + "\n" + l2 + "\n") == [l1, l2]
    ensures EnvFile.LoadEnvText(Some(l1 + "\n" + l2 + "\n")) == map[a.0 := a.1][b.0 := b.1]
  {
    IcloudEnvLines(l1, l2);
    assert EnvFile.ParseLines([l1, l2]) == [Some(a), Some(b)];
    CollectTwo(a, b);
  }

  lemma IcalKeysSafe()
    ensures EnvFile.SafeKey("ICAL_USER") && "ICAL_USER" != ""
    ensures EnvFile.SafeKey("ICAL_PASS") && "ICAL_PASS" != ""
  {
  }

  lemma CollectTwo(a: (string, string), b: (string, string))
    ensures EnvFile.Collect([Some(a), Some(b)]) == map[a.0 := a.1][b.0 := b.1]
  {
    var two: seq<Option<(string, string)>> := [Some(a), Some(b)];
    assert two[..1] == [Some(a)];
    assert [Some(a)][..0] == [];
    assert EnvFile.Collect([Some(a)]) == map[a.0 := a.1];
    assert EnvFile.Collect(two) == EnvFile.Collect([Some(a)])[b.0 := b.1];
  }

  /** Two lines, each ended by a newline, split back into the two lines. */
  lemma IcloudEnvLines(l1: string, l2: string)
    requires HasNoLineBreak(l1) && HasNoLineBreak(l2)
    ensures SplitLines(l1 + "\n" + l2 + "\n") == [l1, l2]
  {
    SplitLinesCons(l2, "");
    assert l2 + "\n" + "" == l2 + "\n";
    SplitLinesCons(l1, l2 + "\n");
    assert l1 + "\n" + (l2 + "\n") == l1 + "\n" + l2 + "\n";
  }

  /** A `KEY=value` line with a non-empty safe key and a writable value parses back. */
  lemma PlainLineParses(k: string, v: string)
    requires k != "" && EnvFile.SafeKey(k) && Writable(v)
    ensures HasNoLineBreak(PlainLine(k, v))
    ensures EnvFile.ParseEnvLine(PlainLine(k, v)) == Some((k, v))
  {
    PlainLineShape(k, v);
    StripOfTrimmed(k);
    assert EnvFile.TrimLeftQuotes(v) == v;
    assert EnvFile.TrimRightQuotes(v) == v;
  }

  lemma PlainLineShape(k: string, v: string)
    requires k != "" && EnvFile.SafeKey(k) && Writable(v)
    ensures var line := PlainLine(k, v);
      && HasNoLineBreak(line)
      && Strip(line) == line && line != "" && !StartsWith(line, "#") && '=' in line
      && FindChar(line, '=') == |k|
      && line[..|k|] == k && line[|k| + 1..] == v
  {
    var line := PlainLine(k, v);
    assert line == k + ['='] + v;
    forall i | 0 <= i < |line| ensures !IsLineBreak(line[i]) {
      if i < |k| {
        assert line[i] == k[i];
      } else if i > |k| {
        assert line[i] == v[i - |k| - 1];
      }
    }
    assert line[|line| - 1] == v[|v| - 1];
    StripOfTrimmed(line);
    FindCharAfter(k, '=', v);
    assert line[|k|] == '=';
    assert line[..|k|] == k;
    assert line[|k| + 1..] == v;
    assert line[..1] == [k[0]];
  }

  // ---------------------------------------------------------------- on_settings

  /** `payload[key]`. */
  function Required(payload: map<string, Json>, key: string): (r: Result<Json, DaemonError>)
    ensures r.Ok? <==> key in payload
    ensures r.Ok? ==> r.value == payload[key]
  {
    if key in payload then Ok(payload[key]) else Err(MissingKey(key))
  }

  /** `int(payload[key])`. */
  function RequiredInt(payload: map<string, Json>, key: string): (r: Result<int, DaemonError>)
    ensures r.Ok? <==> key in payload && PyInt(payload[key]).Some?
    ensures r.Ok? ==> Some(r.value) == PyInt(payload[key])
  {
    if key !in payload then Err(MissingKey(key))
    else match PyInt(payload[key])
      case None => Err(NotAnInteger(key))
      case Some(n) => Ok(n)
  }

  const SettingsKeys: seq<string> := ["timezone", "sleep_start", "sleep_end", "portrait_rotation",
                                      "refresh_minutes", "deep_clean_day", "deep_clean_time"]

  /** The `ProvisioningSettings(...)` construction of `on_settings`, argument by argument. */
  function ValidateSettings(payload: map<string, Json>): Result<ProvisioningSettings, DaemonError> {
    var timezone := Required(payload, "timezone");
    var sleepStart := Required(payload, "sleep_start");
    var sleepEnd := Required(payload, "sleep_end");
    var rotation := RequiredInt(payload, "portrait_rotation");
    var refresh := RequiredInt(payload, "refresh_minutes");
    var day := Required(payload, "deep_clean_day");
    var time := Required(payload, "deep_clean_time");
    if timezone.Err? then Err(timezone.error)
    else if sleepStart.Err? then Err(sleepStart.error)
    else if sleepEnd.Err? then Err(sleepEnd.error)
    else if rotation.Err? then Err(rotation.error)
    else if refresh.Err? then Err(refresh.error)
    else if day.Err? then Err(day.error)
    else if time.Err? then Err(time.error)
    else Ok(ProvisioningSettings(timezone.value, sleepStart.value, sleepEnd.value,
                                 rotation.value, refresh.value, day.value, time.value))
  }

  /**
   * Settings are accepted exactly when all seven keys are present and the
   * rotation and refresh values convert with `int()`; the accepted record
   * carries the payload's values. A rejection names the first key, in
   * argument order, that is missing or does not convert.
   */
  lemma ValidateSettingsCases(payload: map<string, Json>)
    ensures var r := ValidateSettings(payload);
      && (r.Ok? <==> (forall k :: k in SettingsKeys ==> k in payload)
                     && PyInt(payload["portrait_rotation"]).Some? && PyInt(payload["refresh_minutes"]).Some?)
      && (r.Ok? ==> r.value == ProvisioningSettings(
            payload["timezone"], payload["sleep_start"], payload["sleep_end"],
            PyInt(payload["portrait_rotation"]).value, PyInt(payload["refresh_minutes"]).value,
            payload["deep_clean_day"], payload["deep_clean_time"]))
    ensures var r := ValidateSettings(payload);
      r.Err? ==> exists i :: 0 <= i < |SettingsKeys| && PresentBefore(payload, i) && RejectionAt(r.error, i)
  {
    var r := ValidateSettings(payload);
    if r.Err? {
      var i := if "timezone" !in payload then 0
        else if "sleep_start" !in payload then 1
        else if "sleep_end" !in payload then 2
        else if RequiredInt(payload, "portrait_rotation").Err? then 3
        else if RequiredInt(payload, "refresh_minutes").Err? then 4
        else if "deep_clean_day" !in payload then 5
        else 6;
      assert PresentBefore(payload, i) && RejectionAt(r.error, i);
    }
  }

  /** Every key before position `i` of `SettingsKeys` is present. */
  predicate PresentBefore(payload: map<string, Json>, i: nat)
    requires i < |SettingsKeys|
  {
    forall j :: 0 <= j < i ==> SettingsKeys[j] in payload
  }

  predicate RejectionAt(e: DaemonError, i: nat)
    requires i < |SettingsKeys|
  {
    e == MissingKey(SettingsKeys[i]) || e == NotAnInteger(SettingsKeys[i])
  }

  // ---------------------------------------------------------------- on_apply

  const ApplyCommands: seq<seq<string>> := [
    ["systemctl", "restart", "inkycal.service"],
    ["systemctl", "restart", "inkycal.timer"],
    ["systemctl", "restart", "inkycal-deepclean.timer"]]

  // ---------------------------------------------------------------- commands

  /** Whether `_run(cmd)` raises: only outside dry-run mode, when the command fails. */
  function Fails(dryRun: bool, commandSucceeds: seq<string> -> bool): seq<string> -> bool {
    cmd => !dryRun && !commandSucceeds(cmd)
  }

  /** The effects of running `cmds` one after another until the first one that raises. */
  function Issued(cmds: seq<seq<string>>, failedAt: nat): (effects: seq<Effect>)
    requires failedAt <= |cmds|
    ensures |effects| == if failedAt < |cmds| then failedAt + 1 else |cmds|
    ensures forall i :: 0 <= i < |effects| ==> effects[i] == Ran(cmds[i])
  {
    var n := if failedAt < |cmds| then failedAt + 1 else |cmds|;
    seq(n, i requires 0 <= i < n => Ran(cmds[i]))
  }

  /** In dry-run mode nothing fails, so every command is issued. */
  lemma DryRunIssuesAll(cmds: seq<seq<string>>, commandSucceeds: seq<string> -> bool)
    ensures Sorting.FirstIndex(cmds, Fails(true, commandSucceeds)) == |cmds|
  {
    Sorting.FirstIndexAt(cmds, Fails(true, commandSucceeds), |cmds|);
  }

  class Daemon {
    const dryRun: bool
    const decode: JsonDecoder
    const commandSucceeds: seq<string> -> bool
    var state: DaemonState
    var effects: seq<Effect>

    /** A new daemon is idle and has done nothing. */
    constructor (dryRun: bool, decode: JsonDecoder, commandSucceeds: seq<string> -> bool)
      ensures this.dryRun == dryRun && this.decode == decode && this.commandSucceeds == commandSucceeds
      ensures state == Idle && effects == []
    {
      this.dryRun := dryRun;
      this.decode := decode;
      this.commandSucceeds := commandSucceeds;
      state := Idle;
      effects := [];
    }

    /** `_run` for each command in turn; the index of the one that raised, or `|cmds|`. */
    method RunAll(cmds: seq<seq<string>>) returns (failedAt: nat)
      modifies this`effects
      ensures failedAt == Sorting.FirstIndex(cmds, Fails(dryRun, commandSucceeds))
      ensures effects == old(effects) + Issued(cmds, failedAt)
    {
      for i := 0 to |cmds|
        invariant forall j :: 0 <= j < i ==> !Fails(dryRun, commandSucceeds)(cmds[j])
        invariant effects == old(effects) + Issued(cmds, i)[..i]
      {
        effects := effects + [Ran(cmds[i])];
        assert Issued(cmds, i + 1)[..i + 1] == Issued(cmds, i)[..i] + [Ran(cmds[i])];
        if !dryRun && !commandSucceeds(cmds[i]) {
          Sorting.FirstIndexAt(cmds, Fails(dryRun, commandSucceeds), i);
          assert Issued(cmds, i) == Issued(cmds, i + 1)[..i + 1];
          return i;
        }
      }
      Sorting.FirstIndexAt(cmds, Fails(dryRun, commandSucceeds), |cmds|);
      assert Issued(cmds, |cmds|)[..|cmds|] == Issued(cmds, |cmds|);
      return |cmds|;
    }

    /**
     * `on_wifi_config`: a refused request changes nothing; an accepted one
     * enters "wifi_connecting", issues the two `nmcli` commands and ends in
     * "wifi_connected", unless a command raises, which leaves the daemon in
     * "wifi_connecting".
     */
    method OnWifiConfig(raw: string) returns (r: Result<(), DaemonError>)
      modifies this
      ensures var v := ParseJson(raw, decode);
        var req := if v.Ok? then ValidateWifi(v.value) else Err(v.error);
        && (req.Err? ==> r == Err(req.error) && state == old(state) && effects == old(effects))
        && (req.Ok? ==>
              var cmds := WifiCommands(req.value);
              var k := Sorting.FirstIndex(cmds, Fails(dryRun, commandSucceeds));
              && effects == old(effects) + Issued(cmds, k)
              && (k == |cmds| ==> r == Ok(()) && state == WifiConnected)
              && (k < |cmds| ==> r == Err(CommandFailed(cmds[k])) && state == WifiConnecting))
    {
      var payload := ParseJson(raw, decode);
      if payload.Err? {
        return Err(payload.error);
      }
      var req := ValidateWifi(payload.value);
      if req.Err? {
        return Err(req.error);
      }
      state := WifiConnecting;
      var cmds := WifiCommands(req.value);
      var failedAt := RunAll(cmds);
      if failedAt < |cmds| {
        return Err(CommandFailed(cmds[failedAt]));
      }
      state := WifiConnected;
      return Ok(());
    }

    /** `on_google_oauth_code`: accepted codes move to "icloud_pending" and nothing else happens. */
    method OnGoogleOauthCode(raw: string) returns (r: Result<(), DaemonError>)
      modifies this`state
      ensures var v := ParseJson(raw, decode);
        var req := if v.Ok? then ValidateOauth(v.value) else Err(v.error);
        && (req.Err? ==> r == Err(req.error) && state == old(state))
        && (req.Ok? ==> r == Ok(()) && state == IcloudPending)
    {
      var payload := ParseJson(raw, decode);
      if payload.Err? {
        return Err(payload.error);
      }
      var req := ValidateOauth(payload.value);
      if req.Err? {
        return Err(req.error);
      }
      state := IcloudPending;
      return Ok(());
    }

    /** `on_icloud_config`: accepted credentials are written to the `.env` file, then "settings_pending". */
    method OnIcloudConfig(raw: string) returns (r: Result<(), DaemonError>)
      modifies this
      ensures var v := ParseJson(raw, decode);
        var req := if v.Ok? then ValidateIcloud(v.value) else Err(v.error);
        && (req.Err? ==> r == Err(req.error) && state == old(state) && effects == old(effects))
        && (req.Ok? ==>
              && r == Ok(()) && state == SettingsPending
              && effects == old(effects) + [WroteEnv(IcloudEnvContent(req.value.0, req.value.1))])
    {
      var payload := ParseJson(raw, decode);
      if payload.Err? {
        return Err(payload.error);
      }
      var req := ValidateIcloud(payload.value);
      if req.Err? {
        return Err(req.error);
      }
      var (username, appPassword) := req.value;
      effects := effects + [WroteEnv(IcloudEnvContent(username, appPassword))];
      state := SettingsPending;
      return Ok(());
    }

    /** `on_settings`: accepted settings are written to the configuration, then "applying_changes". */
    method OnSettings(raw: string) returns (r: Result<(), DaemonError>)
      modifies this
      ensures var v := ParseJson(raw, decode);
        var req := if v.Ok? then ValidateSettings(v.value) else Err(v.error);
        && (req.Err? ==> r == Err(req.error) && state == old(state) && effects == old(effects))
        && (req.Ok? ==> r == Ok(()) && state == ApplyingChanges && effects == old(effects) + [WroteConfig(req.value)])
    {
      var payload := ParseJson(raw, decode);
      if payload.Err? {
        return Err(payload.error);
      }
      var settings := ValidateSettings(payload.value);
      if settings.Err? {
        return Err(settings.error);
      }
      effects := effects + [WroteConfig(settings.value)];
      state := ApplyingChanges;
      return Ok(());
    }

    /**
     * `on_apply`: restarts the service and both timers and ends in "done",
     * from whatever state; a command that raises leaves the state as it was.
     */
    method OnApply() returns (r: Result<(), DaemonError>)
      modifies this
      ensures var k := Sorting.FirstIndex(ApplyCommands, Fails(dryRun, commandSucceeds));
        && effects == old(effects) + Issued(ApplyCommands, k)
        && (k == |ApplyCommands| ==> r == Ok(()) && state == Done)
        && (k < |ApplyCommands| ==> r == Err(CommandFailed(ApplyCommands[k])) && state == old(state))
    {
      var failedAt := RunAll(ApplyCommands);
      if failedAt < |ApplyCommands| {
        return Err(CommandFailed(ApplyCommands[failedAt]));
      }
      state := Done;
      return Ok(());
    }
  }
}
