/**
 * The MQTT blueprint (www/routes/routes_mqtt.py): reading the MQTT settings
 * exported by the shell library, the service status derived from them, and the
 * test and save endpoints that relay a request to the library and its answer
 * back to the browser.
 */
module RoutesMqtt {
  import opened Values
  import opened PyRuntime

  /** The five MQTT settings, as whatever JSON values the library exported. */
  datatype Config = Config(enabled: Json, broker: Json, port: Json, user: Json, password: Json)

  const ConfigKeys: seq<string> := ["mqtt_enabled", "mqtt_broker", "mqtt_port", "mqtt_user", "mqtt_password"]

  /** The record used whenever the export cannot be read. */
  const Defaults: Config := Config(JBool(false), JStr(""), JInt(1883), JStr(""), JStr(""))

  /** The setting stored under one of the five keys. */
  function Field(c: Config, key: string): Json
    requires key in ConfigKeys
  {
    if key == "mqtt_enabled" then c.enabled
    else if key == "mqtt_broker" then c.broker
    else if key == "mqtt_port" then c.port
    else if key == "mqtt_user" then c.user
    else c.password
  }

  /** The record as the dict the route returns: the five keys and nothing else. */
  function ConfigJson(c: Config): (j: Json)
    ensures j.JObj? && Keys(j.members) == ConfigKeys
    ensures forall k :: k in ConfigKeys ==> Lookup(j.members, k) == Some(Field(c, k))
  {
    var members := [("mqtt_enabled", c.enabled), ("mqtt_broker", c.broker), ("mqtt_port", c.port),
                    ("mqtt_user", c.user), ("mqtt_password", c.password)];
    KeysWithoutDuplicates(members);
    assert Names(members) == ConfigKeys;
    forall i | 0 <= i < 5
      ensures Lookup(members, ConfigKeys[i]) == Some(Field(c, ConfigKeys[i]))
    {
      LookupAt(members, i);
    }
    JObj(members)
  }

  /** The exported dict, when `export-config` exited with 0 and printed a JSON object. */
  function ExportedDict(run: Run): Option<Members>
  {
    if run.Completed? && run.returncode == 0 && run.stdout.Parsed? && run.stdout.value.JObj?
    then Some(run.stdout.value.members)
    else None
  }

  /**
   * `get_mqtt_config`: the five settings read with their defaults from the
   * exported dict. A nonzero exit status, output that is not JSON, a JSON value
   * that is not a dict, a timeout or a failure to start all give `Defaults`.
   */
  function GetMqttConfig(run: Run): (c: Config)
    ensures ExportedDict(run).None? ==> c == Defaults
  {
    if run.Completed? && run.returncode == 0 then
      match run.stdout
      case Parsed(JObj(m)) =>
        Config(PyGet(m, "mqtt_enabled", JBool(false)), PyGet(m, "mqtt_broker", JStr("")),
               PyGet(m, "mqtt_port", JInt(1883)), PyGet(m, "mqtt_user", JStr("")),
               PyGet(m, "mqtt_password", JStr("")))
      case _ => Defaults
    else Defaults
  }

  /** Each exported key is copied as it is; each missing one takes its default. */
  lemma GetMqttConfigReadsEachKey(run: Run, key: string)
    requires ExportedDict(run).Some? && key in ConfigKeys
    ensures Lookup(ExportedDict(run).value, key).Some? ==>
              Field(GetMqttConfig(run), key) == Lookup(ExportedDict(run).value, key).value
    ensures Lookup(ExportedDict(run).value, key).None? ==>
              Field(GetMqttConfig(run), key) == Field(Defaults, key)
  {
  }

  /** Keys other than the five are dropped: adding one to the export changes nothing. */
  lemma GetMqttConfigIgnoresOtherKeys(m: Members, key: string, value: Json, stderr: string)
    requires key !in ConfigKeys
    ensures GetMqttConfig(Completed(0, Parsed(JObj(m + [(key, value)])), stderr))
         == GetMqttConfig(Completed(0, Parsed(JObj(m)), stderr))
  {
    forall k | k in ConfigKeys
      ensures Lookup(m + [(key, value)], k) == Lookup(m, k)
    {
      LookupAppend(m, key, value, k);
    }
  }

  /** `get_settings`, the legacy name the routes call. */
  function GetSettings(run: Run): (c: Config)
    ensures c == GetMqttConfig(run)
  {
    GetMqttConfig(run)
  }

  /** The status dict handed to the status widget template. */
  datatype WidgetStatus = WidgetStatus(status: string, running: bool)

  /** `api_mqtt_widget`: the service counts as running exactly when MQTT is enabled. */
  function ApiMqttWidget(run: Run): (s: WidgetStatus)
    ensures s == WidgetStatus("active", true) || s == WidgetStatus("inactive", false)
    ensures s.running <==> PyTruthy(GetSettings(run).enabled)
  {
    if PyTruthy(GetSettings(run).enabled) then WidgetStatus("active", true)
    else WidgetStatus("inactive", false)
  }

  /** A settings page: rendered from a settings record, or failed with an exception. */
  datatype SettingsPage = Rendered(settings: Config) | RenderFailed(error: PyException)

  /**
   * `api_mqtt_settings_widget` as written: it loads the settings into `settings`
   * and then passes the undefined name `config` to the template, so every request
   * raises NameError, whatever the library returned.
   */
  function ApiMqttSettingsWidget(run: Run): (p: SettingsPage)
    ensures p == RenderFailed(NameError("config"))
  {
    var settings := GetSettings(run);
    RenderFailed(NameError("config"))
  }

  /** The route as evidently intended: the page is rendered from the loaded settings. */
  function ApiMqttSettingsWidgetIntended(run: Run): (p: SettingsPage)
    ensures p.Rendered?
    ensures ExportedDict(run).None? ==> p.settings == Defaults
    ensures p.settings == GetMqttConfig(run)
  {
    Rendered(GetSettings(run))
  }

  /**
   * Even the default settings, read when the export fails, never reach the page:
   * the route as written fails where the intended one renders them.
   */
  lemma SettingsPageFailsOnDefaults(stderr: string)
    ensures ApiMqttSettingsWidgetIntended(Completed(1, Unparsable(""), stderr)) == Rendered(Defaults)
    ensures ApiMqttSettingsWidget(Completed(1, Unparsable(""), stderr)) == RenderFailed(NameError("config"))
  {
  }

  /**
   * The shared shape of `api_mqtt_test` and `api_mqtt_save`: read the request,
   * hand it to the library, and pass the library's JSON answer through unchanged,
   * whatever its exit status. Output that is not JSON gives 500, a timeout 408,
   * and any other exception 500 with its text.
   */
  function RelayToLibrary(request: Request, run: Run, invalidOutput: string, timedOut: string): (r: Reply)
    ensures r.JsonReply? && r.status in {200, 408, 500}
    ensures r.status == 200 <==> request.Body? && run.Completed? && run.stdout.Parsed?
    ensures r.status == 200 ==> r.body == run.stdout.value
    ensures r.status == 408 <==> request.Body? && run.Raised? && run.error.TimeoutExpired?
    ensures r.status == 408 ==> r == FailureReply(timedOut, 408)
    ensures request.Body? && run.Completed? && run.stdout.Unparsable? ==> r == FailureReply(invalidOutput, 500)
    ensures request.Body? && run.Raised? && !run.error.TimeoutExpired? ==> r == FailureReply(Str(run.error), 500)
    ensures request.Unreadable? ==> r == FailureReply(request.message, 500)
  {
    match GetJson(request)
    case Raise(e) => FailureReply(Str(e), 500)
    case Ok(data) =>
      match run
      case Raised(TimeoutExpired(_)) => FailureReply(timedOut, 408)
      case Raised(e) => FailureReply(Str(e), 500)
      case Completed(_, Parsed(response), _) => JsonReply(response, 200)
      case Completed(_, Unparsable(_), _) => FailureReply(invalidOutput, 500)
  }

  /** `api_mqtt_test`: the connection test, relayed to `libmqtt.sh test-connection`. */
  function ApiMqttTest(request: Request, run: Run): (r: Reply)
    ensures r.JsonReply? && r.status in {200, 408, 500}
    ensures r.status == 200 <==> request.Body? && run.Completed? && run.stdout.Parsed?
    ensures r.status == 200 ==> r.body == run.stdout.value
    ensures request.Body? && run.Completed? && run.stdout.Unparsable? ==> r == FailureReply("Ung\U{C3}\U{BC}ltige Response vom MQTT-Test", 500)
    ensures request.Body? && run.Raised? && run.error.TimeoutExpired? ==> r == FailureReply("Verbindungs-Timeout (5s)", 408)
    ensures request.Body? && run.Raised? && !run.error.TimeoutExpired? ==> r == FailureReply(Str(run.error), 500)
    ensures request.Unreadable? ==> r == FailureReply(request.message, 500)
  {
    RelayToLibrary(request, run, "Ung\U{C3}\U{BC}ltige Response vom MQTT-Test", "Verbindungs-Timeout (5s)")
  }

  /** `api_mqtt_save`: the auto-save, relayed to `libmqtt.sh update-config`. */
  function ApiMqttSave(request: Request, run: Run): (r: Reply)
    ensures r.JsonReply? && r.status in {200, 408, 500}
    ensures r.status == 200 <==> request.Body? && run.Completed? && run.stdout.Parsed?
    ensures r.status == 200 ==> r.body == run.stdout.value
    ensures request.Body? && run.Completed? && run.stdout.Unparsable? ==> r == FailureReply("Ung\U{C3}\U{BC}ltige Response vom Config-Update", 500)
    ensures request.Body? && run.Raised? && run.error.TimeoutExpired? ==> r == FailureReply("Timeout beim Speichern", 408)
    ensures request.Body? && run.Raised? && !run.error.TimeoutExpired? ==> r == FailureReply(Str(run.error), 500)
    ensures request.Unreadable? ==> r == FailureReply(request.message, 500)
  {
    RelayToLibrary(request, run, "Ung\U{C3}\U{BC}ltige Response vom Config-Update", "Timeout beim Speichern")
  }

  /** The members of the dict `api_mqtt_status` builds from a settings record, in order. */
  function StatusMembers(settings: Config): (m: Members)
    ensures |m| == 5
    ensures m[0] == ("enabled", settings.enabled) && m[1] == ("broker", settings.broker)
    ensures m[2] == ("port", settings.port) && m[3] == ("authenticated", JBool(PyTruthy(settings.user)))
    ensures m[4] == ("status", JStr(if PyTruthy(settings.enabled) then "active" else "inactive"))
  {
    [("enabled", settings.enabled),
     ("broker", settings.broker),
     ("port", settings.port),
     ("authenticated", JBool(PyTruthy(settings.user))),
     ("status", JStr(if PyTruthy(settings.enabled) then "active" else "inactive"))]
  }

  /** The dict `api_mqtt_status` builds: each entry readable, and no `running` entry. */
  function StatusBody(settings: Config): (j: Json)
    ensures Property(j, "enabled") == Some(settings.enabled)
    ensures Property(j, "broker") == Some(settings.broker)
    ensures Property(j, "port") == Some(settings.port)
    ensures Property(j, "authenticated") == Some(JBool(PyTruthy(settings.user)))
    ensures Property(j, "status") == Some(JStr(if PyTruthy(settings.enabled) then "active" else "inactive"))
  {
    var members := StatusMembers(settings);
    LookupAt(members, 0);
    LookupAt(members, 1);
    LookupAt(members, 2);
    LookupAt(members, 3);
    LookupAt(members, 4);
    JObj(members)
  }

  /** The status dict has no `running` entry. */
  lemma StatusBodyHasNoRunning(settings: Config)
    ensures Property(StatusBody(settings), "running").None?
  {
    var members := StatusMembers(settings);
    forall i | 0 <= i < |members|
      ensures members[i].0 != "running"
    {
      assert i == 0 || i == 1 || i == 2 || i == 3 || i == 4;
    }
    LookupAbsent(members, "running");
  }

  /**
   * `api_mqtt_status`: the enabled flag, broker and port as stored, whether a user
   * name is set, and "active" exactly when MQTT is enabled.
   */
  function ApiMqttStatus(run: Run): (r: Reply)
    ensures r.JsonReply? && r.status == 200
    ensures Property(r.body, "enabled") == Some(GetSettings(run).enabled)
    ensures Property(r.body, "broker") == Some(GetSettings(run).broker)
    ensures Property(r.body, "port") == Some(GetSettings(run).port)
    ensures Property(r.body, "authenticated") == Some(JBool(PyTruthy(GetSettings(run).user)))
    ensures Property(r.body, "status") == Some(JStr(ApiMqttWidget(run).status))
    ensures Property(r.body, "running").None?
  {
    StatusBodyHasNoRunning(GetSettings(run));
    JsonReply(StatusBody(GetSettings(run)), 200)
  }


  /** When the export cannot be read, the status reports a disabled, unauthenticated service on port 1883. */
  lemma StatusWithoutExport(run: Run)
    requires ExportedDict(run).None?
    ensures Property(ApiMqttStatus(run).body, "enabled") == Some(JBool(false))
    ensures Property(ApiMqttStatus(run).body, "broker") == Some(JStr(""))
    ensures Property(ApiMqttStatus(run).body, "port") == Some(JInt(1883))
    ensures Property(ApiMqttStatus(run).body, "authenticated") == Some(JBool(false))
    ensures Property(ApiMqttStatus(run).body, "status") == Some(JStr("inactive"))
  {
  }
}
