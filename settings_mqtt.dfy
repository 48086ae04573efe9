/**
 * The MQTT settings widget blueprint (www/routes/widgets/settings_mqtt.py): its
 * own copy of the settings reader, the settings page, and the save and test
 * endpoints that normalise the request body before calling the shell library.
 *
 * As written, both endpoints hand `json.dumps(config)` to the library, and no
 * `config` is defined in either of them, so the library is never called; the
 * `...Intended` members model the endpoints with the normalised `settings`
 * dict sent instead.
 */
module SettingsMqtt {
  import opened Values
  import opened PyRuntime
  import RoutesMqtt
  import Numbers

  /**
   * `get_mqtt_settings`: the widget's own reader of the exported settings, with
   * the same defaults and the same fallback record as the blueprint's reader.
   */
  function GetMqttSettings(run: Run): (c: RoutesMqtt.Config)
    ensures c == RoutesMqtt.GetMqttConfig(run)
    ensures RoutesMqtt.ExportedDict(run).None? ==> c == RoutesMqtt.Defaults
  {
    if run.Completed? && run.returncode == 0 then
      match run.stdout
      case Parsed(JObj(m)) =>
        RoutesMqtt.Config(PyGet(m, "mqtt_enabled", JBool(false)), PyGet(m, "mqtt_broker", JStr("")),
                          PyGet(m, "mqtt_port", JInt(1883)), PyGet(m, "mqtt_user", JStr("")),
                          PyGet(m, "mqtt_password", JStr("")))
      case _ => RoutesMqtt.Defaults
    else RoutesMqtt.Defaults
  }

  /** `api_mqtt_settings_widget`: the page is rendered from the settings just read. */
  function ApiMqttSettingsWidget(run: Run): (p: RoutesMqtt.SettingsPage)
    ensures p.Rendered? && p.settings == RoutesMqtt.GetMqttConfig(run)
  {
    RoutesMqtt.Rendered(GetMqttSettings(run))
  }

  // ----- Saving ---------------------------------------------------------------

  /** The settings dict `api_mqtt_save` builds: the port has been through `int()`. */
  datatype SaveSettings = SaveSettings(enabled: Json, broker: Json, port: int, user: Json, password: Json)

  /**
   * Lines 97-101 of the save handler, in Python's evaluation order: the first
   * `data.get` raises AttributeError when the body is not a dict, and `int()`
   * raises on a port it cannot convert.
   */
  function NormaliseSave(data: Json): (o: Outcome<SaveSettings>)
    ensures !data.JObj? ==> o == Raise(AttributeError(TypeName(data), "get"))
    ensures data.JObj? ==>
      (o.Ok? <==> PyInt(PyGet(data.members, "mqtt_port", JInt(1883))).Ok?)
    ensures data.JObj? && o.Raise? ==> o.error == PyInt(PyGet(data.members, "mqtt_port", JInt(1883))).error
    ensures o.Ok? ==>
      o.value.port == PyInt(PyGet(data.members, "mqtt_port", JInt(1883))).value &&
      o.value.enabled == PyGet(data.members, "mqtt_enabled", JBool(false)) &&
      o.value.broker == PyGet(data.members, "mqtt_broker", JStr("")) &&
      o.value.user == PyGet(data.members, "mqtt_user", JStr("")) &&
      o.value.password == PyGet(data.members, "mqtt_password", JStr(""))
  {
    match DictGet(data, "mqtt_enabled", JBool(false))
    case Raise(e) => Raise(e)
    case Ok(enabled) =>
      var broker := PyGet(data.members, "mqtt_broker", JStr(""));
      match PyInt(PyGet(data.members, "mqtt_port", JInt(1883)))
      case Raise(e) => Raise(e)
      case Ok(port) =>
        Ok(SaveSettings(enabled, broker, port, PyGet(data.members, "mqtt_user", JStr("")),
                        PyGet(data.members, "mqtt_password", JStr(""))))
  }

  /** An empty body takes every default: disabled, no broker, port 1883, no credentials. */
  lemma NormaliseSaveDefaults()
    ensures NormaliseSave(JObj([])) == Ok(SaveSettings(JBool(false), JStr(""), 1883, JStr(""), JStr("")))
  {
  }

  /** A record of the five settings with an integer port passes the normalisation unchanged. */
  lemma NormaliseSaveRoundTrip(c: RoutesMqtt.Config)
    requires c.port.JInt?
    ensures NormaliseSave(RoutesMqtt.ConfigJson(c))
         == Ok(SaveSettings(c.enabled, c.broker, c.port.i, c.user, c.password))
  {
    var j := RoutesMqtt.ConfigJson(c);
    assert Lookup(j.members, "mqtt_enabled") == Some(c.enabled) by { assert "mqtt_enabled" in RoutesMqtt.ConfigKeys; }
    assert Lookup(j.members, "mqtt_broker") == Some(c.broker) by { assert "mqtt_broker" in RoutesMqtt.ConfigKeys; }
    assert Lookup(j.members, "mqtt_port") == Some(c.port) by { assert "mqtt_port" in RoutesMqtt.ConfigKeys; }
    assert Lookup(j.members, "mqtt_user") == Some(c.user) by { assert "mqtt_user" in RoutesMqtt.ConfigKeys; }
    assert Lookup(j.members, "mqtt_password") == Some(c.password) by { assert "mqtt_password" in RoutesMqtt.ConfigKeys; }
  }

  /** A port the handler cannot convert is reported as a failed save with status 500. */
  lemma NormaliseSaveBadPort(m: Members, port: string, i: int)
    requires Lookup(m, "mqtt_port") == Some(JStr(port))
    requires 0 <= i < |port| && Numbers.IsStray(port[i])
    ensures NormaliseSave(JObj(m)) == Raise(ValueError("invalid literal for int() with base 10: '" + port + "'"))
    ensures ApiMqttSave(Body(JObj(m)))
         == FailureReply(Str(ValueError("invalid literal for int() with base 10: '" + port + "'")), 500)
  {
    assert PyGet(m, "mqtt_port", JInt(1883)) == JStr(port);
    PyIntRejectsText(port, i);
  }

  /** The settings dict as `json.dumps` would write it. */
  function SaveSettingsJson(s: SaveSettings): (j: Json)
    ensures j.JObj? && Keys(j.members) == RoutesMqtt.ConfigKeys
    ensures Lookup(j.members, "mqtt_enabled") == Some(s.enabled)
    ensures Lookup(j.members, "mqtt_broker") == Some(s.broker)
    ensures Lookup(j.members, "mqtt_port") == Some(JInt(s.port))
    ensures Lookup(j.members, "mqtt_user") == Some(s.user)
    ensures Lookup(j.members, "mqtt_password") == Some(s.password)
  {
    var keys := RoutesMqtt.ConfigKeys;
    assert keys[0] == "mqtt_enabled" && keys[1] == "mqtt_broker" && keys[2] == "mqtt_port";
    assert keys[3] == "mqtt_user" && keys[4] == "mqtt_password";
    RoutesMqtt.ConfigJson(RoutesMqtt.Config(s.enabled, s.broker, JInt(s.port), s.user, s.password))
  }

  /** `json.dumps(config)` as written: `config` is not defined in the handler. */
  function SaveStdin(s: SaveSettings): (o: Outcome<Json>)
    ensures o == Raise(NameError("config"))
  {
    Raise(NameError("config"))
  }

  /** The intended standard input: the normalised settings. */
  function SaveStdinIntended(s: SaveSettings): (o: Outcome<Json>)
    ensures o.Ok? && o.value.JObj? && Keys(o.value.members) == RoutesMqtt.ConfigKeys
    ensures Lookup(o.value.members, "mqtt_enabled") == Some(s.enabled)
    ensures Lookup(o.value.members, "mqtt_broker") == Some(s.broker)
    ensures Lookup(o.value.members, "mqtt_port") == Some(JInt(s.port))
    ensures Lookup(o.value.members, "mqtt_user") == Some(s.user)
    ensures Lookup(o.value.members, "mqtt_password") == Some(s.password)
  {
    Ok(SaveSettingsJson(s))
  }

  /** The reply to a library call that returned, or the 500 for one that raised. */
  function SaveReply(run: Run): (r: Reply)
    ensures r.JsonReply?
    ensures r.status == 200 <==> run.Completed? && run.returncode == 0
    ensures r.status == 200 ==>
      Property(r.body, "success") == Some(JBool(true)) &&
      Property(r.body, "message") == Some(JStr("MQTT-Konfiguration gespeichert")) &&
      Property(r.body, "restart_required") == Some(JBool(true))
    ensures run.Completed? && run.returncode != 0 ==> r == FailureReply(run.stderr, 500)
    ensures run.Raised? ==> r == FailureReply(Str(run.error), 500)
  {
    match run
    case Completed(code, _, stderr) =>
      if code == 0 then
        var members := [("success", JBool(true)), ("message", JStr("MQTT-Konfiguration gespeichert")),
                        ("restart_required", JBool(true))];
        LookupAt(members, 0);
        LookupAt(members, 1);
        LookupAt(members, 2);
        JsonReply(JObj(members), 200)
      else FailureReply(stderr, 500)
    case Raised(e) => FailureReply(Str(e), 500)
  }

  /**
   * `api_mqtt_save` as written. Every path ends in the `except` branch: an
   * unreadable body, a body that is not a dict, a port `int()` rejects, and
   * otherwise the NameError for `config`. The library is never called.
   */
  function ApiMqttSave(request: Request): (r: Reply)
    ensures r.JsonReply? && r.status == 500
    ensures Property(r.body, "success") == Some(JBool(false))
    ensures request.Body? && NormaliseSave(request.data).Ok? ==>
      r == FailureReply(Str(NameError("config")), 500)
    ensures request.Body? && NormaliseSave(request.data).Raise? ==>
      r == FailureReply(Str(NormaliseSave(request.data).error), 500)
    ensures request.Unreadable? ==> r == FailureReply(request.message, 500)
  {
    match GetJson(request)
    case Raise(e) => FailureReply(Str(e), 500)
    case Ok(data) =>
      match NormaliseSave(data)
      case Raise(e) => FailureReply(Str(e), 500)
      case Ok(settings) =>
        // the arguments of the library call are evaluated first, and one of them raises
        FailureReply(Str(SaveStdin(settings).error), 500)
  }

  /**
   * `api_mqtt_save` with the normalised settings sent to the library: the
   * library's exit status decides the reply once the body is normalised.
   */
  function ApiMqttSaveIntended(request: Request, run: Run): (r: Reply)
    ensures r.JsonReply? && r.status in {200, 500}
    ensures r.status == 200 <==>
      request.Body? && NormaliseSave(request.data).Ok? && run.Completed? && run.returncode == 0
    ensures request.Body? && NormaliseSave(request.data).Ok? ==> r == SaveReply(run)
    ensures request.Body? && NormaliseSave(request.data).Raise? ==>
      r == FailureReply(Str(NormaliseSave(request.data).error), 500)
  {
    match GetJson(request)
    case Raise(e) => FailureReply(Str(e), 500)
    case Ok(data) =>
      match NormaliseSave(data)
      case Raise(e) => FailureReply(Str(e), 500)
      case Ok(settings) =>
        match SaveStdinIntended(settings)
        case Raise(e) => FailureReply(Str(e), 500)
        case Ok(_) => SaveReply(run)
  }

  /**
   * The saved form is rejected: a well-formed save body that the intended
   * handler stores with a 200 gets a 500 from the handler as written.
   */
  lemma SaveRejectsWellFormedBody(stderr: string)
    ensures ApiMqttSaveIntended(Body(RoutesMqtt.ConfigJson(RoutesMqtt.Defaults)), Completed(0, Unparsable(""), stderr)).status == 200
    ensures ApiMqttSave(Body(RoutesMqtt.ConfigJson(RoutesMqtt.Defaults))).status == 500
  {
    NormaliseSaveRoundTrip(RoutesMqtt.Defaults);
  }

  // ----- Connection test ------------------------------------------------------

  /** The settings dict `api_mqtt_test` builds; its keys carry no `mqtt_` prefix. */
  datatype TestSettings = TestSettings(broker: Json, port: int, user: Json, password: Json)

  /** Lines 150-155 of the test handler, in Python's evaluation order. */
  function NormaliseTest(data: Json): (o: Outcome<TestSettings>)
    ensures !data.JObj? ==> o == Raise(AttributeError(TypeName(data), "get"))
    ensures data.JObj? ==> (o.Ok? <==> PyInt(PyGet(data.members, "port", JInt(1883))).Ok?)
    ensures data.JObj? && o.Raise? ==> o.error == PyInt(PyGet(data.members, "port", JInt(1883))).error
    ensures o.Ok? ==>
      o.value.port == PyInt(PyGet(data.members, "port", JInt(1883))).value &&
      o.value.broker == PyGet(data.members, "broker", JStr("")) &&
      o.value.user == PyGet(data.members, "user", JStr("")) &&
      o.value.password == PyGet(data.members, "password", JStr(""))
  {
    match DictGet(data, "broker", JStr(""))
    case Raise(e) => Raise(e)
    case Ok(broker) =>
      match PyInt(PyGet(data.members, "port", JInt(1883)))
      case Raise(e) => Raise(e)
      case Ok(port) =>
        Ok(TestSettings(broker, port, PyGet(data.members, "user", JStr("")),
                        PyGet(data.members, "password", JStr(""))))
  }

  /** An empty test body takes the defaults: no broker, port 1883, no credentials. */
  lemma NormaliseTestDefaults()
    ensures NormaliseTest(JObj([])) == Ok(TestSettings(JStr(""), 1883, JStr(""), JStr("")))
  {
  }

  /** A port sent as JSON null (what the browser sends for NaN) makes `int()` raise TypeError. */
  lemma NormaliseTestNullPort(m: Members)
    requires Lookup(m, "port") == Some(JNull)
    ensures NormaliseTest(JObj(m)).Raise? && NormaliseTest(JObj(m)).error.TypeError?
  {
  }

  /** `json.dumps(config)` as written: `config` is not defined in the handler either. */
  function TestStdin(s: TestSettings): (o: Outcome<Json>)
    ensures o == Raise(NameError("config"))
  {
    Raise(NameError("config"))
  }

  /** The intended standard input: the four normalised test settings. */
  function TestStdinIntended(s: TestSettings): (o: Outcome<Json>)
    ensures o.Ok? && o.value.JObj?
    ensures Lookup(o.value.members, "broker") == Some(s.broker)
    ensures Lookup(o.value.members, "port") == Some(JInt(s.port))
    ensures Lookup(o.value.members, "user") == Some(s.user)
    ensures Lookup(o.value.members, "password") == Some(s.password)
    ensures Keys(o.value.members) == ["broker", "port", "user", "password"]
  {
    var members := [("broker", s.broker), ("port", JInt(s.port)), ("user", s.user), ("password", s.password)];
    KeysWithoutDuplicates(members);
    assert Names(members) == ["broker", "port", "user", "password"];
    LookupAt(members, 0);
    LookupAt(members, 1);
    LookupAt(members, 2);
    LookupAt(members, 3);
    Ok(JObj(members))
  }

  /**
   * The reply to a finished test: a failed test is still answered with 200 and
   * carries the library's standard error, or a fixed text when that is empty.
   */
  function TestReply(run: Run): (r: Reply)
    ensures r.JsonReply?
    ensures r.status == 200 <==> run.Completed?
    ensures run.Completed? && run.returncode == 0 ==>
      Property(r.body, "success") == Some(JBool(true)) &&
      Property(r.body, "message") == Some(JStr("Verbindung erfolgreich"))
    ensures run.Completed? && run.returncode != 0 ==>
      r == FailureReply(if run.stderr != "" then run.stderr else "Verbindung fehlgeschlagen", 200)
    ensures run.Raised? ==> r == FailureReply(Str(run.error), 500)
  {
    match run
    case Completed(code, _, stderr) =>
      if code == 0 then
        var members := [("success", JBool(true)), ("message", JStr("Verbindung erfolgreich"))];
        LookupAt(members, 0);
        LookupAt(members, 1);
        JsonReply(JObj(members), 200)
      else FailureReply(if stderr != "" then stderr else "Verbindung fehlgeschlagen", 200)
    case Raised(e) => FailureReply(Str(e), 500)
  }

  /** `api_mqtt_test` as written: like the save handler, every request gets a 500. */
  function ApiMqttTest(request: Request): (r: Reply)
    ensures r.JsonReply? && r.status == 500
    ensures Property(r.body, "success") == Some(JBool(false))
    ensures request.Body? && NormaliseTest(request.data).Ok? ==>
      r == FailureReply(Str(NameError("config")), 500)
    ensures request.Body? && NormaliseTest(request.data).Raise? ==>
      r == FailureReply(Str(NormaliseTest(request.data).error), 500)
    ensures request.Unreadable? ==> r == FailureReply(request.message, 500)
  {
    match GetJson(request)
    case Raise(e) => FailureReply(Str(e), 500)
    case Ok(data) =>
      match NormaliseTest(data)
      case Raise(e) => FailureReply(Str(e), 500)
      case Ok(settings) =>
        // the arguments of the library call are evaluated first, and one of them raises
        FailureReply(Str(TestStdin(settings).error), 500)
  }

  /** `api_mqtt_test` with the normalised settings sent to the library. */
  function ApiMqttTestIntended(request: Request, run: Run): (r: Reply)
    ensures r.JsonReply? && r.status in {200, 500}
    ensures r.status == 200 <==> request.Body? && NormaliseTest(request.data).Ok? && run.Completed?
    ensures request.Body? && NormaliseTest(request.data).Ok? ==> r == TestReply(run)
    ensures request.Body? && NormaliseTest(request.data).Raise? ==>
      r == FailureReply(Str(NormaliseTest(request.data).error), 500)
  {
    match GetJson(request)
    case Raise(e) => FailureReply(Str(e), 500)
    case Ok(data) =>
      match NormaliseTest(data)
      case Raise(e) => FailureReply(Str(e), 500)
      case Ok(settings) =>
        match TestStdinIntended(settings)
        case Raise(e) => FailureReply(Str(e), 500)
        case Ok(_) => TestReply(run)
  }

  /** A well-formed test body that the intended handler answers with 200 gets a 500 as written. */
  lemma TestRejectsWellFormedBody(stderr: string)
    ensures ApiMqttTestIntended(Body(JObj([])), Completed(1, Unparsable(""), stderr)).status == 200
    ensures ApiMqttTest(Body(JObj([]))).status == 500
  {
    NormaliseTestDefaults();
  }
}
