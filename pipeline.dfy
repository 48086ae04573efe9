/**
 * The browser scripts and the Flask handlers put together: what a form, a
 * table or a card shows once a handler's reply has travelled back through
 * `fetch` and `response.json()`.
 */
module Pipeline {
  import opened Values
  import opened PyRuntime
  import opened Browser
  import RoutesMqtt
  import SettingsMqtt
  import StatusMqtt
  import DependenciesMqtt
  import SettingsWidget
  import StatusWidget
  import DependenciesWidget

  /**
   * A handler's reply as the browser script sees it: a JSON reply is parsed
   * whatever its status code; an uncaught exception becomes Flask's HTML error
   * page, on which `response.json()` throws with the engine's `errorPage` message.
   */
  function ReplyToBrowser(r: Reply, errorPage: string): (h: HttpReply)
    ensures r.JsonReply? ==> h == Answered(r.body)
    ensures r.Uncaught? ==> h == NoAnswer(errorPage)
  {
    match r
    case JsonReply(body, _) => Answered(body)
    case Uncaught(_) => NoAnswer(errorPage)
  }

  /** The record a save posts, with its `int()`-converted port, as the save handler normalises it. */
  function Received(r: SettingsWidget.SaveRecord): SettingsMqtt.SaveSettings
  {
    SettingsMqtt.SaveSettings(JBool(r.enabled), JStr(r.broker), r.port, JStr(r.user), JStr(r.password))
  }

  /** Every save body the settings form posts passes the handler's normalisation unchanged. */
  lemma SaveBodyNormalises(f: SettingsWidget.Form)
    ensures SettingsMqtt.NormaliseSave(SettingsWidget.SaveBody(SettingsWidget.CollectMqttConfig(f)))
         == Ok(Received(SettingsWidget.CollectMqttConfig(f)))
  {
    var r := SettingsWidget.CollectMqttConfig(f);
    var body := SettingsWidget.SaveBody(r);
    assert PyGet(body.members, "mqtt_port", JInt(1883)) == JInt(r.port);
    assert PyGet(body.members, "mqtt_enabled", JBool(false)) == JBool(r.enabled);
  }

  /**
   * With the save handler as written, every auto-save of the form ends in
   * "Fehler beim Speichern": the handler answers 500 with `success: false`.
   */
  lemma AsWrittenAutoSaveFails(f: SettingsWidget.Form, errorPage: string)
    ensures SettingsWidget.SaveOutcomeOf(ReplyToBrowser(SettingsMqtt.ApiMqttSave(
              Body(SettingsWidget.SaveBody(SettingsWidget.CollectMqttConfig(f)))), errorPage))
         == SettingsWidget.SaveFailed
  {
    var r := SettingsMqtt.ApiMqttSave(Body(SettingsWidget.SaveBody(SettingsWidget.CollectMqttConfig(f))));
    assert Property(r.body, "success") == Some(JBool(false));
  }

  /**
   * With the intended save handler, an auto-save is reported saved, with the
   * restart notice, exactly when the library exits with status 0.
   */
  lemma IntendedAutoSaveOutcome(f: SettingsWidget.Form, run: Run, errorPage: string)
    ensures var o := SettingsWidget.SaveOutcomeOf(ReplyToBrowser(SettingsMqtt.ApiMqttSaveIntended(
              Body(SettingsWidget.SaveBody(SettingsWidget.CollectMqttConfig(f))), run), errorPage));
      (o == SettingsWidget.Saved(true) <==> run.Completed? && run.returncode == 0) &&
      (o != SettingsWidget.Saved(true) ==> o == SettingsWidget.SaveFailed)
  {
    SaveBodyNormalises(f);
    var r := SettingsMqtt.ApiMqttSaveIntended(Body(SettingsWidget.SaveBody(SettingsWidget.CollectMqttConfig(f))), run);
    assert r == SettingsMqtt.SaveReply(run);
    if !(run.Completed? && run.returncode == 0) {
      assert Property(r.body, "success") == Some(JBool(false));
    }
  }

  /**
   * A connection test from a form whose port field does not start with a
   * number: the browser sends `port: null` and even the intended test handler
   * answers 500, shown as a failed connection with `int()`'s TypeError text.
   */
  lemma TestWithoutPortFails(f: SettingsWidget.Form, run: Run, errorPage: string)
    requires SettingsWidget.TestPayload(f).port.None?
    ensures var body := SettingsWidget.TestBody(SettingsWidget.TestPayload(f));
      var reply := SettingsMqtt.ApiMqttTestIntended(Body(body), run);
      reply.status == 500 &&
      SettingsWidget.TestResultOf(ReplyToBrowser(reply, errorPage)).1 == "badge error" &&
      SettingsWidget.TestResultOf(ReplyToBrowser(reply, errorPage)).0 ==
        "\U{274C} Verbindung fehlgeschlagen: " + Str(SettingsMqtt.NormaliseTest(body).error)
  {
    var body := SettingsWidget.TestBody(SettingsWidget.TestPayload(f));
    SettingsMqtt.NormaliseTestNullPort(body.members);
    var reply := SettingsMqtt.ApiMqttTestIntended(Body(body), run);
    assert Property(reply.body, "success") == Some(JBool(false));
    assert Property(reply.body, "error") == Some(JStr(Str(SettingsMqtt.NormaliseTest(body).error)));
  }

  /** A tool the server keeps is never the publisher the client looks for. */
  lemma KeptToolIsNotThePublisher(t: Json)
    requires DependenciesMqtt.Kept(t)
    ensures t != JNull && !DependenciesWidget.Matches(t, "mosquitto_pub")
  {
    assert "mosquitto_pub" !in DependenciesMqtt.MqttTools;
  }

  /**
   * The server keeps only the names on its own list and the client looks only
   * for `mosquitto_pub`, which is not on it: the dependencies table shows the
   * placeholder row whenever the server answers, and the error row otherwise.
   */
  lemma DependenciesTableNeverListsATool(run: Run, now: string, html: string,
                                         render: (string, Json) -> string, errorPage: string)
    ensures var reply := DependenciesMqtt.DependenciesReply(run, now);
      DependenciesWidget.LoadSpec(Some(html), ReplyToBrowser(reply, errorPage), render)
      == if reply.JsonReply? then Some(DependenciesWidget.PlaceholderRow) else Some(DependenciesWidget.ErrorRow)
  {
    var reply := DependenciesMqtt.DependenciesReply(run, now);
    if reply.JsonReply? {
      var software := Property(reply.body, "software").value;
      forall i | 0 <= i < |software.items|
        ensures software.items[i] != JNull && !DependenciesWidget.Matches(software.items[i], "mosquitto_pub")
      {
        KeptToolIsNotThePublisher(software.items[i]);
      }
      DependenciesWidget.RowsOfClientTools(software, render);
      assert DependenciesWidget.ReadsSoftware(reply.body);
    }
  }

  /** The status dict of the widget route as the object the status card is updated with. */
  function WidgetStatusJson(s: RoutesMqtt.WidgetStatus): (j: Json)
    ensures Property(j, "status") == Some(JStr(s.status))
    ensures Property(j, "running") == Some(JBool(s.running))
  {
    var members := [("status", JStr(s.status)), ("running", JBool(s.running))];
    LookupAt(members, 0);
    LookupAt(members, 1);
    JObj(members)
  }

  /**
   * Updating a complete card with the widget route's status shows Running and
   * an Active badge exactly when MQTT is enabled, and Stopped and Inactive
   * otherwise.
   */
  lemma CardFollowsEnabledSetting(run: Run, now: string, c: StatusWidget.Card)
    requires c.widgetPresent && c.indicator.Some? && c.statusText.Some? && c.badge.Some?
    ensures var r := StatusWidget.UpdateSpec(c, WidgetStatusJson(RoutesMqtt.ApiMqttWidget(run)), now);
      var enabled := PyTruthy(RoutesMqtt.GetSettings(run).enabled);
      (r.statusText == Some("Running") <==> enabled) &&
      (r.badge == Some(StatusWidget.Badge("badge success", "Active")) <==> enabled) &&
      (r.badge == Some(StatusWidget.Badge("badge warning", "Inactive")) <==> !enabled) &&
      (r.indicator == Some("status-indicator running") <==> enabled)
  {
    var s := RoutesMqtt.ApiMqttWidget(run);
    var j := WidgetStatusJson(s);
    assert JsTruthy(Property(j, "running")) == s.running;
  }

  /**
   * The status route's fallbacks on the card: a failed status call reads
   * Not Installed and an exception reads Error.
   */
  lemma CardOnStatusFallbacks(code: int, stdout: Stdout, stderr: string, e: PyException, now: string)
    requires code != 0
    ensures StatusWidget.BadgeFor(Property(StatusMqtt.ApiMqttStatus(Completed(code, stdout, stderr), now).body, "status"))
         == StatusWidget.Badge("badge warning", "Not Installed")
    ensures StatusWidget.BadgeFor(Property(StatusMqtt.ApiMqttStatus(Raised(e), now).body, "status"))
         == StatusWidget.Badge("badge error", "Error")
  {
    StatusMqtt.ReplyOnNonzeroExit(code, stdout, stderr, now);
    StatusMqtt.ReplyOnException(e, now);
  }

  /**
   * With the relaying save route, an auto-save is reported saved exactly when
   * the library printed JSON whose `success` is truthy, and as a connection
   * error when it printed `null`.
   */
  lemma RelayedAutoSaveOutcome(f: SettingsWidget.Form, run: Run, errorPage: string)
    ensures var o := SettingsWidget.SaveOutcomeOf(ReplyToBrowser(RoutesMqtt.ApiMqttSave(
              Body(SettingsWidget.SaveBody(SettingsWidget.CollectMqttConfig(f))), run), errorPage));
      (o.Saved? <==> run.Completed? && run.stdout.Parsed? && JsTruthy(Property(run.stdout.value, "success"))) &&
      (o.ConnectionError? <==> run.Completed? && run.stdout == Parsed(JNull))
  {
    var r := RoutesMqtt.ApiMqttSave(Body(SettingsWidget.SaveBody(SettingsWidget.CollectMqttConfig(f))), run);
    if r.status != 200 {
      assert Property(r.body, "success") == Some(JBool(false));
    }
  }

  /**
   * The status route's reply has no `running` field: a card updated with it
   * reads Stopped, even beside an Active badge.
   */
  lemma CardFromStatusRouteReadsStopped(run: Run, now: string, c: StatusWidget.Card)
    requires c.widgetPresent && c.statusText.Some? && c.badge.Some?
    ensures var r := StatusWidget.UpdateSpec(c, RoutesMqtt.ApiMqttStatus(run).body, now);
      r.statusText == Some("Stopped") &&
      (r.badge == Some(StatusWidget.Badge("badge success", "Active")) <==> PyTruthy(RoutesMqtt.GetSettings(run).enabled))
  {
  }
}
