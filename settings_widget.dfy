/**
 * The MQTT settings widget in the browser (www/static/js/widgets/settings_4x7_mqtt.js):
 * the records sent to the save and test endpoints, the save indicator, the
 * auto-save and the handlers that trigger it, the connection test button, and
 * the password reveal toggle with its auto-hide timer.
 *
 * Timers are pending counters or handles with an explicit `Fire...` method;
 * a reply from the server is an input of the method that handles it.
 */
module SettingsWidget {
  import opened Values
  import opened Numbers
  import opened Browser

  // ----- The records sent to the server ----------------------------------------

  /** The values of the form's inputs: the two checkboxes and the four text fields. */
  datatype Form = Form(enabled: bool, authEnabled: bool, broker: string, port: string, user: string, password: string)

  /** The record `collectMqttConfig` builds for the save endpoint. */
  datatype SaveRecord = SaveRecord(enabled: bool, broker: string, port: int, user: string, password: string)

  /** `parseInt(field) || 1883`: NaN and 0 are both falsy and give the default port. */
  function PortOr1883(field: string): (port: int)
    ensures port != 0
    ensures ParseInt(field).Some? && ParseInt(field).value != 0 ==> port == ParseInt(field).value
    ensures ParseInt(field).None? || ParseInt(field) == Some(0) ==> port == 1883
  {
    match ParseInt(field)
    case Some(n) => if n != 0 then n else 1883
    case None => 1883
  }

  /** An empty port field gives the default port. */
  lemma PortOfEmptyField()
    ensures PortOr1883("") == 1883
  {
    ParseIntNeedsADigit("");
  }

  /** A port field holding "0" gives the default port too, since 0 is falsy. */
  lemma PortOfZero()
    ensures PortOr1883("0") == 1883
  {
    ParseIntDecimal(0, "");
    assert Decimal(0) + "" == "0";
  }

  /** Text after the digits is ignored: "8883abc", say, is port 8883. */
  lemma PortWithTrailingText(n: nat, rest: string)
    requires n != 0
    requires rest == [] || !IsDecimalDigit(rest[0])
    ensures PortOr1883(Decimal(n) + rest) == n
  {
    ParseIntDecimal(n, rest);
  }

  /** Every nonzero number typed in decimal is kept as it is, negative ones included. */
  lemma PortOfDecimal(n: nat)
    requires n != 0
    ensures PortOr1883(Decimal(n)) == n
    ensures PortOr1883("-" + Decimal(n)) == -(n as int)
  {
    ParseIntDecimal(n, "");
    assert Decimal(n) + "" == Decimal(n);
    ParseIntNegativeDecimal(n);
  }

  /**
   * `collectMqttConfig`: the checkbox and the broker are copied, the port goes
   * through `PortOr1883`, and the credentials are sent only when authentication
   * is switched on.
   */
  function CollectMqttConfig(f: Form): (r: SaveRecord)
    ensures r.enabled == f.enabled && r.broker == f.broker
    ensures r.port == PortOr1883(f.port) && r.port != 0
    ensures f.authEnabled ==> r.user == f.user && r.password == f.password
    ensures !f.authEnabled ==> r.user == "" && r.password == ""
  {
    SaveRecord(f.enabled, f.broker, PortOr1883(f.port),
               if f.authEnabled then f.user else "",
               if f.authEnabled then f.password else "")
  }

  /** The record `testMqttConnection` builds; its port is NaN (`None`) when nothing parses. */
  datatype TestRecord = TestRecord(broker: string, port: Option<int>, user: string, password: string)

  /** The test payload: the same credential rule, but no fallback for the port. */
  function TestPayload(f: Form): (r: TestRecord)
    ensures r.broker == f.broker && r.port == ParseInt(f.port)
    ensures f.authEnabled ==> r.user == f.user && r.password == f.password
    ensures !f.authEnabled ==> r.user == "" && r.password == ""
  {
    TestRecord(f.broker, ParseInt(f.port),
               if f.authEnabled then f.user else "",
               if f.authEnabled then f.password else "")
  }

  /** The two records agree except where the save record falls back to 1883. */
  lemma PayloadsDifferOnlyInPortFallback(f: Form)
    ensures TestPayload(f).broker == CollectMqttConfig(f).broker
    ensures TestPayload(f).user == CollectMqttConfig(f).user
    ensures TestPayload(f).password == CollectMqttConfig(f).password
    ensures TestPayload(f).port.Some? && TestPayload(f).port.value != 0 ==>
      TestPayload(f).port == Some(CollectMqttConfig(f).port)
    ensures TestPayload(f).port.None? ==> CollectMqttConfig(f).port == 1883
  {
  }

  /** `JSON.stringify` of the save record, members in the order the literal lists them. */
  function SaveBody(r: SaveRecord): (j: Json)
    ensures j.JObj?
    ensures Property(j, "mqtt_enabled") == Some(JBool(r.enabled))
    ensures Property(j, "mqtt_broker") == Some(JStr(r.broker))
    ensures Property(j, "mqtt_port") == Some(JInt(r.port))
    ensures Property(j, "mqtt_user") == Some(JStr(r.user))
    ensures Property(j, "mqtt_password") == Some(JStr(r.password))
  {
    var members := [("mqtt_enabled", JBool(r.enabled)), ("mqtt_broker", JStr(r.broker)),
                    ("mqtt_port", JInt(r.port)), ("mqtt_user", JStr(r.user)),
                    ("mqtt_password", JStr(r.password))];
    LookupAt(members, 0);
    LookupAt(members, 1);
    LookupAt(members, 2);
    LookupAt(members, 3);
    LookupAt(members, 4);
    JObj(members)
  }

  /** `JSON.stringify` of the test record: NaN is written as `null`. */
  function TestBody(r: TestRecord): (j: Json)
    ensures j.JObj?
    ensures Property(j, "broker") == Some(JStr(r.broker))
    ensures r.port.Some? ==> Property(j, "port") == Some(JInt(r.port.value))
    ensures r.port.None? ==> Property(j, "port") == Some(JNull)
    ensures Property(j, "user") == Some(JStr(r.user))
    ensures Property(j, "password") == Some(JStr(r.password))
  {
    var port := match r.port case Some(n) => JInt(n) case None => JNull;
    var members := [("broker", JStr(r.broker)), ("port", port), ("user", JStr(r.user)),
                    ("password", JStr(r.password))];
    LookupAt(members, 0);
    LookupAt(members, 1);
    LookupAt(members, 2);
    LookupAt(members, 3);
    JObj(members)
  }

  // ----- JavaScript's string conversion ----------------------------------------

  /** `String(v)` for a value JSON.parse produced (integers below 10^21 in magnitude). */
  function JsString(v: Json): (s: string)
    ensures v.JStr? ==> s == v.s
    decreases v, 1
  {
    match v
    case JNull => "null"
    case JBool(b) => if b then "true" else "false"
    case JInt(n) => SignedDecimal(n)
    case JStr(s) => s
    case JArr(_) => JoinFrom(v, 0)
    case JObj(_) => "[object Object]"
  }

  /** `Array.prototype.join(",")` from index `i` on: null elements print as nothing. */
  function JoinFrom(arr: Json, i: nat): string
    requires arr.JArr? && i <= |arr.items|
    decreases arr, 0, |arr.items| - i
  {
    if i == |arr.items| then ""
    else
      (if i > 0 then "," else "") + (if arr.items[i] == JNull then "" else JsString(arr.items[i]))
      + JoinFrom(arr, i + 1)
  }

  /** The text `'...' + x` appends for a property value; `undefined` when the property is missing. */
  function Concatenated(v: Option<Json>): (s: string)
    ensures v.None? ==> s == "undefined"
    ensures v.Some? && v.value.JStr? ==> s == v.value.s
  {
    match v
    case None => "undefined"
    case Some(j) => JsString(j)
  }

  /** An integer printed by JavaScript reads back as itself with parseInt. */
  lemma JsStringOfIntReadsBack(n: int)
    ensures ParseInt(JsString(JInt(n))) == Some(n)
  {
    if n < 0 {
      ParseIntNegativeDecimal(-n);
    } else {
      ParseIntDecimal(n, "");
      assert Decimal(n) + "" == Decimal(n);
    }
  }

  // ----- The save indicator ----------------------------------------------------

  /** `colors[type] || colors.saving`. */
  function ColorFor(kind: string): (color: string)
    ensures color == "#27ae60" <==> kind == "success"
    ensures color == "#e74c3c" <==> kind == "error"
    ensures color == "#3498db" <==> kind != "success" && kind != "error"
  {
    if kind == "success" then "#27ae60"
    else if kind == "error" then "#e74c3c"
    else "#3498db"
  }

  /** The indicator element: whether it exists yet, its colour, text and visibility, and its pending hides. */
  datatype Indicator = Indicator(created: bool, background: string, text: string, shown: bool, pendingHides: nat)

  /**
   * `showSaveIndicator(message, type)`: nothing before the element exists;
   * otherwise it is coloured, filled and shown, and every type but 'saving'
   * schedules one more hide. Earlier hides stay scheduled.
   */
  function ShowSpec(s: Indicator, message: string, kind: string): (r: Indicator)
    ensures !s.created ==> r == s
    ensures s.created ==> r.created && r.shown && r.text == message && r.background == ColorFor(kind)
    ensures s.created && kind != "saving" ==> r.pendingHides == s.pendingHides + 1
    ensures kind == "saving" ==> r.pendingHides == s.pendingHides
  {
    if !s.created then s
    else
      s.(background := ColorFor(kind), text := message, shown := true,
         pendingHides := if kind != "saving" then s.pendingHides + 1 else s.pendingHides)
  }

  /** One scheduled hide fires: the element is hidden, whatever it shows now. */
  function HideSpec(s: Indicator): (r: Indicator)
    requires s.pendingHides > 0
    ensures !r.shown && r.pendingHides == s.pendingHides - 1
    ensures r.text == s.text && r.background == s.background && r.created == s.created
  {
    s.(shown := false, pendingHides := s.pendingHides - 1)
  }

  /**
   * Hides are never cancelled: a success followed within 3 s by a new save
   * leaves a hide pending that takes the new 'saving' indicator away.
   */
  lemma StaleHideHidesNewerSaving(s: Indicator, done: string, saving: string)
    requires s.created
    ensures var t := ShowSpec(ShowSpec(s, done, "success"), saving, "saving");
      t.shown && t.text == saving && t.pendingHides > 0 &&
      !HideSpec(t).shown && HideSpec(t).text == saving && HideSpec(t).background == "#3498db"
  {
  }

  class SaveIndicator {
    var created: bool
    var background: string
    var text: string
    var shown: bool
    var pendingHides: nat

    function State(): Indicator
      reads this
    {
      Indicator(created, background, text, shown, pendingHides)
    }

    /** The module starts with no indicator element. */
    constructor ()
      ensures State() == Indicator(false, "", "", false, 0)
    {
      created, background, text, shown, pendingHides := false, "", "", false, 0;
    }

    /** `createSaveIndicator`: a hidden element in the saving colour. */
    method Create()
      modifies this
      ensures State() == Indicator(true, "#3498db", "", false, old(pendingHides))
    {
      created, background, text, shown := true, "#3498db", "", false;
    }

    method Show(message: string, kind: string)
      modifies this
      ensures State() == ShowSpec(old(State()), message, kind)
    {
      if !created {
        return;
      }
      background := ColorFor(kind);
      text := message;
      shown := true;
      if kind != "saving" {
        pendingHides := pendingHides + 1;
      }
    }

    /** A scheduled hide fires. */
    method FireHide()
      requires pendingHides > 0
      modifies this
      ensures State() == HideSpec(old(State()))
    {
      shown := false;
      pendingHides := pendingHides - 1;
    }
  }

  // ----- Auto-save -------------------------------------------------------------

  /** How an auto-save ends. */
  datatype SaveOutcome = Saved(restartNotice: bool) | SaveFailed | ConnectionError

  /**
   * The branches after the save request: a thrown error (no reply, or a `null`
   * body whose `success` cannot be read) is a connection error; otherwise a
   * truthy `success` is a save, with a restart notice when `restart_required`
   * is truthy, and anything else a failed save.
   */
  function SaveOutcomeOf(reply: HttpReply): (o: SaveOutcome)
    ensures o.ConnectionError? <==> reply.NoAnswer? || reply.body == JNull
    ensures o.Saved? <==> reply.Answered? && JsTruthy(Property(reply.body, "success"))
    ensures o.Saved? ==> (o.restartNotice <==> JsTruthy(Property(reply.body, "restart_required")))
  {
    match reply
    case NoAnswer(_) => ConnectionError
    case Answered(body) =>
      if body == JNull then ConnectionError
      else if JsTruthy(Property(body, "success")) then Saved(JsTruthy(Property(body, "restart_required")))
      else SaveFailed
  }

  const SavingMessage: string := "\U{1F4BE} Speichere MQTT-Einstellungen..."

  /** The indicator's final message and type for each outcome. */
  function OutcomeMessage(o: SaveOutcome): (m: (string, string))
    ensures o.Saved? <==> m.1 == "success"
    ensures m.1 in {"success", "error"}
  {
    match o
    case Saved(_) => ("\U{2705} MQTT-Einstellungen gespeichert", "success")
    case SaveFailed => ("\U{274C} Fehler beim Speichern", "error")
    case ConnectionError => ("\U{274C} Verbindungsfehler", "error")
  }

  /** Every auto-save leaves exactly one hide pending more than before, and shows its outcome. */
  lemma AutoSaveIndicator(s: Indicator, reply: HttpReply)
    requires s.created
    ensures var m := OutcomeMessage(SaveOutcomeOf(reply));
      var t := ShowSpec(ShowSpec(s, SavingMessage, "saving"), m.0, m.1);
      t.shown && t.text == m.0 && t.pendingHides == s.pendingHides + 1 &&
      (SaveOutcomeOf(reply).Saved? <==> t.background == "#27ae60")
  {
  }

  /**
   * The form and its two collapsible sections (None when the page has no such
   * element), with the bodies posted to the save endpoint and the restart
   * notices shown so far.
   */
  class SettingsForm {
    var enabled: bool
    var authEnabled: bool
    var broker: string
    var port: string
    var user: string
    var password: string
    var settingsShown: Option<bool>
    var authShown: Option<bool>
    var saves: seq<Json>
    var restartNotices: nat
    const indicator: SaveIndicator

    function Values(): Form
      reads this
    {
      Form(enabled, authEnabled, broker, port, user, password)
    }

    constructor (f: Form, settingsShown: Option<bool>, authShown: Option<bool>, indicator: SaveIndicator)
      ensures Values() == f && this.settingsShown == settingsShown && this.authShown == authShown
      ensures saves == [] && restartNotices == 0 && this.indicator == indicator
    {
      enabled, authEnabled, broker, port, user, password := f.enabled, f.authEnabled, f.broker, f.port, f.user, f.password;
      this.settingsShown, this.authShown := settingsShown, authShown;
      saves, restartNotices := [], 0;
      this.indicator := indicator;
    }

    /**
     * `autoSaveMqttConfig`, with the server's reply as input: the record is
     * collected and posted, the indicator shows 'saving' and then the outcome,
     * and a restart notice is added when the reply asks for one.
     */
    method AutoSave(reply: HttpReply)
      modifies this, indicator
      ensures Values() == old(Values())
      ensures settingsShown == old(settingsShown) && authShown == old(authShown)
      ensures saves == old(saves) + [SaveBody(CollectMqttConfig(Values()))]
      ensures var o := SaveOutcomeOf(reply);
        indicator.State() == ShowSpec(ShowSpec(old(indicator.State()), SavingMessage, "saving"),
                                      OutcomeMessage(o).0, OutcomeMessage(o).1) &&
        restartNotices == old(restartNotices) + (if o.Saved? && o.restartNotice then 1 else 0)
    {
      var config := CollectMqttConfig(Values());
      ghost var before := indicator.State();
      indicator.Show(SavingMessage, "saving");
      ghost var saving := indicator.State();
      assert saving == ShowSpec(before, SavingMessage, "saving");
      saves := saves + [SaveBody(config)];
      var outcome := SaveOutcomeOf(reply);
      var message := OutcomeMessage(outcome);
      indicator.Show(message.0, message.1);
      assert indicator.State() == ShowSpec(saving, message.0, message.1);
      if outcome.Saved? && outcome.restartNotice {
        restartNotices := restartNotices + 1;
      }
    }

    /** The MQTT checkbox changed: its section follows it, then the form is saved. */
    method ToggleEnabled(checked: bool, reply: HttpReply)
      modifies this, indicator
      ensures Values() == old(Values()).(enabled := checked)
      ensures settingsShown == (if old(settingsShown).Some? then Some(checked) else None)
      ensures authShown == old(authShown)
      ensures saves == old(saves) + [SaveBody(CollectMqttConfig(Values()))]
      ensures var o := SaveOutcomeOf(reply);
        indicator.State() == ShowSpec(ShowSpec(old(indicator.State()), SavingMessage, "saving"),
                                      OutcomeMessage(o).0, OutcomeMessage(o).1) &&
        restartNotices == old(restartNotices) + (if o.Saved? && o.restartNotice then 1 else 0)
    {
      enabled := checked;
      if settingsShown.Some? {
        settingsShown := Some(checked);
      }
      AutoSave(reply);
    }

    /**
     * The authentication checkbox changed: its section follows it; switching it
     * off empties the user and password fields; then the form is saved.
     */
    method ToggleAuth(checked: bool, reply: HttpReply)
      modifies this, indicator
      ensures checked ==> Values() == old(Values()).(authEnabled := true)
      ensures !checked ==> Values() == old(Values()).(authEnabled := false, user := "", password := "")
      ensures authShown == (if old(authShown).Some? then Some(checked) else None)
      ensures settingsShown == old(settingsShown)
      ensures saves == old(saves) + [SaveBody(CollectMqttConfig(Values()))]
      ensures var o := SaveOutcomeOf(reply);
        indicator.State() == ShowSpec(ShowSpec(old(indicator.State()), SavingMessage, "saving"),
                                      OutcomeMessage(o).0, OutcomeMessage(o).1) &&
        restartNotices == old(restartNotices) + (if o.Saved? && o.restartNotice then 1 else 0)
    {
      authEnabled := checked;
      if authShown.Some? {
        authShown := Some(checked);
      }
      if !checked {
        user := "";
        password := "";
      }
      AutoSave(reply);
    }

    /** A text field lost the focus: the form is saved as it is. */
    method Blur(reply: HttpReply)
      modifies this, indicator
      ensures Values() == old(Values())
      ensures settingsShown == old(settingsShown) && authShown == old(authShown)
      ensures saves == old(saves) + [SaveBody(CollectMqttConfig(Values()))]
      ensures var o := SaveOutcomeOf(reply);
        indicator.State() == ShowSpec(ShowSpec(old(indicator.State()), SavingMessage, "saving"),
                                      OutcomeMessage(o).0, OutcomeMessage(o).1) &&
        restartNotices == old(restartNotices) + (if o.Saved? && o.restartNotice then 1 else 0)
    {
      AutoSave(reply);
    }
  }

  /** Switching authentication off saves empty credentials, whatever the fields held. */
  lemma AuthOffSavesNoCredentials(f: Form)
    requires !f.authEnabled
    ensures Property(SaveBody(CollectMqttConfig(f)), "mqtt_user") == Some(JStr(""))
    ensures Property(SaveBody(CollectMqttConfig(f)), "mqtt_password") == Some(JStr(""))
  {
  }

  // ----- The connection test ---------------------------------------------------

  const TestRunningLabel: string := "\U{1F504} Teste Verbindung..."
  const TestIdleLabel: string := "\U{1F50C} Verbindung testen"

  /** The engine's message for reading `success` of a `null` reply (V8's wording). */
  const NullReplyMessage: string := "Cannot read properties of null (reading 'success')"

  /** The result span's text and class after a test. */
  function TestResultOf(reply: HttpReply): (r: (string, string))
    ensures r.1 == "badge success" <==> reply.Answered? && JsTruthy(Property(reply.body, "success"))
    ensures r.1 in {"badge success", "badge error"}
    ensures reply.NoAnswer? ==> r.0 == "\U{274C} Fehler beim Testen: " + reply.message
    ensures reply.Answered? && reply.body != JNull && !JsTruthy(Property(reply.body, "success")) ==>
      r.0 == "\U{274C} Verbindung fehlgeschlagen: " + Concatenated(Property(reply.body, "error"))
  {
    match reply
    case NoAnswer(message) => ("\U{274C} Fehler beim Testen: " + message, "badge error")
    case Answered(body) =>
      if body == JNull then ("\U{274C} Fehler beim Testen: " + NullReplyMessage, "badge error")
      else if JsTruthy(Property(body, "success")) then ("\U{2705} Verbindung erfolgreich", "badge success")
      else ("\U{274C} Verbindung fehlgeschlagen: " + Concatenated(Property(body, "error")), "badge error")
  }

  /**
   * A failed test whose reply object carries no `error` member says so
   * literally: "undefined".
   */
  lemma FailedTestWithoutError(members: Members)
    requires forall i :: 0 <= i < |members| ==> members[i].0 != "error"
    requires !JsTruthy(Lookup(members, "success"))
    ensures TestResultOf(Answered(JObj(members))).0 == "\U{274C} Verbindung fehlgeschlagen: " + "undefined"
  {
    var reply := Answered(JObj(members));
    LookupAbsent(members, "error");
    assert Property(reply.body, "error") == None;
    assert reply.body != JNull && !JsTruthy(Property(reply.body, "success"));
  }

  /**
   * The test button and the result span (each may be missing from the page),
   * the tests started and not yet answered, the pending 5 s clears, and the
   * bodies posted to the test endpoint.
   */
  class TestPanel {
    var spanPresent: bool
    var buttonPresent: bool
    var resultText: string
    var resultClass: string
    var disabled: bool
    var caption: string
    var running: nat
    var pendingClears: nat
    var sent: seq<Json>

    constructor (spanPresent: bool, buttonPresent: bool)
      ensures this.spanPresent == spanPresent && this.buttonPresent == buttonPresent
      ensures resultText == "" && resultClass == "" && !disabled && caption == TestIdleLabel
      ensures running == 0 && pendingClears == 0 && sent == []
    {
      this.spanPresent, this.buttonPresent := spanPresent, buttonPresent;
      resultText, resultClass, disabled, caption := "", "", false, TestIdleLabel;
      running, pendingClears, sent := 0, 0, [];
    }

    /**
     * `testMqttConnection` up to its request: without both elements it does
     * nothing; otherwise the button is disabled and relabelled, the result is
     * cleared, and the test payload is posted.
     */
    method BeginTest(f: Form) returns (started: bool)
      modifies this
      ensures started <==> old(spanPresent) && old(buttonPresent)
      ensures !started ==>
        resultText == old(resultText) && resultClass == old(resultClass) && disabled == old(disabled) &&
        caption == old(caption) && running == old(running) && sent == old(sent)
      ensures started ==>
        disabled && caption == TestRunningLabel && resultText == "" && resultClass == "" &&
        running == old(running) + 1 && sent == old(sent) + [TestBody(TestPayload(f))]
      ensures spanPresent == old(spanPresent) && buttonPresent == old(buttonPresent)
      ensures pendingClears == old(pendingClears)
    {
      if !spanPresent || !buttonPresent {
        return false;
      }
      var body := TestBody(TestPayload(f));
      disabled := true;
      caption := TestRunningLabel;
      resultText := "";
      resultClass := "";
      sent := sent + [body];
      running := running + 1;
      return true;
    }

    /** The reply of a started test arrives: the result is shown and, in every case, the button is re-enabled. */
    method EndTest(reply: HttpReply)
      requires running > 0
      modifies this
      ensures (resultText, resultClass) == TestResultOf(reply)
      ensures !disabled && caption == TestIdleLabel
      ensures running == old(running) - 1 && pendingClears == old(pendingClears) + 1
      ensures sent == old(sent) && spanPresent == old(spanPresent) && buttonPresent == old(buttonPresent)
    {
      var result := TestResultOf(reply);
      resultText := result.0;
      resultClass := result.1;
      disabled := false;
      caption := TestIdleLabel;
      running := running - 1;
      pendingClears := pendingClears + 1;
    }

    /** A scheduled clear fires and empties the result span, even if a newer test wrote it. */
    method FireClear()
      requires pendingClears > 0
      modifies this
      ensures resultText == "" && resultClass == "" && pendingClears == old(pendingClears) - 1
      ensures disabled == old(disabled) && caption == old(caption) && running == old(running) && sent == old(sent)
      ensures spanPresent == old(spanPresent) && buttonPresent == old(buttonPresent)
    {
      resultText := "";
      resultClass := "";
      pendingClears := pendingClears - 1;
    }
  }

  // ----- Password reveal ---------------------------------------------------------

  const HiddenGlyph: string := "\U{1F441}\U{FE0F}"
  const RevealedGlyph: string := "\U{1F648}"

  /** An eye icon (`<id>_icon`): its glyph, and whether its button carries the class `active`. */
  datatype Eye = Eye(glyph: string, active: bool)

  /**
   * The password inputs by id (true while the type is 'password'), the eye
   * icons by the id of their input, and the single module-level hide timer,
   * which remembers the input it will mask.
   */
  datatype Reveal = Reveal(masked: map<string, bool>, eyes: map<string, Eye>, timer: Option<string>)

  /** `togglePasswordVisibility` throws when the icon is missing: its parent is read before the check. */
  predicate ToggleThrows(s: Reveal, id: string)
  {
    id !in s.eyes
  }

  /**
   * `togglePasswordVisibility(id)`: with the icon or the input missing nothing
   * changes; otherwise the pending timer is cancelled, a masked field is
   * revealed with a new timer, and a revealed one is masked with none.
   */
  function ToggleSpec(s: Reveal, id: string): (r: Reveal)
    ensures id !in s.eyes || id !in s.masked ==> r == s
    ensures id in s.eyes && id in s.masked && s.masked[id] ==>
      r == Reveal(s.masked[id := false], s.eyes[id := Eye(RevealedGlyph, true)], Some(id))
    ensures id in s.eyes && id in s.masked && !s.masked[id] ==>
      r == Reveal(s.masked[id := true], s.eyes[id := Eye(HiddenGlyph, false)], None)
  {
    if id !in s.eyes || id !in s.masked then s
    else if s.masked[id] then Reveal(s.masked[id := false], s.eyes[id := Eye(RevealedGlyph, true)], Some(id))
    else Reveal(s.masked[id := true], s.eyes[id := Eye(HiddenGlyph, false)], None)
  }

  /** The timer fires: its input is masked again and the handle is reset. */
  function FireSpec(s: Reveal): (r: Reveal)
    requires s.timer.Some?
    ensures r.timer.None?
    ensures r.masked == s.masked[s.timer.value := true]
    ensures r.eyes == s.eyes[s.timer.value := Eye(HiddenGlyph, false)]
  {
    Reveal(s.masked[s.timer.value := true], s.eyes[s.timer.value := Eye(HiddenGlyph, false)], None)
  }

  /** Toggling a field twice without the timer firing restores its mask and leaves no timer. */
  lemma ToggleTwiceMasksAgain(s: Reveal, id: string)
    requires id in s.eyes && id in s.masked && s.masked[id]
    ensures ToggleSpec(ToggleSpec(s, id), id).masked == s.masked
    ensures ToggleSpec(ToggleSpec(s, id), id).timer.None?
  {
  }

  /**
   * One handle serves every field: revealing a second field cancels the first
   * field's hide, so after the only remaining timer fires the first field is
   * still revealed and nothing is pending.
   */
  lemma SecondRevealCancelsFirst(s: Reveal, a: string, b: string)
    requires a != b
    requires a in s.eyes && a in s.masked && s.masked[a]
    requires b in s.eyes && b in s.masked && s.masked[b]
    ensures var t := ToggleSpec(ToggleSpec(s, a), b);
      t.timer == Some(b) && !t.masked[a] &&
      FireSpec(t).timer.None? && !FireSpec(t).masked[a] && FireSpec(t).masked[b]
  {
  }

  class PasswordFields {
    var masked: map<string, bool>
    var eyes: map<string, Eye>
    var timer: Option<string>

    function State(): Reveal
      reads this
    {
      Reveal(masked, eyes, timer)
    }

    constructor (masked: map<string, bool>, eyes: map<string, Eye>)
      ensures State() == Reveal(masked, eyes, None)
    {
      this.masked, this.eyes, timer := masked, eyes, None;
    }

    method Toggle(id: string) returns (threw: bool)
      modifies this
      ensures threw <==> ToggleThrows(old(State()), id)
      ensures State() == ToggleSpec(old(State()), id)
    {
      if id !in eyes {
        return true;
      }
      if id !in masked {
        return false;
      }
      timer := None;
      if masked[id] {
        masked := masked[id := false];
        eyes := eyes[id := Eye(RevealedGlyph, true)];
        timer := Some(id);
      } else {
        masked := masked[id := true];
        eyes := eyes[id := Eye(HiddenGlyph, false)];
      }
      return false;
    }

    method FireTimer()
      requires timer.Some?
      modifies this
      ensures State() == FireSpec(old(State()))
    {
      var id := timer.value;
      masked := masked[id := true];
      eyes := eyes[id := Eye(HiddenGlyph, false)];
      timer := None;
    }
  }
}
