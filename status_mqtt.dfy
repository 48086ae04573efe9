/**
 * The MQTT status widget blueprint (www/routes/widgets/status_mqtt.py): the
 * status the shell library reports, with its two fallback dicts, merged into
 * the reply after `success` and `service` and before `timestamp`.
 */
module StatusMqtt {
  import opened Values
  import opened PyRuntime

  /** The fallback when the status function exits with a nonzero status. */
  const UnknownStatus: Members := [("status", JStr("unknown")), ("connected", JBool(false)), ("enabled", JBool(false))]

  /** The two entries the reply starts with. */
  const Head: Members := [("success", JBool(true)), ("service", JStr("mqtt"))]

  /** The fallback when reading the status raised: the exception's text is kept. */
  function ErrorStatus(message: string): (m: Members)
    ensures Lookup(m, "status") == Some(JStr("error"))
    ensures Lookup(m, "connected") == Some(JBool(false))
    ensures Lookup(m, "enabled") == Some(JBool(false))
    ensures Lookup(m, "error") == Some(JStr(message))
    ensures Lookup(m, "success").None? && Lookup(m, "service").None?
  {
    var members := [("status", JStr("error")), ("connected", JBool(false)), ("enabled", JBool(false)),
                    ("error", JStr(message))];
    LookupAt(members, 0);
    LookupAt(members, 1);
    LookupAt(members, 2);
    LookupAt(members, 3);
    LookupAbsent(members, "success");
    LookupAbsent(members, "service");
    members
  }

  /**
   * `get_mqtt_status`: the parsed output on exit status 0, whatever JSON value
   * it is; the unknown-status dict on any other exit status; the error dict when
   * the call raised or its output is not JSON (both happen inside the `try`).
   */
  function GetMqttStatus(run: Run): (s: Json)
    ensures run.Completed? && run.returncode == 0 && run.stdout.Parsed? ==> s == run.stdout.value
    ensures run.Completed? && run.returncode != 0 ==> s == JObj(UnknownStatus)
    ensures run.Completed? && run.returncode == 0 && run.stdout.Unparsable? ==>
      s == JObj(ErrorStatus(run.stdout.message))
    ensures run.Raised? ==> s == JObj(ErrorStatus(Str(run.error)))
  {
    match run
    case Raised(e) => JObj(ErrorStatus(Str(e)))
    case Completed(code, stdout, _) =>
      if code != 0 then JObj(UnknownStatus)
      else
        match stdout
        case Parsed(v) => v
        case Unparsable(message) => JObj(ErrorStatus(message))
  }

  /**
   * `api_mqtt_status`: `{'success': True, 'service': 'mqtt', **status,
   * 'timestamp': now}`. Later entries win, so the status may override `success`
   * and `service`, and `timestamp` overrides the status. Unpacking a value that
   * is not a dict raises TypeError, which the route does not catch. `now` is the
   * ISO timestamp of the request.
   */
  function ApiMqttStatus(run: Run, now: string): (r: Reply)
    ensures r.JsonReply? <==> GetMqttStatus(run).JObj?
    ensures r.Uncaught? ==>
      r.error == TypeError("'" + TypeName(GetMqttStatus(run)) + "' object is not a mapping")
    ensures r.JsonReply? ==> r.status == 200 && r.body.JObj?
    ensures r.JsonReply? ==> Property(r.body, "timestamp") == Some(JStr(now))
    ensures r.JsonReply? ==> forall key :: key != "timestamp" ==>
      Property(r.body, key) == if Lookup(GetMqttStatus(run).members, key).Some?
                               then Lookup(GetMqttStatus(run).members, key)
                               else Lookup(Head, key)
  {
    match GetMqttStatus(run)
    case JObj(status) =>
      var head := Head;
      var members := head + status + [("timestamp", JStr(now))];
      forall key | key != "timestamp"
        ensures Lookup(members, key) ==
          if Lookup(status, key).Some? then Lookup(status, key) else Lookup(head, key)
      {
        LookupAppend(head + status, "timestamp", JStr(now), key);
        LookupConcat(head, status, key);
      }
      LookupAppend(head + status, "timestamp", JStr(now), "timestamp");
      JsonReply(JObj(members), 200)
    case v => Uncaught(TypeError("'" + TypeName(v) + "' object is not a mapping"))
  }

  /** Without `success` or `service` in the status, the reply says success and names the service. */
  lemma ReplyHeadWhenNotOverridden(run: Run, now: string)
    requires GetMqttStatus(run).JObj?
    requires Lookup(GetMqttStatus(run).members, "success").None?
    requires Lookup(GetMqttStatus(run).members, "service").None?
    ensures Property(ApiMqttStatus(run, now).body, "success") == Some(JBool(true))
    ensures Property(ApiMqttStatus(run, now).body, "service") == Some(JStr("mqtt"))
  {
    var r := ApiMqttStatus(run, now);
    assert Property(r.body, "success") == Lookup(Head, "success");
    assert Property(r.body, "service") == Lookup(Head, "service");
    LookupAt(Head, 0);
    LookupAt(Head, 1);
  }

  /** A status that says `success: false` overrides the route's own `success`. */
  lemma StatusOverridesSuccess(stderr: string, m: Members, now: string)
    requires Lookup(m, "success") == Some(JBool(false))
    ensures Property(ApiMqttStatus(Completed(0, Parsed(JObj(m)), stderr), now).body, "success") == Some(JBool(false))
  {
  }

  /** A failed status call is reported as an unknown, disconnected, disabled service. */
  lemma ReplyOnNonzeroExit(code: int, stdout: Stdout, stderr: string, now: string)
    requires code != 0
    ensures ApiMqttStatus(Completed(code, stdout, stderr), now).JsonReply?
    ensures Property(ApiMqttStatus(Completed(code, stdout, stderr), now).body, "status") == Some(JStr("unknown"))
    ensures Property(ApiMqttStatus(Completed(code, stdout, stderr), now).body, "connected") == Some(JBool(false))
    ensures Property(ApiMqttStatus(Completed(code, stdout, stderr), now).body, "success") == Some(JBool(true))
  {
    LookupAt(UnknownStatus, 0);
    LookupAt(UnknownStatus, 1);
    LookupAbsent(UnknownStatus, "success");
    LookupAbsent(UnknownStatus, "service");
    ReplyHeadWhenNotOverridden(Completed(code, stdout, stderr), now);
  }

  /** A status call that raised is reported as an error with the exception's text. */
  lemma ReplyOnException(e: PyException, now: string)
    ensures ApiMqttStatus(Raised(e), now).JsonReply?
    ensures Property(ApiMqttStatus(Raised(e), now).body, "status") == Some(JStr("error"))
    ensures Property(ApiMqttStatus(Raised(e), now).body, "error") == Some(JStr(Str(e)))
    ensures Property(ApiMqttStatus(Raised(e), now).body, "success") == Some(JBool(true))
  {
    ReplyHeadWhenNotOverridden(Raised(e), now);
  }

  /** A status that is a JSON list is not a mapping: the route raises TypeError. */
  lemma ListStatusIsUncaught(items: seq<Json>, stderr: string, now: string)
    ensures TypeName(JArr(items)) == "list"
    ensures ApiMqttStatus(Completed(0, Parsed(JArr(items)), stderr), now)
         == Uncaught(TypeError("'" + TypeName(JArr(items)) + "' object is not a mapping"))
  {
    assert GetMqttStatus(Completed(0, Parsed(JArr(items)), stderr)) == JArr(items);
  }
}
