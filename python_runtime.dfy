/**
 * What the Flask routes rely on from Python and from their surroundings:
 * exceptions and their `str(e)`, the outcome of a `subprocess.run` call into a
 * shell library, `request.get_json()`, `dict.get`, `int(...)`, and the reply a
 * route produces. The shell libraries themselves are not part of this model:
 * a `Run` value stands for whatever one call of them returned.
 */
module PyRuntime {
  import opened Values
  import opened Numbers

  /** The exceptions the routes raise or catch. */
  datatype PyException =
    | NameError(name: string)
    | TypeError(message: string)
    | ValueError(message: string)
    | AttributeError(typeName: string, attribute: string)
    | JSONDecodeError(message: string)
    | TimeoutExpired(message: string)
    | OSError(message: string)
    | BadRequest(message: string)

  /** `str(e)`. */
  function Str(e: PyException): string
  {
    match e
    case NameError(name) => "name '" + name + "' is not defined"
    case AttributeError(typeName, attribute) =>
      "'" + typeName + "' object has no attribute '" + attribute + "'"
    case TypeError(m) => m
    case ValueError(m) => m
    case JSONDecodeError(m) => m
    case TimeoutExpired(m) => m
    case OSError(m) => m
    case BadRequest(m) => m
  }

  /** The Python type name of a parsed JSON value, as error messages print it. */
  function TypeName(v: Json): string
  {
    match v
    case JNull => "NoneType"
    case JBool(_) => "bool"
    case JInt(_) => "int"
    case JStr(_) => "str"
    case JArr(_) => "list"
    case JObj(_) => "dict"
  }

  /** The value of a Python expression, or the exception it raised. */
  datatype Outcome<T> = Ok(value: T) | Raise(error: PyException)

  /** `json.loads(result.stdout)`: the parsed document, or the JSONDecodeError message. */
  datatype Stdout = Parsed(value: Json) | Unparsable(message: string)

  /**
   * One `subprocess.run(..., capture_output=True, text=True, timeout=...)` call:
   * the process finished with an exit status, its parsed standard output and its
   * standard error, or the call raised (TimeoutExpired, or OSError when the
   * script cannot be started).
   */
  datatype Run =
    | Completed(returncode: int, stdout: Stdout, stderr: string)
    | Raised(error: PyException)

  /** `request.get_json()`: the JSON body, or the message of the HTTP error Flask raises. */
  datatype Request = Body(data: Json) | Unreadable(message: string)

  function GetJson(request: Request): (o: Outcome<Json>)
    ensures o.Ok? <==> request.Body?
  {
    match request
    case Body(data) => Ok(data)
    case Unreadable(m) => Raise(BadRequest(m))
  }

  /**
   * What a route hands back to Flask: a JSON document with its HTTP status, or an
   * exception the route did not catch (Flask answers that with its own 500 page).
   */
  datatype Reply = JsonReply(body: Json, status: int) | Uncaught(error: PyException)

  /** `jsonify({'success': False, 'error': message}), status`. */
  function FailureReply(message: string, status: int): (r: Reply)
    ensures r.JsonReply? && r.status == status
    ensures Property(r.body, "success") == Some(JBool(false))
    ensures Property(r.body, "error") == Some(JStr(message))
  {
    var members := [("success", JBool(false)), ("error", JStr(message))];
    LookupAt(members, 0);
    LookupAt(members, 1);
    JsonReply(JObj(members), status)
  }

  /** `data.get(key, default)`; anything but a dict has no `get` attribute. */
  function DictGet(data: Json, key: string, default: Json): (o: Outcome<Json>)
    ensures o.Raise? <==> !data.JObj?
    ensures data.JObj? && Lookup(data.members, key).Some? ==> o == Ok(Lookup(data.members, key).value)
    ensures data.JObj? && Lookup(data.members, key).None? ==> o == Ok(default)
  {
    match data
    case JObj(members) => Ok(PyGet(members, key, default))
    case _ => Raise(AttributeError(TypeName(data), "get"))
  }

  /**
   * `int(v)` for a parsed JSON value: booleans are 0 and 1, integers stay, strings
   * are parsed in base 10, and None, lists and dicts raise TypeError.
   */
  function PyInt(v: Json): (o: Outcome<int>)
    ensures v.JInt? ==> o == Ok(v.i)
    ensures v.JNull? || v.JArr? || v.JObj? ==> o.Raise? && o.error.TypeError?
  {
    match v
    case JBool(b) => Ok(if b then 1 else 0)
    case JInt(n) => Ok(n)
    case JStr(s) =>
      (match PyIntOfString(s)
       case Some(n) => Ok(n)
       case None => Raise(ValueError("invalid literal for int() with base 10: '" + s + "'")))
    case _ =>
      Raise(TypeError("int() argument must be a string, a bytes-like object or a real number, not '"
                      + TypeName(v) + "'"))
  }

  /** `int()` reads back every integer and every integer rendered in decimal. */
  lemma PyIntRoundTrip(n: int)
    ensures PyInt(JInt(n)) == Ok(n)
    ensures PyInt(JStr(SignedDecimal(n))) == Ok(n)
  {
    PyIntOfDecimal(n);
  }

  /** Text with a stray character makes `int()` raise ValueError quoting the text. */
  lemma PyIntRejectsText(s: string, i: int)
    requires 0 <= i < |s| && IsStray(s[i])
    ensures PyInt(JStr(s)) == Raise(ValueError("invalid literal for int() with base 10: '" + s + "'"))
  {
    PyIntRejectsStrayCharacter(s, i);
  }
}
