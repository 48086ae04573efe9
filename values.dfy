/**
 * JSON values as the widgets and the Flask routes exchange them, and the two
 * languages' ways of reading them: Python's truthiness and dict access on the
 * server, JavaScript's truthiness and property access in the browser.
 */
module Values {

  datatype Option<T> = None | Some(value: T)

  /**
   * A JSON document. Objects keep their members in document order, duplicates
   * included, exactly as the text had them; `Lookup` and `Keys` say how each
   * runtime reads such a member list.
   */
  datatype Json =
    | JNull
    | JBool(b: bool)
    | JInt(i: int)
    | JStr(s: string)
    | JArr(items: seq<Json>)
    | JObj(members: seq<(string, Json)>)

  type Members = seq<(string, Json)>

  /**
   * The value stored under `key`: with duplicate keys the LAST member wins, which
   * is what both Python's json.loads and JavaScript's JSON.parse keep.
   */
  function Lookup(members: Members, key: string): Option<Json>
    decreases |members|
  {
    if members == [] then None
    else if members[|members| - 1].0 == key then Some(members[|members| - 1].1)
    else Lookup(members[..|members| - 1], key)
  }

  /** A key is found exactly when some member has it, and the value found is that of the last such member. */
  lemma {:induction false} LookupFindsLast(members: Members, key: string)
    ensures var r := Lookup(members, key);
      (r.Some? <==> exists i :: 0 <= i < |members| && members[i].0 == key) &&
      (r.Some? ==> exists i :: (0 <= i < |members| && members[i] == (key, r.value) &&
                                forall j :: i < j < |members| ==> members[j].0 != key))
    decreases |members|
  {
    if members != [] && members[|members| - 1].0 != key {
      var front := members[..|members| - 1];
      LookupFindsLast(front, key);
      if Lookup(front, key).Some? {
        var i :| 0 <= i < |front| && front[i] == (key, Lookup(front, key).value) &&
          forall j :: i < j < |front| ==> front[j].0 != key;
        assert members[i] == front[i];
      }
    }
  }

  lemma LookupAt(members: Members, i: int)
    requires 0 <= i < |members|
    requires forall j :: i < j < |members| ==> members[j].0 != members[i].0
    ensures Lookup(members, members[i].0) == Some(members[i].1)
  {
    LookupFindsLast(members, members[i].0);
  }

  /** A key no member carries is not found. */
  lemma LookupAbsent(members: Members, key: string)
    requires forall i :: 0 <= i < |members| ==> members[i].0 != key
    ensures Lookup(members, key).None?
  {
    LookupFindsLast(members, key);
  }

  /** A member appended after the others decides the lookup of its key and no other. */
  lemma {:induction false} LookupAppend(members: Members, key: string, value: Json, other: string)
    ensures Lookup(members + [(key, value)], key) == Some(value)
    ensures other != key ==> Lookup(members + [(key, value)], other) == Lookup(members, other)
  {
    assert (members + [(key, value)])[..|members|] == members;
  }

  /** Looking up in `a + b`: `b` wins wherever it has the key. */
  lemma {:induction false} LookupConcat(a: Members, b: Members, key: string)
    ensures Lookup(a + b, key) == if Lookup(b, key).Some? then Lookup(b, key) else Lookup(a, key)
    decreases |b|
  {
    if b == [] {
      assert a + b == a;
    } else {
      var b' := b[..|b| - 1];
      assert (a + b)[..|a + b| - 1] == a + b';
      LookupConcat(a, b', key);
    }
  }

  /** Python's `d.get(key, default)` on a dict. */
  function PyGet(members: Members, key: string, default: Json): Json
  {
    match Lookup(members, key)
    case Some(v) => v
    case None => default
  }

  /**
   * The keys of a Python dict built from `members`, in iteration order: each key
   * once, at the position where it first occurred.
   */
  function Keys(members: Members): (ks: seq<string>)
    ensures forall k :: k in ks <==> exists i :: 0 <= i < |members| && members[i].0 == k
    ensures forall i, j :: 0 <= i < j < |ks| ==> ks[i] != ks[j]
    decreases |members|
  {
    if members == [] then []
    else
      var ks := Keys(members[..|members| - 1]);
      var k := members[|members| - 1].0;
      if k in ks then ks else ks + [k]
  }

  /** The names of the members, in order. */
  function Names(members: Members): (ns: seq<string>)
    ensures |ns| == |members| && forall i :: 0 <= i < |members| ==> ns[i] == members[i].0
  {
    seq(|members|, i requires 0 <= i < |members| => members[i].0)
  }

  /** Without duplicate keys, a dict iterates over its members' names in document order. */
  lemma {:induction false} KeysWithoutDuplicates(members: Members)
    requires forall i, j :: 0 <= i < j < |members| ==> members[i].0 != members[j].0
    ensures Keys(members) == Names(members)
    decreases |members|
  {
    if members != [] {
      var init := members[..|members| - 1];
      KeysWithoutDuplicates(init);
      assert Names(members) == Names(init) + [members[|members| - 1].0];
    }
  }

  /** Python's truthiness, `bool(v)`: None, False, 0, "", [] and {} are false. */
  predicate PyTruthy(v: Json)
  {
    match v
    case JNull => false
    case JBool(b) => b
    case JInt(n) => n != 0
    case JStr(s) => s != ""
    case JArr(items) => items != []
    case JObj(members) => members != []
  }

  /**
   * JavaScript's truthiness of a property value; `None` is `undefined`.
   * Unlike Python, every array and every object is truthy, even when empty.
   */
  predicate JsTruthy(v: Option<Json>)
  {
    match v
    case None => false
    case Some(JNull) => false
    case Some(JBool(b)) => b
    case Some(JInt(n)) => n != 0
    case Some(JStr(s)) => s != ""
    case Some(JArr(_)) => true
    case Some(JObj(_)) => true
  }

  /**
   * JavaScript's `v[key]` for a value JSON.parse produced and a key that no
   * built-in prototype defines (every key the widgets read is such a key):
   * objects answer by lookup, every other non-null value with `undefined`.
   * Reading a property of `null` throws; callers test `v == JNull` for that.
   */
  function Property(v: Json, key: string): (r: Option<Json>)
    ensures r.Some? ==> v.JObj?
  {
    match v
    case JObj(members) => Lookup(members, key)
    case _ => None
  }

  /** Python and JavaScript disagree on empty containers, and only there. */
  lemma TruthinessDiffersOnlyOnEmptyContainers(v: Json)
    ensures PyTruthy(v) != JsTruthy(Some(v)) <==> v == JArr([]) || v == JObj([])
  {
  }
}
