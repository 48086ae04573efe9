/**
 * The MQTT dependencies blueprint (www/routes/widgets/dependencies_mqtt.py): the
 * software inventory reported by the shell library, flattened over its
 * categories and filtered to the MQTT tools by name.
 */
module DependenciesMqtt {
  import opened Values
  import opened PyRuntime

  /** The names `api_dependencies` keeps. */
  const MqttTools: seq<string> := ["paho-mqtt", "python-paho-mqtt", "mosquitto", "mosquitto-clients"]

  /**
   * `get_software_info`: the parsed output on exit status 0, whatever JSON value
   * it is; an empty dict on any other exit status, on output that is not JSON,
   * on a timeout and on any other exception.
   */
  function GetSoftwareInfo(run: Run): (info: Json)
    ensures run.Completed? && run.returncode == 0 && run.stdout.Parsed? ==> info == run.stdout.value
    ensures !(run.Completed? && run.returncode == 0 && run.stdout.Parsed?) ==> info == JObj([])
  {
    match run
    case Completed(0, Parsed(v), _) => v
    case _ => JObj([])
  }

  /** `tool.get('name') in mqtt_tools` for a tool that is a dict. */
  predicate Whitelisted(tool: Members)
  {
    match Lookup(tool, "name")
    case Some(JStr(name)) => name in MqttTools
    case _ => false
  }

  /** A tool the filter keeps: a dict whose name is on the list. */
  predicate Kept(tool: Json)
  {
    tool.JObj? && Whitelisted(tool.members)
  }

  /**
   * The inner loop over one category's list, as the loop runs it: each tool is
   * asked for its name, so the first tool that is not a dict raises
   * AttributeError and ends the request.
   */
  function FilterTools(tools: seq<Json>): (o: Outcome<seq<Json>>)
    ensures o.Ok? ==> forall t :: t in o.value ==> Kept(t)
    ensures o.Raise? ==> o.error.AttributeError? && o.error.attribute == "get"
    decreases |tools|
  {
    if tools == [] then Ok([])
    else
      match FilterTools(tools[..|tools| - 1])
      case Raise(e) => Raise(e)
      case Ok(kept) =>
        var tool := tools[|tools| - 1];
        if !tool.JObj? then Raise(AttributeError(TypeName(tool), "get"))
        else if Whitelisted(tool.members) then Ok(kept + [tool])
        else Ok(kept)
  }

  /** Every tool of the list is a dict. */
  predicate AllDicts(tools: seq<Json>)
  {
    forall i :: 0 <= i < |tools| ==> tools[i].JObj?
  }

  /** Reference definition: the kept tools of a list, in list order, duplicates included. */
  function Selected(tools: seq<Json>): seq<Json>
  {
    if tools == [] then []
    else (if Kept(tools[0]) then [tools[0]] else []) + Selected(tools[1..])
  }

  lemma {:induction false} SelectedAppend(a: seq<Json>, b: seq<Json>)
    ensures Selected(a + b) == Selected(a) + Selected(b)
    decreases |a|
  {
    if a == [] {
      assert a + b == b;
    } else {
      assert (a + b)[1..] == a[1..] + b;
      SelectedAppend(a[1..], b);
    }
  }

  /** The filter keeps exactly the whitelisted tools, in order, when every tool is a dict, and raises otherwise. */
  lemma {:induction false} FilterToolsIsSelected(tools: seq<Json>)
    ensures AllDicts(tools) ==> FilterTools(tools) == Ok(Selected(tools))
    ensures !AllDicts(tools) ==> FilterTools(tools).Raise?
    decreases |tools|
  {
    if tools != [] {
      var init := tools[..|tools| - 1];
      var last := tools[|tools| - 1];
      FilterToolsIsSelected(init);
      assert tools == init + [last];
      SelectedAppend(init, [last]);
      assert [last][1..] == [];
      assert Selected([last]) == if Kept(last) then [last] else [] by {
        assert Selected([last]) == (if Kept(last) then [last] else []) + Selected([]);
        assert Selected([]) == [];
      }
      assert forall i :: 0 <= i < |init| ==> init[i] == tools[i];
      assert AllDicts(tools) <==> AllDicts(init) && last.JObj?;
      if AllDicts(tools) && !Kept(last) {
        assert Selected(init) + [] == Selected(init);
      }
    }
  }

  /** Once a prefix of the list has raised, the whole list raises the same exception. */
  lemma {:induction false} FilterToolsRaisePersists(tools: seq<Json>, n: int)
    requires 0 <= n <= |tools| && FilterTools(tools[..n]).Raise?
    ensures FilterTools(tools) == FilterTools(tools[..n])
    decreases |tools| - n
  {
    if n < |tools| {
      assert tools[..n + 1][..n] == tools[..n];
      FilterToolsRaisePersists(tools, n + 1);
    } else {
      assert tools[..n] == tools;
    }
  }

  /**
   * The outer loop over the categories in the dict's iteration order: a list
   * contributes its kept tools, any other value nothing.
   */
  function Collect(info: Members, categories: seq<string>): (o: Outcome<seq<Json>>)
    ensures o.Ok? ==> forall t :: t in o.value ==> Kept(t)
    decreases |categories|
  {
    if categories == [] then Ok([])
    else
      match Collect(info, categories[..|categories| - 1])
      case Raise(e) => Raise(e)
      case Ok(list) =>
        match Lookup(info, categories[|categories| - 1])
        case Some(JArr(tools)) =>
          (match FilterTools(tools)
           case Raise(e) => Raise(e)
           case Ok(kept) => Ok(list + kept))
        case _ => Ok(list)
  }

  lemma {:induction false} CollectRaisePersists(info: Members, categories: seq<string>, n: int)
    requires 0 <= n <= |categories| && Collect(info, categories[..n]).Raise?
    ensures Collect(info, categories) == Collect(info, categories[..n])
    decreases |categories| - n
  {
    if n < |categories| {
      assert categories[..n + 1][..n] == categories[..n];
      CollectRaisePersists(info, categories, n + 1);
    } else {
      assert categories[..n] == categories;
    }
  }

  /** A category's value is well-formed for the filter: a list of dicts, or no list at all. */
  predicate CategoryOk(v: Option<Json>)
  {
    match v
    case Some(JArr(tools)) => AllDicts(tools)
    case _ => true
  }

  /** Reference definition: the kept tools of every list category, category by category. */
  function Flattened(info: Members, categories: seq<string>): seq<Json>
  {
    if categories == [] then []
    else
      (match Lookup(info, categories[0])
       case Some(JArr(tools)) => Selected(tools)
       case _ => []) + Flattened(info, categories[1..])
  }

  lemma {:induction false} FlattenedAppend(info: Members, a: seq<string>, b: seq<string>)
    ensures Flattened(info, a + b) == Flattened(info, a) + Flattened(info, b)
    decreases |a|
  {
    if a == [] {
      assert a + b == b;
    } else {
      assert (a + b)[1..] == a[1..] + b;
      FlattenedAppend(info, a[1..], b);
    }
  }

  /**
   * Category order then list order is kept, nothing is deduplicated, and
   * values that are not lists contribute nothing; a tool that is not a dict
   * makes the request raise.
   */
  lemma {:induction false} CollectIsFlattened(info: Members, categories: seq<string>)
    ensures (forall k :: k in categories ==> CategoryOk(Lookup(info, k))) ==>
      Collect(info, categories) == Ok(Flattened(info, categories))
    ensures (exists k :: k in categories && !CategoryOk(Lookup(info, k))) ==>
      Collect(info, categories).Raise?
    decreases |categories|
  {
    if categories != [] {
      var init := categories[..|categories| - 1];
      var k := categories[|categories| - 1];
      assert categories == init + [k];
      CollectIsFlattened(info, init);
      FlattenedAppend(info, init, [k]);
      assert [k][1..] == [];
      var contribution := match Lookup(info, k) case Some(JArr(tools)) => Selected(tools) case _ => [];
      assert Flattened(info, [k]) == contribution by {
        assert Flattened(info, [k]) == contribution + Flattened(info, []);
        assert Flattened(info, []) == [];
      }
      match Lookup(info, k) {
        case Some(JArr(tools)) =>
          FilterToolsIsSelected(tools);
        case _ =>
          assert Flattened(info, categories) == Flattened(info, init);
      }
    }
  }

  /** The reply body: `success` is always True, with the kept tools and the request time. */
  function DependenciesBody(software: seq<Json>, now: string): (j: Json)
    ensures Property(j, "success") == Some(JBool(true))
    ensures Property(j, "software") == Some(JArr(software))
    ensures Property(j, "timestamp") == Some(JStr(now))
  {
    var members := [("success", JBool(true)), ("software", JArr(software)), ("timestamp", JStr(now))];
    LookupAt(members, 0);
    LookupAt(members, 1);
    LookupAt(members, 2);
    JObj(members)
  }

  /**
   * What `api_dependencies` answers: an inventory that is not a dict has no
   * `items` and a tool that is not a dict has no `get`; neither exception is
   * caught.
   */
  function DependenciesReply(run: Run, now: string): (r: Reply)
    ensures r.JsonReply? ==> r.status == 200 && Property(r.body, "success") == Some(JBool(true))
    ensures r.JsonReply? ==>
      Property(r.body, "software").Some? && Property(r.body, "software").value.JArr? &&
      forall t :: t in Property(r.body, "software").value.items ==> Kept(t)
    ensures !GetSoftwareInfo(run).JObj? ==> r == Uncaught(AttributeError(TypeName(GetSoftwareInfo(run)), "items"))
    ensures var info := GetSoftwareInfo(run);
      info.JObj? && (forall k :: k in Keys(info.members) ==> CategoryOk(Lookup(info.members, k))) ==>
        r == JsonReply(DependenciesBody(Flattened(info.members, Keys(info.members)), now), 200)
    ensures var info := GetSoftwareInfo(run);
      info.JObj? && (exists k :: k in Keys(info.members) && !CategoryOk(Lookup(info.members, k))) ==> r.Uncaught?
  {
    var info := GetSoftwareInfo(run);
    if !info.JObj? then Uncaught(AttributeError(TypeName(info), "items"))
    else
      CollectIsFlattened(info.members, Keys(info.members));
      match Collect(info.members, Keys(info.members))
      case Raise(e) => Uncaught(e)
      case Ok(software) => JsonReply(DependenciesBody(software, now), 200)
  }

  /** The inner loop: the kept tools of one category's list, or the exception it raised. */
  method KeepMqttTools(tools: seq<Json>) returns (o: Outcome<seq<Json>>)
    ensures o == FilterTools(tools)
  {
    var kept: seq<Json> := [];
    var t := 0;
    while t < |tools|
      invariant 0 <= t <= |tools|
      invariant FilterTools(tools[..t]) == Ok(kept)
    {
      var tool := tools[t];
      assert tools[..t + 1][..t] == tools[..t];
      if !tool.JObj? {
        FilterToolsRaisePersists(tools, t + 1);
        return Raise(AttributeError(TypeName(tool), "get"));
      }
      if Whitelisted(tool.members) {
        kept := kept + [tool];
      }
      t := t + 1;
    }
    assert tools[..t] == tools;
    return Ok(kept);
  }

  /** One more category extends the collection by that category's kept tools. */
  lemma CollectStep(info: Members, categories: seq<string>, c: int, list: seq<Json>)
    requires 0 <= c < |categories| && Collect(info, categories[..c]) == Ok(list)
    ensures Collect(info, categories[..c + 1]) ==
      match Lookup(info, categories[c])
      case Some(JArr(tools)) =>
        (match FilterTools(tools)
         case Raise(e) => Raise(e)
         case Ok(kept) => Ok(list + kept))
      case _ => Ok(list)
  {
    assert categories[..c + 1][..c] == categories[..c];
  }

  /** The route: the outer loop over the categories, in the dict's iteration order. */
  method ApiDependencies(run: Run, now: string) returns (r: Reply)
    ensures r == DependenciesReply(run, now)
  {
    var info := GetSoftwareInfo(run);
    if !info.JObj? {
      return Uncaught(AttributeError(TypeName(info), "items"));
    }
    var categories := Keys(info.members);
    var softwareList: seq<Json> := [];
    var c := 0;
    while c < |categories|
      invariant 0 <= c <= |categories|
      invariant Collect(info.members, categories[..c]) == Ok(softwareList)
    {
      CollectStep(info.members, categories, c, softwareList);
      var tools := Lookup(info.members, categories[c]);
      if tools.Some? && tools.value.JArr? {
        var kept := KeepMqttTools(tools.value.items);
        if kept.Raise? {
          CollectRaisePersists(info.members, categories, c + 1);
          return Uncaught(kept.error);
        }
        softwareList := softwareList + kept.value;
      }
      c := c + 1;
    }
    assert categories[..c] == categories;
    r := JsonReply(DependenciesBody(softwareList, now), 200);
  }

  /** A failed inventory call still answers with success and an empty list. */
  lemma FailedInventoryGivesEmptyList(run: Run, now: string)
    requires !(run.Completed? && run.returncode == 0 && run.stdout.Parsed?)
    ensures DependenciesReply(run, now).JsonReply?
    ensures Property(DependenciesReply(run, now).body, "success") == Some(JBool(true))
    ensures Property(DependenciesReply(run, now).body, "software") == Some(JArr([]))
  {
    assert Keys([]) == [];
  }

  /** A JSON list as the inventory has no `items`: the route raises. */
  lemma ListInventoryIsUncaught(items: seq<Json>, stderr: string, now: string)
    ensures DependenciesReply(Completed(0, Parsed(JArr(items)), stderr), now)
         == Uncaught(AttributeError("list", "items"))
  {
  }

  /** `mosquitto_pub`, the name the browser looks for, is not on the server's list. */
  lemma PublisherNotWhitelisted(tool: Members)
    requires Lookup(tool, "name") == Some(JStr("mosquitto_pub"))
    ensures !Whitelisted(tool)
  {
  }
}
