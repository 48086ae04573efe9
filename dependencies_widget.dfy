/**
 * The MQTT dependencies table (www/static/js/widgets/dependencies_4x2_mqtt.js):
 * the client looks its own tool list up in the software list the server
 * returns, renders one row per tool found, and falls back to a placeholder
 * row, or to an error row when loading failed.
 */
module DependenciesWidget {
  import opened Values
  import opened Browser

  /** A tool the table shows: the inventory name and the caption of its row. */
  datatype ClientTool = ClientTool(name: string, displayName: string)

  /** The client's own tool list. */
  const ClientTools: seq<ClientTool> := [ClientTool("mosquitto_pub", "Mosquitto Publisher")]

  /** The row shown when no tool was found. */
  const PlaceholderRow: string :=
    "<tr><td colspan=\"4\" style=\"text-align: center; padding: 20px; color: #999;\">Keine Informationen verfügbar</td></tr>"

  /** The row shown when loading failed. */
  const ErrorRow: string :=
    "<tr><td colspan=\"4\" style=\"text-align: center; padding: 20px; color: #e53e3e;\">Fehler beim Laden</td></tr>"

  /** `s.name === name`: only an object whose `name` is that very string matches. */
  predicate Matches(s: Json, name: string)
  {
    Property(s, "name") == Some(JStr(name))
  }

  /**
   * `items.find(s => s.name === name)`: the first element that matches; the
   * callback throws on a `null` element met before that.
   */
  function FindIn(items: seq<Json>, name: string): (r: Js<Option<Json>>)
    ensures r == Returned(None) <==> forall i :: 0 <= i < |items| ==> items[i] != JNull && !Matches(items[i], name)
    ensures r.Returned? && r.value.Some? ==> r.value.value in items && Matches(r.value.value, name)
    ensures r.Thrown? ==> JNull in items
  {
    if items == [] then Returned(None)
    else if items[0] == JNull then Thrown
    else if Matches(items[0], name) then Returned(Some(items[0]))
    else
      var r := FindIn(items[1..], name);
      assert forall i :: 1 <= i < |items| ==> items[i] == items[1..][i - 1];
      r
  }

  /**
   * Where `find` stops: at the first element that is `null` or matches; it
   * throws on the one and returns the other.
   */
  lemma {:induction false} FindInStopsAtFirst(items: seq<Json>, name: string, i: int)
    requires 0 <= i < |items|
    requires forall j :: 0 <= j < i ==> items[j] != JNull && !Matches(items[j], name)
    ensures items[i] == JNull ==> FindIn(items, name) == Thrown
    ensures Matches(items[i], name) ==> FindIn(items, name) == Returned(Some(items[i]))
  {
    if i > 0 {
      assert items[0] != JNull && !Matches(items[0], name);
      assert forall j :: 0 <= j < i - 1 ==> items[1..][j] == items[j + 1];
      FindInStopsAtFirst(items[1..], name, i - 1);
    }
  }

  /** `softwareList.find(...)`: anything but an array has no `find` method, and calling it throws. */
  function FindByName(list: Json, name: string): (r: Js<Option<Json>>)
    ensures !list.JArr? ==> r == Thrown
    ensures list.JArr? ==> r == FindIn(list.items, name)
  {
    match list
    case JArr(items) => FindIn(items, name)
    case _ => Thrown
  }

  /**
   * The rows the `forEach` over `tools` concatenates: each tool found (and
   * truthy) adds `render(displayName, software)`. `render` stands for
   * `renderSoftwareRow`, a shared helper that is not part of this model.
   */
  function Rows(tools: seq<ClientTool>, list: Json, render: (string, Json) -> string): Js<string>
  {
    if tools == [] then Returned("")
    else
      var last := tools[|tools| - 1];
      match Rows(tools[..|tools| - 1], list, render)
      case Thrown => Thrown
      case Returned(prefix) =>
        match FindByName(list, last.name)
        case Thrown => Thrown
        case Returned(found) =>
          Returned(prefix + if found.Some? && JsTruthy(found) then render(last.displayName, found.value) else "")
  }

  /** No lookup happens without tools, and an empty tool list renders nothing. */
  lemma RowsOfNoTools(list: Json, render: (string, Json) -> string)
    ensures Rows([], list, render) == Returned("")
  {
  }

  /** A tool list meets a software list that is not an array: the first lookup throws. */
  lemma {:induction false} RowsNeedAnArray(tools: seq<ClientTool>, list: Json, render: (string, Json) -> string)
    requires tools != [] && !list.JArr?
    ensures Rows(tools, list, render) == Thrown
  {
    if |tools| > 1 {
      RowsNeedAnArray(tools[..|tools| - 1], list, render);
    }
  }

  /** For the client's one tool: its row when found, nothing when not, a throw on an early `null`. */
  lemma RowsOfClientTools(list: Json, render: (string, Json) -> string)
    ensures FindByName(list, "mosquitto_pub").Thrown? ==> Rows(ClientTools, list, render) == Thrown
    ensures FindByName(list, "mosquitto_pub") == Returned(None) ==> Rows(ClientTools, list, render) == Returned("")
    ensures FindByName(list, "mosquitto_pub").Returned? && FindByName(list, "mosquitto_pub").value.Some? ==>
      Rows(ClientTools, list, render) == Returned(render("Mosquitto Publisher", FindByName(list, "mosquitto_pub").value.value))
  {
    assert ClientTools[..|ClientTools| - 1] == [];
    var tool := ClientTools[|ClientTools| - 1];
    assert tool.name == "mosquitto_pub" && tool.displayName == "Mosquitto Publisher";
    var found := FindByName(list, "mosquitto_pub");
    if found.Returned? && found.value.Some? {
      assert found.value.value.JObj?;
      var row := render(tool.displayName, found.value.value);
      assert "" + row == row;
    } else if found.Returned? {
      assert "" + "" == "";
    }
  }

  /**
   * The table body after `updateMqttDependencies(software)`, and whether it
   * threw: without the table body nothing happens (before any lookup); a throw
   * leaves the body as it was; an empty result becomes the placeholder row.
   */
  function UpdateSpec(tbody: Option<string>, software: Json, render: (string, Json) -> string): (r: (Option<string>, bool))
    ensures tbody.None? ==> r == (None, false)
    ensures r.1 ==> r.0 == tbody
    ensures tbody.Some? && !r.1 ==> r.0.Some? && r.0.value != ""
    ensures tbody.Some? && Rows(ClientTools, software, render) == Returned("") ==> r == (Some(PlaceholderRow), false)
    ensures tbody.Some? && Rows(ClientTools, software, render).Returned? && Rows(ClientTools, software, render).value != "" ==>
      r == (Some(Rows(ClientTools, software, render).value), false)
    ensures tbody.Some? && Rows(ClientTools, software, render).Thrown? ==> r == (tbody, true)
  {
    if tbody.None? then (None, false)
    else
      match Rows(ClientTools, software, render)
      case Thrown => (tbody, true)
      case Returned(html) => (Some(if html == "" then PlaceholderRow else html), false)
  }

  /** `showMqttDependenciesError`: the error row, if there is a table body. */
  function ErrorSpec(tbody: Option<string>): (r: Option<string>)
    ensures r.Some? <==> tbody.Some?
    ensures r.Some? ==> r.value == ErrorRow
  {
    if tbody.Some? then Some(ErrorRow) else None
  }

  /** `data.success && data.software`: reading a property of `null` throws. */
  predicate ReadsSoftware(data: Json)
  {
    data != JNull && JsTruthy(Property(data, "success")) && JsTruthy(Property(data, "software"))
  }

  /**
   * `loadMqttDependencies` once its request settles: a failed request, a `null`
   * reply or a throwing update ends in the `catch`, which shows the error row;
   * a reply without success or software leaves the table alone.
   */
  function LoadSpec(tbody: Option<string>, reply: HttpReply, render: (string, Json) -> string): (r: Option<string>)
    ensures tbody.None? ==> r.None?
    ensures reply.NoAnswer? || reply.body == JNull ==> r == ErrorSpec(tbody)
    ensures reply.Answered? && reply.body != JNull && !ReadsSoftware(reply.body) ==> r == tbody
    ensures reply.Answered? && ReadsSoftware(reply.body) ==>
      var u := UpdateSpec(tbody, Property(reply.body, "software").value, render);
      r == if u.1 then ErrorSpec(tbody) else u.0
  {
    match reply
    case NoAnswer(_) => ErrorSpec(tbody)
    case Answered(data) =>
      if data == JNull then ErrorSpec(tbody)
      else if !ReadsSoftware(data) then tbody
      else
        var (next, threw) := UpdateSpec(tbody, Property(data, "software").value, render);
        if threw then ErrorSpec(tbody) else next
  }

  /** A software list without the publisher, and without `null`s, shows the placeholder row. */
  lemma NoPublisherShowsPlaceholder(html: string, items: seq<Json>, render: (string, Json) -> string)
    requires forall i :: 0 <= i < |items| ==> items[i] != JNull && !Matches(items[i], "mosquitto_pub")
    ensures LoadSpec(Some(html), Answered(JObj([("success", JBool(true)), ("software", JArr(items))])), render)
         == Some(PlaceholderRow)
  {
    var data := JObj([("success", JBool(true)), ("software", JArr(items))]);
    LookupAt(data.members, 0);
    LookupAt(data.members, 1);
    RowsOfClientTools(JArr(items), render);
  }

  /** A software list that is not an array makes the update throw: the error row is shown. */
  lemma NonArraySoftwareShowsError(html: string, data: Json, render: (string, Json) -> string)
    requires data != JNull && ReadsSoftware(data) && !Property(data, "software").value.JArr?
    ensures LoadSpec(Some(html), Answered(data), render) == Some(ErrorRow)
  {
    RowsNeedAnArray(ClientTools, Property(data, "software").value, render);
  }

  /** The table body of the dependencies widget (`#mqtt-dependencies-tbody`), None when missing. */
  class DependencyTable {
    var tbody: Option<string>

    constructor (tbody: Option<string>)
      ensures this.tbody == tbody
    {
      this.tbody := tbody;
    }

    /** The `forEach` loop: the rows for `tools`, or the throw of a lookup. */
    static method RenderRows(tools: seq<ClientTool>, list: Json, render: (string, Json) -> string) returns (r: Js<string>)
      ensures r == Rows(tools, list, render)
    {
      var html := "";
      var i := 0;
      while i < |tools|
        invariant 0 <= i <= |tools|
        invariant Rows(tools[..i], list, render) == Returned(html)
      {
        assert tools[..i + 1][..i] == tools[..i];
        var found := FindByName(list, tools[i].name);
        if found.Thrown? {
          RowsThrowPersists(tools, list, render, i + 1);
          return Thrown;
        }
        if found.value.Some? && JsTruthy(found.value) {
          html := html + render(tools[i].displayName, found.value.value);
        } else {
          assert html + "" == html;
        }
        i := i + 1;
      }
      assert tools[..i] == tools;
      return Returned(html);
    }

    /** `updateMqttDependencies(software)`. */
    method Update(software: Json, render: (string, Json) -> string) returns (threw: bool)
      modifies this
      ensures (tbody, threw) == UpdateSpec(old(tbody), software, render)
    {
      if tbody.None? {
        return false;
      }
      var rows := RenderRows(ClientTools, software, render);
      if rows.Thrown? {
        return true;
      }
      var html := rows.value;
      if html == "" {
        html := PlaceholderRow;
      }
      tbody := Some(html);
      return false;
    }

    /** `showMqttDependenciesError`. */
    method ShowError()
      modifies this
      ensures tbody == ErrorSpec(old(tbody))
    {
      if tbody.Some? {
        tbody := Some(ErrorRow);
      }
    }

    /** `loadMqttDependencies` with the settled request. */
    method Load(reply: HttpReply, render: (string, Json) -> string)
      modifies this
      ensures tbody == LoadSpec(old(tbody), reply, render)
    {
      if reply.NoAnswer? || reply.body == JNull {
        ShowError();
        return;
      }
      var data := reply.body;
      if JsTruthy(Property(data, "success")) && JsTruthy(Property(data, "software")) {
        var threw := Update(Property(data, "software").value, render);
        if threw {
          ShowError();
        }
      }
    }
  }

  /** Once a lookup throws, the rows throw whatever tools follow. */
  lemma {:induction false} RowsThrowPersists(tools: seq<ClientTool>, list: Json, render: (string, Json) -> string, n: int)
    requires 0 < n <= |tools|
    requires Rows(tools[..n - 1], list, render).Returned?
    requires FindByName(list, tools[n - 1].name).Thrown?
    ensures Rows(tools, list, render) == Thrown
  {
    if n == |tools| {
      assert tools[..n - 1] == tools[..|tools| - 1];
    } else {
      assert tools[..|tools| - 1][..n - 1] == tools[..n - 1];
      assert tools[..|tools| - 1][n - 1] == tools[n - 1];
      RowsThrowPersists(tools[..|tools| - 1], list, render, n);
    }
  }
}
