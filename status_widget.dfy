/**
 * The MQTT status card on the index page (www/static/js/widgets/status_3x4_mqtt.js):
 * the mapping from a status object to the card's indicator, text and badge,
 * the card update that touches only the elements present, and the injection
 * of the card into the service grid.
 */
module StatusWidget {
  import opened Values
  import opened Browser

  /** The indicator's class: running or stopped. */
  function IndicatorClass(running: bool): (c: string)
    ensures c == "status-indicator running" <==> running
    ensures c == "status-indicator stopped" <==> !running
  {
    var c := "status-indicator " + (if running then "running" else "stopped");
    assert c[17] == if running then 'r' else 's';
    c
  }

  /** The status line's text. */
  function StatusText(running: bool): (t: string)
    ensures t == "Running" <==> running
    ensures t == "Stopped" <==> !running
  {
    if running then "Running" else "Stopped"
  }

  /** The badge's class and text. */
  datatype Badge = Badge(cls: string, text: string)

  /** The three badge kinds: `badge` followed by one of them is the badge's class. */
  const BadgeKinds: seq<string> := ["success", "warning", "error"]

  /**
   * The badge for `status.status` (compared with `===`, so only the three
   * strings match): active, inactive and error have their own badge, and every
   * other value, a missing one included, reads Not Installed.
   */
  function BadgeFor(status: Option<Json>): (b: Badge)
    ensures exists k :: k in BadgeKinds && b.cls == "badge " + k
    ensures status == Some(JStr("active")) <==> b == Badge("badge success", "Active")
    ensures status == Some(JStr("inactive")) <==> b == Badge("badge warning", "Inactive")
    ensures status == Some(JStr("error")) <==> b == Badge("badge error", "Error")
    ensures status !in {Some(JStr("active")), Some(JStr("inactive")), Some(JStr("error"))} <==>
      b == Badge("badge warning", "Not Installed")
  {
    var b :=
      if status == Some(JStr("active")) then Badge("badge " + "success", "Active")
      else if status == Some(JStr("inactive")) then Badge("badge " + "warning", "Inactive")
      else if status == Some(JStr("error")) then Badge("badge " + "error", "Error")
      else Badge("badge " + "warning", "Not Installed");
    assert BadgeKinds[0] == "success" && BadgeKinds[1] == "warning" && BadgeKinds[2] == "error";
    b
  }

  /** A badge class that says success or error always comes with the matching text. */
  lemma BadgeClassAndTextAgree(status: Option<Json>)
    ensures BadgeFor(status).cls == "badge success" <==> BadgeFor(status).text == "Active"
    ensures BadgeFor(status).cls == "badge error" <==> BadgeFor(status).text == "Error"
    ensures BadgeFor(status).cls == "badge warning" <==>
      BadgeFor(status).text == "Inactive" || BadgeFor(status).text == "Not Installed"
  {
  }

  /**
   * The card's elements: whether `#mqtt-service-widget` is on the page, and the
   * indicator's class, the status text, the badge and the time stamp, each None
   * when its element is missing.
   */
  datatype Card = Card(widgetPresent: bool, indicator: Option<string>, statusText: Option<string>,
                       badge: Option<Badge>, updated: Option<string>)

  /**
   * `updateMqttStatus` throws for a `null` status as soon as it reads a property
   * of it, which happens for the first of the indicator, the status text and
   * the badge that is present.
   */
  predicate UpdateThrows(c: Card, status: Json)
  {
    c.widgetPresent && status == JNull && (c.indicator.Some? || c.statusText.Some? || c.badge.Some?)
  }

  /**
   * `updateMqttStatus(status)` with `now` the formatted current time: without
   * the card nothing changes; otherwise each element present is rewritten and
   * each missing one stays missing.
   */
  function UpdateSpec(c: Card, status: Json, now: string): (r: Card)
    ensures !c.widgetPresent || UpdateThrows(c, status) ==> r == c
    ensures r.widgetPresent == c.widgetPresent
    ensures r.indicator.Some? == c.indicator.Some? && r.statusText.Some? == c.statusText.Some?
    ensures r.badge.Some? == c.badge.Some? && r.updated.Some? == c.updated.Some?
    ensures c.widgetPresent && status != JNull ==>
      (c.indicator.Some? ==> r.indicator == Some(IndicatorClass(JsTruthy(Property(status, "running"))))) &&
      (c.statusText.Some? ==> r.statusText == Some(StatusText(JsTruthy(Property(status, "running"))))) &&
      (c.badge.Some? ==> r.badge == Some(BadgeFor(Property(status, "status")))) &&
      (c.updated.Some? ==> r.updated == Some(now))
  {
    if !c.widgetPresent || UpdateThrows(c, status) then c
    else
      var running := JsTruthy(Property(status, "running"));
      Card(true,
           if c.indicator.Some? then Some(IndicatorClass(running)) else None,
           if c.statusText.Some? then Some(StatusText(running)) else None,
           if c.badge.Some? then Some(BadgeFor(Property(status, "status"))) else None,
           if c.updated.Some? then Some(now) else None)
  }

  /** A missing element does not keep the others from being updated. */
  lemma MissingIndicatorUpdatesTheRest(c: Card, status: Json, now: string)
    requires c.widgetPresent && c.indicator.None? && c.badge.Some? && status.JObj?
    ensures UpdateSpec(c, status, now).badge == Some(BadgeFor(Property(status, "status")))
  {
  }

  class StatusCard {
    var widgetPresent: bool
    var indicator: Option<string>
    var statusText: Option<string>
    var badge: Option<Badge>
    var updated: Option<string>

    function State(): Card
      reads this
    {
      Card(widgetPresent, indicator, statusText, badge, updated)
    }

    constructor (c: Card)
      ensures State() == c
    {
      widgetPresent, indicator, statusText, badge, updated := c.widgetPresent, c.indicator, c.statusText, c.badge, c.updated;
    }

    method Update(status: Json, now: string) returns (threw: bool)
      modifies this
      ensures threw <==> UpdateThrows(old(State()), status)
      ensures State() == UpdateSpec(old(State()), status, now)
    {
      if !widgetPresent {
        return false;
      }
      if indicator.Some? {
        if status == JNull {
          return true;
        }
        indicator := Some(IndicatorClass(JsTruthy(Property(status, "running"))));
      }
      if statusText.Some? {
        if status == JNull {
          return true;
        }
        statusText := Some(StatusText(JsTruthy(Property(status, "running"))));
      }
      if badge.Some? {
        if status == JNull {
          return true;
        }
        badge := Some(BadgeFor(Property(status, "status")));
      }
      if updated.Some? {
        updated := Some(now);
      }
      return false;
    }
  }

  // ----- Injection into the index page -------------------------------------------

  /** The widget request: an HTTP reply with its `ok` flag and text, or a failed request. */
  datatype WidgetFetch = Fetched(ok: bool, text: string) | FetchFailed

  /** `loadMqttWidget`: the reply's text when the request succeeded with an ok status, `null` otherwise. */
  function WidgetHtml(fetch: WidgetFetch): (html: Option<string>)
    ensures html.Some? <==> fetch.Fetched? && fetch.ok
    ensures html.Some? ==> html.value == fetch.text
  {
    match fetch
    case Fetched(ok, text) => if ok then Some(text) else None
    case FetchFailed => None
  }

  /**
   * The element `injectMqttWidget` appends, if any: a non-empty text must be
   * fetched and must contain `#mqtt-service-widget`. `find` stands for parsing
   * the text and querying that id, which is not part of this model.
   */
  function Injected(fetch: WidgetFetch, find: string -> Option<string>): (w: Option<string>)
    ensures w.Some? ==> WidgetHtml(fetch).Some? && WidgetHtml(fetch).value != "" && w == find(WidgetHtml(fetch).value)
    ensures WidgetHtml(fetch).Some? && WidgetHtml(fetch).value != "" ==> w == find(WidgetHtml(fetch).value)
  {
    match WidgetHtml(fetch)
    case Some(html) => if html != "" then find(html) else None
    case None => None
  }

  /** The route `loadMqttWidget` requests: the JSON status route of the status blueprint. */
  const CardRoute: string := "/api/widgets/mqtt/status"

  /** The route that renders the status card as HTML. */
  const WidgetRoute: string := "/api/mqtt/widget"

  /**
   * What the loader's request returns, given the server's two answers: the
   * text of the JSON status reply on `CardRoute`, the rendered card on
   * `WidgetRoute`; any other route is not served.
   */
  function FetchRoute(route: string, statusText: string, cardHtml: string): WidgetFetch
  {
    if route == CardRoute then Fetched(true, statusText)
    else if route == WidgetRoute then Fetched(true, cardHtml)
    else Fetched(false, "")
  }

  /** Text without a `<` holds no markup. */
  predicate NoMarkup(text: string)
  {
    forall i :: 0 <= i < |text| ==> text[i] != '<'
  }

  /**
   * As written, the loader requests `CardRoute`, whose JSON text carries no
   * markup; parsing it yields no element, so the card is never appended.
   */
  lemma CardRouteInjectsNothing(statusText: string, cardHtml: string, find: string -> Option<string>)
    requires NoMarkup(statusText)
    requires forall h :: NoMarkup(h) ==> find(h).None?
    ensures Injected(FetchRoute(CardRoute, statusText, cardHtml), find).None?
  {
    assert FetchRoute(CardRoute, statusText, cardHtml) == Fetched(true, statusText);
    assert statusText != "" ==> find(statusText).None?;
  }

  /** Requesting `WidgetRoute` instead appends the card whenever the rendered page holds it. */
  lemma WidgetRouteInjectsCard(statusText: string, cardHtml: string, find: string -> Option<string>)
    requires cardHtml != ""
    ensures Injected(FetchRoute(WidgetRoute, statusText, cardHtml), find) == find(cardHtml)
  {
    assert FetchRoute(WidgetRoute, statusText, cardHtml) == Fetched(true, cardHtml);
  }

  /** The paths `initMqtt` injects the card on. */
  predicate IsIndexPath(path: string)
  {
    path == "/" || path == "/index"
  }

  /** The service grid (`.three-column-grid`), its children, and the widget requests made so far. */
  class ServiceGrid {
    var present: bool
    var children: seq<string>
    var requests: nat

    constructor (present: bool, children: seq<string>)
      ensures this.present == present && this.children == children && requests == 0
    {
      this.present, this.children, requests := present, children, 0;
    }

    /**
     * `injectMqttWidget`: without the grid nothing is requested; otherwise the
     * widget is requested and appended when the guards let it through.
     */
    method Inject(fetch: WidgetFetch, find: string -> Option<string>)
      modifies this
      ensures present == old(present)
      ensures !present ==> children == old(children) && requests == old(requests)
      ensures present ==> requests == old(requests) + 1
      ensures present && Injected(fetch, find).Some? ==> children == old(children) + [Injected(fetch, find).value]
      ensures Injected(fetch, find).None? ==> children == old(children)
    {
      if !present {
        return;
      }
      requests := requests + 1;
      var html := WidgetHtml(fetch);
      if html.None? || html.value == "" {
        return;
      }
      var widget := find(html.value);
      if widget.None? {
        return;
      }
      children := children + [widget.value];
    }

    /** `initMqtt`: the card is injected on the index page only. */
    method Init(path: string, fetch: WidgetFetch, find: string -> Option<string>)
      modifies this
      ensures present == old(present)
      ensures !IsIndexPath(path) ==> children == old(children) && requests == old(requests)
      ensures IsIndexPath(path) && present ==> requests == old(requests) + 1
      ensures IsIndexPath(path) && !present ==> requests == old(requests)
      ensures IsIndexPath(path) && present && Injected(fetch, find).Some? ==>
        children == old(children) + [Injected(fetch, find).value]
      ensures IsIndexPath(path) && (!present || Injected(fetch, find).None?) ==> children == old(children)
      ensures children == old(children) ||
        (|children| == |old(children)| + 1 && children[..|old(children)|] == old(children))
    {
      if IsIndexPath(path) {
        Inject(fetch, find);
      }
    }
  }
}
