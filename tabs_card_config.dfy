/**
 * The shape of the tabs card's configuration (src/cards/tabs/tabs-card.config.ts):
 * the validators as predicates over JSON-like values, the typed records the card and
 * the editor work on, the conversions between the two, the initial configuration and
 * the tab form's schema.
 */
module TabsConfig {
  import opened Wrappers

  /** A configuration value as the host hands it over. A key missing from an
      object stands for `undefined`; numbers are integral in this model. */
  datatype Json =
    | JNull
    | JBool(b: bool)
    | JNumber(n: int)
    | JString(s: string)
    | JArray(items: seq<Json>)
    | JObject(fields: map<string, Json>)

  /** The allowed values of `layout`. */
  datatype Layout = Horizontal | Vertical | Default

  /** One tab: identity, user-visible label and the embedded card's configuration. */
  datatype Tab = Tab(id: string, labelText: string, card: Json)

  /** A configuration that passed validation; an absent optional key is `None`. */
  datatype TabsCardConfig = TabsCardConfig(
    cardType: string,
    tabs: seq<Tab>,
    layout: Option<Layout>,
    fillContainer: Option<bool>,
    showWarning: Option<bool>,
    showError: Option<bool>,
    testGui: Option<bool>,
    index: Option<int>,
    viewIndex: Option<int>,
    viewLayout: Option<Json>,
    layoutOptions: Option<Json>,
    gridOptions: Option<Json>,
    visibility: Option<Json>)

  const PrefixName: string := "standard"
  const TabsCardTagName: string := PrefixName + "-tabs-card"

  /** Keys an object-struct accepts; any other key makes validation fail. */
  const TabKeys: set<string> := {"id", "label", "card"}
  const ConfigKeys: set<string> :=
    {"index", "view_index", "view_layout", "type", "layout_options", "grid_options",
     "visibility", "show_warning", "show_error", "test_gui",
     "layout", "fill_container", "tabs"}

  // ---------------------------------------------------------------------------
  // Validators: `layoutStruct`, `tabStruct`, `tabsCardConfigStruct`

  predicate IsLayout(v: Json) {
    v == JString("horizontal") || v == JString("vertical") || v == JString("default")
  }

  /** `s.type({ type: s.string() })`: an object with a string `type`; other keys are allowed. */
  predicate IsCardShape(v: Json) {
    v.JObject? && "type" in v.fields && v.fields["type"].JString?
  }

  /** `tabStruct`: exactly the keys `id`, `label` (strings) and `card`. */
  predicate IsTab(v: Json) {
    && v.JObject?
    && v.fields.Keys == TabKeys
    && v.fields["id"].JString?
    && v.fields["label"].JString?
    && IsCardShape(v.fields["card"])
  }

  predicate OptionalBool(m: map<string, Json>, key: string) {
    key in m ==> m[key].JBool?
  }

  predicate OptionalNumber(m: map<string, Json>, key: string) {
    key in m ==> m[key].JNumber?
  }

  predicate IsTabList(v: Json) {
    v.JArray? && forall i :: 0 <= i < |v.items| ==> IsTab(v.items[i])
  }

  /** `tabsCardConfigStruct`: the card fields, the appearance fields and `tabs`, no other key. */
  predicate IsTabsCardConfig(v: Json) {
    && v.JObject?
    && v.fields.Keys <= ConfigKeys
    && "type" in v.fields && v.fields["type"].JString?
    && "tabs" in v.fields && IsTabList(v.fields["tabs"])
    && ("layout" in v.fields ==> IsLayout(v.fields["layout"]))
    && OptionalNumber(v.fields, "index")
    && OptionalNumber(v.fields, "view_index")
    && OptionalBool(v.fields, "show_warning")
    && OptionalBool(v.fields, "show_error")
    && OptionalBool(v.fields, "test_gui")
    && OptionalBool(v.fields, "fill_container")
  }

  /** The error `setConfig` raises when it refuses a configuration. */
  datatype ConfigError = InvalidConfiguration

  /** A typed tab whose card could have come through validation. */
  predicate WellFormedTab(t: Tab) {
    IsCardShape(t.card)
  }

  predicate WellFormedConfig(c: TabsCardConfig) {
    forall i :: 0 <= i < |c.tabs| ==> WellFormedTab(c.tabs[i])
  }

  // ---------------------------------------------------------------------------
  // From validated values to typed records

  function LayoutFrom(v: Json): (l: Layout)
    requires IsLayout(v)
    ensures LayoutJson(l) == v
  {
    if v == JString("horizontal") then Horizontal
    else if v == JString("vertical") then Vertical
    else Default
  }

  function TabFrom(v: Json): (t: Tab)
    requires IsTab(v)
    ensures WellFormedTab(t)
  {
    Tab(v.fields["id"].s, v.fields["label"].s, v.fields["card"])
  }

  function TabsFrom(items: seq<Json>): (tabs: seq<Tab>)
    requires forall i :: 0 <= i < |items| ==> IsTab(items[i])
  {
    seq(|items|, i requires 0 <= i < |items| => TabFrom(items[i]))
  }

  function OptBool(m: map<string, Json>, key: string): Option<bool>
    requires OptionalBool(m, key)
  {
    if key in m then Some(m[key].b) else None
  }

  function OptNumber(m: map<string, Json>, key: string): Option<int>
    requires OptionalNumber(m, key)
  {
    if key in m then Some(m[key].n) else None
  }

  function OptAny(m: map<string, Json>, key: string): Option<Json> {
    if key in m then Some(m[key]) else None
  }

  /** The typed view of a configuration that passed `tabsCardConfigStruct`. */
  function ConfigFrom(v: Json): (c: TabsCardConfig)
    requires IsTabsCardConfig(v)
    ensures WellFormedConfig(c)
    ensures |c.tabs| == |v.fields["tabs"].items|
  {
    var m := v.fields;
    TabsCardConfig(
      m["type"].s,
      TabsFrom(m["tabs"].items),
      if "layout" in m then Some(LayoutFrom(m["layout"])) else None,
      OptBool(m, "fill_container"),
      OptBool(m, "show_warning"),
      OptBool(m, "show_error"),
      OptBool(m, "test_gui"),
      OptNumber(m, "index"),
      OptNumber(m, "view_index"),
      OptAny(m, "view_layout"),
      OptAny(m, "layout_options"),
      OptAny(m, "grid_options"),
      OptAny(m, "visibility"))
  }

  // ---------------------------------------------------------------------------
  // From typed records back to values

  function LayoutJson(l: Layout): Json {
    match l
    case Horizontal => JString("horizontal")
    case Vertical => JString("vertical")
    case Default => JString("default")
  }

  function TabJson(t: Tab): Json {
    JObject(map["id" := JString(t.id), "label" := JString(t.labelText), "card" := t.card])
  }

  function TabsJson(tabs: seq<Tab>): seq<Json> {
    seq(|tabs|, i requires 0 <= i < |tabs| => TabJson(tabs[i]))
  }

  function BoolJson(b: Option<bool>): Option<Json> {
    if b.Some? then Some(JBool(b.value)) else None
  }

  function NumberJson(n: Option<int>): Option<Json> {
    if n.Some? then Some(JNumber(n.value)) else None
  }

  /** The value a typed configuration stores under `key`, if any. */
  function FieldOf(c: TabsCardConfig, key: string): Option<Json> {
    if key == "type" then Some(JString(c.cardType))
    else if key == "tabs" then Some(JArray(TabsJson(c.tabs)))
    else if key == "layout" then (if c.layout.Some? then Some(LayoutJson(c.layout.value)) else None)
    else if key == "fill_container" then BoolJson(c.fillContainer)
    else if key == "show_warning" then BoolJson(c.showWarning)
    else if key == "show_error" then BoolJson(c.showError)
    else if key == "test_gui" then BoolJson(c.testGui)
    else if key == "index" then NumberJson(c.index)
    else if key == "view_index" then NumberJson(c.viewIndex)
    else if key == "view_layout" then c.viewLayout
    else if key == "layout_options" then c.layoutOptions
    else if key == "grid_options" then c.gridOptions
    else if key == "visibility" then c.visibility
    else None
  }

  function ConfigJson(c: TabsCardConfig): Json {
    JObject(map key | key in ConfigKeys && FieldOf(c, key).Some? :: FieldOf(c, key).value)
  }

  // ---------------------------------------------------------------------------
  // Round trips: the validators accept exactly what the typed records describe

  lemma LayoutRoundTrip(l: Layout)
    ensures IsLayout(LayoutJson(l)) && LayoutFrom(LayoutJson(l)) == l
  {
  }

  /** A valid tab value is the encoding of its typed view, and a typed tab with a
      card shape encodes to a valid tab value that decodes back to it. */
  lemma TabRoundTrip(v: Json, t: Tab)
    ensures IsTab(v) ==> TabJson(TabFrom(v)) == v
    ensures WellFormedTab(t) ==> IsTab(TabJson(t)) && TabFrom(TabJson(t)) == t
  {
    if IsTab(v) {
      var m := v.fields;
      var m' := TabJson(TabFrom(v)).fields;
      assert m'.Keys == m.Keys;
      assert forall k :: k in m ==> m'[k] == m[k];
    }
  }

  lemma TabsRoundTrip(tabs: seq<Tab>)
    requires forall i :: 0 <= i < |tabs| ==> WellFormedTab(tabs[i])
    ensures IsTabList(JArray(TabsJson(tabs)))
    ensures TabsFrom(TabsJson(tabs)) == tabs
  {
    var items := TabsJson(tabs);
    forall i | 0 <= i < |tabs|
      ensures IsTab(items[i]) && TabFrom(items[i]) == tabs[i]
    {
      TabRoundTrip(JNull, tabs[i]);
    }
  }

  /** Encoding a well-formed typed configuration gives a value the validator accepts,
      and reading it back gives the same configuration. */
  lemma ConfigRoundTrip(c: TabsCardConfig)
    requires WellFormedConfig(c)
    ensures IsTabsCardConfig(ConfigJson(c))
    ensures ConfigFrom(ConfigJson(c)) == c
  {
    TabsRoundTrip(c.tabs);
    if c.layout.Some? {
      LayoutRoundTrip(c.layout.value);
    }
    var m := ConfigJson(c).fields;
    assert "type" in m && "tabs" in m;
    forall key | key in ConfigKeys
      ensures OptAny(m, key) == FieldOf(c, key)
    {
    }
  }

  /** Key by key, the typed view keeps what the validated value stores. */
  lemma FieldOfConfigFrom(v: Json, key: string)
    requires IsTabsCardConfig(v)
    ensures FieldOf(ConfigFrom(v), key) == (if key in ConfigKeys then OptAny(v.fields, key) else None)
  {
    var m := v.fields;
    if key == "tabs" {
      var items := m["tabs"].items;
      forall i | 0 <= i < |items|
        ensures TabJson(TabFrom(items[i])) == items[i]
      {
        TabRoundTrip(items[i], Tab("", "", JNull));
      }
      assert TabsJson(TabsFrom(items)) == items;
    }
  }

  /** A value the validator accepts is exactly the encoding of its typed view:
      nothing the validator lets through is lost by the typed record. */
  lemma ConfigJsonOfConfigFrom(v: Json)
    requires IsTabsCardConfig(v)
    ensures ConfigJson(ConfigFrom(v)) == v
  {
    var m := v.fields;
    var m' := ConfigJson(ConfigFrom(v)).fields;
    forall key | key in ConfigKeys
      ensures FieldOf(ConfigFrom(v), key) == OptAny(m, key)
    {
      FieldOfConfigFrom(v, key);
    }
    assert m'.Keys == m.Keys;
    assert forall k :: k in m ==> m'[k] == m[k];
  }

  // ---------------------------------------------------------------------------
  // Initial configuration and the tab form

  /** `getInitialConfig`: no tabs, horizontal layout, the card's own type, and nothing else set. */
  function InitialConfig(): (c: TabsCardConfig)
    ensures c.tabs == [] && c.layout == Some(Horizontal)
    ensures c.cardType == "custom:standard-tabs-card"
    ensures forall key :: key in ConfigKeys ==> (FieldOf(c, key).Some? <==> key in {"type", "tabs", "layout"})
  {
    TabsCardConfig("custom:" + TabsCardTagName, [], Some(Horizontal),
                   None, None, None, None, None, None, None, None, None, None)
  }

  /** The initial configuration passes the validator the editor applies. */
  lemma InitialConfigValid()
    ensures IsTabsCardConfig(ConfigJson(InitialConfig()))
    ensures ConfigJson(InitialConfig()).fields.Keys == {"type", "tabs", "layout"}
  {
    ConfigRoundTrip(InitialConfig());
  }

  /** One field of an `ha-form` schema. */
  datatype FormField = FormField(name: string, disabled: bool)

  /** `tabFormSchema`: the id is shown read-only, the label is editable. */
  const TabFormSchema: seq<FormField> := [FormField("id", true), FormField("label", false)]

  /** The names of the fields a user can change in a form with this schema. */
  function EditableFields(schema: seq<FormField>): (names: seq<string>)
    ensures forall n :: n in names <==> exists i :: 0 <= i < |schema| && schema[i].name == n && !schema[i].disabled
  {
    if schema == [] then []
    else (if schema[0].disabled then [] else [schema[0].name]) + EditableFields(schema[1..])
  }

  lemma OnlyLabelEditable()
    ensures EditableFields(TabFormSchema) == ["label"]
    ensures forall i :: 0 <= i < |TabFormSchema| ==> (TabFormSchema[i].name in TabKeys - {"card"})
  {
  }
}
