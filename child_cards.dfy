/**
 * What both variants of the tabs card share: the child card elements the host
 * factory builds, the host context handed to them, the lookup of the active
 * tab's element, the view `render` chooses and the size `getCardSize` reports.
 */
module ChildCards {
  import opened Wrappers
  import opened TabsConfig

  /** The host's context object (`HomeAssistant`), opaque here: each assignment is one revision. */
  datatype HomeAssistant = HomeAssistant(revision: nat)

  /** What the host factory builds for a card configuration: an element and the
      answer of its own `getCardSize`, `None` when it has none or answers nothing. */
  datatype ElementKind = ElementKind(reportedSize: Option<int>)

  /** The loaded card helpers; `createCardElement` may yield no element. */
  datatype CardHelpers = CardHelpers(createCardElement: Json -> Option<ElementKind>)

  /** The errors `prepareCardElement` throws. */
  datatype CardError = MissingId | CreationFailed

  /** A child card element created by the host factory; the card pushes `hass` into it. */
  class CardElement {
    const config: Json
    const reportedSize: Option<int>
    var hass: Option<HomeAssistant>

    constructor (config: Json, kind: ElementKind, hass: Option<HomeAssistant>)
      ensures this.config == config && reportedSize == kind.reportedSize && this.hass == hass
    {
      this.config := config;
      this.reportedSize := kind.reportedSize;
      this.hass := hass;
    }
  }

  /** What `render` shows: the forced warning, the forced error, or the tab bar
      with the active tab's body when its element exists. */
  datatype CardView = WarningView | ErrorView | ContentView(activeIndex: int, body: Option<CardElement>)

  const TabBarHeight: int := 2

  /** `tabs[index]`: the tab at `index`, nothing when the index is out of range. */
  function ActiveTab(tabs: seq<Tab>, index: int): (r: Option<Tab>)
    ensures r.Some? <==> 0 <= index < |tabs|
    ensures r.Some? ==> r.value == tabs[index]
  {
    if 0 <= index < |tabs| then Some(tabs[index]) else None
  }

  /** `activeTab ? cardElements[activeTab.id] : null`: the cached element of the active tab. */
  function ActiveElement(tabs: seq<Tab>, index: int, cache: map<string, CardElement>): (r: Option<CardElement>)
    ensures r.Some? <==> 0 <= index < |tabs| && tabs[index].id in cache
    ensures r.Some? ==> r.value == cache[tabs[index].id]
  {
    var tab := ActiveTab(tabs, index);
    if tab.Some? && tab.value.id in cache then Some(cache[tab.value.id]) else None
  }

  /** The branch `render` takes: warning first, then error, then the content. */
  function ViewOf(config: TabsCardConfig, index: int, cache: map<string, CardElement>): (v: CardView)
    ensures v.WarningView? <==> config.showWarning == Some(true)
    ensures v.ErrorView? <==> config.showWarning != Some(true) && config.showError == Some(true)
    ensures v.ContentView? ==> v.activeIndex == index
    ensures v.ContentView? && v.body.Some? <==>
              config.showWarning != Some(true) && config.showError != Some(true)
              && 0 <= index < |config.tabs| && config.tabs[index].id in cache
    ensures v.ContentView? && v.body.Some? ==> v.body.value == cache[config.tabs[index].id]
  {
    if config.showWarning == Some(true) then WarningView
    else if config.showError == Some(true) then ErrorView
    else ContentView(index, ActiveElement(config.tabs, index, cache))
  }

  /** `getCardSize`: the tab bar's two rows plus the active element's own size, one row
      when there is no element or it reports none. */
  function CardSizeOf(element: Option<CardElement>): (size: int)
    ensures element.Some? && element.value.reportedSize.Some? ==> size == TabBarHeight + element.value.reportedSize.value
    ensures element.None? || element.value.reportedSize.None? ==> size == TabBarHeight + 1
  {
    if element.Some? && element.value.reportedSize.Some? then TabBarHeight + element.value.reportedSize.value
    else TabBarHeight + 1
  }

  /** Whether `prepareCardElement(tab)` reaches the factory, given the ids already cached. */
  predicate CallsFactory(cached: set<string>, tab: Tab) {
    tab.id != "" && tab.id !in cached
  }

  /** How `prepareCardElement(tab)` ends: an empty id is refused before the cache is
      consulted, a cached id returns at once, a factory that yields nothing is a failure. */
  function PrepareResult(cached: set<string>, tab: Tab, helpers: CardHelpers): (r: Outcome<CardError>)
    ensures r == Fail(MissingId) <==> tab.id == ""
    ensures r == Fail(CreationFailed) <==> CallsFactory(cached, tab) && helpers.createCardElement(tab.card).None?
  {
    if tab.id == "" then Fail(MissingId)
    else if tab.id in cached then Pass
    else if helpers.createCardElement(tab.card).None? then Fail(CreationFailed)
    else Pass
  }

  /** The ids cached after `prepareCardElement(tab)`: at most the tab's own id is added,
      and only when the factory was called and built an element. */
  function CachedAfter(cached: set<string>, tab: Tab, helpers: CardHelpers): (after: set<string>)
    ensures cached <= after <= cached + {tab.id}
    ensures tab.id in after <==> tab.id in cached || (tab.id != "" && PrepareResult(cached, tab, helpers) == Pass)
    ensures PrepareResult(cached, tab, helpers).Fail? ==> after == cached
    ensures !CallsFactory(cached, tab) ==> after == cached
  {
    if CallsFactory(cached, tab) && helpers.createCardElement(tab.card).Some? then cached + {tab.id}
    else cached
  }

  /** Two sequential `prepareCardElement(tab)` calls cache what one does, and once the
      first has succeeded the second does not reach the factory. */
  lemma PrepareIdempotent(cached: set<string>, tab: Tab, helpers: CardHelpers)
    ensures CachedAfter(CachedAfter(cached, tab, helpers), tab, helpers) == CachedAfter(cached, tab, helpers)
    ensures PrepareResult(cached, tab, helpers) == Pass ==> !CallsFactory(CachedAfter(cached, tab, helpers), tab)
    ensures PrepareResult(cached, tab, helpers) == Pass ==> PrepareResult(CachedAfter(cached, tab, helpers), tab, helpers) == Pass
  {
  }

  /** The card is at least three rows high unless its element reports less than one row. */
  lemma CardSizeAtLeastThree(element: Option<CardElement>)
    requires element.Some? && element.value.reportedSize.Some? ==> element.value.reportedSize.value >= 1
    ensures CardSizeOf(element) >= 3
  {
  }

  // ---------------------------------------------------------------------------
  // The cache as the source declares it: a plain `{}` record, whose lookup also finds
  // the names every object inherits from `Object.prototype`

  /** The properties a plain object inherits from `Object.prototype`; each holds a
      function or an object, so a lookup under one of these names is truthy. */
  const ObjectPrototypeNames: set<string> :=
    {"constructor", "hasOwnProperty", "isPrototypeOf", "propertyIsEnumerable",
     "toLocaleString", "toString", "valueOf", "__proto__",
     "__defineGetter__", "__defineSetter__", "__lookupGetter__", "__lookupSetter__"}

  /** What `cardElements[id]` yields on a `{}` record. */
  datatype RecordEntry = Absent | Own(element: CardElement) | Inherited(name: string)

  /** `cardElements[id]` as written: an own entry first, then the inherited property. */
  function RecordLookup(cache: map<string, CardElement>, id: string): (r: RecordEntry)
    ensures r.Own? <==> id in cache
    ensures r.Own? ==> r.element == cache[id]
    ensures r.Inherited? <==> id !in cache && id in ObjectPrototypeNames
    ensures r == Absent <==> id !in cache && id !in ObjectPrototypeNames
  {
    if id in cache then Own(cache[id])
    else if id in ObjectPrototypeNames then Inherited(id)
    else Absent
  }

  /** Whether `prepareCardElement(tab)` as written reaches the factory: the truthiness
      test on the record also stops at an inherited name. */
  predicate CallsFactoryAsWritten(cache: map<string, CardElement>, tab: Tab) {
    tab.id != "" && RecordLookup(cache, tab.id) == Absent
  }

  /** The ids cached after `prepareCardElement(tab)` as written. */
  function CachedAfterAsWritten(cache: map<string, CardElement>, tab: Tab, helpers: CardHelpers): (after: set<string>)
    ensures cache.Keys <= after <= cache.Keys + {tab.id}
    ensures tab.id in ObjectPrototypeNames ==> after == cache.Keys
    ensures tab.id in after <==> tab.id in cache || (CallsFactoryAsWritten(cache, tab) && helpers.createCardElement(tab.card).Some?)
  {
    if CallsFactoryAsWritten(cache, tab) && helpers.createCardElement(tab.card).Some? then cache.Keys + {tab.id}
    else cache.Keys
  }

  /** A tab whose id is `constructor` (a string, so `tabStruct` accepts it) is never
      built by the record-based cache, and `render` finds the inherited `Object`
      function as its body; the own-key cache builds and shows its element. */
  lemma InheritedIdShadowsTab(helpers: CardHelpers)
    requires helpers.createCardElement(JObject(map["type" := JString("markdown")])).Some?
    ensures var tab := Tab("constructor", "A", JObject(map["type" := JString("markdown")]));
            && IsTab(TabJson(tab))
            && !CallsFactoryAsWritten(map[], tab)
            && CachedAfterAsWritten(map[], tab, helpers) == {}
            && RecordLookup(map[], tab.id) == Inherited("constructor")
            && CallsFactory({}, tab)
            && CachedAfter({}, tab, helpers) == {"constructor"}
  {
    var tab := Tab("constructor", "A", JObject(map["type" := JString("markdown")]));
    TabRoundTrip(JNull, tab);
  }

  /** With the own-key cache, preparing an active tab that has an id and whose card the
      factory builds leaves it cached, so `render` shows its element, whatever the id spells. */
  lemma OwnKeyCacheShowsEveryBuiltTab(config: TabsCardConfig, index: int, before: set<string>,
                                      cache: map<string, CardElement>, helpers: CardHelpers)
    requires config.showWarning != Some(true) && config.showError != Some(true)
    requires 0 <= index < |config.tabs|
    requires config.tabs[index].id != "" && helpers.createCardElement(config.tabs[index].card).Some?
    requires cache.Keys == CachedAfter(before, config.tabs[index], helpers)
    ensures config.tabs[index].id in cache
    ensures ViewOf(config, index, cache) == ContentView(index, Some(cache[config.tabs[index].id]))
  {
    var tab := config.tabs[index];
    if tab.id !in before {
      assert CallsFactory(before, tab);
    }
  }
}
