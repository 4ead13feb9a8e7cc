/**
 * The older variant of the tabs card (src/standard-card-tabs.ts, class
 * `StandardCardTabs`): the same selection and child-element cache, an activation
 * handler that checks the event's index is a number, and `hass` as a plain field
 * that is not pushed into the cached elements.
 */
module LegacyTabsCard {
  import opened Wrappers
  import opened TabsConfig
  import opened ChildCards

  class StandardCardTabs {
    var hass: Option<HomeAssistant>
    var cardElements: map<string, CardElement>
    var helpers: Option<CardHelpers>
    var config: TabsCardConfig
    var selectedTabIndex: int
    /** The configurations handed to `createCardElement`, in call order. */
    var factoryCalls: seq<Json>

    /** No element is cached under an empty id. */
    ghost predicate Valid()
      reads this
    {
      "" !in cardElements
    }

    constructor ()
      ensures Valid()
      ensures hass == None && cardElements == map[] && helpers == None
      ensures config == InitialConfig() && selectedTabIndex == 0 && factoryCalls == []
    {
      hass := None;
      cardElements := map[];
      helpers := None;
      config := InitialConfig();
      selectedTabIndex := 0;
      factoryCalls := [];
    }

    /** Assigning the plain `hass` field: the cached elements keep the context they were created with. */
    method SetHass(value: HomeAssistant)
      requires Valid()
      modifies this
      ensures Valid()
      ensures hass == Some(value)
      ensures cardElements == old(cardElements)
      ensures helpers == old(helpers) && config == old(config)
      ensures selectedTabIndex == old(selectedTabIndex) && factoryCalls == old(factoryCalls)
    {
      hass := Some(value);
    }

    /** The card helpers have loaded; a card that already has helpers keeps them. */
    method ConnectedCallback(loaded: CardHelpers)
      requires Valid()
      modifies this
      ensures Valid()
      ensures helpers == if old(helpers).Some? then old(helpers) else Some(loaded)
      ensures hass == old(hass) && cardElements == old(cardElements) && config == old(config)
      ensures selectedTabIndex == old(selectedTabIndex) && factoryCalls == old(factoryCalls)
    {
      if helpers.None? {
        helpers := Some(loaded);
      }
    }

    /** `setConfig`: a missing configuration is refused, any other replaces the current one. */
    method SetConfig(newConfig: Option<TabsCardConfig>) returns (r: Outcome<ConfigError>)
      requires Valid()
      modifies this
      ensures Valid()
      ensures r.Fail? <==> newConfig.None?
      ensures config == if newConfig.Some? then newConfig.value else old(config)
      ensures hass == old(hass) && cardElements == old(cardElements) && helpers == old(helpers)
      ensures selectedTabIndex == old(selectedTabIndex) && factoryCalls == old(factoryCalls)
    {
      if newConfig.None? {
        return Fail(InvalidConfiguration);
      }
      config := newConfig.value;
      r := Pass;
    }

    /** `prepareCardElement`, once the helpers are there: create the tab's element
        unless its id is empty or already cached, and cache it with the current context. */
    method PrepareCardElement(tab: Tab) returns (r: Outcome<CardError>)
      requires Valid() && helpers.Some?
      modifies this
      ensures Valid()
      ensures hass == old(hass) && helpers == old(helpers) && config == old(config)
      ensures selectedTabIndex == old(selectedTabIndex)
      ensures r == PrepareResult(old(cardElements.Keys), tab, helpers.value)
      ensures cardElements.Keys == CachedAfter(old(cardElements.Keys), tab, helpers.value)
      ensures forall k :: k in old(cardElements) ==> cardElements[k] == old(cardElements[k])
      ensures tab.id in cardElements && tab.id !in old(cardElements) ==>
                && fresh(cardElements[tab.id])
                && cardElements[tab.id].config == tab.card
                && cardElements[tab.id].hass == hass
                && Some(ElementKind(cardElements[tab.id].reportedSize)) == helpers.value.createCardElement(tab.card)
      ensures factoryCalls == old(factoryCalls) + if CallsFactory(old(cardElements.Keys), tab) then [tab.card] else []
    {
      if tab.id == "" {
        return Fail(MissingId);
      }
      if tab.id in cardElements {
        return Pass;
      }
      factoryCalls := factoryCalls + [tab.card];
      var kind := helpers.value.createCardElement(tab.card);
      if kind.None? {
        return Fail(CreationFailed);
      }
      var element := new CardElement(tab.card, kind.value, hass);
      cardElements := cardElements[tab.id := element];
      r := Pass;
    }

    /** `firstUpdated`: prepare the element of the selected tab, if that tab exists. */
    method FirstUpdated()
      requires Valid()
      requires 0 <= selectedTabIndex < |config.tabs| ==> helpers.Some?
      modifies this
      ensures Valid()
      ensures hass == old(hass) && helpers == old(helpers) && config == old(config)
      ensures selectedTabIndex == old(selectedTabIndex)
      ensures !(0 <= selectedTabIndex < |config.tabs|) ==> cardElements == old(cardElements) && factoryCalls == old(factoryCalls)
      ensures 0 <= selectedTabIndex < |config.tabs| ==>
                && cardElements.Keys == CachedAfter(old(cardElements.Keys), config.tabs[selectedTabIndex], helpers.value)
                && factoryCalls == old(factoryCalls)
                     + (if CallsFactory(old(cardElements.Keys), config.tabs[selectedTabIndex]) then [config.tabs[selectedTabIndex].card] else [])
                && forall k :: k in cardElements && k !in old(cardElements) ==>
                     && cardElements[k].config == config.tabs[selectedTabIndex].card
                     && Some(ElementKind(cardElements[k].reportedSize)) == helpers.value.createCardElement(config.tabs[selectedTabIndex].card)
      ensures forall k :: k in old(cardElements) ==> k in cardElements && cardElements[k] == old(cardElements[k])
      ensures forall k :: k in cardElements && k !in old(cardElements) ==> fresh(cardElements[k]) && cardElements[k].hass == hass
    {
      var currentTab := ActiveTab(config.tabs, selectedTabIndex);
      if currentTab.None? {
        return;
      }
      var _ := PrepareCardElement(currentTab.value);
    }

    /** `onTabActivated` for the `MDCTabBar:activated` event: a `detail.index` that is
        not a number changes nothing; a number is stored even out of range, and the
        element of the tab at that index is prepared if there is one. */
    method OnTabActivated(detailIndex: Json)
      requires Valid()
      requires detailIndex.JNumber? && 0 <= detailIndex.n < |config.tabs| ==> helpers.Some?
      modifies this
      ensures Valid()
      ensures hass == old(hass) && helpers == old(helpers) && config == old(config)
      ensures !detailIndex.JNumber? ==>
                selectedTabIndex == old(selectedTabIndex) && cardElements == old(cardElements) && factoryCalls == old(factoryCalls)
      ensures detailIndex.JNumber? ==> selectedTabIndex == detailIndex.n
      ensures detailIndex.JNumber? && !(0 <= detailIndex.n < |config.tabs|) ==>
                cardElements == old(cardElements) && factoryCalls == old(factoryCalls)
      ensures detailIndex.JNumber? && 0 <= detailIndex.n < |config.tabs| ==>
                && cardElements.Keys == CachedAfter(old(cardElements.Keys), config.tabs[detailIndex.n], helpers.value)
                && factoryCalls == old(factoryCalls)
                     + (if CallsFactory(old(cardElements.Keys), config.tabs[detailIndex.n]) then [config.tabs[detailIndex.n].card] else [])
                && forall k :: k in cardElements && k !in old(cardElements) ==>
                     && cardElements[k].config == config.tabs[detailIndex.n].card
                     && Some(ElementKind(cardElements[k].reportedSize)) == helpers.value.createCardElement(config.tabs[detailIndex.n].card)
      ensures forall k :: k in old(cardElements) ==> k in cardElements && cardElements[k] == old(cardElements[k])
      ensures forall k :: k in cardElements && k !in old(cardElements) ==> fresh(cardElements[k]) && cardElements[k].hass == hass
    {
      if !detailIndex.JNumber? {
        return;
      }
      selectedTabIndex := detailIndex.n;
      var currentTab := ActiveTab(config.tabs, selectedTabIndex);
      if currentTab.None? {
        return;
      }
      var _ := PrepareCardElement(currentTab.value);
    }

    /** `render`: the warning, the error, or the tab bar with the active tab's element,
        shown only when that tab exists and its id is cached. */
    function Render(): (v: CardView)
      reads this
      ensures v.WarningView? <==> config.showWarning == Some(true)
      ensures v.ErrorView? <==> config.showWarning != Some(true) && config.showError == Some(true)
      ensures v.ContentView? ==> v.activeIndex == selectedTabIndex
      ensures config.showWarning != Some(true) && config.showError != Some(true)
              && 0 <= selectedTabIndex < |config.tabs| && config.tabs[selectedTabIndex].id in cardElements ==>
                v == ContentView(selectedTabIndex, Some(cardElements[config.tabs[selectedTabIndex].id]))
      ensures v.ContentView? && v.body.Some? ==>
                && 0 <= selectedTabIndex < |config.tabs|
                && config.tabs[selectedTabIndex].id in cardElements
                && v.body.value == cardElements[config.tabs[selectedTabIndex].id]
    {
      ViewOf(config, selectedTabIndex, cardElements)
    }

    /** `getCardSize`: two rows for the tab bar plus the active element's own size, or one row. */
    function CardSize(): (size: int)
      reads this
      ensures size < 3 ==>
                var element := ActiveElement(config.tabs, selectedTabIndex, cardElements);
                element.Some? && element.value.reportedSize.Some? && element.value.reportedSize.value < 1
      ensures ActiveElement(config.tabs, selectedTabIndex, cardElements).None? ==> size == 3
    {
      CardSizeOf(ActiveElement(config.tabs, selectedTabIndex, cardElements))
    }
  }

  /** A card that gets a new context after creating an element: the element keeps the
      old context while the card holds the new one, so the body it renders is stale. */
  method StaleChildContext() returns (shown: Option<HomeAssistant>, current: Option<HomeAssistant>)
    ensures shown == Some(HomeAssistant(1))
    ensures current == Some(HomeAssistant(2))
  {
    var card := new StandardCardTabs();
    card.ConnectedCallback(CardHelpers(_ => Some(ElementKind(None))));
    card.SetHass(HomeAssistant(1));
    var tab := Tab("tab-a", "A", JObject(map["type" := JString("markdown")]));
    var setConfig := card.SetConfig(Some(card.config.(tabs := [tab])));
    assert card.helpers.value.createCardElement(tab.card) == Some(ElementKind(None));
    card.FirstUpdated();
    assert "tab-a" in card.cardElements;
    var element := card.cardElements["tab-a"];
    card.SetHass(HomeAssistant(2));
    assert FieldOf(InitialConfig(), "show_warning").None? && FieldOf(InitialConfig(), "show_error").None?;
    assert card.config.showWarning == None && card.config.showError == None;
    assert card.selectedTabIndex == 0 && card.config.tabs == [tab];
    assert element.hass == Some(HomeAssistant(1));
    var view := card.Render();
    shown := view.body.value.hass;
    current := card.hass;
  }
}
