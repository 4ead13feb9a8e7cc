/**
 * The tabs card (src/cards/tabs/tabs-card.editor.ts, class `StandardCardTabs`):
 * the selected tab index, the lazily filled cache of child card elements keyed
 * by tab id, and the `hass` setter that keeps every cached child on the current
 * host context.
 */
module TabsCard {
  import opened Wrappers
  import opened TabsConfig
  import opened ChildCards

  class StandardCardTabs {
    var hass: Option<HomeAssistant>
    var cardElements: map<string, CardElement>
    var helpers: Option<CardHelpers>
    var config: TabsCardConfig
    var selectedTabIndex: int
    /** The configurations handed to `createCardElement`, in call order. */
    var factoryCalls: seq<Json>

    /** No element is cached under an empty id, and every cached element holds
        the card's current host context. */
    ghost predicate Valid()
      reads this, cardElements.Values
    {
      && "" !in cardElements
      && forall e :: e in cardElements.Values ==> e.hass == hass
    }

    constructor ()
      ensures Valid()
      ensures hass == None && cardElements == map[] && helpers == None
      ensures config == InitialConfig() && selectedTabIndex == 0 && factoryCalls == []
    {
      hass := None;
      cardElements := map[];
      helpers := None;
      config := InitialConfig();
      selectedTabIndex := 0;
      factoryCalls := [];
    }

    /** The `hass` setter: store the context and push it into every cached element. */
    method SetHass(value: HomeAssistant)
      requires Valid()
      modifies this, cardElements.Values
      ensures Valid()
      ensures hass == Some(value)
      ensures cardElements == old(cardElements)
      ensures forall e :: e in cardElements.Values ==> e.hass == Some(value)
      ensures helpers == old(helpers) && config == old(config)
      ensures selectedTabIndex == old(selectedTabIndex) && factoryCalls == old(factoryCalls)
    {
      hass := Some(value);
      var pending := cardElements.Keys;
      while pending != {}
        invariant pending <= cardElements.Keys
        invariant cardElements == old(cardElements) && hass == Some(value)
        invariant helpers == old(helpers) && config == old(config)
        invariant selectedTabIndex == old(selectedTabIndex) && factoryCalls == old(factoryCalls)
        invariant forall k :: k in cardElements.Keys - pending ==> cardElements[k].hass == hass
        decreases pending
      {
        var k :| k in pending;
        cardElements[k].hass := hass;
        pending := pending - {k};
      }
    }

    /** The card helpers have loaded (the promise `connectedCallback` starts has
        resolved); a card that already has helpers keeps them. */
    method ConnectedCallback(loaded: CardHelpers)
      requires Valid()
      modifies this
      ensures Valid()
      ensures helpers == if old(helpers).Some? then old(helpers) else Some(loaded)
      ensures hass == old(hass) && cardElements == old(cardElements) && config == old(config)
      ensures selectedTabIndex == old(selectedTabIndex) && factoryCalls == old(factoryCalls)
    {
      if helpers.None? {
        helpers := Some(loaded);
      }
    }

    /** `setConfig`: a missing configuration is refused, any other replaces the current one. */
    method SetConfig(newConfig: Option<TabsCardConfig>) returns (r: Outcome<ConfigError>)
      requires Valid()
      modifies this
      ensures Valid()
      ensures r.Fail? <==> newConfig.None?
      ensures config == if newConfig.Some? then newConfig.value else old(config)
      ensures hass == old(hass) && cardElements == old(cardElements) && helpers == old(helpers)
      ensures selectedTabIndex == old(selectedTabIndex) && factoryCalls == old(factoryCalls)
    {
      if newConfig.None? {
        return Fail(InvalidConfiguration);
      }
      config := newConfig.value;
      r := Pass;
    }

    /** `prepareCardElement`, once the helpers are there: create the tab's element
        unless its id is empty or already cached, and cache it with the current context. */
    method PrepareCardElement(tab: Tab) returns (r: Outcome<CardError>)
      requires Valid() && helpers.Some?
      modifies this
      ensures Valid()
      ensures hass == old(hass) && helpers == old(helpers) && config == old(config)
      ensures selectedTabIndex == old(selectedTabIndex)
      ensures r == PrepareResult(old(cardElements.Keys), tab, helpers.value)
      ensures cardElements.Keys == CachedAfter(old(cardElements.Keys), tab, helpers.value)
      ensures forall k :: k in old(cardElements) ==> cardElements[k] == old(cardElements[k])
      ensures tab.id in cardElements && tab.id !in old(cardElements) ==>
                && fresh(cardElements[tab.id])
                && cardElements[tab.id].config == tab.card
                && cardElements[tab.id].hass == hass
                && Some(ElementKind(cardElements[tab.id].reportedSize)) == helpers.value.createCardElement(tab.card)
      ensures factoryCalls == old(factoryCalls) + if CallsFactory(old(cardElements.Keys), tab) then [tab.card] else []
    {
      if tab.id == "" {
        return Fail(MissingId);
      }
      if tab.id in cardElements {
        return Pass;
      }
      factoryCalls := factoryCalls + [tab.card];
      var kind := helpers.value.createCardElement(tab.card);
      if kind.None? {
        return Fail(CreationFailed);
      }
      var element := new CardElement(tab.card, kind.value, hass);
      cardElements := cardElements[tab.id := element];
      r := Pass;
    }

    /** `firstUpdated`: prepare the element of the selected tab, if that tab exists.
        A failure is only logged. */
    method FirstUpdated()
      requires Valid()
      requires 0 <= selectedTabIndex < |config.tabs| ==> helpers.Some?
      modifies this
      ensures Valid()
      ensures hass == old(hass) && helpers == old(helpers) && config == old(config)
      ensures selectedTabIndex == old(selectedTabIndex)
      ensures !(0 <= selectedTabIndex < |config.tabs|) ==> cardElements == old(cardElements) && factoryCalls == old(factoryCalls)
      ensures 0 <= selectedTabIndex < |config.tabs| ==>
                && cardElements.Keys == CachedAfter(old(cardElements.Keys), config.tabs[selectedTabIndex], helpers.value)
                && factoryCalls == old(factoryCalls)
                     + (if CallsFactory(old(cardElements.Keys), config.tabs[selectedTabIndex]) then [config.tabs[selectedTabIndex].card] else [])
                && forall k :: k in cardElements && k !in old(cardElements) ==>
                     && cardElements[k].config == config.tabs[selectedTabIndex].card
                     && Some(ElementKind(cardElements[k].reportedSize)) == helpers.value.createCardElement(config.tabs[selectedTabIndex].card)
      ensures forall k :: k in old(cardElements) ==> k in cardElements && cardElements[k] == old(cardElements[k])
      ensures forall k :: k in cardElements && k !in old(cardElements) ==> fresh(cardElements[k]) && cardElements[k].hass == hass
    {
      var currentTab := ActiveTab(config.tabs, selectedTabIndex);
      if currentTab.None? {
        return;
      }
      var _ := PrepareCardElement(currentTab.value);
    }

    /** `onTabActivated`: store the index the tab bar reports, even out of range, and
        prepare the element of the tab at that index if there is one. A failure is only logged. */
    method OnTabActivated(index: int)
      requires Valid()
      requires 0 <= index < |config.tabs| ==> helpers.Some?
      modifies this
      ensures Valid()
      ensures hass == old(hass) && helpers == old(helpers) && config == old(config)
      ensures selectedTabIndex == index
      ensures !(0 <= index < |config.tabs|) ==> cardElements == old(cardElements) && factoryCalls == old(factoryCalls)
      ensures 0 <= index < |config.tabs| ==>
                && cardElements.Keys == CachedAfter(old(cardElements.Keys), config.tabs[index], helpers.value)
                && factoryCalls == old(factoryCalls) + (if CallsFactory(old(cardElements.Keys), config.tabs[index]) then [config.tabs[index].card] else [])
                && forall k :: k in cardElements && k !in old(cardElements) ==>
                     && cardElements[k].config == config.tabs[index].card
                     && Some(ElementKind(cardElements[k].reportedSize)) == helpers.value.createCardElement(config.tabs[index].card)
      ensures forall k :: k in old(cardElements) ==> k in cardElements && cardElements[k] == old(cardElements[k])
      ensures forall k :: k in cardElements && k !in old(cardElements) ==> fresh(cardElements[k]) && cardElements[k].hass == hass
    {
      selectedTabIndex := index;
      var currentTab := ActiveTab(config.tabs, selectedTabIndex);
      if currentTab.None? {
        return;
      }
      var _ := PrepareCardElement(currentTab.value);
    }

    /** `render`: the warning, the error, or the tab bar with the active tab's element;
        an element that is shown is cached and carries the card's current context. */
    function Render(): (v: CardView)
      reads this, cardElements.Values
      requires Valid()
      ensures v.WarningView? <==> config.showWarning == Some(true)
      ensures v.ErrorView? <==> config.showWarning != Some(true) && config.showError == Some(true)
      ensures v.ContentView? ==> v.activeIndex == selectedTabIndex
      ensures config.showWarning != Some(true) && config.showError != Some(true)
              && 0 <= selectedTabIndex < |config.tabs| && config.tabs[selectedTabIndex].id in cardElements ==>
                v == ContentView(selectedTabIndex, Some(cardElements[config.tabs[selectedTabIndex].id]))
      ensures v.ContentView? && v.body.Some? ==>
                && 0 <= selectedTabIndex < |config.tabs|
                && v.body.value in cardElements.Values
                && v.body.value.hass == hass
    {
      ViewOf(config, selectedTabIndex, cardElements)
    }

    /** `getCardSize`: below three rows only when the active element reports less than one row. */
    function CardSize(): (size: int)
      reads this
      ensures size < 3 ==>
                var element := ActiveElement(config.tabs, selectedTabIndex, cardElements);
                element.Some? && element.value.reportedSize.Some? && element.value.reportedSize.value < 1
      ensures ActiveElement(config.tabs, selectedTabIndex, cardElements).None? ==> size == 3
    {
      CardSizeOf(ActiveElement(config.tabs, selectedTabIndex, cardElements))
    }
  }

  /** Activating the same tab twice in a row leaves the cache as one activation does,
      and the second activation reaches the factory only if the first one failed. */
  method ActivateTwice(card: StandardCardTabs, index: int)
    requires card.Valid() && 0 <= index < |card.config.tabs| && card.helpers.Some?
    modifies card
    ensures card.Valid()
    ensures card.cardElements.Keys
              == CachedAfter(old(card.cardElements.Keys), old(card.config.tabs[index]), old(card.helpers.value))
    ensures PrepareResult(old(card.cardElements.Keys), old(card.config.tabs[index]), old(card.helpers.value)) == Pass ==>
              card.factoryCalls == old(card.factoryCalls)
                + if CallsFactory(old(card.cardElements.Keys), old(card.config.tabs[index])) then [old(card.config.tabs[index].card)] else []
  {
    card.OnTabActivated(index);
    card.OnTabActivated(index);
    PrepareIdempotent(old(card.cardElements.Keys), card.config.tabs[index], card.helpers.value);
  }

  /** The run in which the older variant shows a stale body: here the element created
      under the first context is moved to the second one, and the body shows it. */
  method FreshChildContext() returns (shown: Option<HomeAssistant>, current: Option<HomeAssistant>)
    ensures shown == Some(HomeAssistant(2))
    ensures current == Some(HomeAssistant(2))
  {
    var card := new StandardCardTabs();
    card.ConnectedCallback(CardHelpers(_ => Some(ElementKind(None))));
    card.SetHass(HomeAssistant(1));
    var tab := Tab("tab-a", "A", JObject(map["type" := JString("markdown")]));
    var setConfig := card.SetConfig(Some(card.config.(tabs := [tab])));
    assert card.helpers.value.createCardElement(tab.card) == Some(ElementKind(None));
    card.FirstUpdated();
    assert "tab-a" in card.cardElements;
    card.SetHass(HomeAssistant(2));
    assert FieldOf(InitialConfig(), "show_warning").None? && FieldOf(InitialConfig(), "show_error").None?;
    assert card.config.showWarning == None && card.config.showError == None;
    assert card.selectedTabIndex == 0 && card.config.tabs == [tab];
    var view := card.Render();
    shown := view.body.value.hass;
    current := card.hass;
  }
}
