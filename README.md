# Standard tabs card — a verified model

The repository is a Home Assistant dashboard card that shows several child cards
behind a tab bar, together with its visual editor. This project models the state the
card, the editor and the tab bar keep about tabs, and proves what each operation does
to that state.

- `TabsConfig` (`tabs_card_config.dfy`) — the configuration shape. The validators
  `layoutStruct`, `tabStruct` and `tabsCardConfigStruct` become predicates over a JSON
  value. A validated value decodes to a typed `TabsCardConfig` and encodes back, and
  both round trips are proved. Also here: `getInitialConfig` and the tab form's schema.
- `ChildCards` (`child_cards.dfy`) — what both card variants share. This covers the host
  factory (a function that may build no element), the child element class, the lookup
  of the active tab's element, the view `render` picks and the size `getCardSize`
  reports. It also holds the outcome and cache effect of `prepareCardElement` as
  specification functions.
- `TabsCard` (`tabs_card.dfy`) — the card in `src/cards/tabs/tabs-card.editor.ts`.
  It is a class with the selected index and the cache of child elements keyed by tab id.
  Its `hass` setter pushes the host context into every cached element. The class
  invariant says every cached element holds the card's current context.
- `LegacyTabsCard` (`legacy_tabs_card.dfy`) — the older card in
  `src/standard-card-tabs.ts`. It has a type-guarded activation handler, and `hass` is a
  plain field.
- `TabsEditor` (`tabs_editor.dfy`) — the editor `StandardCardTabsEditor`. It covers the
  selected index (-1 for none, a tab, or the tab count for "new tab"), the new-tab
  draft, and the four handlers that select, merge a form value, set a card and remove
  a tab. Each handler builds a new tab list and sends the whole configuration upward.
  The edits are stated through specification functions (`MergeAt`, `WithCard`,
  `RemoveAt`), and their properties are proved as lemmas.
- `UiTabs` (`ui_tabs.dfy`) — the `std-ui-tabs` bar. Its tabs are objects with an
  `active` flag. `activateTab` is the loop that leaves exactly one tab active; the
  `selected` events are a log.

Host collaborators are parameters. Loaded card helpers are passed to
`ConnectedCallback`. Fresh ids from `getUniqueId` are a `freshId` argument. Events are
appended to logs: `factoryCalls` lists the card configurations handed to the factory,
`emitted` lists the configurations sent with `config-changed`, and `selected` lists the
indices reported by the tab bar.

Both card variants store any numeric index they receive
(`src/cards/tabs/tabs-card.editor.ts:163`, `src/standard-card-tabs.ts:148`); only creating
the element is skipped. The repository has two card variants that differ in how `hass`
reaches the children, so both are modelled.

## Model

| member | source | states |
|---|---|---|
| TabsConfig.LayoutFrom | src/cards/tabs/tabs-card.config.ts:21-25 | a layout value the validator accepts is exactly the encoding of the layout read from it |
| TabsConfig.IsLayout | src/cards/tabs/tabs-card.config.ts:21-25 | `layoutStruct`: exactly the strings `horizontal`, `vertical` and `default` |
| TabsConfig.LayoutRoundTrip | src/cards/tabs/tabs-card.config.ts:21-25 | every layout encodes to one of the three accepted strings and reads back as itself |
| TabsConfig.IsCardShape | src/cards/tabs/tabs-card.config.ts:37 | `s.type({ type: s.string() })`: an object with a string `type`, other keys allowed |
| TabsConfig.IsTab | src/cards/tabs/tabs-card.config.ts:34-38 | `tabStruct`: an object with exactly the keys `id`, `label`, `card`, string id and label, and a card of that shape |
| TabsConfig.IsTabsCardConfig | src/cards/tabs/tabs-card.config.ts:6-49 | `tabsCardConfigStruct`: an object with no key outside the card, appearance and `tabs` fields, a string `type`, an array of valid tabs, a valid `layout` if present, optional numbers `index`/`view_index` and optional booleans `show_warning`/`show_error`/`test_gui`/`fill_container` |
| TabsConfig.TabRoundTrip | src/cards/tabs/tabs-card.config.ts:34-38 | a valid tab value (exactly `id`, `label`, `card`, with string id and label and a card with a string `type`) is the encoding of its typed tab, and a typed tab with such a card encodes to a valid value that reads back as itself |
| TabsConfig.TabsRoundTrip | src/cards/tabs/tabs-card.config.ts:34-47 | a list of well-formed tabs encodes to a valid tab array that reads back as the same list, in order |
| TabsConfig.ConfigFrom | src/cards/tabs/tabs-card.config.ts:43-49 | reading a validated configuration gives well-formed tabs, as many as the value's `tabs` array holds |
| TabsConfig.ConfigRoundTrip | src/cards/tabs/tabs-card.config.ts:6-49 | encoding a well-formed typed configuration gives a value `tabsCardConfigStruct` accepts, and reading it back gives the same configuration |
| TabsConfig.FieldOfConfigFrom | src/cards/tabs/tabs-card.config.ts:6-49 | key by key, the typed view of a validated value stores exactly what the value stores under each known key |
| TabsConfig.ConfigJsonOfConfigFrom | src/cards/tabs/tabs-card.config.ts:6-49 | a value the validator accepts is exactly the encoding of its typed view, so the typed record loses nothing the validator lets through |
| TabsConfig.InitialConfig | src/cards/tabs/tabs-card.config.ts:56-62 | the initial configuration has no tabs, horizontal layout, type `custom:standard-tabs-card`, and sets no key besides `type`, `tabs` and `layout` |
| TabsConfig.InitialConfigValid | src/cards/tabs/tabs-card.config.ts:56-62 | the initial configuration passes the validator and its value holds exactly the keys `type`, `tabs`, `layout` |
| TabsConfig.EditableFields | src/cards/tabs/tabs-card.config.ts:64-67 | a name is listed exactly when some field of the schema has that name and is not disabled |
| TabsConfig.OnlyLabelEditable | src/cards/tabs/tabs-card.config.ts:64-67 | in the tab form only `label` is editable, and every form field is a tab key other than `card` |
| ChildCards.ActiveTab | src/cards/tabs/tabs-card.editor.ts:164-167 | a tab is found exactly when the index is within the list, and it is the tab at that index |
| ChildCards.ActiveElement | src/cards/tabs/tabs-card.editor.ts:132-134 | an element is found exactly when the index names a tab whose id is cached, and it is the cached element |
| ChildCards.ViewOf | src/cards/tabs/tabs-card.editor.ts:123-146 | the warning exactly when `show_warning` is true, otherwise the error exactly when `show_error` is true; otherwise the content, whose body is present exactly when the active tab exists and its id is cached |
| ChildCards.CardSizeOf | src/cards/tabs/tabs-card.editor.ts:230-238 | two rows for the tab bar plus the element's own size, or plus one row when there is no element or it reports no size |
| ChildCards.PrepareResult | src/cards/tabs/tabs-card.editor.ts:171-187 | missing id exactly when the id is empty; creation failure exactly when the factory is reached and yields nothing |
| ChildCards.CachedAfter | src/cards/tabs/tabs-card.editor.ts:171-187 | the cache only ever gains the tab's own id, and gains it exactly when the id is non-empty and the call succeeds; a failure or a call that does not reach the factory leaves it as it was |
| ChildCards.PrepareIdempotent | src/cards/tabs/tabs-card.editor.ts:176-178 | two sequential prepare calls cache what one does, and after a success the second call neither reaches the factory nor fails |
| ChildCards.CardSizeAtLeastThree | src/cards/tabs/tabs-card.editor.ts:230-238 | the card is at least three rows high whenever its element reports at least one row |
| ChildCards.RecordLookup | src/cards/tabs/tabs-card.editor.ts:134 | `cardElements[id]` on a `{}` record: the own entry when cached, otherwise the inherited `Object.prototype` member when the id names one, otherwise nothing |
| ChildCards.CachedAfterAsWritten | src/cards/tabs/tabs-card.editor.ts:176-185 | the ids cached after `prepareCardElement` as written: an id naming an inherited member is never added |
| ChildCards.InheritedIdShadowsTab | src/cards/tabs/tabs-card.editor.ts:176-177 | a valid tab with id `constructor` is never built by the record-based cache and `render` finds the inherited `Object` function instead, while the own-key cache builds and caches it |
| ChildCards.OwnKeyCacheShowsEveryBuiltTab | src/cards/tabs/tabs-card.editor.ts:171-187 | with the own-key cache, an active tab with an id whose card the factory builds is cached after preparing and its element is the rendered body, whatever the id spells |
| TabsCard.StandardCardTabs.constructor | src/cards/tabs/tabs-card.editor.ts:71-74 | a new card has no helpers, an empty cache, the initial configuration and index 0 |
| TabsCard.StandardCardTabs.SetHass | src/cards/tabs/tabs-card.editor.ts:63-69 | the new context is stored and every cached element now holds it; the cache keys and entries are unchanged |
| TabsCard.StandardCardTabs.ConnectedCallback | src/cards/tabs/tabs-card.editor.ts:99-112 | helpers that are already there are kept, otherwise the loaded ones are stored; nothing else changes |
| TabsCard.StandardCardTabs.SetConfig | src/cards/tabs/tabs-card.editor.ts:86-97 | a missing configuration fails with `InvalidConfiguration` and keeps the old one; any other replaces it wholesale |
| TabsCard.StandardCardTabs.PrepareCardElement | src/cards/tabs/tabs-card.editor.ts:171-187 | the outcome is `PrepareResult` and the keys are `CachedAfter`; old entries are untouched; a new entry is a fresh element built from the tab's card that holds the current context; the factory log grows by the tab's card exactly when the id is non-empty and not cached |
| TabsCard.StandardCardTabs.FirstUpdated | src/cards/tabs/tabs-card.editor.ts:114-120 | with no tab at the selected index nothing changes; otherwise the cache becomes `CachedAfter` for that tab, the factory log grows by that tab's card exactly when it is called, and a new element is fresh, built from that tab's card with the factory's size, and holds the current context |
| TabsCard.StandardCardTabs.OnTabActivated | src/cards/tabs/tabs-card.editor.ts:161-169 | any index is stored; out of range, the cache and factory log are unchanged; in range, the cache becomes `CachedAfter` for that tab, the factory is called at most once with its card, and a new element is fresh, built from that card with the factory's size, and holds the current context |
| TabsCard.StandardCardTabs.Render | src/cards/tabs/tabs-card.editor.ts:123-146 | warning, then error, then content; a cached active tab's element is the body, and a shown body is a cached element holding the card's current context |
| TabsCard.StandardCardTabs.CardSize | src/cards/tabs/tabs-card.editor.ts:230-238 | three rows when the active tab has no element; fewer only when its element reports less than one row |
| TabsCard.ActivateTwice | src/cards/tabs/tabs-card.editor.ts:161-187 | activating the same existing tab twice caches what one activation does, and after a success the factory log grows by at most the one call |
| TabsCard.FreshChildContext | src/cards/tabs/tabs-card.editor.ts:63-69 | an element created under one context and rendered after a context change holds the new context |
| LegacyTabsCard.StandardCardTabs.constructor | src/standard-card-tabs.ts:54-57 | a new card has no helpers, an empty cache, the initial configuration and index 0 |
| LegacyTabsCard.StandardCardTabs.SetHass | src/standard-card-tabs.ts:52 | the new context is stored on the card only; the cache is unchanged |
| LegacyTabsCard.StandardCardTabs.ConnectedCallback | src/standard-card-tabs.ts:82-95 | helpers that are already there are kept, otherwise the loaded ones are stored |
| LegacyTabsCard.StandardCardTabs.SetConfig | src/standard-card-tabs.ts:69-80 | a missing configuration fails with `InvalidConfiguration` and keeps the old one; any other replaces it |
| LegacyTabsCard.StandardCardTabs.PrepareCardElement | src/standard-card-tabs.ts:156-172 | same outcome, cache and factory-log contract as the newer variant: empty id and empty factory result fail, a cached id is a no-op, a success adds one fresh entry with the current context |
| LegacyTabsCard.StandardCardTabs.FirstUpdated | src/standard-card-tabs.ts:97-103 | with no tab at the selected index nothing changes; otherwise the cache becomes `CachedAfter` for that tab, the factory log grows by its card exactly when it is called, and a new element is built from that card with the factory's size and the current context |
| LegacyTabsCard.StandardCardTabs.OnTabActivated | src/standard-card-tabs.ts:144-154 | a non-numeric `detail.index` changes neither the index nor the cache; a number is stored even out of range; only an existing tab is prepared, with the factory called at most once with its card and a new element built from that card with the factory's size |
| LegacyTabsCard.StandardCardTabs.Render | src/standard-card-tabs.ts:106-129 | warning, then error, then content; the body is the cached element of the active tab, shown only when its id is cached |
| LegacyTabsCard.StandardCardTabs.CardSize | src/standard-card-tabs.ts:211-219 | three rows when the active tab has no element; fewer only when its element reports less than one row |
| LegacyTabsCard.StaleChildContext | src/standard-card-tabs.ts:52 | after a context change, the rendered body still holds the previous context while the card holds the new one |
| TabsEditor.Digit | src/standard-card-tabs.editor.ts:162 | a digit below ten prints as the character with that value |
| TabsEditor.Decimal | src/standard-card-tabs.editor.ts:162 | a number prints as a non-empty string of decimal digits with no leading zero |
| TabsEditor.DecimalRoundTrip | src/standard-card-tabs.editor.ts:162 | reading the printed numeral back gives the number |
| TabsEditor.NewTabLabel | src/standard-card-tabs.editor.ts:162 | the template `Tab ${n}`; `NewTabLabelInjective` and `NewTabLabelExamples` state its properties |
| TabsEditor.NewTabLabelInjective | src/standard-card-tabs.editor.ts:162 | different tab counts give different new-tab labels |
| TabsEditor.NewTabLabelExamples | src/standard-card-tabs.editor.ts:215 | counts 1, 2 and 10 give the labels `Tab 1`, `Tab 2` and `Tab 10` |
| TabsEditor.ModeOf | src/standard-card-tabs.editor.ts:84-97 | the new-tab form exactly when the index equals the tab count, the edit form exactly when it names a tab, the hint exactly otherwise |
| TabsEditor.MergeTab | src/standard-card-tabs.editor.ts:175-179 | each field the form value carries replaces the tab's field; each field it lacks is kept |
| TabsEditor.MergeTabIdempotent | src/standard-card-tabs.editor.ts:175-179 | merging the same form value twice is merging it once |
| TabsEditor.MergeAt | src/standard-card-tabs.editor.ts:175-184 | the list keeps its length, the selected tab is merged and every other tab is unchanged |
| TabsEditor.WithCard | src/standard-card-tabs.editor.ts:195-197 | at the tab count, the list grows by one: the old tabs, then the draft's id and label with the card; at a tab, only that tab's card changes and every other tab is unchanged |
| TabsEditor.RemoveAt | src/standard-card-tabs.editor.ts:210-211 | one shorter; the elements before the index stay, the ones after shift down by one |
| TabsEditor.RemoveAtMultiset | src/standard-card-tabs.editor.ts:210-211 | removal takes out exactly one occurrence of the removed tab and adds nothing |
| TabsEditor.IdsAfterRemove | src/standard-card-tabs.editor.ts:210-211 | the remaining ids are the old ids without the removed one, in their old relative order |
| TabsEditor.RemoveThenAppend | src/standard-card-tabs.editor.ts:195-211 | removing a tab and re-adding it through the new-tab path keeps the same tabs, with that tab last |
| TabsEditor.StandardCardTabsEditor.Tabs | src/standard-card-tabs.editor.ts:85 | `this.config?.tabs ?? []`: the configured tabs, or none without a configuration |
| TabsEditor.StandardCardTabsEditor.Mode | src/standard-card-tabs.editor.ts:84-97 | the editor is adding exactly when the index is the tab count, and editing exactly when it names a tab |
| TabsEditor.StandardCardTabsEditor.View | src/standard-card-tabs.editor.ts:50-97 | blank without context or helpers; the new-tab form shows the draft; the edit form shows the selected tab |
| TabsEditor.StandardCardTabsEditor.constructor | src/standard-card-tabs.editor.ts:17-22 | a new editor selects nothing (-1), drafts `Tab 1` under a fresh id, has no configuration and has sent nothing |
| TabsEditor.StandardCardTabsEditor.SetHass | src/standard-card-tabs.editor.ts:14 | the context is stored |
| TabsEditor.StandardCardTabsEditor.ConnectedCallback | src/standard-card-tabs.editor.ts:26-35 | the helpers are loaded afterwards |
| TabsEditor.StandardCardTabsEditor.SetConfig | src/standard-card-tabs.editor.ts:37-40 | a value that fails the validator is refused and the old configuration stays; a valid one replaces it with its typed view; nothing is sent |
| TabsEditor.StandardCardTabsEditor.NotifyConfigChanged | src/standard-card-tabs.editor.ts:226-232 | the whole current configuration is appended to the sent log |
| TabsEditor.StandardCardTabsEditor.OnSelectedTabChanged | src/standard-card-tabs.editor.ts:155-165 | a non-number changes nothing; a number is stored as given; selecting the tab count drafts a fresh id labelled `Tab {count+1}`; any other selection keeps the draft |
| TabsEditor.StandardCardTabsEditor.OnTabFormValueChanged | src/standard-card-tabs.editor.ts:167-187 | no configuration, no value or the new-tab form: nothing changes and nothing is sent; otherwise the tabs become `MergeAt` of the selected tab, and exactly that configuration is sent once |
| TabsEditor.StandardCardTabsEditor.OnTabCardChanged | src/standard-card-tabs.editor.ts:189-202 | with a configuration, the tabs become `WithCard` at the index, the index becomes selected in edit mode, and exactly the new configuration is sent once |
| TabsEditor.StandardCardTabsEditor.OnRemoveTab | src/standard-card-tabs.editor.ts:204-218 | an empty list changes nothing and sends nothing; otherwise the tabs become `RemoveAt` of the index, nothing is selected, the draft is labelled `Tab {old count}`, and the new configuration is sent once |
| TabsEditor.StandardCardTabsEditor.OnGuiModeChanged | src/standard-card-tabs.editor.ts:220-224 | only the two display flags change |
| TabsEditor.AddFirstTab | src/standard-card-tabs.editor.ts:155-202 | from no tabs, selecting index 0 and picking a markdown card gives one tab with the draft id, label `Tab 1` and that card, selects it, and sends one configuration |
| TabsEditor.RemoveSecondTab | src/standard-card-tabs.editor.ts:155-218 | from tabs `[a, b]` with `b` selected, removing it leaves `[a]`, selects nothing and drafts `Tab 2` |
| UiTabs.FirstActive | src/components/tabs.ts:14-16 | -1 exactly when no flag is set; otherwise a set position with no set position before it |
| UiTabs.OneHot | src/components/tabs.ts:52-59 | exactly the given position is set |
| UiTabs.FirstActiveOneHot | src/components/tabs.ts:14-59 | once a single tab is active, the active index reads back as its position |
| UiTabs.StdUiTabs.ActiveIndex | src/components/tabs.ts:14-16 | the position of the first active tab, -1 exactly when no tab is active |
| UiTabs.StdUiTabs.constructor | src/components/tabs.ts:10-11 | the bar holds the given distinct tabs and has reported nothing |
| UiTabs.StdUiTabs.ActiveTab | src/components/tabs.ts:35-37 | null exactly when no tab is active; otherwise an active tab, the one at the active index |
| UiTabs.StdUiTabs.MarkOnly | src/components/tabs.ts:52-59 | afterwards the tab's flag is set, every other flag is clear, and the tab's position is returned |
| UiTabs.StdUiTabs.ActivateTab | src/components/tabs.ts:44-72 | a foreign tab or the already-active tab changes no flag and reports nothing; otherwise exactly that tab is active, and its index is reported once exactly when some tab was active before |
| UiTabs.StdUiTabs.SetActiveIndex | src/components/tabs.ts:17-33 | an index outside the bar, or the active one, changes nothing; otherwise that tab alone becomes active, and the index is reported when some tab was active before |
| UiTabs.StdUiTabs.SetActiveTab | src/components/tabs.ts:38-42 | null, a foreign tab or the active tab changes nothing; otherwise that tab alone becomes active and the change is reported as `ActivateTab` does |
| UiTabs.StdUiTabs.OnTabClick | src/components/tabs.ts:134-141 | a click that comes from no tab changes nothing; otherwise it behaves exactly as `ActivateTab` on the clicked tab |
| UiTabs.StdUiTabs.ConnectedCallback | src/components/tabs.ts:115-123 | when there are tabs, the first is marked active and becomes the active index, the other flags stay, and nothing is reported |

## Left out

- TabsCard.StandardCardTabs.PrepareCardElement: requires the helpers to be loaded. The source waits for them by polling every 100 ms (`waitUntil`, `src/utils/getDeferred.ts`). Timers and promises are not modelled, so a call made before loading is outside the model.
- TabsCard.StandardCardTabs.FirstUpdated and TabsCard.StandardCardTabs.OnTabActivated: require loaded helpers only when they reach a tab, for the same reason.
- LegacyTabsCard.StandardCardTabs.PrepareCardElement, LegacyTabsCard.StandardCardTabs.FirstUpdated and LegacyTabsCard.StandardCardTabs.OnTabActivated: the same "helpers loaded" requirement.
- TabsCard.StandardCardTabs.Render, LegacyTabsCard.StandardCardTabs.Render, TabsCard.StandardCardTabs.PrepareCardElement, LegacyTabsCard.StandardCardTabs.PrepareCardElement, ChildCards.ActiveElement and ChildCards.ViewOf: use an own-key cache. The source's cache is a plain `{}`, whose lookup also finds names inherited from `Object.prototype`. For a tab id such as `constructor`, the source skips creation and renders the inherited value as the body. The model creates and shows the tab's element instead, and the card size then uses that element. The as-written lookup is `ChildCards.RecordLookup`; see "## Findings".
- TabsEditor.StandardCardTabsEditor.SetConfig, TabsEditor.StandardCardTabsEditor.View, LegacyTabsCard.StandardCardTabs.constructor and LegacyTabsCard.StandardCardTabs.SetConfig: the editor and the older card import `tabsCardConfigStruct`, `tabFormSchema`, `getInitialConfig` and the tab types from `src/tabs-card.config.ts`, which is not part of this model. They are modelled with the definitions of `src/cards/tabs/tabs-card.config.ts`, on the assumption that the two files agree.
- Interleaved `prepareCardElement` calls are not modelled. The cache check comes before the awaited factory call, so two overlapping calls can both build an element. Idempotence is proved for sequential calls only.
- `getUniqueId` uses randomness and a clock. It is replaced by a `freshId` argument, and id uniqueness is not claimed.
- TabsEditor.StandardCardTabsEditor.OnRemoveTab: requires `0 <= index < tab count` when there are tabs. The remove button exists only in the edit form. A negative `splice` index, which would remove from the end, is not modelled.
- TabsEditor.StandardCardTabsEditor.OnTabFormValueChanged: requires the selected index to be a tab or the tab count when a value arrives. The form exists only in those two modes. A write to an array index outside the list is not modelled.
- TabsEditor.StandardCardTabsEditor.OnTabCardChanged: requires `0 <= index <= tab count`. The picker reports the tab count and the card editor reports the selected tab.
- UiTabs.StdUiTabs.SetActiveIndex: models the setter once the slot is rendered. Deferring the call to `updateComplete` is not modelled.
- Rendering is not modelled: Lit templates, CSS, the toolbar's `index + 1.` labels, `updateIndicator` geometry, `src/components/tab.ts`, `hui-warning` and `hui-error-card` construction, and `localize`. The `requestAnimationFrame` callbacks are taken to fire immediately.
- Host plumbing is not modelled: `getWindow`, `loadCardHelpers` (its result is passed in), `importMoreInfoControl`, `getLovelace().setEditMode` for `test_gui`, card registration, version printing, `getConfigElement`, `getStubConfig` (which returns `getInitialConfig`) and `getGridOptions`.
- Event dispatch is an append to a log. Bubbling, composition, `stopPropagation` and `preventDefault` are not modelled.
- Errors from `prepareCardElement` are returned as an outcome and dropped by the callers. The source logs them with `console.error`.
- JSON numbers are integers here. Fractional values, `NaN` and `-0` are not modelled, and neither is superstruct's exact number check.
- Snapshots are immutable values. So "the config is a fresh object" and "the previous `tabs` array is not mutated" hold by construction: earlier entries of `emitted` never change. Object identity is not modelled.
- TabsCard.StandardCardTabs.SetConfig and LegacyTabsCard.StandardCardTabs.SetConfig: take an already-typed configuration. The card checks only for a missing value; its shape is a compile-time type, not a runtime check.
- A form value carries only `id`, `label` and `card`. Other keys a form could report are not modelled.
- A child element's size comes from its own `getCardSize` and is awaited. It is modelled as a number fixed when the element is built, with `None` when the element has no such method or it answers nothing.
- The editor's `lovelace` property, `cardEditorEl`, the `_show_warning`/`_show_error` getters and `computeFormLabelCallback` serve only rendering.
- `src/cards/tabs/constants.ts` is not part of this model. The tag name `standard-tabs-card` follows `src/constants.ts:4-5`.
- The host context is opaque. It is modelled as a revision number so that two contexts can be told apart.
- Cache entries of removed tabs are never evicted by the source, and the model keeps them too.

## Findings

| source | as written | input that shows it | evidently intended | confidence | as-written member | corrected member |
|---|---|---|---|---|---|---|
| src/standard-card-tabs.ts:52 | `hass` is a plain property. A new context is stored on the card but never handed to the child elements already cached | helpers loaded; context 1 set; configuration with tab `tab-a` holding a markdown card; first update creates its element; context 2 set; the rendered body still holds context 1 | every cached child receives each new context, as the setter in `src/cards/tabs/tabs-card.editor.ts:63-69` does | medium, not executed | LegacyTabsCard.StaleChildContext | TabsCard.StandardCardTabs.SetHass |
| src/cards/tabs/tabs-card.editor.ts:176 | the cache is a plain `{}` record, so `this.cardElements[tab.id]` is truthy for ids inherited from `Object.prototype` (the same lookup is at lines 134 and 233, and at `src/standard-card-tabs.ts:117,161,214`) | a tab with id `constructor` (accepted by `tabStruct`) and an empty cache: `prepareCardElement` returns without calling the factory, and `render` shows the inherited `Object` function as the tab body | the lookup finds only elements the card created (an own-key check or a `Map`), so every tab whose card builds is shown | low, not executed | ChildCards.InheritedIdShadowsTab | ChildCards.OwnKeyCacheShowsEveryBuiltTab |
