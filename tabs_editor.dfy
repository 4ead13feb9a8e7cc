/**
 * The tabs card editor (src/standard-card-tabs.editor.ts, class
 * `StandardCardTabsEditor`): which tab is being edited (-1 for none, the tab
 * count for a new tab), the draft of the new tab, and the handlers that fold a
 * label edit, a card change or a removal into a new configuration and send it
 * to the host.
 */
module TabsEditor {
  import opened Wrappers
  import opened TabsConfig
  import ChildCards

  /** The draft of the tab being added: `Pick<Tab, 'id' | 'label'>`. */
  datatype TabDraft = TabDraft(id: string, labelText: string)

  /** The value the tab form reports; a field it does not carry is `None`. */
  datatype TabPatch = TabPatch(id: Option<string>, labelText: Option<string>, card: Option<Json>)

  /** The three branches of `editorTemplate`. */
  datatype EditorMode = NoTabSelected | AddTab | EditTab(index: nat)

  /** What `render` shows: nothing until the host context and helpers are there, then the mode's template. */
  datatype EditorView = Blank | NoTabSelectedView | AddTabView(draft: TabDraft) | EditTabView(index: nat, tab: Tab)

  // ---------------------------------------------------------------------------
  // Labels of new tabs: `Tab ${n}`

  predicate IsDigit(c: char) {
    '0' <= c <= '9'
  }

  function Digit(d: nat): (c: char)
    requires d < 10
    ensures IsDigit(c) && c as int - '0' as int == d
  {
    ('0' as int + d) as char
  }

  /** The decimal numeral of `n`, as a template literal prints it. */
  function Decimal(n: nat): (s: string)
    ensures |s| >= 1
    ensures forall i :: 0 <= i < |s| ==> IsDigit(s[i])
    ensures |s| > 1 ==> s[0] != '0'
  {
    if n < 10 then [Digit(n)] else Decimal(n / 10) + [Digit(n % 10)]
  }

  /** The number a string of decimal digits denotes. */
  function DecimalValue(s: string): nat
    requires forall i :: 0 <= i < |s| ==> IsDigit(s[i])
  {
    if s == [] then 0
    else
      assert IsDigit(s[|s| - 1]);
      10 * DecimalValue(s[..|s| - 1]) + (s[|s| - 1] as int - '0' as int)
  }

  lemma {:induction false} DecimalRoundTrip(n: nat)
    ensures DecimalValue(Decimal(n)) == n
  {
    if n >= 10 {
      DecimalRoundTrip(n / 10);
      var s := Decimal(n);
      assert s[..|s| - 1] == Decimal(n / 10);
    }
  }

  /** The label a new tab gets when it would become the `n`-th tab. */
  function NewTabLabel(n: nat): string {
    "Tab " + Decimal(n)
  }

  /** Different tab counts give different new-tab labels. */
  lemma NewTabLabelInjective(m: nat, n: nat)
    requires NewTabLabel(m) == NewTabLabel(n)
    ensures m == n
  {
    assert Decimal(m) == NewTabLabel(m)[4..];
    assert Decimal(n) == NewTabLabel(n)[4..];
    DecimalRoundTrip(m);
    DecimalRoundTrip(n);
  }

  lemma NewTabLabelExamples()
    ensures NewTabLabel(1) == "Tab 1" && NewTabLabel(2) == "Tab 2" && NewTabLabel(10) == "Tab 10"
  {
    assert Decimal(10) == Decimal(1) + [Digit(0)];
  }

  // ---------------------------------------------------------------------------
  // The editor's modes and the edits it makes to the tab list

  /** `editorTemplate`: the new-tab form exactly at index `count`, the edit form for
      an existing tab, and the hint otherwise. */
  function ModeOf(index: int, count: nat): (m: EditorMode)
    ensures m == AddTab <==> index == count
    ensures m.EditTab? <==> 0 <= index < count
    ensures m.EditTab? ==> m.index == index
    ensures m == NoTabSelected <==> index < 0 || index > count
  {
    if index == count then AddTab
    else if 0 <= index < count then EditTab(index)
    else NoTabSelected
  }

  /** `{ ...tab, ...value }`: every field the form value carries wins. */
  function MergeTab(tab: Tab, patch: TabPatch): (r: Tab)
    ensures patch.id.None? ==> r.id == tab.id
    ensures patch.labelText.None? ==> r.labelText == tab.labelText
    ensures patch.card.None? ==> r.card == tab.card
    ensures patch.id.Some? ==> r.id == patch.id.value
    ensures patch.labelText.Some? ==> r.labelText == patch.labelText.value
    ensures patch.card.Some? ==> r.card == patch.card.value
  {
    Tab(patch.id.GetOr(tab.id), patch.labelText.GetOr(tab.labelText), patch.card.GetOr(tab.card))
  }

  /** Merging the same form value twice is merging it once. */
  lemma MergeTabIdempotent(tab: Tab, patch: TabPatch)
    ensures MergeTab(MergeTab(tab, patch), patch) == MergeTab(tab, patch)
  {
  }

  /** A label edit: tab `index` is merged with the form value, every other tab stays. */
  function MergeAt(tabs: seq<Tab>, index: nat, patch: TabPatch): (r: seq<Tab>)
    requires index < |tabs|
    ensures |r| == |tabs|
    ensures r[index] == MergeTab(tabs[index], patch)
    ensures forall j :: 0 <= j < |tabs| && j != index ==> r[j] == tabs[j]
  {
    tabs[index := MergeTab(tabs[index], patch)]
  }

  /** A card change: at the new-tab index the draft becomes a tab carrying the card;
      at an existing index only that tab's card is replaced. */
  function WithCard(tabs: seq<Tab>, index: nat, draft: TabDraft, card: Json): (r: seq<Tab>)
    requires index <= |tabs|
    ensures index == |tabs| ==> |r| == |tabs| + 1 && r[..|tabs|] == tabs && r[index] == Tab(draft.id, draft.labelText, card)
    ensures index < |tabs| ==> |r| == |tabs|
    ensures index < |tabs| ==> r[index] == Tab(tabs[index].id, tabs[index].labelText, card)
    ensures index < |tabs| ==> forall j :: 0 <= j < |tabs| && j != index ==> r[j] == tabs[j]
  {
    if index < |tabs| then tabs[index := tabs[index].(card := card)]
    else tabs + [Tab(draft.id, draft.labelText, card)]
  }

  /** `splice(index, 1)`: the element at `index` goes, the rest keep their order. */
  function RemoveAt<T>(s: seq<T>, index: nat): (r: seq<T>)
    requires index < |s|
    ensures |r| == |s| - 1
    ensures forall j :: 0 <= j < index ==> r[j] == s[j]
    ensures forall j :: index <= j < |r| ==> r[j] == s[j + 1]
  {
    s[..index] + s[index + 1..]
  }

  /** Removal takes out exactly one occurrence of the removed element and adds nothing. */
  lemma RemoveAtMultiset<T>(s: seq<T>, index: nat)
    requires index < |s|
    ensures multiset(RemoveAt(s, index)) + multiset{s[index]} == multiset(s)
  {
    assert s == s[..index] + [s[index]] + s[index + 1..];
  }

  function Ids(tabs: seq<Tab>): (ids: seq<string>)
    ensures |ids| == |tabs|
    ensures forall i :: 0 <= i < |tabs| ==> ids[i] == tabs[i].id
  {
    seq(|tabs|, i requires 0 <= i < |tabs| => tabs[i].id)
  }

  /** The ids left after a removal are the old ids without the removed one, in their old order. */
  lemma IdsAfterRemove(tabs: seq<Tab>, index: nat)
    requires index < |tabs|
    ensures Ids(RemoveAt(tabs, index)) == RemoveAt(Ids(tabs), index)
  {
  }

  /** Removing a tab and then re-adding it at the end through the new-tab path restores
      the tab set, with that tab moved last. */
  lemma RemoveThenAppend(tabs: seq<Tab>, index: nat)
    requires index < |tabs|
    ensures var t := tabs[index];
            var r := WithCard(RemoveAt(tabs, index), |tabs| - 1, TabDraft(t.id, t.labelText), t.card);
            multiset(r) == multiset(tabs) && r[|tabs| - 1] == t
  {
    var t := tabs[index];
    var removed := RemoveAt(tabs, index);
    RemoveAtMultiset(tabs, index);
    assert WithCard(removed, |tabs| - 1, TabDraft(t.id, t.labelText), t.card) == removed + [t];
  }

  // ---------------------------------------------------------------------------

  class StandardCardTabsEditor {
    var hass: Option<ChildCards.HomeAssistant>
    var helpersLoaded: bool
    var config: Option<TabsCardConfig>
    var selectedTabIndex: int
    var guiMode: bool
    var guiModeAvailable: bool
    var newTabSkeleton: TabDraft
    /** The configurations sent upward with `config-changed`, oldest first. */
    var emitted: seq<TabsCardConfig>

    /** `this.config?.tabs ?? []` */
    function Tabs(): seq<Tab>
      reads this
    {
      if config.Some? then config.value.tabs else []
    }

    function Mode(): (m: EditorMode)
      reads this
      ensures m == AddTab <==> selectedTabIndex == |Tabs()|
      ensures m.EditTab? <==> 0 <= selectedTabIndex < |Tabs()|
    {
      ModeOf(selectedTabIndex, |Tabs()|)
    }

    /** `render` with `editorTemplate`: the new-tab form shows the draft, the edit form
        the selected tab. */
    function View(): (v: EditorView)
      reads this
      ensures v == Blank <==> hass.None? || !helpersLoaded
      ensures v.AddTabView? <==> v != Blank && Mode() == AddTab
      ensures v.AddTabView? ==> v.draft == newTabSkeleton
      ensures v.EditTabView? ==> 0 <= v.index < |Tabs()| && v.index == selectedTabIndex && v.tab == Tabs()[v.index]
      ensures v == NoTabSelectedView <==> v != Blank && Mode() == NoTabSelected
    {
      if hass.None? || !helpersLoaded then Blank
      else match Mode()
        case AddTab => AddTabView(newTabSkeleton)
        case EditTab(i) => EditTabView(i, Tabs()[i])
        case NoTabSelected => NoTabSelectedView
    }

    /** A new editor selects nothing and drafts "Tab 1" under a fresh id. */
    constructor (freshId: string)
      ensures config == None && selectedTabIndex == -1 && newTabSkeleton == TabDraft(freshId, "Tab 1")
      ensures hass == None && !helpersLoaded && guiMode && guiModeAvailable && emitted == []
      ensures Mode() == NoTabSelected
    {
      hass := None;
      helpersLoaded := false;
      config := None;
      selectedTabIndex := -1;
      guiMode := true;
      guiModeAvailable := true;
      newTabSkeleton := TabDraft(freshId, "Tab 1");
      emitted := [];
    }

    method SetHass(value: ChildCards.HomeAssistant)
      modifies this`hass
      ensures hass == Some(value)
    {
      hass := Some(value);
    }

    /** The card helpers have loaded (the promise `connectedCallback` starts has resolved). */
    method ConnectedCallback()
      modifies this`helpersLoaded
      ensures helpersLoaded
    {
      helpersLoaded := true;
    }

    /** `setConfig`: a value that fails `tabsCardConfigStruct` is refused and the current
        configuration stays; a valid one replaces it. Nothing is sent upward. */
    method SetConfig(raw: Json) returns (r: Outcome<ConfigError>)
      modifies this`config
      ensures r.Pass? <==> IsTabsCardConfig(raw)
      ensures config == if IsTabsCardConfig(raw) then Some(ConfigFrom(raw)) else old(config)
    {
      if !IsTabsCardConfig(raw) {
        return Fail(InvalidConfiguration);
      }
      config := Some(ConfigFrom(raw));
      r := Pass;
    }

    /** `notifyConfigChanged`: send the whole current configuration upward. */
    method NotifyConfigChanged()
      requires config.Some?
      modifies this`emitted
      ensures emitted == old(emitted) + [config.value]
    {
      emitted := emitted + [config.value];
    }

    /** `onSelectedTabChanged`: a value that is not a number changes nothing; a number is
        stored as given, and selecting the new-tab index drafts a fresh tab labelled by
        the count it would reach. */
    method OnSelectedTabChanged(value: Json, freshId: string)
      modifies this`selectedTabIndex, this`newTabSkeleton
      ensures !value.JNumber? ==> selectedTabIndex == old(selectedTabIndex) && newTabSkeleton == old(newTabSkeleton)
      ensures value.JNumber? ==> selectedTabIndex == value.n
      ensures value.JNumber? && value.n == |Tabs()| ==> newTabSkeleton == TabDraft(freshId, NewTabLabel(|Tabs()| + 1))
      ensures !(value.JNumber? && value.n == |Tabs()|) ==> newTabSkeleton == old(newTabSkeleton)
    {
      if !value.JNumber? {
        return;
      }
      var tabs := Tabs();
      if value.n == |tabs| {
        newTabSkeleton := TabDraft(freshId, NewTabLabel(|tabs| + 1));
      }
      selectedTabIndex := value.n;
    }

    /** `onTabFormValueChanged`: with no configuration, no value, or the new-tab form
        open, nothing happens; otherwise the selected tab is merged with the value and
        the new configuration is sent upward. The handler is bound only while the add or
        edit form is shown, so the selected index is then the tab count or a tab. */
    method OnTabFormValueChanged(value: Option<TabPatch>)
      requires config.Some? && value.Some? && selectedTabIndex != |Tabs()| ==> 0 <= selectedTabIndex < |Tabs()|
      modifies this`config, this`emitted
      ensures old(config).None? || value.None? || old(Mode()) == AddTab ==>
                config == old(config) && emitted == old(emitted)
      ensures old(config).Some? && value.Some? && old(Mode()) != AddTab ==>
                && config == Some(old(config.value).(tabs := MergeAt(old(Tabs()), selectedTabIndex, value.value)))
                && emitted == old(emitted) + [config.value]
                && Mode() == old(Mode())
    {
      if config.None? || value.None? {
        return;
      }
      if selectedTabIndex == |config.value.tabs| {
        return;
      }
      var tabs := config.value.tabs;
      tabs := tabs[selectedTabIndex := MergeTab(tabs[selectedTabIndex], value.value)];
      config := Some(config.value.(tabs := tabs));
      NotifyConfigChanged();
    }

    /** `onTabCardChanged`: at the new-tab index the draft is appended with the card, at a
        tab's index only its card is replaced; the edited index becomes selected and the
        new configuration is sent upward. The card picker reports the tab count as index,
        the card editor the selected tab's index. */
    method OnTabCardChanged(card: Json, index: int)
      requires config.Some? ==> 0 <= index <= |Tabs()|
      modifies this`config, this`emitted, this`selectedTabIndex
      ensures old(config).None? ==>
                config == old(config) && emitted == old(emitted) && selectedTabIndex == old(selectedTabIndex)
      ensures old(config).Some? ==>
                && config == Some(old(config.value).(tabs := WithCard(old(Tabs()), index, newTabSkeleton, card)))
                && selectedTabIndex == index
                && emitted == old(emitted) + [config.value]
                && Mode() == EditTab(index)
    {
      if config.None? {
        return;
      }
      var tabs := config.value.tabs;
      var tab := if index < |tabs| then tabs[index] else Tab(newTabSkeleton.id, newTabSkeleton.labelText, JNull);
      tabs := if index < |tabs| then tabs[index := tab.(card := card)] else tabs + [tab.(card := card)];
      selectedTabIndex := index;
      config := Some(config.value.(tabs := tabs));
      NotifyConfigChanged();
    }

    /** `onRemoveTab`: with no tabs nothing happens; otherwise the tab at `index` goes,
        nothing is selected, a fresh draft is labelled for the count after removal, and the
        new configuration is sent upward. The remove button exists only in the edit form. */
    method OnRemoveTab(index: int, freshId: string)
      requires |Tabs()| > 0 ==> 0 <= index < |Tabs()|
      modifies this`config, this`emitted, this`selectedTabIndex, this`newTabSkeleton
      ensures |old(Tabs())| == 0 ==>
                && config == old(config) && emitted == old(emitted)
                && selectedTabIndex == old(selectedTabIndex) && newTabSkeleton == old(newTabSkeleton)
      ensures |old(Tabs())| > 0 ==>
                && config == Some(old(config.value).(tabs := RemoveAt(old(Tabs()), index)))
                && selectedTabIndex == -1
                && newTabSkeleton == TabDraft(freshId, NewTabLabel(|old(Tabs())|))
                && emitted == old(emitted) + [config.value]
                && Mode() == NoTabSelected
    {
      var tabs := Tabs();
      if |tabs| == 0 {
        return;
      }
      var updatedTabs := tabs[..index] + tabs[index + 1..];
      config := Some(config.value.(tabs := updatedTabs));
      selectedTabIndex := -1;
      newTabSkeleton := TabDraft(freshId, NewTabLabel(|updatedTabs| + 1));
      NotifyConfigChanged();
    }

    /** `onGuiModeChanged`: a display concern of the nested card editor only. */
    method OnGuiModeChanged(mode: bool, available: bool)
      modifies this`guiMode, this`guiModeAvailable
      ensures guiMode == mode && guiModeAvailable == available
    {
      guiMode := mode;
      guiModeAvailable := available;
    }
  }

  // ---------------------------------------------------------------------------
  // End-to-end runs of the editor

  /** From an empty list: select the new-tab index, pick a markdown card; the list holds
      one tab with the draft's id and label "Tab 1", and that tab is selected. */
  method AddFirstTab(freshId: string) returns (tabs: seq<Tab>, selected: int, sent: nat)
    ensures tabs == [Tab(freshId, "Tab 1", JObject(map["type" := JString("markdown")]))]
    ensures selected == 0
    ensures sent == 1
  {
    var editor := new StandardCardTabsEditor("unused-id");
    InitialConfigValid();
    ConfigRoundTrip(InitialConfig());
    var _ := editor.SetConfig(ConfigJson(InitialConfig()));
    editor.OnSelectedTabChanged(JNumber(0), freshId);
    NewTabLabelExamples();
    editor.OnTabCardChanged(JObject(map["type" := JString("markdown")]), 0);
    tabs := editor.config.value.tabs;
    selected := editor.selectedTabIndex;
    sent := |editor.emitted|;
  }

  /** From tabs [a, b] with the second selected: removing it leaves [a], selects nothing
      and drafts "Tab 2". */
  method RemoveSecondTab(a: Tab, b: Tab, freshId: string) returns (tabs: seq<Tab>, selected: int, draft: TabDraft)
    requires WellFormedTab(a) && WellFormedTab(b)
    ensures tabs == [a] && selected == -1 && draft == TabDraft(freshId, "Tab 2")
  {
    var editor := new StandardCardTabsEditor("unused-id");
    var config := InitialConfig().(tabs := [a, b]);
    ConfigRoundTrip(config);
    var _ := editor.SetConfig(ConfigJson(config));
    editor.OnSelectedTabChanged(JNumber(1), "unused-id");
    editor.OnRemoveTab(editor.selectedTabIndex, freshId);
    NewTabLabelExamples();
    tabs := editor.config.value.tabs;
    selected := editor.selectedTabIndex;
    draft := editor.newTabSkeleton;
  }
}
