/**
 * The tab bar (src/components/tabs.ts, element `std-ui-tabs`): the slotted
 * `std-ui-tab` elements each carry an `active` flag; the bar reads the active
 * index from those flags, activates one tab at a time and reports a change of
 * selection with a `selected` event.
 */
module UiTabs {

  /** `findIndex((tab) => tab.active)`: the first active position, -1 when none is active. */
  function FirstActive(flags: seq<bool>): (r: int)
    ensures -1 <= r < |flags|
    ensures r == -1 <==> forall j :: 0 <= j < |flags| ==> !flags[j]
    ensures r != -1 ==> flags[r] && forall j :: 0 <= j < r ==> !flags[j]
  {
    if flags == [] then -1
    else if flags[0] then 0
    else
      var rest := FirstActive(flags[1..]);
      if rest == -1 then -1 else rest + 1
  }

  /** Exactly position `index` of `n` flags is set. */
  function OneHot(n: nat, index: int): (flags: seq<bool>)
    ensures |flags| == n
    ensures forall j :: 0 <= j < n ==> flags[j] == (j == index)
  {
    seq(n, j => j == index)
  }

  /** After a single tab is activated, the active index reads back as that tab's position. */
  lemma FirstActiveOneHot(n: nat, index: int)
    requires 0 <= index < n
    ensures FirstActive(OneHot(n, index)) == index
  {
    assert OneHot(n, index)[index];
  }

  /** A `std-ui-tab`: only its `active` flag matters to the bar. */
  class StdUiTab {
    var active: bool

    constructor (active: bool)
      ensures this.active == active
    {
      this.active := active;
    }
  }

  class StdUiTabs {
    /** The slotted `std-ui-tab` elements, in document order. */
    var tabs: seq<StdUiTab>
    /** The `detail.index` of every `selected` event dispatched, oldest first. */
    var selected: seq<int>

    /** The slot holds each element at most once. */
    ghost predicate Valid()
      reads this
    {
      forall i, j :: 0 <= i < j < |tabs| ==> tabs[i] != tabs[j]
    }

    constructor (tabs: seq<StdUiTab>)
      requires forall i, j :: 0 <= i < j < |tabs| ==> tabs[i] != tabs[j]
      ensures Valid() && this.tabs == tabs && selected == []
    {
      this.tabs := tabs;
      selected := [];
    }

    /** The `active` flags of the tabs, in order. */
    function Flags(): (flags: seq<bool>)
      reads this, tabs
      ensures |flags| == |tabs|
      ensures forall j :: 0 <= j < |tabs| ==> flags[j] == tabs[j].active
    {
      seq(|tabs|, j reads this, tabs requires 0 <= j < |tabs| => tabs[j].active)
    }

    /** The `activeIndex` getter: the position of the first active tab, -1 when none is. */
    function ActiveIndex(): (r: int)
      reads this, tabs
      ensures -1 <= r < |tabs|
      ensures r == -1 <==> forall j :: 0 <= j < |tabs| ==> !tabs[j].active
      ensures r != -1 ==> tabs[r].active && forall j :: 0 <= j < r ==> !tabs[j].active
    {
      FirstActive(Flags())
    }

    /** The `activeTab` getter: the first active tab, or null. */
    function ActiveTab(): (t: StdUiTab?)
      reads this, tabs
      ensures t == null <==> forall j :: 0 <= j < |tabs| ==> !tabs[j].active
      ensures t != null ==> t.active && 0 <= ActiveIndex() < |tabs| && t == tabs[ActiveIndex()]
    {
      var i := ActiveIndex();
      if i == -1 then null else tabs[i]
    }

    /** `activateTab`: a tab outside the bar, or the tab already reported active, changes
        nothing. Otherwise exactly that tab becomes active, and its index is reported with
        `selected` only when some tab was active before. */
    method ActivateTab(tab: StdUiTab)
      requires Valid()
      modifies tabs, this`selected
      ensures tab !in tabs || old(ActiveTab()) == tab ==> Flags() == old(Flags()) && selected == old(selected)
      ensures tab in tabs && old(ActiveTab()) != tab ==>
                && 0 <= ActiveIndex() < |tabs| && tabs[ActiveIndex()] == tab
                && Flags() == OneHot(|tabs|, ActiveIndex())
                && selected == old(selected) + if old(ActiveTab()) != null then [ActiveIndex()] else []
    {
      var previousTab := ActiveTab();
      if tab !in tabs || previousTab == tab {
        return;
      }
      var activeIndex := MarkOnly(tab);
      assert Flags() == OneHot(|tabs|, activeIndex);
      FirstActiveOneHot(|tabs|, activeIndex);
      if previousTab != null {
        selected := selected + [activeIndex];
      }
    }

    /** The `forEach` of `activateTab`: set each tab's flag to whether it is `tab`, and
        note the position where it is. */
    method MarkOnly(tab: StdUiTab) returns (activeIndex: int)
      requires Valid() && tab in tabs
      modifies tabs
      ensures 0 <= activeIndex < |tabs| && tabs[activeIndex] == tab
      ensures forall j :: 0 <= j < |tabs| ==> tabs[j].active == (j == activeIndex)
    {
      activeIndex := -1;
      var i := 0;
      while i < |tabs|
        invariant 0 <= i <= |tabs|
        invariant forall j :: 0 <= j < i ==> tabs[j].active == (tabs[j] == tab)
        invariant activeIndex == -1 ==> forall j :: 0 <= j < i ==> tabs[j] != tab
        invariant activeIndex != -1 ==> 0 <= activeIndex < i && tabs[activeIndex] == tab
      {
        var isActive := tabs[i] == tab;
        tabs[i].active := isActive;
        if isActive {
          activeIndex := i;
        }
        i := i + 1;
      }
    }

    /** The `activeIndex` setter, once the slot is rendered: an index outside the bar, or
        the index already reported active, changes nothing; otherwise the tab there becomes
        the only active one, and the index is reported when some tab was active before. */
    method SetActiveIndex(index: int)
      requires Valid()
      modifies tabs, this`selected
      ensures !(0 <= index < |tabs|) || old(ActiveIndex()) == index ==> Flags() == old(Flags()) && selected == old(selected)
      ensures 0 <= index < |tabs| && old(ActiveIndex()) != index ==>
                && Flags() == OneHot(|tabs|, index)
                && ActiveIndex() == index
                && selected == old(selected) + if old(ActiveIndex()) != -1 then [index] else []
    {
      if 0 <= index < |tabs| {
        ActivateTab(tabs[index]);
      }
    }

    /** The `activeTab` setter: null is ignored. */
    method SetActiveTab(tab: StdUiTab?)
      requires Valid()
      modifies tabs, this`selected
      ensures tab == null || tab !in tabs || old(ActiveTab()) == tab ==> Flags() == old(Flags()) && selected == old(selected)
      ensures tab != null && tab in tabs && old(ActiveTab()) != tab ==>
                && ActiveTab() == tab
                && Flags() == OneHot(|tabs|, ActiveIndex())
                && selected == old(selected) + if old(ActiveTab()) != null then [ActiveIndex()] else []
    {
      if tab != null {
        ActivateTab(tab);
      }
    }

    /** `onTabClick`: the `std-ui-tab` the click came from, if any, is activated. */
    method OnTabClick(clicked: StdUiTab?)
      requires Valid()
      modifies tabs, this`selected
      ensures clicked == null || clicked !in tabs || old(ActiveTab()) == clicked ==>
                Flags() == old(Flags()) && selected == old(selected)
      ensures clicked != null && clicked in tabs && old(ActiveTab()) != clicked ==>
                && ActiveTab() == clicked
                && Flags() == OneHot(|tabs|, ActiveIndex())
                && selected == old(selected) + if old(ActiveTab()) != null then [ActiveIndex()] else []
    {
      if clicked == null {
        return;
      }
      ActivateTab(clicked);
    }

    /** `connectedCallback` (its animation-frame callback): the first tab, if any, is
        marked active without any event; the other flags stay. */
    method ConnectedCallback()
      requires Valid()
      modifies tabs
      ensures |tabs| == 0 ==> Flags() == old(Flags())
      ensures |tabs| > 0 ==> Flags() == old(Flags())[0 := true] && ActiveIndex() == 0
      ensures selected == old(selected)
    {
      if |tabs| > 0 {
        tabs[0].active := true;
      }
    }
  }
}
