/**
 * The `tabs` slice of the Redux store: the construction category shown as
 * the active tab, the categories offered as tabs, and the active sub-tab.
 */
module TabsSlice {
  import opened Common

  /** A tab: `{ key, label }` (`label` is held in `title`), either of which may be `null`. */
  datatype Tab = Tab(key: Option<string>, title: Option<string>)

  /** The active tab of a fresh store: both fields the empty string. */
  const InitialTab := Tab(Some(""), Some(""))

  /** The tabs state; every reducer replaces one field with its payload. */
  class TabsStore {
    var activeTab: Tab
    var availableTabs: seq<Tab>
    var subTab: Option<string>

    constructor ()
      ensures activeTab == InitialTab && availableTabs == [] && subTab == None
    {
      activeTab, availableTabs, subTab := InitialTab, [], None;
    }

    method SetActiveTab(payload: Tab)
      modifies this`activeTab
      ensures activeTab == payload
    {
      activeTab := payload;
    }

    method SetAvailableTabs(payload: seq<Tab>)
      modifies this`availableTabs
      ensures availableTabs == payload
    {
      availableTabs := payload;
    }

    method SetActiveSubTab(payload: Option<string>)
      modifies this`subTab
      ensures subTab == payload
    {
      subTab := payload;
    }

    /**
     * The three actions the material back button dispatches: the result is the
     * initial state except that the active tab's key and label are `null`
     * rather than empty.
     */
    method BackButtonReset()
      modifies this
      ensures activeTab == Tab(None, None) && availableTabs == [] && subTab == None
      ensures activeTab != InitialTab
    {
      SetActiveTab(Tab(None, None));
      SetActiveSubTab(None);
      SetAvailableTabs([]);
    }
  }
}
