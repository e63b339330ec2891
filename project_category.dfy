/**
 * The construction categories of the active project: listed as tabs, one
 * opened by pressing it, and a new one added by name.
 */
module ProjectCategory {
  import opened Common
  import opened TabsSlice
  import opened ProjectSlice

  /** A construction category as listed by `get-construction-category-from-project`. */
  datatype CategoryRecord = CategoryRecord(ccId: string, ccName: string)

  /** Each category as a tab keyed by its id and labelled with its name, in order. */
  function CategoryTabs(records: seq<CategoryRecord>): (tabs: seq<Tab>)
    ensures |tabs| == |records|
    ensures forall i :: 0 <= i < |records| ==> tabs[i] == Tab(Some(records[i].ccId), Some(records[i].ccName))
  {
    if records == [] then [] else [Tab(Some(records[0].ccId), Some(records[0].ccName))] + CategoryTabs(records[1..])
  }

  /** `fetchProjectCategory`'s formatting: a `construction categories` list as tabs, anything else as none. */
  function FormatCategories(field: Option<seq<CategoryRecord>>): (tabs: seq<Tab>)
    ensures field.None? ==> tabs == []
    ensures field.Some? ==> tabs == CategoryTabs(field.value)
  {
    if field.Some? then CategoryTabs(field.value) else []
  }

  /** Distinct category ids give distinct tab keys, so the list keys its items uniquely. */
  lemma {:induction false} DistinctIdsDistinctKeys(records: seq<CategoryRecord>)
    requires forall i, j :: 0 <= i < j < |records| ==> records[i].ccId != records[j].ccId
    ensures forall i, j :: 0 <= i < j < |records| ==> CategoryTabs(records)[i].key != CategoryTabs(records)[j].key
  {
    var tabs := CategoryTabs(records);
    forall i, j | 0 <= i < j < |records|
      ensures tabs[i].key != tabs[j].key
    {
      assert tabs[i].key == Some(records[i].ccId) && tabs[j].key == Some(records[j].ccId);
    }
  }

  /** The body of the `add-construction-category` request. */
  datatype NewCategory = NewCategory(ccName: string, projectId: string, userId: string)

  /** The confirm button is enabled, and does anything, only for a non-empty name. */
  predicate ConfirmEnabled(ccName: string)
  {
    ccName != ""
  }

  /** The state of the category list. */
  class CategoryScreen {
    var categories: seq<Tab>
    var loading: bool
    var modalVisible: bool
    var ccName: string

    constructor ()
      ensures categories == [] && !loading && !modalVisible && ccName == ""
    {
      categories, loading, modalVisible, ccName := [], false, false, "";
    }

    /**
     * `fetchProjectCategory`: with a stored user id and an active project,
     * the response replaces the categories by its formatted list; otherwise,
     * or on failure, they are kept. Loading ends in every case.
     */
    method FetchProjectCategory(storedUserId: Option<string>, activeProject: Option<Project>,
                                response: Fetch<Option<seq<CategoryRecord>>>)
      returns (requested: Option<string>)
      modifies this`categories, this`loading
      ensures requested == if Truthy(storedUserId) && activeProject.Some? then Some(activeProject.value.projectId) else None
      ensures categories == if requested.Some? && response.Received? then FormatCategories(response.data) else old(categories)
      ensures !loading
    {
      loading := true;
      requested := None;
      if Truthy(storedUserId) && activeProject.Some? {
        requested := Some(activeProject.value.projectId);
        if response.Received? {
          categories := FormatCategories(response.data);
        }
      }
      loading := false;
    }

    /** `handleItemPress`: the pressed category becomes the active tab and the list the available tabs. */
    method HandleItemPress(item: Tab, tabs: TabsStore)
      modifies tabs
      ensures tabs.activeTab == Tab(item.key, item.title) && tabs.availableTabs == categories
      ensures tabs.subTab == old(tabs.subTab)
    {
      tabs.SetActiveTab(Tab(item.key, item.title));
      tabs.SetAvailableTabs(categories);
    }

    method HandleAddPress()
      modifies this`modalVisible
      ensures modalVisible
    {
      modalVisible := true;
    }

    method EditName(text: string)
      modifies this`ccName
      ensures ccName == text
    {
      ccName := text;
    }

    /**
     * The confirm button: nothing for an empty name; otherwise, with a stored
     * user id and an active project, the category is posted, and a request
     * that does not fail clears the name and closes the dialog (the list is
     * then fetched again). A failed one leaves both.
     */
    method HandleConfirm(storedUserId: Option<string>, activeProject: Option<Project>, succeeded: bool)
      returns (sent: Option<NewCategory>)
      modifies this`ccName, this`modalVisible
      ensures sent.Some? <==> ConfirmEnabled(old(ccName)) && Truthy(storedUserId) && activeProject.Some?
      ensures sent.Some? ==> sent.value == NewCategory(old(ccName), activeProject.value.projectId, storedUserId.value)
      ensures if sent.Some? && succeeded then ccName == "" && !modalVisible
              else ccName == old(ccName) && modalVisible == old(modalVisible)
    {
      if !ConfirmEnabled(ccName) || !Truthy(storedUserId) || activeProject.None? {
        return None;
      }
      sent := Some(NewCategory(ccName, activeProject.value.projectId, storedUserId.value));
      if succeeded {
        ccName, modalVisible := "", false;
      }
    }

    /** `handleCancel`, also the back gesture: clears the name and closes the dialog. */
    method HandleCancel()
      modifies this`ccName, this`modalVisible
      ensures ccName == "" && !modalVisible
    {
      ccName, modalVisible := "", false;
    }
  }
}
