/**
 * The labels and categories screen: two tabs over the provider's two lists,
 * and one form that either creates an item in the active tab's list or edits
 * the item it was opened on.
 */
module LabelsManager {
  import opened Wrappers
  import opened Seqs
  import opened LabelsContext

  datatype Tab = LabelsTab | CategoriesTab

  /** The four fields of the form. */
  datatype FormData = FormData(name: string, color: string, icon: string, description: string)

  /** The label tag emoji, U+1F3F7 followed by the emoji presentation selector. */
  const LabelIcon := "\U{1F3F7}\U{FE0F}"
  /** The file folder emoji, U+1F4C1. */
  const CategoryIcon := "\U{1F4C1}"

  /**
   * The blank form of a tab: no name or description, and the tab's own
   * colour and icon.
   */
  function DefaultForm(tab: Tab): (f: FormData)
    ensures f.name == "" && f.description == ""
    ensures tab.LabelsTab? ==> f.color == "#667eea" && f.icon == LabelIcon
    ensures tab.CategoriesTab? ==> f.color == "#28a745" && f.icon == CategoryIcon
  {
    if tab.LabelsTab? then FormData("", "#667eea", LabelIcon, "")
    else FormData("", "#28a745", CategoryIcon, "")
  }

  /** The form filled from an item; a missing description reads as "". */
  function FormOf(item: Item): (f: FormData)
    ensures f.name == item.name && f.color == item.color && f.icon == item.icon
    ensures f.description == item.description.GetOr("")
  {
    FormData(item.name, item.color, item.icon, item.description.GetOr(""))
  }

  /** The list the screen shows: the labels on the labels tab, the categories on the other. */
  function CurrentItems(tab: Tab, labels: seq<Item>, categories: seq<Item>): (shown: seq<Item>)
    ensures tab.LabelsTab? ==> shown == labels
    ensures tab.CategoriesTab? ==> shown == categories
  {
    if tab.LabelsTab? then labels else categories
  }

  /** The server call a submit makes. */
  datatype ItemRequest = CreateItem(tab: Tab, form: FormData) | UpdateItem(tab: Tab, id: int, form: FormData)

  /**
   * `handleSubmit`'s choice: update the item being edited, by its id, or else
   * create one; the active tab says whether it is a label or a category.
   */
  function SubmitRequest(tab: Tab, editing: Option<Item>, form: FormData): (r: ItemRequest)
    ensures r.tab == tab && r.form == form
    ensures r.UpdateItem? <==> editing.Some?
    ensures r.UpdateItem? ==> r.id == editing.value.id
  {
    if editing.Some? then UpdateItem(tab, editing.value.id, form) else CreateItem(tab, form)
  }

  /**
   * The provider's lists after `request` got `reply`: only the list of the
   * request's tab changes, and only on success; a created item goes at the
   * end, an updated one replaces the items with its id.
   */
  predicate Stored(request: ItemRequest, reply: Reply<Item>,
                   labels0: seq<Item>, categories0: seq<Item>, labels: seq<Item>, categories: seq<Item>)
  {
    if reply.Fail? then labels == labels0 && categories == categories0
    else
      var apply := (list: seq<Item>) =>
        if request.CreateItem? then list + [reply.value] else ReplaceWhere(list, ItemId, request.id, reply.value);
      if request.tab.LabelsTab? then labels == apply(labels0) && categories == categories0
      else labels == labels0 && categories == apply(categories0)
  }

  /** Sends one request through the provider, to the list of its tab. */
  method Send(request: ItemRequest, store: LabelsStore, reply: Reply<Item>) returns (r: Reply<Item>)
    modifies store`labels, store`categories
    ensures r == reply
    ensures Stored(request, reply, old(store.labels), old(store.categories), store.labels, store.categories)
  {
    match request
    case CreateItem(tab, _) =>
      if tab.LabelsTab? { r := store.CreateLabel(reply); } else { r := store.CreateCategory(reply); }
    case UpdateItem(tab, id, _) =>
      if tab.LabelsTab? { r := store.UpdateLabel(id, reply); } else { r := store.UpdateCategory(id, reply); }
  }

  class Manager {
    var activeTab: Tab
    var showCreateForm: bool
    var editingItem: Option<Item>
    var formData: FormData

    /** The screen opens on the labels tab with the label form blank and hidden. */
    constructor ()
      ensures activeTab == LabelsTab && !showCreateForm && editingItem == None
      ensures formData == DefaultForm(LabelsTab)
    {
      activeTab := LabelsTab;
      showCreateForm := false;
      editingItem := None;
      formData := DefaultForm(LabelsTab);
    }

    /** `resetForm`: the blank form of the active tab, nothing being edited, the form hidden. */
    method ResetForm()
      modifies this`formData, this`editingItem, this`showCreateForm
      ensures formData == DefaultForm(activeTab) && editingItem == None && !showCreateForm
    {
      formData := DefaultForm(activeTab);
      editingItem := None;
      showCreateForm := false;
    }

    /** `handleEdit`: the form shows the item's fields and remembers the item. */
    method HandleEdit(item: Item)
      modifies this`formData, this`editingItem, this`showCreateForm
      ensures editingItem == Some(item) && formData == FormOf(item) && showCreateForm
    {
      editingItem := Some(item);
      formData := FormOf(item);
      showCreateForm := true;
    }

    /** Switching tabs changes nothing but the tab; the form keeps what it holds. */
    method SelectTab(tab: Tab)
      modifies this`activeTab
      ensures activeTab == tab
    {
      activeTab := tab;
    }

    /** The create button only shows the form, as it stands. */
    method OpenCreateForm()
      modifies this`showCreateForm
      ensures showCreateForm
    {
      showCreateForm := true;
    }

    /** Typing into the form replaces its fields. */
    method EditForm(f: FormData)
      modifies this`formData
      ensures formData == f
    {
      formData := f;
    }

    /**
     * `handleSubmit`: sends SubmitRequest through the provider. Success
     * resets the form; a failure alerts the server's message, or "Failed to
     * save item", and leaves the form as it was.
     */
    method HandleSubmit(store: LabelsStore, reply: Reply<Item>) returns (sent: ItemRequest, alert: Option<string>)
      modifies this`formData, this`editingItem, this`showCreateForm, store`labels, store`categories
      ensures sent == SubmitRequest(activeTab, old(editingItem), old(formData))
      ensures Stored(sent, reply, old(store.labels), old(store.categories), store.labels, store.categories)
      ensures reply.Ok? ==> alert == None && formData == DefaultForm(activeTab) && editingItem == None && !showCreateForm
      ensures reply.Fail? ==>
        && alert == Some(ErrorText(reply, "Failed to save item"))
        && formData == old(formData) && editingItem == old(editingItem) && showCreateForm == old(showCreateForm)
    {
      sent := SubmitRequest(activeTab, editingItem, formData);
      var r := Send(sent, store, reply);
      if r.Ok? {
        alert := None;
        ResetForm();
      } else {
        alert := Some(ErrorText(r, "Failed to save item"));
      }
    }

    /**
     * `handleDelete`: once confirmed, deletes the item with `id` from the
     * active tab's list only; a failure alerts the server's message, or
     * "Failed to delete item". Without confirmation nothing happens.
     */
    method HandleDelete(id: int, confirmed: bool, store: LabelsStore, reply: Reply<()>) returns (alert: Option<string>)
      modifies store`labels, store`categories
      ensures confirmed && reply.Ok? && activeTab.LabelsTab? ==>
        store.labels == RemoveWhere(old(store.labels), ItemId, id) && store.categories == old(store.categories)
      ensures confirmed && reply.Ok? && activeTab.CategoriesTab? ==>
        store.categories == RemoveWhere(old(store.categories), ItemId, id) && store.labels == old(store.labels)
      ensures !confirmed || reply.Fail? ==> store.labels == old(store.labels) && store.categories == old(store.categories)
      ensures alert == if confirmed && reply.Fail? then Some(ErrorText(reply, "Failed to delete item")) else None
    {
      alert := None;
      if confirmed {
        var r;
        if activeTab.LabelsTab? {
          r := store.DeleteLabel(id, reply);
        } else {
          r := store.DeleteCategory(id, reply);
        }
        if r.Fail? {
          alert := Some(ErrorText(r, "Failed to delete item"));
        }
      }
    }
  }

  /**
   * Editing an item and submitting it with the server's success replaces
   * that item, by id, in the active tab's list and in no other, and leaves
   * the blank form of the tab.
   */
  lemma EditThenSubmitReplaces(tab: Tab, item: Item, saved: Item, labels: seq<Item>, categories: seq<Item>,
                                labels': seq<Item>, categories': seq<Item>)
    requires Stored(SubmitRequest(tab, Some(item), FormOf(item)), Ok(saved), labels, categories, labels', categories')
    ensures tab.LabelsTab? ==> labels' == ReplaceWhere(labels, ItemId, item.id, saved) && categories' == categories
    ensures tab.CategoriesTab? ==> categories' == ReplaceWhere(categories, ItemId, item.id, saved) && labels' == labels
  {
  }

  /**
   * A successful create shows the new item at the end of the list on screen,
   * after every item shown before, and leaves the other tab's list alone.
   */
  lemma CreateAppendsToShownList(tab: Tab, form: FormData, created: Item, labels: seq<Item>, categories: seq<Item>,
                                  labels': seq<Item>, categories': seq<Item>)
    requires Stored(SubmitRequest(tab, None, form), Ok(created), labels, categories, labels', categories')
    ensures CurrentItems(tab, labels', categories') == CurrentItems(tab, labels, categories) + [created]
    ensures var other := if tab.LabelsTab? then CategoriesTab else LabelsTab;
      CurrentItems(other, labels', categories') == CurrentItems(other, labels, categories)
  {
  }
}
