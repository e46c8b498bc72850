/** The inventory screen (frontend/src/pages/Inventory.jsx): the filtered and
    priority-sorted stock list, the low-stock list, and the selection the
    check boxes and the delete buttons maintain. */
module InventoryPage {
  import opened Wrappers
  import opened Text
  import opened Seqs
  import opened Catalog

  /** Items with less stock than this are low on stock. */
  const LowStockThreshold: real := 5.0

  predicate IsLowStock(item: CatalogItem) {
    item.stock < LowStockThreshold
  }

  /** The list's test: the name or the Tamil name contains the term, ignoring
      case, and in low-stock mode the stock is low. */
  predicate MatchesList(search: string, lowStockOnly: bool, item: CatalogItem) {
    var matchesSearch := Contains(Lower(item.name), Lower(search))
      || (item.tamilName != [] && Contains(Lower(item.tamilName), Lower(search)));
    var matchesStock := if lowStockOnly then IsLowStock(item) else true;
    matchesSearch && matchesStock
  }

  function ListTest(search: string, lowStockOnly: bool): CatalogItem -> bool {
    item => MatchesList(search, lowStockOnly, item)
  }

  /** `filteredItems` */
  function FilteredItems(collate: Collation, items: seq<CatalogItem>, search: string, lowStockOnly: bool): seq<CatalogItem> {
    SortItems(Order(LowerCaseNames, collate), Filter(items, ListTest(search, lowStockOnly)))
  }

  /** `lowStockItems` */
  function LowStockItems(items: seq<CatalogItem>): seq<CatalogItem> {
    Filter(items, IsLowStock)
  }

  /** The list shows exactly the matching items, each as often as in the
      inventory, in priority order, and items that compare equal in
      inventory order. */
  lemma {:induction false} FilteredItemsSpec(collate: Collation, items: seq<CatalogItem>, search: string, lowStockOnly: bool, e: CatalogItem)
    requires IsCollation(collate)
    ensures var o := Order(LowerCaseNames, collate);
      var matches := Filter(items, ListTest(search, lowStockOnly));
      var r := FilteredItems(collate, items, search, lowStockOnly);
      Sorted(o, r) && multiset(r) == multiset(matches) && multiset(r) <= multiset(items)
      && Filter(r, Ties(o, e)) == Filter(matches, Ties(o, e))
    ensures forall item :: item in FilteredItems(collate, items, search, lowStockOnly) <==>
      item in items
      && (Contains(Lower(item.name), Lower(search)) || (item.tamilName != [] && Contains(Lower(item.tamilName), Lower(search))))
      && (lowStockOnly ==> item.stock < 5.0)
  {
    var o := Order(LowerCaseNames, collate);
    var p := ListTest(search, lowStockOnly);
    SortItemsSpec(o, Filter(items, p), e);
    FilterMultiset(items, p);
    forall item
      ensures item in FilteredItems(collate, items, search, lowStockOnly) <==> item in items && MatchesList(search, lowStockOnly, item)
    {
      assert item in FilteredItems(collate, items, search, lowStockOnly) <==> item in multiset(Filter(items, p));
      FilterMember(items, p, item);
    }
  }

  /** The low-stock list is exactly the items under the threshold, in
      inventory order; in low-stock mode the list shows only such items. */
  lemma {:induction false} LowStockSpec(collate: Collation, items: seq<CatalogItem>, search: string)
    requires IsCollation(collate)
    ensures forall item :: item in LowStockItems(items) <==> item in items && item.stock < 5.0
    ensures IsSubsequence(LowStockItems(items), items)
    ensures forall item :: item in FilteredItems(collate, items, search, true) ==> item in LowStockItems(items)
  {
    forall item
      ensures item in LowStockItems(items) <==> item in items && item.stock < 5.0
    {
      FilterMember(items, IsLowStock, item);
    }
    FilterOrder(items, IsLowStock);
    FilteredItemsSpec(collate, items, search, true, CatalogItem(0, 0, "", "", 0.0, 0.0, 0.0, 0.0));
  }

  lemma CaseFolding(name: string)
    requires name == "Cluster Beans"
    ensures Lower(name) == "cluster beans"
  {
  }

  lemma {:induction false} ClusterBeansWords(n: string)
    requires n == "cluster beans"
    ensures Contains(n, "beans")
    ensures !Contains(n, "green chili") && !Contains(n, "green chilly")
  {
    assert "beans" <= n[8..];
    ContainsAt(n, "beans", 8);
    assert 'g' !in n;
    if Contains(n, "green chili") {
      ContainsFirstLetter(n, "green chili");
    }
    if Contains(n, "green chilly") {
      ContainsFirstLetter(n, "green chilly");
    }
  }

  /** The list ranks by substring where the invoice picker needs the exact
      name: "Cluster Beans" is a priority item here and not there. */
  lemma {:induction false} SubstringRankDiffers(name: string)
    requires name == "Cluster Beans"
    ensures LowerCaseRank(name) == 4
    ensures ExactRank(name) == -1
  {
    CaseFolding(name);
    LowerRankOfClusterBeans(name);
    ExactRankOfClusterBeans(name);
  }

  lemma LowerRankOfClusterBeans(name: string)
    requires Lower(name) == "cluster beans"
    ensures LowerCaseRank(name) == 4
  {
    var n := Lower(name);
    ClusterBeansWords(n);
    assert |n| == 13;
  }

  lemma ExactRankOfClusterBeans(name: string)
    requires name == "Cluster Beans"
    ensures ExactRank(name) == -1
  {
    assert |name| == 13;
  }

  // ---------------------------------------------------------------------
  // Selection

  /** `toggleSelect` on the list of selected ids. */
  function Toggle(selected: seq<int>, id: int): seq<int> {
    if id in selected then Filter(selected, (x: int) => x != id) else selected + [id]
  }

  /** `toggleSelectAll`: clear when the selection is as long as the item
      list, otherwise select every item, in list order. */
  function SelectAll(selected: seq<int>, items: seq<CatalogItem>): seq<int> {
    if |selected| == |items| then []
    else seq(|items|, i requires 0 <= i < |items| => items[i].vegetableId)
  }

  /** Toggling flips the given id's membership and no other id's. */
  lemma {:induction false} ToggleFlips(selected: seq<int>, id: int)
    ensures id in Toggle(selected, id) <==> id !in selected
    ensures forall x :: x != id ==> (x in Toggle(selected, id) <==> x in selected)
  {
    var p := (x: int) => x != id;
    forall x
      ensures x in Filter(selected, p) <==> x in selected && x != id
    {
      FilterMember(selected, p, x);
    }
  }

  /** Toggling twice selects the same ids as before. */
  lemma {:induction false} ToggleTwice(selected: seq<int>, id: int)
    ensures forall x :: x in Toggle(Toggle(selected, id), id) <==> x in selected
  {
    ToggleFlips(selected, id);
    ToggleFlips(Toggle(selected, id), id);
  }

  /** Select-all from a shorter or longer selection selects every item's id;
      pressing it again clears the selection. */
  lemma {:induction false} SelectAllSpec(selected: seq<int>, items: seq<CatalogItem>)
    ensures |selected| == |items| ==> SelectAll(selected, items) == []
    ensures |selected| != |items| ==>
      |SelectAll(selected, items)| == |items|
      && (forall i :: 0 <= i < |items| ==> SelectAll(selected, items)[i] == items[i].vegetableId)
      && SelectAll(SelectAll(selected, items), items) == []
  {
  }

  /** The ids `handleConfirmDelete` deletes: the pending item's, or else the
      whole selection. */
  function IdsToDelete(pending: Option<CatalogItem>, selected: seq<int>): seq<int> {
    match pending
    case Some(item) => [item.vegetableId]
    case None => selected
  }

  /** The page's selection state. */
  class Selection {
    var items: seq<CatalogItem>
    var selectedItems: seq<int>
    var pendingDeleteItem: Option<CatalogItem>
    var showDeleteModal: bool

    constructor(loaded: seq<CatalogItem>)
      ensures items == loaded && selectedItems == [] && pendingDeleteItem == None && !showDeleteModal
    {
      items := loaded;
      selectedItems := [];
      pendingDeleteItem := None;
      showDeleteModal := false;
    }

    method ToggleSelect(id: int)
      modifies this
      ensures selectedItems == Toggle(old(selectedItems), id)
      ensures id in selectedItems <==> id !in old(selectedItems)
      ensures forall x :: x != id ==> (x in selectedItems <==> x in old(selectedItems))
      ensures items == old(items) && pendingDeleteItem == old(pendingDeleteItem) && showDeleteModal == old(showDeleteModal)
    {
      ToggleFlips(selectedItems, id);
      selectedItems := Toggle(selectedItems, id);
    }

    method ToggleSelectAll()
      modifies this
      ensures selectedItems == SelectAll(old(selectedItems), items)
      ensures items == old(items) && pendingDeleteItem == old(pendingDeleteItem) && showDeleteModal == old(showDeleteModal)
    {
      if |selectedItems| == |items| {
        selectedItems := [];
      } else {
        var all := items;
        selectedItems := seq(|all|, i requires 0 <= i < |all| => all[i].vegetableId);
      }
    }

    /** `handleDeleteClick`: one item's delete button asks to delete that
        item alone, whatever is selected. */
    method DeleteClick(item: CatalogItem)
      modifies this
      ensures pendingDeleteItem == Some(item) && showDeleteModal
      ensures ItemsToDelete() == [item.vegetableId]
      ensures items == old(items) && selectedItems == old(selectedItems)
    {
      pendingDeleteItem := Some(item);
      showDeleteModal := true;
    }

    /** `handleBulkDelete`: ignored with nothing selected; otherwise asks to
        delete the whole selection, dropping an earlier single-item request. */
    method BulkDelete()
      modifies this
      ensures old(selectedItems) == [] ==>
        pendingDeleteItem == old(pendingDeleteItem) && showDeleteModal == old(showDeleteModal)
      ensures old(selectedItems) != [] ==> pendingDeleteItem == None && showDeleteModal
      ensures old(selectedItems) != [] ==> ItemsToDelete() == old(selectedItems)
      ensures items == old(items) && selectedItems == old(selectedItems)
    {
      if selectedItems == [] {
        return;
      }
      pendingDeleteItem := None;
      showDeleteModal := true;
    }

    /** `handleConfirmDelete`: `ids` are the ids sent for deletion, in order.
        `succeeded` stands for every delete request succeeding; then the
        modal closes and the pending item is cleared, and otherwise nothing
        changes. The selection is kept either way. */
    method ConfirmDelete(succeeded: bool) returns (ids: seq<int>)
      modifies this
      ensures ids == old(ItemsToDelete())
      ensures old(pendingDeleteItem).Some? ==> ids == [old(pendingDeleteItem).value.vegetableId]
      ensures old(pendingDeleteItem).None? ==> ids == old(selectedItems)
      ensures succeeded ==> pendingDeleteItem == None && !showDeleteModal
      ensures !succeeded ==> pendingDeleteItem == old(pendingDeleteItem) && showDeleteModal == old(showDeleteModal)
      ensures items == old(items) && selectedItems == old(selectedItems)
    {
      ids := ItemsToDelete();
      if succeeded {
        showDeleteModal := false;
        pendingDeleteItem := None;
      }
    }

    /** The modal's Cancel button only closes it; the pending item stays. */
    method CancelDelete()
      modifies this
      ensures !showDeleteModal
      ensures items == old(items) && selectedItems == old(selectedItems) && pendingDeleteItem == old(pendingDeleteItem)
    {
      showDeleteModal := false;
    }

    function ItemsToDelete(): seq<int>
      reads this
    {
      IdsToDelete(pendingDeleteItem, selectedItems)
    }
  }
}
