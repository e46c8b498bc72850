/** The rules of the inventory endpoints (app/api/v1/inventory/inventory_api.py):
    the setup upsert, the partial update and the listing of a user's rows. */
module InventoryApi {
  import opened Wrappers
  import opened Seqs
  import opened Records

  /** One requested row of a setup (app/schema/inventory.py). */
  datatype SetupItem = SetupItem(vegetableId: int, pricePerKg: real, stockKg: real)

  /** The inventory table with the id the next inserted row gets. */
  datatype Table = Table(inventory: map<InvKey, InventoryRow>, nextRowId: int)

  /** Row ids are primary keys: all below the next id, no two alike. */
  predicate IdsValid(t: Table) {
    (forall k :: k in t.inventory ==> t.inventory[k].id < t.nextRowId)
    && (forall k1, k2 :: k1 in t.inventory && k2 in t.inventory && k1 != k2 ==> t.inventory[k1].id != t.inventory[k2].id)
  }

  /** One iteration of the setup loop: a vegetable missing from the master
      list is skipped; the user's row for it is overwritten, or inserted. */
  function SetupStep(vegetables: map<int, Vegetable>, userId: int, t: Table, item: SetupItem): Table {
    if item.vegetableId !in vegetables then t
    else
      var key := InvKey(userId, item.vegetableId);
      if key in t.inventory then
        Table(t.inventory[key := t.inventory[key].(pricePerKg := item.pricePerKg, stockKg := item.stockKg)], t.nextRowId)
      else
        Table(t.inventory[key := InventoryRow(t.nextRowId, item.pricePerKg, item.stockKg)], t.nextRowId + 1)
  }

  /** The setup loop over `items`. */
  function SetupRun(vegetables: map<int, Vegetable>, userId: int, t: Table, items: seq<SetupItem>): Table
    decreases |items|
  {
    if items == [] then t
    else SetupStep(vegetables, userId, SetupRun(vegetables, userId, t, items[..|items| - 1]), items[|items| - 1])
  }

  /** The last requested item for a vegetable. */
  function LastFor(items: seq<SetupItem>, vegetableId: int): (r: Option<SetupItem>)
    ensures r.Some? ==> r.value in items && r.value.vegetableId == vegetableId
    ensures r.None? ==> forall item :: item in items ==> item.vegetableId != vegetableId
    ensures r.Some? ==> exists i :: (0 <= i < |items| && items[i] == r.value
      && forall j :: i < j < |items| ==> items[j].vegetableId != vegetableId)
    decreases |items|
  {
    if items == [] then None
    else if items[|items| - 1].vegetableId == vegetableId then Some(items[|items| - 1])
    else
      var r := LastFor(items[..|items| - 1], vegetableId);
      assert forall item :: item in items ==> item in items[..|items| - 1] || item == items[|items| - 1];
      r
  }

  function Known(vegetables: map<int, Vegetable>): SetupItem -> bool {
    (item: SetupItem) => item.vegetableId in vegetables
  }

  /** Setup leaves the rows of other users as they were. */
  lemma {:induction false} SetupOtherUsers(vegetables: map<int, Vegetable>, userId: int, t: Table, items: seq<SetupItem>, k: InvKey)
    requires k.userId != userId
    ensures k in SetupRun(vegetables, userId, t, items).inventory <==> k in t.inventory
    ensures k in t.inventory ==> SetupRun(vegetables, userId, t, items).inventory[k] == t.inventory[k]
    decreases |items|
  {
    if items != [] {
      SetupOtherUsers(vegetables, userId, t, items[..|items| - 1], k);
    }
  }

  /** After setup the user's row for a listed vegetable of the master list
      exists and carries the price and stock of the last item for it, keeping
      its id if it existed; the user's other rows are as they were. */
  lemma {:induction false} SetupRowFor(vegetables: map<int, Vegetable>, userId: int, t: Table, items: seq<SetupItem>, k: InvKey)
    requires k.userId == userId
    ensures var r := SetupRun(vegetables, userId, t, items).inventory;
      var last := LastFor(items, k.vegetableId);
      if last.Some? && k.vegetableId in vegetables then
        k in r && r[k].pricePerKg == last.value.pricePerKg && r[k].stockKg == last.value.stockKg
        && (k in t.inventory ==> r[k].id == t.inventory[k].id)
      else
        (k in r <==> k in t.inventory) && (k in t.inventory ==> r[k] == t.inventory[k])
    decreases |items|
  {
    if items != [] {
      var front := items[..|items| - 1];
      SetupRowFor(vegetables, userId, t, front, k);
      if items[|items| - 1].vegetableId != k.vegetableId {
        assert LastFor(items, k.vegetableId) == LastFor(front, k.vegetableId);
      }
    }
  }

  /** Skipping unknown vegetables is the same as leaving them out of the
      request. */
  lemma {:induction false} SetupSkipsUnknown(vegetables: map<int, Vegetable>, userId: int, t: Table, items: seq<SetupItem>)
    ensures SetupRun(vegetables, userId, t, items) == SetupRun(vegetables, userId, t, Filter(items, Known(vegetables)))
    decreases |items|
  {
    if items != [] {
      var front := items[..|items| - 1];
      var last := items[|items| - 1];
      assert items == front + [last];
      SetupSkipsUnknown(vegetables, userId, t, front);
      var known := Known(vegetables);
      FilterAppend(front, [last], known);
      assert Filter([last], known) == (if known(last) then [last] else []) + Filter([last][1..], known);
      var f := Filter(front, known);
      if known(last) {
        assert Filter(items, known) == f + [last];
        assert (f + [last])[..|f + [last]| - 1] == f;
      } else {
        assert Filter(items, known) == f;
      }
    }
  }

  /** Setup gives every inserted row a fresh id, so row ids stay unique. */
  lemma {:induction false} SetupKeepsIdsValid(vegetables: map<int, Vegetable>, userId: int, t: Table, items: seq<SetupItem>)
    requires IdsValid(t)
    ensures IdsValid(SetupRun(vegetables, userId, t, items))
    ensures SetupRun(vegetables, userId, t, items).inventory.Keys >= t.inventory.Keys
    decreases |items|
  {
    if items != [] {
      SetupKeepsIdsValid(vegetables, userId, t, items[..|items| - 1]);
    }
  }

  // ---------------------------------------------------------------------
  // Partial update

  datatype InventoryError = ItemNotFound

  function StatusCode(e: InventoryError): (code: int)
    ensures e.ItemNotFound? ==> code == 404
  {
    404
  }

  /** Each field given replaces the stored one; a field left out is kept. */
  function UpdateRow(row: InventoryRow, pricePerKg: Option<real>, stockKg: Option<real>): (r: InventoryRow)
    ensures r.id == row.id
    ensures pricePerKg.None? ==> r.pricePerKg == row.pricePerKg
    ensures pricePerKg.Some? ==> r.pricePerKg == pricePerKg.value
    ensures stockKg.None? ==> r.stockKg == row.stockKg
    ensures stockKg.Some? ==> r.stockKg == stockKg.value
  {
    var priced := if pricePerKg.Some? then row.(pricePerKg := pricePerKg.value) else row;
    if stockKg.Some? then priced.(stockKg := stockKg.value) else priced
  }

  /** `update_inventory` on the table: 404 without a row for the user and
      vegetable, otherwise that one row is updated. */
  function Update(inventory: map<InvKey, InventoryRow>, userId: int, vegetableId: int, pricePerKg: Option<real>, stockKg: Option<real>): (r: Result<map<InvKey, InventoryRow>, InventoryError>)
    ensures InvKey(userId, vegetableId) !in inventory <==> r.Failure?
    ensures r.Failure? ==> StatusCode(r.error) == 404
    ensures r.Success? ==>
      r.value.Keys == inventory.Keys
      && r.value[InvKey(userId, vegetableId)] == UpdateRow(inventory[InvKey(userId, vegetableId)], pricePerKg, stockKg)
      && (forall k :: k in inventory && k != InvKey(userId, vegetableId) ==> r.value[k] == inventory[k])
  {
    var key := InvKey(userId, vegetableId);
    if key !in inventory then Failure(ItemNotFound)
    else Success(inventory[key := UpdateRow(inventory[key], pricePerKg, stockKg)])
  }

  /** Sending the same update twice has the effect of sending it once. */
  lemma {:induction false} UpdateIdempotent(inventory: map<InvKey, InventoryRow>, userId: int, vegetableId: int, pricePerKg: Option<real>, stockKg: Option<real>)
    requires InvKey(userId, vegetableId) in inventory
    ensures Update(inventory, userId, vegetableId, pricePerKg, stockKg).Success?
    ensures var once := Update(inventory, userId, vegetableId, pricePerKg, stockKg).value;
      Update(once, userId, vegetableId, pricePerKg, stockKg) == Success(once)
  {
    var key := InvKey(userId, vegetableId);
    var once := inventory[key := UpdateRow(inventory[key], pricePerKg, stockKg)];
    assert UpdateRow(once[key], pricePerKg, stockKg) == once[key];
    assert once[key := once[key]] == once;
  }

  /** An update with neither field changes nothing. */
  lemma {:induction false} EmptyUpdateChangesNothing(inventory: map<InvKey, InventoryRow>, userId: int, vegetableId: int)
    requires InvKey(userId, vegetableId) in inventory
    ensures Update(inventory, userId, vegetableId, None, None) == Success(inventory)
  {
    var key := InvKey(userId, vegetableId);
    assert inventory[key := inventory[key]] == inventory;
  }

  // ---------------------------------------------------------------------
  // Listing

  /** One entry of `get_inventory`'s answer. */
  datatype InventoryEntry = InventoryEntry(id: int, vegetableId: int, vegetableName: string, tamilName: string, pricePerKg: real, stockKg: real)

  /** The entry for one row: names from the master list, "Unknown" when the
      vegetable is missing from it. */
  function EntryFor(vegetables: map<int, Vegetable>, k: InvKey, row: InventoryRow): (e: InventoryEntry)
    ensures e.id == row.id && e.vegetableId == k.vegetableId && e.pricePerKg == row.pricePerKg && e.stockKg == row.stockKg
    ensures k.vegetableId !in vegetables ==> e.vegetableName == "Unknown" && e.tamilName == "Unknown"
    ensures k.vegetableId in vegetables ==> e.vegetableName == vegetables[k.vegetableId].name && e.tamilName == vegetables[k.vegetableId].tamilName
  {
    var known := k.vegetableId in vegetables;
    InventoryEntry(
      row.id,
      k.vegetableId,
      if known then vegetables[k.vegetableId].name else "Unknown",
      if known then vegetables[k.vegetableId].tamilName else "Unknown",
      row.pricePerKg,
      row.stockKg)
  }
}
