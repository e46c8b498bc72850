/** The back end's tables and the endpoints that change them
    (app/api/v1/billing/bill_create.py, app/api/v1/inventory/inventory_api.py).
    Each endpoint works on local copies of the tables, as a transaction does,
    and writes them back only when it commits. */
module Backend {
  import opened Wrappers
  import opened Records
  import opened BillCreate
  import opened InventoryApi

  class Database {
    var inventory: map<InvKey, InventoryRow>
    var usage: map<InvKey, int>
    var vegetables: map<int, Vegetable>
    var bills: seq<Bill>
    var nextBillId: int
    var nextRowId: int

    /** Inventory row ids behave as primary keys. */
    ghost predicate Valid()
      reads this
    {
      IdsValid(Table(inventory, nextRowId))
    }

    constructor(master: map<int, Vegetable>)
      ensures Valid()
      ensures inventory == map[] && usage == map[] && vegetables == master && bills == []
      ensures nextBillId == 1 && nextRowId == 1
    {
      inventory := map[];
      usage := map[];
      vegetables := master;
      bills := [];
      nextBillId := 1;
      nextRowId := 1;
    }

    /** The loop of `create_bill`: the lines are processed in order on
        copies of the inventory and usage tables; the first failing line
        ends it. */
    method ProcessLines(userId: int, billId: int, lines: seq<BillLine>) returns (r: Result<Draft, BillError>)
      ensures r == Run(vegetables, userId, billId, Start(inventory, usage), lines)
    {
      var inv := inventory;
      var use := usage;
      var items: seq<BillItem> := [];
      var total := 0.0;
      for i := 0 to |lines|
        invariant Run(vegetables, userId, billId, Start(inventory, usage), lines[..i]) == Success(Draft(inv, use, items, total))
      {
        var line := lines[i];
        var key := InvKey(userId, line.vegetableId);
        LastOfPrefix(lines, i);
        if key !in inv {
          RunStopsAtFailingLine(vegetables, userId, billId, Start(inventory, usage), lines, i);
          return Failure(NotInInventory(line.vegetableId));
        }
        var row := inv[key];
        if row.stockKg < line.qtyKg {
          RunStopsAtFailingLine(vegetables, userId, billId, Start(inventory, usage), lines, i);
          return Failure(LowStock(StockLabel(vegetables, line.vegetableId), row.stockKg));
        }
        var price := if line.priceOverride.Some? then line.priceOverride.value else row.pricePerKg;
        StepAccepts(vegetables, userId, billId, Draft(inv, use, items, total), line, price);
        inv := inv[key := row.(stockKg := row.stockKg - line.qtyKg)];
        var subtotal := price * line.qtyKg;
        total := total + subtotal;
        items := items + [BillItem(billId, line.vegetableId, VegetableName(vegetables, line.vegetableId), line.qtyKg, price, subtotal)];
        if key in use {
          use := use[key := use[key] + 1];
        } else {
          use := use[key := 1];
        }
      }
      assert lines[..|lines|] == lines;
      return Success(Draft(inv, use, items, total));
    }

    /** `create_bill`: a failing line or a failed commit leaves every table
        as it was; otherwise the deductions and usage counts are written
        back and the bill is stored. `commitSucceeds` stands for the outcome
        of the database commit; `billNumber` for the clock-and-random bill
        number. */
    method CreateBill(user: User, customerName: Option<string>, lines: seq<BillLine>, billNumber: string, commitSucceeds: bool)
      returns (result: Result<Bill, BillError>)
      requires Valid()
      modifies this
      ensures Valid()
      ensures vegetables == old(vegetables) && nextRowId == old(nextRowId)
      ensures var run := Run(vegetables, user.id, old(nextBillId), Start(old(inventory), old(usage)), lines);
        if run.Success? && commitSucceeds then
          result == Success(Bill(old(nextBillId), billNumber, user.id, ShopName(user), customerName, run.value.total, run.value.items))
          && inventory == run.value.inventory && usage == run.value.usage
          && bills == old(bills) + [result.value] && nextBillId == old(nextBillId) + 1
        else
          result == Failure(if run.Failure? then run.error else InternalError)
          && inventory == old(inventory) && usage == old(usage)
          && bills == old(bills) && nextBillId == old(nextBillId)
    {
      var billId := nextBillId;
      var run := ProcessLines(user.id, billId, lines);
      if run.Failure? {
        return Failure(run.error);
      }
      if !commitSucceeds {
        return Failure(InternalError);
      }
      RunKeepsRows(vegetables, user.id, billId, Start(inventory, usage), lines);
      var bill := Bill(billId, billNumber, user.id, ShopName(user), customerName, run.value.total, run.value.items);
      inventory := run.value.inventory;
      usage := run.value.usage;
      bills := bills + [bill];
      nextBillId := nextBillId + 1;
      return Success(bill);
    }

    /** `setup_inventory`: every item for a vegetable of the master list
        overwrites the price and stock of the user's row for it, or inserts
        that row. */
    method SetupInventory(user: User, items: seq<SetupItem>)
      requires Valid()
      modifies this
      ensures Valid()
      ensures Table(inventory, nextRowId) == SetupRun(vegetables, user.id, Table(old(inventory), old(nextRowId)), items)
      ensures usage == old(usage) && vegetables == old(vegetables) && bills == old(bills) && nextBillId == old(nextBillId)
    {
      ghost var start := Table(inventory, nextRowId);
      for i := 0 to |items|
        invariant Table(inventory, nextRowId) == SetupRun(vegetables, user.id, start, items[..i])
        invariant usage == old(usage) && vegetables == old(vegetables) && bills == old(bills) && nextBillId == old(nextBillId)
      {
        var item := items[i];
        assert items[..i + 1][..i] == items[..i];
        if item.vegetableId !in vegetables {
          continue;
        }
        var key := InvKey(user.id, item.vegetableId);
        if key in inventory {
          inventory := inventory[key := inventory[key].(pricePerKg := item.pricePerKg, stockKg := item.stockKg)];
        } else {
          inventory := inventory[key := InventoryRow(nextRowId, item.pricePerKg, item.stockKg)];
          nextRowId := nextRowId + 1;
        }
      }
      assert items[..|items|] == items;
      SetupKeepsIdsValid(vegetables, user.id, start, items);
    }

    /** `update_inventory`: 404 when the user has no row for the vegetable;
        otherwise each field given replaces the stored one. */
    method UpdateInventory(user: User, vegetableId: int, pricePerKg: Option<real>, stockKg: Option<real>)
      returns (result: Result<(), InventoryError>)
      requires Valid()
      modifies this
      ensures Valid()
      ensures var u := Update(old(inventory), user.id, vegetableId, pricePerKg, stockKg);
        (u.Failure? ==> result == Failure(ItemNotFound) && inventory == old(inventory))
        && (u.Success? ==> result.Success? && inventory == u.value)
      ensures usage == old(usage) && vegetables == old(vegetables) && bills == old(bills)
      ensures nextBillId == old(nextBillId) && nextRowId == old(nextRowId)
    {
      var key := InvKey(user.id, vegetableId);
      if key !in inventory {
        return Failure(ItemNotFound);
      }
      var row := inventory[key];
      if pricePerKg.Some? {
        row := row.(pricePerKg := pricePerKg.value);
      }
      if stockKg.Some? {
        row := row.(stockKg := stockKg.value);
      }
      inventory := inventory[key := row];
      return Success(());
    }

    /** `get_inventory`: one entry per row of the user, in the order the
        query returns them; `rows` is that answer, each of the user's rows
        once. */
    method GetInventory(user: User, rows: seq<InvKey>) returns (entries: seq<InventoryEntry>)
      requires forall k :: k in rows <==> k in inventory && k.userId == user.id
      requires forall i, j :: 0 <= i < j < |rows| ==> rows[i] != rows[j]
      ensures |entries| == |rows| == |UserKeys(inventory, user.id)|
      ensures forall i :: 0 <= i < |rows| ==> entries[i] == EntryFor(vegetables, rows[i], inventory[rows[i]])
      ensures forall i, j :: 0 <= i < j < |entries| ==> entries[i].vegetableId != entries[j].vegetableId
      ensures forall k :: k in inventory && k.userId == user.id ==>
        exists i :: 0 <= i < |entries| && entries[i].vegetableId == k.vegetableId
    {
      entries := [];
      for i := 0 to |rows|
        invariant |entries| == i
        invariant forall j :: 0 <= j < i ==> entries[j] == EntryFor(vegetables, rows[j], inventory[rows[j]])
      {
        var key := rows[i];
        var row := inventory[key];
        entries := entries + [EntryFor(vegetables, key, row)];
      }
      DistinctCard(rows);
      assert Elems(rows) == UserKeys(inventory, user.id);
      forall k | k in inventory && k.userId == user.id
        ensures exists i :: 0 <= i < |entries| && entries[i].vegetableId == k.vegetableId
      {
        var i :| 0 <= i < |rows| && rows[i] == k;
        assert entries[i].vegetableId == k.vegetableId;
      }
    }
  }
}
