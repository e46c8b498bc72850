/** Lookups that miss rows added earlier in the same request.

    The database session is created with automatic flushing turned off
    (app/database/database.py:18-22), so a query sees only rows already
    written to the database, not rows added to the session and still
    pending. Both `create_bill`'s usage counter
    (app/api/v1/billing/bill_create.py:80-92) and `setup_inventory`'s upsert
    (app/api/v1/inventory/inventory_api.py:26-41) look a row up, and add a new
    one when the lookup finds nothing. When a request names the same new
    vegetable twice, the second lookup misses the row the first one added,
    and a second row is added for the same user and vegetable.

    The tables here are sequences of rows, of which the first `flushed` are
    in the database. The rest of the model keeps one row per user and
    vegetable (maps keyed by `InvKey`), the behaviour the lookups intend. */
module UnflushedRows {
  import opened Wrappers
  import opened Records
  import opened InventoryApi
  import BillCreate

  /** The usage table's row. */
  datatype UsageRow = UsageRow(userId: int, vegetableId: int, usageCount: int)

  /** The inventory table's row, with its owner and vegetable. */
  datatype InventoryRecord = InventoryRecord(id: int, userId: int, vegetableId: int, pricePerKg: real, stockKg: real)

  /** The first of `rows[from..flushed]` for the user and vegetable. */
  function FindUsage(rows: seq<UsageRow>, flushed: nat, userId: int, vegetableId: int, from: nat): (r: Option<nat>)
    requires flushed <= |rows|
    ensures r.Some? ==> from <= r.value < flushed && rows[r.value].userId == userId && rows[r.value].vegetableId == vegetableId
    ensures r.None? ==> forall i :: from <= i < flushed ==> !(rows[i].userId == userId && rows[i].vegetableId == vegetableId)
    decreases flushed - from
  {
    if from >= flushed then None
    else if rows[from].userId == userId && rows[from].vegetableId == vegetableId then Some(from)
    else FindUsage(rows, flushed, userId, vegetableId, from + 1)
  }

  /** One line's usage update as written: the row is looked for among the
      flushed rows only. */
  function CountUsageAsWritten(rows: seq<UsageRow>, flushed: nat, userId: int, vegetableId: int): (r: seq<UsageRow>)
    requires flushed <= |rows|
    ensures flushed <= |r|
  {
    match FindUsage(rows, flushed, userId, vegetableId, 0)
    case Some(i) => rows[i := rows[i].(usageCount := rows[i].usageCount + 1)]
    case None => rows + [UsageRow(userId, vegetableId, 1)]
  }

  /** The usage updates of a whole bill, as written. */
  function CountAllAsWritten(rows: seq<UsageRow>, flushed: nat, userId: int, vegetableIds: seq<int>): (r: seq<UsageRow>)
    requires flushed <= |rows|
    ensures flushed <= |r|
    decreases |vegetableIds|
  {
    if vegetableIds == [] then rows
    else CountAllAsWritten(CountUsageAsWritten(rows, flushed, userId, vegetableIds[0]), flushed, userId, vegetableIds[1..])
  }

  /** The rows a table holds for one user and vegetable. */
  function UsageRowsFor(rows: seq<UsageRow>, userId: int, vegetableId: int): nat {
    |set i | 0 <= i < |rows| && rows[i].userId == userId && rows[i].vegetableId == vegetableId|
  }

  /** A first bill with two lines of the same vegetable leaves two usage rows
      for it, each counting 1, where one row counting 2 is intended. */
  lemma RepeatedVegetableDuplicatesUsage(rows: seq<UsageRow>)
    requires rows == CountAllAsWritten([], 0, 1, [7, 7])
    ensures rows == [UsageRow(1, 7, 1), UsageRow(1, 7, 1)]
    ensures UsageRowsFor(rows, 1, 7) == 2
  {
    assert CountUsageAsWritten([], 0, 1, 7) == [UsageRow(1, 7, 1)];
    assert CountUsageAsWritten([UsageRow(1, 7, 1)], 0, 1, 7) == [UsageRow(1, 7, 1), UsageRow(1, 7, 1)];
    assert [7, 7][1..] == [7];
    assert (set i | 0 <= i < |rows| && rows[i].userId == 1 && rows[i].vegetableId == 7) == {0, 1};
  }

  /** Against that, the one-counter-per-key table the rest of the model
      uses counts both lines on a single counter. */
  lemma RepeatedVegetableOneCounter(inventory: map<InvKey, InventoryRow>, lines: seq<BillCreate.BillLine>)
    requires inventory == map[InvKey(1, 7) := InventoryRow(10, 40.0, 5.0)]
    requires lines == [BillCreate.BillLine(7, 1.0, None), BillCreate.BillLine(7, 1.0, None)]
    ensures var run := BillCreate.Run(map[], 1, 99, BillCreate.Start(inventory, map[]), lines);
      run.Success? && run.value.usage == map[InvKey(1, 7) := 2]
  {
    var start := BillCreate.Start(inventory, map[]);
    var key := InvKey(1, 7);
    assert lines[..1][..0] == [] && lines[..1][0] == lines[0];
    assert lines[..|lines| - 1] == lines[..1];
    assert BillCreate.Run(map[], 1, 99, start, lines[..1][..0]) == Success(start);
    var afterFirst := BillCreate.Step(map[], 1, 99, start, lines[0]);
    assert afterFirst.Success? && afterFirst.value.usage == map[key := 1] && afterFirst.value.inventory[key].stockKg == 4.0;
    assert BillCreate.Run(map[], 1, 99, start, lines[..1]) == afterFirst;
    assert afterFirst.value.usage[key := 2] == map[key := 2];
  }

  /** The first of `rows[from..flushed]` for the user and vegetable. */
  function FindRecord(rows: seq<InventoryRecord>, flushed: nat, userId: int, vegetableId: int, from: nat): (r: Option<nat>)
    requires flushed <= |rows|
    ensures r.Some? ==> from <= r.value < flushed && rows[r.value].userId == userId && rows[r.value].vegetableId == vegetableId
    decreases flushed - from
  {
    if from >= flushed then None
    else if rows[from].userId == userId && rows[from].vegetableId == vegetableId then Some(from)
    else FindRecord(rows, flushed, userId, vegetableId, from + 1)
  }

  /** One setup item as written: the existing row is looked for among the
      flushed rows only; `nextId` is the id a new row gets. */
  function SetupItemAsWritten(vegetables: map<int, Vegetable>, rows: seq<InventoryRecord>, flushed: nat, nextId: int, userId: int, item: SetupItem): (r: (seq<InventoryRecord>, int))
    requires flushed <= |rows|
    ensures flushed <= |r.0|
  {
    if item.vegetableId !in vegetables then (rows, nextId)
    else
      match FindRecord(rows, flushed, userId, item.vegetableId, 0)
      case Some(i) => (rows[i := rows[i].(pricePerKg := item.pricePerKg, stockKg := item.stockKg)], nextId)
      case None => (rows + [InventoryRecord(nextId, userId, item.vegetableId, item.pricePerKg, item.stockKg)], nextId + 1)
  }

  /** A first setup that lists the same vegetable twice stores two rows for
      it, where one row with the later price and stock is intended. */
  lemma RepeatedVegetableDuplicatesRow(vegetables: map<int, Vegetable>, first: SetupItem, second: SetupItem)
    requires vegetables == map[7 := Vegetable("Tomato", "Thakkali")]
    requires first == SetupItem(7, 40.0, 5.0) && second == SetupItem(7, 45.0, 6.0)
    ensures var (once, id1) := SetupItemAsWritten(vegetables, [], 0, 1, 1, first);
      var (twice, id2) := SetupItemAsWritten(vegetables, once, 0, id1, 1, second);
      twice == [InventoryRecord(1, 1, 7, 40.0, 5.0), InventoryRecord(2, 1, 7, 45.0, 6.0)]
  {
  }

  /** Against that, the one-row-per-key table the rest of the model uses
      keeps a single row carrying the later item's price and stock. */
  lemma RepeatedVegetableOneRow(vegetables: map<int, Vegetable>, items: seq<SetupItem>)
    requires vegetables == map[7 := Vegetable("Tomato", "Thakkali")]
    requires items == [SetupItem(7, 40.0, 5.0), SetupItem(7, 45.0, 6.0)]
    ensures var t := SetupRun(vegetables, 1, Table(map[], 1), items);
      t.inventory == map[InvKey(1, 7) := InventoryRow(1, 45.0, 6.0)] && t.nextRowId == 2
  {
    var start := Table(map[], 1);
    var key := InvKey(1, 7);
    assert items[..1][..0] == [] && items[..1][0] == items[0];
    assert items[..|items| - 1] == items[..1];
    assert SetupRun(vegetables, 1, start, items[..1][..0]) == start;
    var afterFirst := SetupRun(vegetables, 1, start, items[..1]);
    assert afterFirst == SetupStep(vegetables, 1, start, items[0]);
    assert afterFirst == Table(map[key := InventoryRow(1, 40.0, 5.0)], 2);
    assert SetupRun(vegetables, 1, start, items) == SetupStep(vegetables, 1, afterFirst, items[1]);
    assert afterFirst.inventory[key := InventoryRow(1, 45.0, 6.0)] == map[key := InventoryRow(1, 45.0, 6.0)];
  }
}
