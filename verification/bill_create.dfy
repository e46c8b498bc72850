/** The rules of bill creation (app/api/v1/billing/bill_create.py), as a fold
    over the bill's lines: each line is checked against the stock left by the
    lines before it, deducts its quantity, is priced and counted. The first
    failing line ends the fold; the caller then rolls everything back. */
module BillCreate {
  import opened Wrappers
  import opened Seqs
  import opened Records

  /** One requested line (app/schema/bill.py). */
  datatype BillLine = BillLine(vegetableId: int, qtyKg: real, priceOverride: Option<real>)

  /** One stored line of a saved bill. */
  datatype BillItem = BillItem(billId: int, vegetableId: int, vegetableName: string, qtyKg: real, price: real, subtotal: real)

  datatype Bill = Bill(
    id: int,
    billNumber: string,
    userId: int,
    shopName: string,
    customerName: Option<string>,
    totalAmount: real,
    items: seq<BillItem>)

  /** Why a bill is refused: a vegetable the shop does not stock, a line
      asking for more than is left (with the label and the stock the message
      shows), or any other failure, such as the commit. */
  datatype BillError = NotInInventory(vegetableId: int) | LowStock(stockLabel: string, available: real) | InternalError

  function StatusCode(e: BillError): (code: int)
    ensures e.InternalError? <==> code == 500
    ensures !e.InternalError? <==> code == 400
  {
    if e.InternalError? then 500 else 400
  }

  const DefaultShopName: string := "My Vegetable Shop"

  /** The shop name stored on the bill: the user's, unless that is empty. */
  function ShopName(user: User): (name: string)
    ensures name != ""
    ensures user.shopName != "" ==> name == user.shopName
    ensures user.shopName == "" ==> name == DefaultShopName
  {
    if user.shopName != "" then user.shopName else DefaultShopName
  }

  /** The name copied onto a bill line. */
  function VegetableName(vegetables: map<int, Vegetable>, vegetableId: int): string {
    if vegetableId in vegetables then vegetables[vegetableId].name else "Unknown"
  }

  /** The label the low-stock message shows. */
  function StockLabel(vegetables: map<int, Vegetable>, vegetableId: int): string {
    if vegetableId in vegetables then vegetables[vegetableId].tamilName else "Item"
  }

  /** The unit price: the line's override when given, else the shop's price. */
  function UnitPrice(line: BillLine, row: InventoryRow): (price: real)
    ensures line.priceOverride.Some? ==> price == line.priceOverride.value
    ensures line.priceOverride.None? ==> price == row.pricePerKg
  {
    match line.priceOverride
    case Some(p) => p
    case None => row.pricePerKg
  }

  /** What the transaction holds while the lines are processed. */
  datatype Draft = Draft(inventory: map<InvKey, InventoryRow>, usage: map<InvKey, int>, items: seq<BillItem>, total: real)

  /** One iteration of the loop over the bill's lines. */
  function Step(vegetables: map<int, Vegetable>, userId: int, billId: int, d: Draft, line: BillLine): Result<Draft, BillError> {
    var key := InvKey(userId, line.vegetableId);
    if key !in d.inventory then Failure(NotInInventory(line.vegetableId))
    else
      var row := d.inventory[key];
      if row.stockKg < line.qtyKg then Failure(LowStock(StockLabel(vegetables, line.vegetableId), row.stockKg))
      else
        var price := UnitPrice(line, row);
        var subtotal := price * line.qtyKg;
        var item := BillItem(billId, line.vegetableId, VegetableName(vegetables, line.vegetableId), line.qtyKg, price, subtotal);
        Success(Draft(
          d.inventory[key := row.(stockKg := row.stockKg - line.qtyKg)],
          d.usage[key := CountOf(d.usage, key) + 1],
          d.items + [item],
          d.total + subtotal))
  }

  /** The loop run over `lines` from `start`. */
  function Run(vegetables: map<int, Vegetable>, userId: int, billId: int, start: Draft, lines: seq<BillLine>): Result<Draft, BillError>
    decreases |lines|
  {
    if lines == [] then Success(start)
    else
      match Run(vegetables, userId, billId, start, lines[..|lines| - 1])
      case Failure(e) => Failure(e)
      case Success(d) => Step(vegetables, userId, billId, d, lines[|lines| - 1])
  }

  /** The draft a bill starts from: the stored tables, no lines, total 0. */
  function Start(inventory: map<InvKey, InventoryRow>, usage: map<InvKey, int>): Draft {
    Draft(inventory, usage, [], 0.0)
  }

  function Qty(line: BillLine): real {
    line.qtyKg
  }

  function Subtotal(item: BillItem): real {
    item.subtotal
  }

  function ForVegetable(vegetableId: int): BillLine -> bool {
    (line: BillLine) => line.vegetableId == vegetableId
  }

  /** The line item the bill gets for `line`, priced from the stored row. */
  function ItemFor(vegetables: map<int, Vegetable>, inventory: map<InvKey, InventoryRow>, userId: int, billId: int, line: BillLine): BillItem
    requires InvKey(userId, line.vegetableId) in inventory
  {
    var price := UnitPrice(line, inventory[InvKey(userId, line.vegetableId)]);
    BillItem(billId, line.vegetableId, VegetableName(vegetables, line.vegetableId), line.qtyKg, price, price * line.qtyKg)
  }

  /** A line that passes both checks extends the draft by its deduction,
      its usage count, its bill line and its subtotal. */
  lemma StepAccepts(vegetables: map<int, Vegetable>, userId: int, billId: int, d: Draft, line: BillLine, price: real)
    requires InvKey(userId, line.vegetableId) in d.inventory
    requires !(d.inventory[InvKey(userId, line.vegetableId)].stockKg < line.qtyKg)
    requires price == UnitPrice(line, d.inventory[InvKey(userId, line.vegetableId)])
    ensures var key := InvKey(userId, line.vegetableId);
      var row := d.inventory[key];
      Step(vegetables, userId, billId, d, line) == Success(Draft(
        d.inventory[key := row.(stockKg := row.stockKg - line.qtyKg)],
        d.usage[key := CountOf(d.usage, key) + 1],
        d.items + [BillItem(billId, line.vegetableId, VegetableName(vegetables, line.vegetableId), line.qtyKg, price, price * line.qtyKg)],
        d.total + price * line.qtyKg))
  {
    var key := InvKey(userId, line.vegetableId);
    var row := d.inventory[key];
    var s := Step(vegetables, userId, billId, d, line);
    assert s.Success?;
    assert s.value.total == d.total + price * line.qtyKg;
    assert s.value.items == d.items + [BillItem(billId, line.vegetableId, VegetableName(vegetables, line.vegetableId), line.qtyKg, price, price * line.qtyKg)];
  }

  lemma LastOfPrefix<T>(s: seq<T>, i: int)
    requires 0 <= i < |s|
    ensures s[..i + 1][..i] == s[..i]
    ensures s[..i + 1][i] == s[i]
  {
  }

  // ---------------------------------------------------------------------
  // What a run does

  /** A refused bill is always refused with status 400: a vegetable the shop
      does not stock, or not enough stock. */
  lemma {:induction false} RunFailsWith400(vegetables: map<int, Vegetable>, userId: int, billId: int, start: Draft, lines: seq<BillLine>)
    ensures Run(vegetables, userId, billId, start, lines).Failure? ==>
      var e := Run(vegetables, userId, billId, start, lines).error;
      StatusCode(e) == 400 && (e.NotInInventory? || e.LowStock?)
    decreases |lines|
  {
    if lines != [] {
      RunFailsWith400(vegetables, userId, billId, start, lines[..|lines| - 1]);
    }
  }

  /** The line that fails decides the error: if everything before line `i`
      went through and line `i` is for a vegetable the user does not stock,
      or asks for more than the stock those lines left, the bill is refused
      with that reason. */
  lemma {:induction false} RunStopsAtFailingLine(vegetables: map<int, Vegetable>, userId: int, billId: int, start: Draft, lines: seq<BillLine>, i: int)
    requires 0 <= i < |lines|
    requires Run(vegetables, userId, billId, start, lines[..i]).Success?
    requires Step(vegetables, userId, billId, Run(vegetables, userId, billId, start, lines[..i]).value, lines[i]).Failure?
    ensures Run(vegetables, userId, billId, start, lines)
      == Step(vegetables, userId, billId, Run(vegetables, userId, billId, start, lines[..i]).value, lines[i])
    decreases |lines|
  {
    if i == |lines| - 1 {
      assert lines[..|lines| - 1] == lines[..i];
    } else {
      var front := lines[..|lines| - 1];
      assert front[..i] == lines[..i];
      RunStopsAtFailingLine(vegetables, userId, billId, start, front, i);
    }
  }

  /** Bill creation never adds or removes an inventory row, never changes a
      price, and leaves the rows of other users as they were. */
  lemma {:induction false} RunKeepsRows(vegetables: map<int, Vegetable>, userId: int, billId: int, start: Draft, lines: seq<BillLine>)
    ensures Run(vegetables, userId, billId, start, lines).Success? ==>
      var d := Run(vegetables, userId, billId, start, lines).value;
      d.inventory.Keys == start.inventory.Keys
      && (forall k :: k in d.inventory ==> d.inventory[k].id == start.inventory[k].id && d.inventory[k].pricePerKg == start.inventory[k].pricePerKg)
      && (forall k :: k in d.inventory && k.userId != userId ==> d.inventory[k] == start.inventory[k])
    decreases |lines|
  {
    if lines != [] {
      RunKeepsRows(vegetables, userId, billId, start, lines[..|lines| - 1]);
    }
  }

  /** Each of the user's rows loses exactly the quantities of the lines for
      its vegetable. */
  lemma {:induction false} RunDeductsStock(vegetables: map<int, Vegetable>, userId: int, billId: int, start: Draft, lines: seq<BillLine>, k: InvKey)
    requires k in start.inventory && k.userId == userId
    ensures Run(vegetables, userId, billId, start, lines).Success? ==>
      var d := Run(vegetables, userId, billId, start, lines).value;
      k in d.inventory
      && d.inventory[k].stockKg == start.inventory[k].stockKg - SumOf(Filter(lines, ForVegetable(k.vegetableId)), Qty)
    decreases |lines|
  {
    if lines != [] {
      var front := lines[..|lines| - 1];
      var last := lines[|lines| - 1];
      assert lines == front + [last];
      RunDeductsStock(vegetables, userId, billId, start, front, k);
      RunKeepsRows(vegetables, userId, billId, start, front);
      var p := ForVegetable(k.vegetableId);
      FilterAppend(front, [last], p);
      SumOfAppend(Filter(front, p), Filter([last], p), Qty);
      assert Filter([last], p) == (if p(last) then [last] else []) + Filter([last][1..], p);
      assert [last][..0] == [];
    }
  }

  /** No row a bill touches is left with negative stock: every line is
      checked against what the earlier lines left. */
  lemma {:induction false} RunLeavesNoNegativeStock(vegetables: map<int, Vegetable>, userId: int, billId: int, start: Draft, lines: seq<BillLine>)
    ensures Run(vegetables, userId, billId, start, lines).Success? ==>
      var d := Run(vegetables, userId, billId, start, lines).value;
      forall i :: 0 <= i < |lines| ==>
        InvKey(userId, lines[i].vegetableId) in d.inventory && d.inventory[InvKey(userId, lines[i].vegetableId)].stockKg >= 0.0
    decreases |lines|
  {
    if lines != [] {
      var front := lines[..|lines| - 1];
      RunLeavesNoNegativeStock(vegetables, userId, billId, start, front);
      if Run(vegetables, userId, billId, start, lines).Success? {
        var d := Run(vegetables, userId, billId, start, lines).value;
        forall i | 0 <= i < |lines|
          ensures InvKey(userId, lines[i].vegetableId) in d.inventory && d.inventory[InvKey(userId, lines[i].vegetableId)].stockKg >= 0.0
        {
          if i < |lines| - 1 {
            assert lines[i] == front[i];
          }
        }
      }
    }
  }

  /** The item an accepted line adds, in terms of the rows it was priced from. */
  lemma StepItem(vegetables: map<int, Vegetable>, userId: int, billId: int, d: Draft, line: BillLine)
    requires Step(vegetables, userId, billId, d, line).Success?
    ensures InvKey(userId, line.vegetableId) in d.inventory
    ensures Step(vegetables, userId, billId, d, line).value.items
         == d.items + [ItemFor(vegetables, d.inventory, userId, billId, line)]
  {
    var key := InvKey(userId, line.vegetableId);
    assert key in d.inventory && !(d.inventory[key].stockKg < line.qtyKg);
    var price := UnitPrice(line, d.inventory[key]);
    StepAccepts(vegetables, userId, billId, d, line, price);
    assert ItemFor(vegetables, d.inventory, userId, billId, line)
        == BillItem(billId, line.vegetableId, VegetableName(vegetables, line.vegetableId), line.qtyKg, price, price * line.qtyKg);
  }

  /** One bill line per requested line, in the requested order, each carrying
      the bill's id, the requested quantity, the unit price (override or the
      stored price) and price times quantity. */
  lemma {:induction false} RunItems(vegetables: map<int, Vegetable>, userId: int, billId: int, inventory: map<InvKey, InventoryRow>, usage: map<InvKey, int>, lines: seq<BillLine>)
    ensures Run(vegetables, userId, billId, Start(inventory, usage), lines).Success? ==>
      var d := Run(vegetables, userId, billId, Start(inventory, usage), lines).value;
      |d.items| == |lines|
      && forall i :: 0 <= i < |lines| ==>
        InvKey(userId, lines[i].vegetableId) in inventory
        && d.items[i] == ItemFor(vegetables, inventory, userId, billId, lines[i])
    decreases |lines|
  {
    var start := Start(inventory, usage);
    if lines != [] && Run(vegetables, userId, billId, start, lines).Success? {
      var front, last := lines[..|lines| - 1], lines[|lines| - 1];
      var prev := Run(vegetables, userId, billId, start, front);
      assert prev.Success?;
      RunItems(vegetables, userId, billId, inventory, usage, front);
      RunKeepsRows(vegetables, userId, billId, start, front);
      StepItem(vegetables, userId, billId, prev.value, last);
      var key := InvKey(userId, last.vegetableId);
      assert start.inventory == inventory;
      assert prev.value.inventory[key].pricePerKg == inventory[key].pricePerKg;
      assert ItemFor(vegetables, prev.value.inventory, userId, billId, last) == ItemFor(vegetables, inventory, userId, billId, last);
      var d := Run(vegetables, userId, billId, start, lines).value;
      assert d.items == prev.value.items + [ItemFor(vegetables, inventory, userId, billId, last)];
      forall i | 0 <= i < |lines|
        ensures InvKey(userId, lines[i].vegetableId) in inventory
        ensures d.items[i] == ItemFor(vegetables, inventory, userId, billId, lines[i])
      {
        if i < |lines| - 1 {
          assert lines[i] == front[i];
        }
      }
    }
  }


  /** The bill's total is the sum of its line subtotals. */
  lemma {:induction false} RunTotal(vegetables: map<int, Vegetable>, userId: int, billId: int, inventory: map<InvKey, InventoryRow>, usage: map<InvKey, int>, lines: seq<BillLine>)
    ensures Run(vegetables, userId, billId, Start(inventory, usage), lines).Success? ==>
      var d := Run(vegetables, userId, billId, Start(inventory, usage), lines).value;
      d.total == SumOf(d.items, Subtotal)
    decreases |lines|
  {
    if lines != [] {
      var front := lines[..|lines| - 1];
      RunTotal(vegetables, userId, billId, inventory, usage, front);
      if Run(vegetables, userId, billId, Start(inventory, usage), lines).Success? {
        var d := Run(vegetables, userId, billId, Start(inventory, usage), lines).value;
        var prev := Run(vegetables, userId, billId, Start(inventory, usage), front).value;
        assert d.items[..|d.items| - 1] == prev.items;
      }
    }
  }

  /** Each line adds one to its vegetable's usage count, starting from zero
      when the vegetable was never counted; other counters stay as they were. */
  lemma {:induction false} RunCountsUsage(vegetables: map<int, Vegetable>, userId: int, billId: int, start: Draft, lines: seq<BillLine>, k: InvKey)
    ensures Run(vegetables, userId, billId, start, lines).Success? ==>
      var d := Run(vegetables, userId, billId, start, lines).value;
      (k.userId == userId ==>
        (k in d.usage <==> k in start.usage || |Filter(lines, ForVegetable(k.vegetableId))| > 0)
        && CountOf(d.usage, k) == CountOf(start.usage, k) + |Filter(lines, ForVegetable(k.vegetableId))|)
      && (k.userId != userId ==> (k in d.usage <==> k in start.usage) && CountOf(d.usage, k) == CountOf(start.usage, k))
    decreases |lines|
  {
    if lines != [] {
      var front := lines[..|lines| - 1];
      var last := lines[|lines| - 1];
      assert lines == front + [last];
      RunCountsUsage(vegetables, userId, billId, start, front, k);
      var p := ForVegetable(k.vegetableId);
      FilterAppend(front, [last], p);
      assert Filter([last], p) == (if p(last) then [last] else []) + Filter([last][1..], p);
    }
  }

  /** Stock checks see the deductions of the earlier lines: with 5 kg in
      stock, a bill for 3 kg and then 3 kg more of the same vegetable is
      refused at its second line, which finds 2 kg. */
  lemma {:induction false} SecondLineSeesFirstDeduction(vegetables: map<int, Vegetable>, inventory: map<InvKey, InventoryRow>, usage: map<InvKey, int>, lines: seq<BillLine>)
    requires inventory == map[InvKey(1, 7) := InventoryRow(10, 40.0, 5.0)]
    requires vegetables == map[7 := Vegetable("Tomato", "Thakkali")]
    requires lines == [BillLine(7, 3.0, None), BillLine(7, 3.0, None)]
    ensures Run(vegetables, 1, 99, Start(inventory, usage), lines) == Failure(LowStock("Thakkali", 2.0))
  {
    var start := Start(inventory, usage);
    var once := lines[..1];
    assert once[..0] == [] && once[0] == lines[0];
    assert Run(vegetables, 1, 99, start, once[..0]) == Success(start);
    var afterFirst := Step(vegetables, 1, 99, start, lines[0]);
    assert afterFirst.Success? && afterFirst.value.inventory[InvKey(1, 7)].stockKg == 2.0;
    assert Run(vegetables, 1, 99, start, once) == afterFirst;
    assert lines[..|lines| - 1] == once;
  }
}
