/** The invoice screen (frontend/src/pages/CreateInvoice.jsx): the cart of
    bill lines and the pure rules that edit it, the totals, the catalogue
    picker, and the draft whose state fields the event handlers replace. */
module CreateInvoice {
  import opened Wrappers
  import opened Text
  import opened Seqs
  import opened Catalog
  import Tanglish

  datatype BillingType = Retail | Wholesale

  /** One cart line. Every line is sold by the kilogram. */
  datatype Line = Line(id: int, name: string, tamilName: string, price: real, quantity: real, total: real)

  /** The smallest quantity `updateQuantity` accepts. */
  const MinQuantity: real := 0.1

  /** The tax rate the totals use: there is no tax. */
  const TaxRate: real := 0.0

  // ---------------------------------------------------------------------
  // Cart lines

  predicate HasLine(lines: seq<Line>, id: int) {
    exists i :: 0 <= i < |lines| && lines[i].id == id
  }

  predicate UniqueIds(lines: seq<Line>) {
    forall i, j :: 0 <= i < j < |lines| ==> lines[i].id != lines[j].id
  }

  /** A line whose total is its price times its quantity. */
  predicate Consistent(l: Line) {
    l.quantity >= MinQuantity && l.total == l.price * l.quantity
  }

  /** What the handlers keep true of the cart: one line per vegetable, each
      with at least the minimum quantity and a total that matches. */
  predicate CartInvariant(lines: seq<Line>) {
    UniqueIds(lines) && forall i :: 0 <= i < |lines| ==> Consistent(lines[i])
  }

  /** The change a handler makes to the line it targets. */
  datatype Edit =
    | AddOne                 // addItem on a vegetable already in the cart
    | NewQuantity(q: real)   // updateQuantity
    | NewTotal(t: real)      // updateItemTotal
    | NewPrice(p: real)      // updatePrice

  function Apply(e: Edit, l: Line): Line {
    match e
    case AddOne => l.(quantity := l.quantity + 1.0, total := (l.quantity + 1.0) * l.price)
    case NewQuantity(q) => l.(quantity := q, total := q * l.price)
    case NewTotal(t) => l.(total := t, price := if l.quantity > 0.0 then t / l.quantity else 0.0)
    case NewPrice(p) => l.(price := p, total := p * l.quantity)
  }

  /** `items.map(item => item.id === id ? edited : item)` */
  function MapLine(lines: seq<Line>, id: int, e: Edit): (r: seq<Line>)
    ensures |r| == |lines|
  {
    seq(|lines|, i requires 0 <= i < |lines| => if lines[i].id == id then Apply(e, lines[i]) else lines[i])
  }

  /** With unique ids, mapping over the matching line replaces one element. */
  lemma {:induction false} MapLineAt(lines: seq<Line>, id: int, e: Edit, k: int)
    requires UniqueIds(lines) && 0 <= k < |lines| && lines[k].id == id
    ensures MapLine(lines, id, e) == lines[k := Apply(e, lines[k])]
  {
  }

  /** The price a new line gets: the mode's price, or `price` when that is 0
      or missing. */
  function UnitPrice(veg: CatalogItem, mode: BillingType): (p: real)
    ensures mode == Wholesale && veg.wholesalePrice != 0.0 ==> p == veg.wholesalePrice
    ensures mode == Retail && veg.retailPrice != 0.0 ==> p == veg.retailPrice
    ensures mode == Wholesale && veg.wholesalePrice == 0.0 ==> p == veg.price
    ensures mode == Retail && veg.retailPrice == 0.0 ==> p == veg.price
  {
    match mode
    case Wholesale => if veg.wholesalePrice != 0.0 then veg.wholesalePrice else veg.price
    case Retail => if veg.retailPrice != 0.0 then veg.retailPrice else veg.price
  }

  function NewLine(veg: CatalogItem, mode: BillingType): Line {
    var p := UnitPrice(veg, mode);
    Line(veg.id, veg.name, veg.tamilName, p, 1.0, p)
  }

  /** `addItem`: one more kilogram of a vegetable already in the cart, or a
      new line of one kilogram. */
  function AddLine(lines: seq<Line>, veg: CatalogItem, mode: BillingType): seq<Line> {
    if HasLine(lines, veg.id) then MapLine(lines, veg.id, AddOne)
    else lines + [NewLine(veg, mode)]
  }

  function OtherThan(id: int): Line -> bool {
    (l: Line) => l.id != id
  }

  /** `removeItem` */
  function RemoveLine(lines: seq<Line>, id: int): seq<Line> {
    Filter(lines, OtherThan(id))
  }

  /** `updateQuantity`: quantities under the minimum are ignored. */
  function SetQuantity(lines: seq<Line>, id: int, q: real): seq<Line> {
    if q < MinQuantity then lines
    else MapLine(lines, id, NewQuantity(q))
  }

  /** `updateItemTotal`: the price follows from the total. */
  function SetLineTotal(lines: seq<Line>, id: int, t: real): seq<Line> {
    MapLine(lines, id, NewTotal(t))
  }

  /** `updatePrice`: the total follows from the price. */
  function SetPrice(lines: seq<Line>, id: int, p: real): seq<Line> {
    MapLine(lines, id, NewPrice(p))
  }

  /** Adding a vegetable already in the cart adds exactly one kilogram to its
      line at the line's price, and leaves the length and the other lines. */
  lemma {:induction false} AddExisting(lines: seq<Line>, veg: CatalogItem, mode: BillingType, k: int)
    requires 0 <= k < |lines| && lines[k].id == veg.id
    ensures |AddLine(lines, veg, mode)| == |lines|
    ensures AddLine(lines, veg, mode)[k].quantity == lines[k].quantity + 1.0
    ensures AddLine(lines, veg, mode)[k].total == (lines[k].quantity + 1.0) * lines[k].price
    ensures AddLine(lines, veg, mode)[k].price == lines[k].price
    ensures forall i :: 0 <= i < |lines| && lines[i].id != veg.id ==> AddLine(lines, veg, mode)[i] == lines[i]
  {
  }

  /** Adding a new vegetable appends one line of one kilogram at the mode's
      price. */
  lemma {:induction false} AddNew(lines: seq<Line>, veg: CatalogItem, mode: BillingType)
    requires !HasLine(lines, veg.id)
    ensures AddLine(lines, veg, mode)[..|lines|] == lines
    ensures |AddLine(lines, veg, mode)| == |lines| + 1
    ensures AddLine(lines, veg, mode)[|lines|]
         == Line(veg.id, veg.name, veg.tamilName, UnitPrice(veg, mode), 1.0, UnitPrice(veg, mode))
  {
  }

  /** Removal drops every line of that vegetable, keeps the others in order,
      and removing again changes nothing. */
  lemma {:induction false} RemoveSpec(lines: seq<Line>, id: int)
    ensures !HasLine(RemoveLine(lines, id), id)
    ensures IsSubsequence(RemoveLine(lines, id), lines)
    ensures forall l :: l in lines && l.id != id ==> l in RemoveLine(lines, id)
    ensures RemoveLine(RemoveLine(lines, id), id) == RemoveLine(lines, id)
  {
    var p := OtherThan(id);
    var r := RemoveLine(lines, id);
    forall i | 0 <= i < |r|
      ensures r[i].id != id
    {
      FilterMember(lines, p, r[i]);
    }
    forall l | l in lines && l.id != id
      ensures l in r
    {
      FilterMember(lines, p, l);
    }
    FilterOrder(lines, p);
    FilterIdempotent(lines, p);
  }

  /** A quantity under 0.1 is ignored; any other only changes the matching
      line, to that quantity at the same price. */
  lemma {:induction false} SetQuantitySpec(lines: seq<Line>, id: int, q: real)
    ensures q < MinQuantity ==> SetQuantity(lines, id, q) == lines
    ensures |SetQuantity(lines, id, q)| == |lines|
    ensures forall i :: 0 <= i < |lines| && lines[i].id == id && q >= MinQuantity ==>
      SetQuantity(lines, id, q)[i] == lines[i].(quantity := q, total := q * lines[i].price)
    ensures forall i :: 0 <= i < |lines| && lines[i].id != id ==> SetQuantity(lines, id, q)[i] == lines[i]
  {
  }

  /** A price edit puts the typed price on the line and derives its total; a
      total edit puts the typed total on the line and derives its price. The
      quantity stays, and after either edit the total is the price times the
      quantity (the price is 0 when the quantity is not positive). */
  lemma {:induction false} PriceTotalTriangle(lines: seq<Line>, id: int, v: real, i: int)
    requires 0 <= i < |lines| && lines[i].id == id
    ensures |SetPrice(lines, id, v)| == |SetLineTotal(lines, id, v)| == |lines|
    ensures SetPrice(lines, id, v)[i] == lines[i].(price := v, total := v * lines[i].quantity)
    ensures SetLineTotal(lines, id, v)[i]
         == lines[i].(total := v, price := if lines[i].quantity > 0.0 then v / lines[i].quantity else 0.0)
    ensures SetPrice(lines, id, v)[i].total == SetPrice(lines, id, v)[i].price * lines[i].quantity
    ensures lines[i].quantity > 0.0 ==>
      SetLineTotal(lines, id, v)[i].price * lines[i].quantity == SetLineTotal(lines, id, v)[i].total
    ensures lines[i].quantity <= 0.0 ==> SetLineTotal(lines, id, v)[i].price == 0.0
    ensures forall j :: 0 <= j < |lines| && lines[j].id != id ==>
      SetPrice(lines, id, v)[j] == lines[j] && SetLineTotal(lines, id, v)[j] == lines[j]
  {
    var l := lines[i];
    if l.quantity > 0.0 {
      assert v / l.quantity * l.quantity == v;
    }
  }

  /** On a consistent line, typing back its own total or its own price is a
      round trip: the cart is unchanged. */
  lemma {:induction false} EditsRoundTrip(lines: seq<Line>, k: int)
    requires CartInvariant(lines) && 0 <= k < |lines|
    ensures SetLineTotal(lines, lines[k].id, lines[k].total) == lines
    ensures SetPrice(lines, lines[k].id, lines[k].price) == lines
  {
    var l := lines[k];
    assert Consistent(l);
    assert l.total / l.quantity == l.price;
    MapLineAt(lines, l.id, NewTotal(l.total), k);
    MapLineAt(lines, l.id, NewPrice(l.price), k);
    assert Apply(NewPrice(l.price), l) == l;
    assert lines[k := l] == lines;
  }

  /** Each edit keeps a consistent line consistent (a new quantity only
      when it passes the guard). */
  lemma {:induction false} ApplyKeepsConsistent(e: Edit, l: Line)
    requires Consistent(l)
    requires e.NewQuantity? ==> e.q >= MinQuantity
    ensures Consistent(Apply(e, l)) && Apply(e, l).id == l.id
  {
    if e.NewTotal? {
      assert e.t / l.quantity * l.quantity == e.t;
    }
  }

  lemma {:induction false} MapLineKeepsInvariant(lines: seq<Line>, id: int, e: Edit)
    requires CartInvariant(lines)
    requires e.NewQuantity? ==> e.q >= MinQuantity
    ensures CartInvariant(MapLine(lines, id, e))
  {
    var r := MapLine(lines, id, e);
    forall i | 0 <= i < |lines|
      ensures Consistent(r[i]) && r[i].id == lines[i].id
    {
      ApplyKeepsConsistent(e, lines[i]);
    }
  }

  /** Every edit keeps the cart invariant. */
  lemma {:induction false} EditsKeepInvariant(lines: seq<Line>, veg: CatalogItem, mode: BillingType, id: int, v: real)
    requires CartInvariant(lines)
    ensures CartInvariant(AddLine(lines, veg, mode))
    ensures CartInvariant(RemoveLine(lines, id))
    ensures CartInvariant(SetQuantity(lines, id, v))
    ensures CartInvariant(SetLineTotal(lines, id, v))
    ensures CartInvariant(SetPrice(lines, id, v))
  {
    if HasLine(lines, veg.id) {
      MapLineKeepsInvariant(lines, veg.id, AddOne);
    } else {
      var r := AddLine(lines, veg, mode);
      assert forall i :: 0 <= i < |lines| ==> r[i] == lines[i];
    }
    RemoveKeepsInvariant(lines, id);
    if v >= MinQuantity {
      MapLineKeepsInvariant(lines, id, NewQuantity(v));
    }
    MapLineKeepsInvariant(lines, id, NewTotal(v));
    MapLineKeepsInvariant(lines, id, NewPrice(v));
  }

  lemma {:induction false} RemoveKeepsInvariant(lines: seq<Line>, id: int)
    requires CartInvariant(lines)
    ensures CartInvariant(RemoveLine(lines, id))
  {
    var p := OtherThan(id);
    if lines != [] {
      RemoveKeepsInvariant(lines[1..], id);
      var rest := RemoveLine(lines[1..], id);
      if p(lines[0]) {
        assert RemoveLine(lines, id) == [lines[0]] + rest;
        forall l | l in rest
          ensures l.id != lines[0].id
        {
          FilterMember(lines[1..], p, l);
        }
      }
    }
  }

  // ---------------------------------------------------------------------
  // Totals

  function LineTotal(l: Line): real { l.total }

  /** `calculateSubtotal`: the sum of the line totals. */
  function Subtotal(lines: seq<Line>): real {
    SumOf(lines, LineTotal)
  }

  /** `calculateTax` */
  function Tax(lines: seq<Line>): real {
    Subtotal(lines) * TaxRate
  }

  /** `calculateTotal`: never below zero. */
  function GrandTotal(lines: seq<Line>, discount: real): real {
    var t := Subtotal(lines) + Tax(lines) - discount;
    if t > 0.0 then t else 0.0
  }

  /** The discount an entry sets: the parsed number, 0 when it does not
      parse or is 0, and never negative. */
  function DiscountFromInput(parsed: Option<real>): (d: real)
    ensures d >= 0.0
    ensures parsed.Some? && parsed.value >= 0.0 ==> d == parsed.value
    ensures parsed.None? || parsed.value <= 0.0 ==> d == 0.0
  {
    var v := if parsed.Some? && parsed.value != 0.0 then parsed.value else 0.0;
    if v > 0.0 then v else 0.0
  }

  /** Tax is always zero, and the grand total is the subtotal less the
      discount, floored at zero. */
  lemma {:induction false} TotalsSpec(lines: seq<Line>, discount: real)
    ensures Tax(lines) == 0.0
    ensures GrandTotal(lines, discount) >= 0.0
    ensures discount <= Subtotal(lines) ==> GrandTotal(lines, discount) == Subtotal(lines) - discount
    ensures discount >= Subtotal(lines) ==> GrandTotal(lines, discount) == 0.0
    ensures discount >= 0.0 && Subtotal(lines) >= 0.0 ==> GrandTotal(lines, discount) <= Subtotal(lines)
  {
  }

  /** Adding one kilogram of a vegetable already in the cart raises the
      subtotal by its price; a new vegetable raises it by its unit price. */
  lemma {:induction false} AddLineSubtotal(lines: seq<Line>, veg: CatalogItem, mode: BillingType, k: int)
    requires CartInvariant(lines)
    requires -1 <= k < |lines|
    requires k == -1 <==> !HasLine(lines, veg.id)
    requires k >= 0 ==> lines[k].id == veg.id
    ensures Subtotal(AddLine(lines, veg, mode))
         == Subtotal(lines) + (if k >= 0 then lines[k].price else UnitPrice(veg, mode))
  {
    if k >= 0 {
      MapLineAt(lines, veg.id, AddOne, k);
      SumOfUpdate(lines, k, Apply(AddOne, lines[k]), LineTotal);
      assert Consistent(lines[k]);
    } else {
      SumOfAppend(lines, [NewLine(veg, mode)], LineTotal);
      assert SumOf([NewLine(veg, mode)], LineTotal) == SumOf([], LineTotal) + NewLine(veg, mode).total;
    }
  }

  // ---------------------------------------------------------------------
  // Catalogue picker

  /** The picker's search test: every item for an empty search; otherwise the
      name contains the lower-cased term or its English name, or the Tamil
      name contains the lower-cased term. */
  predicate MatchesPicker(search: string, veg: CatalogItem) {
    if search == [] then true
    else
      var lowerSearch := Lower(search);
      Contains(Lower(veg.name), lowerSearch)
      || Contains(Lower(veg.name), Tanglish.Resolve(search))
      || (veg.tamilName != [] && Contains(Lower(veg.tamilName), lowerSearch))
  }

  function PickerTest(search: string): CatalogItem -> bool {
    veg => MatchesPicker(search, veg)
  }

  /** `filteredInventory` */
  function PickerResults(collate: Collation, inventory: seq<CatalogItem>, search: string): seq<CatalogItem> {
    SortItems(Order(ExactNames, collate), Filter(inventory, PickerTest(search)))
  }

  /** The picker lists exactly the matching items, in priority order, with
      items that compare equal in inventory order. */
  lemma {:induction false} PickerResultsSpec(collate: Collation, inventory: seq<CatalogItem>, search: string, e: CatalogItem)
    requires IsCollation(collate)
    ensures var o := Order(ExactNames, collate);
      var matches := Filter(inventory, PickerTest(search));
      Sorted(o, PickerResults(collate, inventory, search))
      && multiset(PickerResults(collate, inventory, search)) == multiset(matches)
      && Filter(PickerResults(collate, inventory, search), Ties(o, e)) == Filter(matches, Ties(o, e))
    ensures forall veg :: veg in PickerResults(collate, inventory, search) <==> veg in inventory && MatchesPicker(search, veg)
  {
    var o := Order(ExactNames, collate);
    var p := PickerTest(search);
    SortItemsSpec(o, Filter(inventory, p), e);
    forall veg
      ensures veg in PickerResults(collate, inventory, search) <==> veg in inventory && MatchesPicker(search, veg)
    {
      assert veg in PickerResults(collate, inventory, search) <==> veg in multiset(Filter(inventory, p));
      FilterMember(inventory, p, veg);
    }
  }

  /** A search made only of spaces keeps every item too: its English form is
      empty, and every name contains the empty string. */
  lemma {:induction false} BlankSearchKeepsAll(search: string, veg: CatalogItem)
    requires Normalize(search) == []
    ensures MatchesPicker(search, veg)
  {
    Tanglish.ResolveSpec(search);
    Tanglish.EmptyIsNotAWord();
    ContainsEmpty(Lower(veg.name));
  }

  /** With an empty search every inventory item is listed. */
  lemma {:induction false} EmptySearchKeepsAll(collate: Collation, inventory: seq<CatalogItem>)
    requires IsCollation(collate)
    ensures multiset(PickerResults(collate, inventory, "")) == multiset(inventory)
  {
    FilterAll(inventory, PickerTest(""));
  }

  // ---------------------------------------------------------------------
  // The draft

  /** The record the server returned for a saved bill. */
  datatype SavedBill = SavedBill(id: int, billNumber: string)

  /** How the request to save the bill ended. */
  datatype SubmitOutcome = Saved(bill: SavedBill) | Rejected

  datatype PayloadItem = PayloadItem(vegetableId: int, name: string, tamilName: string, quantity: real, price: real, total: real)

  /** The body `handleCreateBill` sends. */
  datatype BillPayload = BillPayload(
    customerName: string,
    billingType: BillingType,
    items: seq<PayloadItem>,
    subtotal: real,
    taxAmount: real,
    discountAmount: real,
    grandTotal: real)

  function ToPayloadItem(l: Line): PayloadItem {
    PayloadItem(l.id, l.name, l.tamilName, l.quantity, l.price, l.total)
  }

  function Payload(lines: seq<Line>, customerName: string, mode: BillingType, discount: real): BillPayload {
    BillPayload(customerName, mode, seq(|lines|, i requires 0 <= i < |lines| => ToPayloadItem(lines[i])),
      Subtotal(lines), Tax(lines), discount, GrandTotal(lines, discount))
  }

  function PayloadTotal(p: PayloadItem): real { p.total }

  /** The payload carries the customer, the mode and the discount as typed,
      one item per line in cart order with the line's fields, a subtotal that
      is both the cart's and the sum of its items, no tax, and the cart's
      grand total. */
  lemma {:induction false} PayloadSpec(lines: seq<Line>, customerName: string, mode: BillingType, discount: real)
    ensures var p := Payload(lines, customerName, mode, discount);
      p.customerName == customerName && p.billingType == mode && p.discountAmount == discount
      && |p.items| == |lines|
      && (forall i :: 0 <= i < |lines| ==>
            p.items[i].vegetableId == lines[i].id && p.items[i].name == lines[i].name
            && p.items[i].tamilName == lines[i].tamilName && p.items[i].quantity == lines[i].quantity
            && p.items[i].price == lines[i].price && p.items[i].total == lines[i].total)
      && p.subtotal == Subtotal(lines) == SumOf(p.items, PayloadTotal)
      && p.taxAmount == 0.0
      && p.grandTotal == GrandTotal(lines, discount) >= 0.0
      && (discount <= Subtotal(lines) ==> p.grandTotal == Subtotal(lines) - discount)
      && (discount >= Subtotal(lines) ==> p.grandTotal == 0.0)
  {
    TotalsSpec(lines, discount);
    var items := Payload(lines, customerName, mode, discount).items;
    PayloadSum(lines, items);
  }

  lemma {:induction false} PayloadSum(lines: seq<Line>, items: seq<PayloadItem>)
    requires |items| == |lines| && forall i :: 0 <= i < |lines| ==> items[i] == ToPayloadItem(lines[i])
    ensures SumOf(items, PayloadTotal) == Subtotal(lines)
  {
    if lines != [] {
      PayloadSum(lines[..|lines| - 1], items[..|items| - 1]);
    }
  }

  class InvoiceDraft {
    var items: seq<Line>
    var searchTerm: string
    var customerName: string
    var billingType: BillingType
    var discount: real
    var success: bool
    var savedBill: Option<SavedBill>

    ghost predicate Valid()
      reads this
    {
      CartInvariant(items) && discount >= 0.0
    }

    constructor()
      ensures Valid()
      ensures items == [] && searchTerm == "" && customerName == "" && billingType == Retail
      ensures discount == 0.0 && !success && savedBill == None
    {
      items := [];
      searchTerm := "";
      customerName := "";
      billingType := Retail;
      discount := 0.0;
      success := false;
      savedBill := None;
    }

    function Total(): real
      reads this
    {
      GrandTotal(items, discount)
    }

    method AddItem(veg: CatalogItem)
      requires Valid()
      modifies this
      ensures Valid()
      ensures items == AddLine(old(items), veg, billingType) && searchTerm == ""
      ensures customerName == old(customerName) && billingType == old(billingType) && discount == old(discount)
      ensures success == old(success) && savedBill == old(savedBill)
    {
      EditsKeepInvariant(items, veg, billingType, veg.id, 0.0);
      items := AddLine(items, veg, billingType);
      searchTerm := "";
    }

    method RemoveItem(id: int)
      requires Valid()
      modifies this
      ensures Valid()
      ensures items == RemoveLine(old(items), id)
      ensures searchTerm == old(searchTerm) && customerName == old(customerName) && billingType == old(billingType)
      ensures discount == old(discount) && success == old(success) && savedBill == old(savedBill)
    {
      RemoveKeepsInvariant(items, id);
      items := RemoveLine(items, id);
    }

    method UpdateQuantity(id: int, q: real)
      requires Valid()
      modifies this
      ensures Valid()
      ensures items == SetQuantity(old(items), id, q)
      ensures searchTerm == old(searchTerm) && customerName == old(customerName) && billingType == old(billingType)
      ensures discount == old(discount) && success == old(success) && savedBill == old(savedBill)
    {
      EditsKeepInvariant(items, CatalogItem(id, 0, "", "", 0.0, 0.0, 0.0, 0.0), billingType, id, q);
      items := SetQuantity(items, id, q);
    }

    method UpdateItemTotal(id: int, t: real)
      requires Valid()
      modifies this
      ensures Valid()
      ensures items == SetLineTotal(old(items), id, t)
      ensures searchTerm == old(searchTerm) && customerName == old(customerName) && billingType == old(billingType)
      ensures discount == old(discount) && success == old(success) && savedBill == old(savedBill)
    {
      EditsKeepInvariant(items, CatalogItem(id, 0, "", "", 0.0, 0.0, 0.0, 0.0), billingType, id, t);
      items := SetLineTotal(items, id, t);
    }

    method UpdatePrice(id: int, p: real)
      requires Valid()
      modifies this
      ensures Valid()
      ensures items == SetPrice(old(items), id, p)
      ensures searchTerm == old(searchTerm) && customerName == old(customerName) && billingType == old(billingType)
      ensures discount == old(discount) && success == old(success) && savedBill == old(savedBill)
    {
      EditsKeepInvariant(items, CatalogItem(id, 0, "", "", 0.0, 0.0, 0.0, 0.0), billingType, id, p);
      items := SetPrice(items, id, p);
    }

    /** The discount field's change handler. */
    method SetDiscount(parsed: Option<real>)
      requires Valid()
      modifies this
      ensures Valid()
      ensures discount == DiscountFromInput(parsed)
      ensures items == old(items) && searchTerm == old(searchTerm) && customerName == old(customerName)
      ensures billingType == old(billingType) && success == old(success) && savedBill == old(savedBill)
    {
      discount := DiscountFromInput(parsed);
    }

    /** Switching mode prices later additions; lines already in the cart keep
        their price. */
    method SetBillingType(mode: BillingType)
      requires Valid()
      modifies this
      ensures Valid()
      ensures billingType == mode
      ensures items == old(items) && searchTerm == old(searchTerm) && customerName == old(customerName)
      ensures discount == old(discount) && success == old(success) && savedBill == old(savedBill)
    {
      billingType := mode;
    }

    method SetSearchTerm(term: string)
      requires Valid()
      modifies this
      ensures Valid()
      ensures searchTerm == term
      ensures items == old(items) && customerName == old(customerName) && billingType == old(billingType)
      ensures discount == old(discount) && success == old(success) && savedBill == old(savedBill)
    {
      searchTerm := term;
    }

    method SetCustomerName(name: string)
      requires Valid()
      modifies this
      ensures Valid()
      ensures customerName == name
      ensures items == old(items) && searchTerm == old(searchTerm) && billingType == old(billingType)
      ensures discount == old(discount) && success == old(success) && savedBill == old(savedBill)
    {
      customerName := name;
    }

    /** `handleCreateBill`: nothing happens on an empty cart. Otherwise the
        payload is sent; a saved bill is recorded and clears the cart, the
        customer name and the discount, and a rejection leaves the draft as
        it was. */
    method CreateBill(outcome: SubmitOutcome) returns (sent: Option<BillPayload>)
      requires Valid()
      modifies this
      ensures Valid()
      ensures old(items) == [] ==> sent == None
      ensures old(items) != [] ==> sent == Some(Payload(old(items), old(customerName), old(billingType), old(discount)))
      ensures old(items) == [] || outcome.Rejected? ==>
        items == old(items) && customerName == old(customerName) && discount == old(discount)
        && success == old(success) && savedBill == old(savedBill)
      ensures old(items) != [] && outcome.Saved? ==>
        items == [] && customerName == "" && discount == 0.0 && success && savedBill == Some(outcome.bill)
      ensures searchTerm == old(searchTerm) && billingType == old(billingType)
    {
      if items == [] {
        return None;
      }
      sent := Some(Payload(items, customerName, billingType, discount));
      match outcome
      case Saved(bill) =>
        savedBill := Some(bill);
        success := true;
        items := [];
        customerName := "";
        discount := 0.0;
      case Rejected =>
    }
  }
}
