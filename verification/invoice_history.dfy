/** The invoice history screen (frontend/src/pages/Invoices.jsx): records
    from the server are normalised field by field, then filtered by a search
    term, a billing type and an optional date range. */
module InvoiceHistory {
  import opened Wrappers
  import opened Text
  import opened Seqs
  import Tanglish

  /** A field the server may send under its camelCase name, its snake_case
      name, both or neither. */
  datatype Field<T> = Field(camel: Option<T>, snake: Option<T>)

  /** One sold item inside a history record: `name` / `vegetable_name` and
      `tamilName` / `tamil_name`. */
  datatype RawItem = RawItem(name: Field<string>, tamilName: Field<string>)

  /** A history record as received. Dates are instants on an abstract
      integer time line. */
  datatype RawInvoice = RawInvoice(
    billNumber: Field<string>,      // billNumber / bill_number
    customerName: Field<string>,    // customerName / customer_name
    customerMobile: Field<string>,  // customerMobile / customer_mobile
    mode: Field<string>,            // mode / billing_type
    grandTotal: Field<real>,        // grandTotal / total_amount
    date: Field<int>,               // date / created_at
    items: Option<seq<RawItem>>)

  /** A record after `normalizedInvoices`. */
  datatype Invoice = Invoice(
    billNumber: string,
    customerName: string,
    customerMobile: string,
    mode: string,
    grandTotal: real,
    date: int,
    items: Option<seq<RawItem>>)

  /** `a || b || d` on text: the empty string is falsy. */
  function PickText(f: Field<string>, default: string): string {
    if f.camel.Some? && f.camel.value != "" then f.camel.value
    else if f.snake.Some? && f.snake.value != "" then f.snake.value
    else default
  }

  /** `a || b || 0` on amounts: zero is falsy. */
  function PickAmount(f: Field<real>): real {
    if f.camel.Some? && f.camel.value != 0.0 then f.camel.value
    else if f.snake.Some? && f.snake.value != 0.0 then f.snake.value
    else 0.0
  }

  /** `a || b || now` on dates. */
  function PickDate(f: Field<int>, now: int): int {
    if f.camel.Some? then f.camel.value
    else if f.snake.Some? then f.snake.value
    else now
  }

  function NormalizeInvoice(r: RawInvoice, now: int): Invoice {
    Invoice(
      PickText(r.billNumber, ""),
      PickText(r.customerName, ""),
      PickText(r.customerMobile, ""),
      PickText(r.mode, "Retail"),
      PickAmount(r.grandTotal),
      PickDate(r.date, now),
      r.items)
  }

  /** `normalizedInvoices` */
  function NormalizedInvoices(raw: seq<RawInvoice>, now: int): (r: seq<Invoice>)
    ensures |r| == |raw|
  {
    seq(|raw|, i requires 0 <= i < |raw| => NormalizeInvoice(raw[i], now))
  }

  /** The normalised record seen again as a received record. */
  function AsReceived(inv: Invoice): RawInvoice {
    RawInvoice(
      Field(Some(inv.billNumber), None),
      Field(Some(inv.customerName), None),
      Field(Some(inv.customerMobile), None),
      Field(Some(inv.mode), None),
      Field(Some(inv.grandTotal), None),
      Field(Some(inv.date), None),
      inv.items)
  }

  /** `v` is what `camel || snake || default` gives on text: the camelCase
      value when it is a non-empty string, else the snake_case value when it
      is one, else the default. */
  predicate TextChain(f: Field<string>, default: string, v: string) {
    (f.camel.Some? && f.camel.value != "" ==> v == f.camel.value)
    && (!(f.camel.Some? && f.camel.value != "") && f.snake.Some? && f.snake.value != "" ==> v == f.snake.value)
    && (!(f.camel.Some? && f.camel.value != "") && !(f.snake.Some? && f.snake.value != "") ==> v == default)
  }

  /** The same chain on amounts, where 0 is falsy. */
  predicate AmountChain(f: Field<real>, v: real) {
    (f.camel.Some? && f.camel.value != 0.0 ==> v == f.camel.value)
    && (!(f.camel.Some? && f.camel.value != 0.0) && f.snake.Some? && f.snake.value != 0.0 ==> v == f.snake.value)
    && (!(f.camel.Some? && f.camel.value != 0.0) && !(f.snake.Some? && f.snake.value != 0.0) ==> v == 0.0)
  }

  /** The same chain on dates, with the clock as the default. */
  predicate DateChain(f: Field<int>, now: int, v: int) {
    (f.camel.Some? ==> v == f.camel.value)
    && (f.camel.None? && f.snake.Some? ==> v == f.snake.value)
    && (f.camel.None? && f.snake.None? ==> v == now)
  }

  /** Each field comes from its camelCase name when truthy, else from its
      snake_case name when truthy, else from its default: '' for text,
      'Retail' for the mode, 0 for the amount and the clock for the date.
      The mode is never empty, and the items are passed through. */
  lemma {:induction false} NormalizeFields(r: RawInvoice, now: int)
    ensures var inv := NormalizeInvoice(r, now);
      TextChain(r.billNumber, "", inv.billNumber)
      && TextChain(r.customerName, "", inv.customerName)
      && TextChain(r.customerMobile, "", inv.customerMobile)
      && TextChain(r.mode, "Retail", inv.mode)
      && inv.mode != ""
      && AmountChain(r.grandTotal, inv.grandTotal)
      && DateChain(r.date, now, inv.date)
      && inv.items == r.items
  {
  }

  /** Normalising a normalised record changes nothing, whatever the clock. */
  lemma {:induction false} NormalizeStable(r: RawInvoice, now: int, later: int)
    ensures NormalizeInvoice(AsReceived(NormalizeInvoice(r, now)), later) == NormalizeInvoice(r, now)
  {
    NormalizeFields(r, now);
  }

  /** Normalisation keeps the count and the order of the records. */
  lemma {:induction false} NormalizeKeepsOrder(raw: seq<RawInvoice>, now: int, i: int)
    requires 0 <= i < |raw|
    ensures |NormalizedInvoices(raw, now)| == |raw|
    ensures NormalizedInvoices(raw, now)[i] == NormalizeInvoice(raw[i], now)
  {
  }

  // ---------------------------------------------------------------------
  // Filter

  /** Both bounds are optional; an empty date input is no bound. */
  datatype DateRange = DateRange(start: Option<int>, end: Option<int>)

  predicate ItemMatches(item: RawItem, searchLower: string, tanglishEquivalent: string) {
    var itemName := Lower(PickText(item.name, ""));
    var itemTamil := Lower(PickText(item.tamilName, ""));
    Contains(itemName, searchLower) || Contains(itemName, tanglishEquivalent) || Contains(itemTamil, searchLower)
  }

  /** The search test: an empty search matches; otherwise the bill number or
      the customer name contains the lower-cased term, the mobile number
      contains it, or some item's name contains the term or its English
      name, or its Tamil name contains the term. */
  predicate MatchesSearch(inv: Invoice, filter: string) {
    var searchLower := Lower(filter);
    var tanglishEquivalent := Tanglish.Resolve(filter);
    filter == ""
    || Contains(Lower(inv.billNumber), searchLower)
    || Contains(Lower(inv.customerName), searchLower)
    || Contains(inv.customerMobile, searchLower)
    || (inv.items.Some? && exists i :: 0 <= i < |inv.items.value| && ItemMatches(inv.items.value[i], searchLower, tanglishEquivalent))
  }

  predicate MatchesType(inv: Invoice, typeFilter: string) {
    typeFilter == "all" || Lower(inv.mode) == Lower(typeFilter)
  }

  /** `matchesDate`, built up one bound at a time. */
  function MatchesDate(inv: Invoice, range: DateRange): bool {
    var matchesDate := true;
    if range.start.Some? || range.end.Some? then
      var afterStart := if range.start.Some? then matchesDate && inv.date >= range.start.value else matchesDate;
      if range.end.Some? then afterStart && inv.date <= range.end.value else afterStart
    else matchesDate
  }

  /** The test `filteredInvoices` applies, with its early return. */
  predicate Shown(inv: Invoice, filter: string, typeFilter: string, range: DateRange) {
    if filter == "" && typeFilter == "all" && range.start.None? && range.end.None? then true
    else MatchesSearch(inv, filter) && MatchesType(inv, typeFilter) && MatchesDate(inv, range)
  }

  function ShownTest(filter: string, typeFilter: string, range: DateRange): Invoice -> bool {
    inv => Shown(inv, filter, typeFilter, range)
  }

  /** `filteredInvoices` */
  function FilteredInvoices(invs: seq<Invoice>, filter: string, typeFilter: string, range: DateRange): seq<Invoice> {
    Filter(invs, ShownTest(filter, typeFilter, range))
  }

  /** Both date bounds are inclusive and each applies only when set. */
  lemma {:induction false} DateBoundsInclusive(inv: Invoice, range: DateRange)
    ensures MatchesDate(inv, range) <==>
      (range.start.None? || range.start.value <= inv.date) && (range.end.None? || inv.date <= range.end.value)
  {
  }

  /** The type filter "all" keeps every record; any other keeps the records
      whose mode equals it ignoring case. */
  lemma {:induction false} TypeFilterSpec(inv: Invoice, typeFilter: string)
    ensures typeFilter == "all" ==> MatchesType(inv, typeFilter)
    ensures typeFilter != "all" ==> (MatchesType(inv, typeFilter) <==> Lower(inv.mode) == Lower(typeFilter))
  {
  }

  /** The early return agrees with the three tests: a record is shown exactly
      when it passes all of them. */
  lemma {:induction false} ShownIff(inv: Invoice, filter: string, typeFilter: string, range: DateRange)
    ensures Shown(inv, filter, typeFilter, range) <==>
      MatchesSearch(inv, filter) && MatchesType(inv, typeFilter) && MatchesDate(inv, range)
  {
    DateBoundsInclusive(inv, range);
  }

  /** The filtered list is the normalised list with the records that fail
      the tests dropped, order kept; with no criteria nothing is dropped. */
  lemma {:induction false} FilteredInvoicesSpec(invs: seq<Invoice>, filter: string, typeFilter: string, range: DateRange)
    ensures IsSubsequence(FilteredInvoices(invs, filter, typeFilter, range), invs)
    ensures forall inv :: inv in FilteredInvoices(invs, filter, typeFilter, range) <==>
      inv in invs && MatchesSearch(inv, filter) && MatchesType(inv, typeFilter) && MatchesDate(inv, range)
    ensures filter == "" && typeFilter == "all" && range == DateRange(None, None) ==>
      FilteredInvoices(invs, filter, typeFilter, range) == invs
  {
    var p := ShownTest(filter, typeFilter, range);
    FilterOrder(invs, p);
    forall inv
      ensures inv in FilteredInvoices(invs, filter, typeFilter, range) <==>
        inv in invs && MatchesSearch(inv, filter) && MatchesType(inv, typeFilter) && MatchesDate(inv, range)
    {
      FilterMember(invs, p, inv);
      ShownIff(inv, filter, typeFilter, range);
    }
    if filter == "" && typeFilter == "all" && range == DateRange(None, None) {
      FilterAll(invs, p);
    }
  }

  lemma TomatoLower(s: string)
    requires s == "Tomato"
    ensures Lower(s) == "tomato"
  {
  }

  /** A record is found by the Tanglish name of a vegetable on it: searching
      "thakkali" finds a bill with a line named "Tomato". */
  lemma {:induction false} FoundByTanglishName(inv: Invoice)
    requires inv.items == Some([RawItem(Field(Some("Tomato"), None), Field(None, None))])
    ensures MatchesSearch(inv, "thakkali")
  {
    var item := inv.items.value[0];
    TomatoLower(PickText(item.name, ""));
    Tanglish.EveryWordResolves("thakkali");
    Tanglish.ThakkaliIsTomato();
    assert Contains("tomato", "tomato");
    assert ItemMatches(item, Lower("thakkali"), Tanglish.Resolve("thakkali"));
  }
}
