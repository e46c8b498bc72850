/** The customer directory (frontend/src/pages/Customers.jsx): the search and
    segment filter over the fetched customer list, and the summary figures. */
module Customers {
  import opened Text
  import opened Seqs

  /** One row of the customer statistics the server sends. */
  datatype Customer = Customer(name: string, mobileNumber: string, totalPurchases: int, totalSpent: real)

  /** Regular customers have bought more than five times. */
  predicate IsRegular(c: Customer) {
    c.totalPurchases > 5
  }

  /** New customers have bought at most once. */
  predicate IsNew(c: Customer) {
    c.totalPurchases <= 1
  }

  /** The name contains the term ignoring case, or the mobile number contains
      the term as typed. */
  predicate MatchesSearch(c: Customer, searchTerm: string) {
    Contains(Lower(c.name), Lower(searchTerm)) || Contains(c.mobileNumber, searchTerm)
  }

  /** The filter's test: "regular" and "new" narrow the search to their
      segment, any other filter type keeps every match. */
  predicate Shown(c: Customer, searchTerm: string, filterType: string) {
    var matchesSearch := MatchesSearch(c, searchTerm);
    if filterType == "regular" then matchesSearch && IsRegular(c)
    else if filterType == "new" then matchesSearch && IsNew(c)
    else matchesSearch
  }

  function ShownTest(searchTerm: string, filterType: string): Customer -> bool {
    c => Shown(c, searchTerm, filterType)
  }

  /** `filteredCustomers` */
  function FilteredCustomers(customers: seq<Customer>, searchTerm: string, filterType: string): seq<Customer> {
    Filter(customers, ShownTest(searchTerm, filterType))
  }

  function Spent(c: Customer): real {
    c.totalSpent
  }

  /** `stats`, computed over the whole list whatever the filter shows. */
  datatype Stats = Stats(totalCustomers: int, regularCustomers: int, totalRevenue: real)

  function CustomerStats(customers: seq<Customer>): (s: Stats)
    ensures 0 <= s.regularCustomers <= s.totalCustomers == |customers|
  {
    Stats(|customers|, |Filter(customers, IsRegular)|, SumOf(customers, Spent))
  }

  /** The empty term matches every customer. */
  lemma {:induction false} EmptyTermMatches(c: Customer)
    ensures MatchesSearch(c, "")
  {
    ContainsEmpty(c.mobileNumber);
  }

  /** The filtered list keeps the customers that pass the test, in their
      original order; with an empty term and a type other than "regular" and
      "new" it is the whole list. */
  lemma {:induction false} FilteredCustomersSpec(customers: seq<Customer>, searchTerm: string, filterType: string)
    ensures IsSubsequence(FilteredCustomers(customers, searchTerm, filterType), customers)
    ensures forall c :: c in FilteredCustomers(customers, searchTerm, filterType) <==>
      c in customers && MatchesSearch(c, searchTerm)
      && (filterType == "regular" ==> c.totalPurchases > 5)
      && (filterType == "new" ==> c.totalPurchases <= 1)
    ensures searchTerm == "" && filterType != "regular" && filterType != "new" ==>
      FilteredCustomers(customers, searchTerm, filterType) == customers
  {
    var p := ShownTest(searchTerm, filterType);
    FilterOrder(customers, p);
    forall c
      ensures c in FilteredCustomers(customers, searchTerm, filterType) <==>
        c in customers && MatchesSearch(c, searchTerm)
        && (filterType == "regular" ==> c.totalPurchases > 5)
        && (filterType == "new" ==> c.totalPurchases <= 1)
    {
      FilterMember(customers, p, c);
    }
    if searchTerm == "" && filterType != "regular" && filterType != "new" {
      forall c | c in customers
        ensures p(c)
      {
        EmptyTermMatches(c);
      }
      FilterAll(customers, p);
    }
  }

  /** The "regular" and "new" lists never share a customer, and a customer
      with two to five purchases is in neither. */
  lemma {:induction false} SegmentsDisjoint(customers: seq<Customer>, searchTerm: string, c: Customer)
    ensures !(c in FilteredCustomers(customers, searchTerm, "regular") && c in FilteredCustomers(customers, searchTerm, "new"))
    ensures 2 <= c.totalPurchases <= 5 ==>
      c !in FilteredCustomers(customers, searchTerm, "regular") && c !in FilteredCustomers(customers, searchTerm, "new")
  {
    FilterMember(customers, ShownTest(searchTerm, "regular"), c);
    FilterMember(customers, ShownTest(searchTerm, "new"), c);
  }

  /** With an empty term the list filtered to "regular" is the same list the
      regular-customer count counts. */
  lemma {:induction false} RegularCountAgrees(customers: seq<Customer>)
    ensures FilteredCustomers(customers, "", "regular") == Filter(customers, IsRegular)
    ensures CustomerStats(customers).regularCustomers == |FilteredCustomers(customers, "", "regular")|
  {
    if customers != [] {
      RegularCountAgrees(customers[1..]);
      EmptyTermMatches(customers[0]);
    }
  }

  /** Total revenue splits into what the regular customers spent and what
      the others spent. */
  lemma {:induction false} RevenueSplits(customers: seq<Customer>)
    ensures CustomerStats(customers).totalRevenue
      == SumOf(Filter(customers, IsRegular), Spent) + SumOf(Filter(customers, Not(IsRegular)), Spent)
  {
    SumOfPartition(customers, IsRegular, Spent);
  }

  /** With no customers the revenue is 0, and it grows by exactly what one
      more customer spent, so it is the sum of their spending. */
  lemma {:induction false} RevenueAppend(customers: seq<Customer>, c: Customer)
    ensures CustomerStats([]).totalRevenue == 0.0 && CustomerStats([]).regularCustomers == 0
    ensures CustomerStats(customers + [c]).totalRevenue == CustomerStats(customers).totalRevenue + c.totalSpent
    ensures CustomerStats(customers + [c]).regularCustomers
      == CustomerStats(customers).regularCustomers + (if IsRegular(c) then 1 else 0)
  {
    SumOfAppend(customers, [c], Spent);
    assert SumOf([c], Spent) == c.totalSpent by {
      assert [c][..0] == [];
    }
    FilterAppend(customers, [c], IsRegular);
  }
}
