/** The vegetable catalogue as the two front-end pages list it: the item
    record, the priority ranks, and the comparator both pages hand to
    `Array.prototype.sort` (frontend/src/pages/CreateInvoice.jsx and
    frontend/src/pages/Inventory.jsx). */
module Catalog {
  import opened Text
  import opened Seqs

  /** One inventory entry as the pages read it. A missing `retailPrice` or
      `wholesalePrice` is 0, which JavaScript's `||` treats the same way. */
  datatype CatalogItem = CatalogItem(
    id: int,
    vegetableId: int,
    name: string,
    tamilName: string,
    price: real,
    retailPrice: real,
    wholesalePrice: real,
    stock: real)

  /** `localeCompare` on names: negative, zero or positive. The collation
      itself is a parameter; only its consistency is assumed. */
  type Collation = (string, string) -> int

  /** A consistent comparator: opposite signs when the arguments are swapped,
      and "not after" is transitive. */
  ghost predicate IsCollation(cmp: Collation) {
    (forall a, b :: cmp(a, b) < 0 <==> cmp(b, a) > 0)
    && (forall a, b, c :: cmp(a, b) <= 0 && cmp(b, c) <= 0 ==> cmp(a, c) <= 0)
  }

  /** Code-point order, one collation that meets the requirement. */
  function CodePointCompare(a: string, b: string): (r: int)
    ensures -1 <= r <= 1
  {
    if a == [] then (if b == [] then 0 else -1)
    else if b == [] then 1
    else if a[0] < b[0] then -1
    else if a[0] > b[0] then 1
    else CodePointCompare(a[1..], b[1..])
  }

  lemma {:induction false} CodePointAntisymmetric(a: string, b: string)
    ensures CodePointCompare(a, b) == -CodePointCompare(b, a)
  {
    if a != [] && b != [] && a[0] == b[0] {
      CodePointAntisymmetric(a[1..], b[1..]);
    }
  }

  lemma {:induction false} CodePointTransitive(a: string, b: string, c: string)
    requires CodePointCompare(a, b) <= 0 && CodePointCompare(b, c) <= 0
    ensures CodePointCompare(a, c) <= 0
  {
    if a != [] && b != [] && c != [] && a[0] == b[0] == c[0] {
      CodePointTransitive(a[1..], b[1..], c[1..]);
    }
  }

  lemma CodePointIsCollation()
    ensures IsCollation(CodePointCompare)
  {
    forall a, b
      ensures CodePointCompare(a, b) < 0 <==> CodePointCompare(b, a) > 0
    {
      CodePointAntisymmetric(a, b);
    }
    forall a, b, c | CodePointCompare(a, b) <= 0 && CodePointCompare(b, c) <= 0
      ensures CodePointCompare(a, c) <= 0
    {
      CodePointTransitive(a, b, c);
    }
  }

  /** The invoice picker ranks exact names; the inventory page ranks
      lower-cased names, two of them by substring. */
  datatype RankRule = ExactNames | LowerCaseNames

  /** `getPriorityIndex` in the invoice picker. */
  function ExactRank(name: string): (r: int)
    ensures -1 <= r <= 5
  {
    if name == "Green Chili" || name == "Green Chilly" then 0
    else if name == "Tomato" then 1
    else if name == "Onion" then 2
    else if name == "Potato" then 3
    else if name == "Green Beans" || name == "Beans" then 4
    else if name == "Carrot" then 5
    else -1
  }

  /** `getPriorityIndex` on the inventory page. */
  function LowerCaseRank(name: string): (r: int)
    ensures -1 <= r <= 5
  {
    var n := Lower(name);
    if Contains(n, "green chili") || Contains(n, "green chilly") || n == "green chilly" || n == "green chili" then 0
    else if n == "tomato" then 1
    else if n == "onion" then 2
    else if n == "potato" then 3
    else if Contains(n, "beans") || n == "beans" then 4
    else if n == "carrot" then 5
    else -1
  }

  /** `PRIORITY_ORDER`, the order both pages list first. */
  const PriorityOrder: seq<string> := ["Green Chili", "Tomato", "Onion", "Potato", "Green Beans", "Carrot"]

  /** Each name of the priority order gets its position as its rank under
      both rules. */
  lemma RanksFollowPriorityOrder()
    ensures forall i :: 0 <= i < |PriorityOrder| ==>
      ExactRank(PriorityOrder[i]) == i && LowerCaseRank(PriorityOrder[i]) == i
  {
    forall i | 0 <= i < |PriorityOrder|
      ensures ExactRank(PriorityOrder[i]) == i && LowerCaseRank(PriorityOrder[i]) == i
    {
      RankAt(i, PriorityOrder[i]);
    }
  }

  lemma RankAt(i: int, name: string)
    requires 0 <= i < |PriorityOrder| && name == PriorityOrder[i]
    ensures ExactRank(name) == i && LowerCaseRank(name) == i
  {
    if i == 0 {
      GreenChiliRank(name);
    } else if i == 1 {
      TomatoRank(name);
    } else if i == 2 {
      OnionRank(name);
    } else if i == 3 {
      PotatoRank(name);
    } else if i == 4 {
      GreenBeansRank(name);
    } else {
      CarrotRank(name);
    }
  }

  /** The picker ranks only the priority names and two alternative
      spellings; every other name is unranked. */
  lemma ExactRankNames(name: string)
    ensures ExactRank(name) != -1 ==>
      name == PriorityOrder[ExactRank(name)] || name == "Green Chilly" || name == "Beans"
    ensures name in PriorityOrder || name == "Green Chilly" || name == "Beans" ==> ExactRank(name) != -1
  {
    assert PriorityOrder[0] == "Green Chili" && PriorityOrder[4] == "Green Beans";
  }

  lemma {:induction false} ShortNameNoChili(n: string)
    requires |n| < 11
    ensures !Contains(n, "green chili") && !Contains(n, "green chilly")
  {
    if Contains(n, "green chili") {
      ContainsLength(n, "green chili");
    }
    if Contains(n, "green chilly") {
      ContainsLength(n, "green chilly");
    }
  }

  lemma GreenChiliRank(name: string)
    requires name == "Green Chili"
    ensures ExactRank(name) == 0 && LowerCaseRank(name) == 0
  {
    GreenChiliLower(name);
    ChiliLowerRank(name);
  }

  lemma GreenChiliLower(name: string)
    requires name == "Green Chili"
    ensures |Lower(name)| == 11 && Lower(name)[..11] == "green chili"
  {
    assert Lower(name) == "green chili";
  }

  /** A name starting with "green chili" ranks 0 on the inventory page. */
  lemma {:induction false} ChiliLowerRank(name: string)
    requires |Lower(name)| >= 11 && Lower(name)[..11] == "green chili"
    ensures LowerCaseRank(name) == 0
  {
    var n := Lower(name);
    assert n[0..] == n;
    ContainsAt(n, "green chili", 0);
  }

  /** Tomato, onion and potato: short names compared whole. */
  lemma {:induction false} ShortLowerRank(name: string)
    requires Lower(name) in {"tomato", "onion", "potato"}
    ensures Lower(name) == "tomato" ==> LowerCaseRank(name) == 1
    ensures Lower(name) == "onion" ==> LowerCaseRank(name) == 2
    ensures Lower(name) == "potato" ==> LowerCaseRank(name) == 3
  {
    ShortNameNoChili(Lower(name));
  }

  lemma TomatoRank(name: string)
    requires name == "Tomato"
    ensures ExactRank(name) == 1 && LowerCaseRank(name) == 1
  {
    TomatoLower(name);
    ShortLowerRank(name);
  }

  lemma TomatoLower(name: string)
    requires name == "Tomato"
    ensures Lower(name) == "tomato"
  {
  }

  lemma OnionRank(name: string)
    requires name == "Onion"
    ensures ExactRank(name) == 2 && LowerCaseRank(name) == 2
  {
    OnionLower(name);
    ShortLowerRank(name);
  }

  lemma OnionLower(name: string)
    requires name == "Onion"
    ensures Lower(name) == "onion"
  {
  }

  lemma PotatoRank(name: string)
    requires name == "Potato"
    ensures ExactRank(name) == 3 && LowerCaseRank(name) == 3
  {
    PotatoLower(name);
    ShortLowerRank(name);
  }

  lemma PotatoLower(name: string)
    requires name == "Potato"
    ensures Lower(name) == "potato"
  {
  }

  lemma GreenBeansRank(name: string)
    requires name == "Green Beans"
    ensures ExactRank(name) == 4 && LowerCaseRank(name) == 4
  {
    GreenBeansLower(name);
    BeansLowerRank(name);
  }

  lemma GreenBeansLower(name: string)
    requires name == "Green Beans"
    ensures |Lower(name)| == 11 && Lower(name)[6..] == "beans"
  {
    assert Lower(name) == "green beans";
  }

  /** An eleven-letter name ending in "beans" ranks 4 on the inventory page. */
  lemma {:induction false} BeansLowerRank(name: string)
    requires |Lower(name)| == 11 && Lower(name)[6..] == "beans"
    ensures LowerCaseRank(name) == 4
  {
    var n := Lower(name);
    var chili := "green chili";
    assert n[6] == 'b' && chili[6] == 'c';
    if Contains(n, chili) {
      ContainsLength(n, chili);
    }
    if Contains(n, "green chilly") {
      ContainsLength(n, "green chilly");
    }
    ContainsAt(n, "beans", 6);
  }

  lemma CarrotRank(name: string)
    requires name == "Carrot"
    ensures ExactRank(name) == 5 && LowerCaseRank(name) == 5
  {
    assert Lower(name) == "carrot";
    CarrotLowerRank(name);
  }

  lemma {:induction false} CarrotLowerRank(name: string)
    requires Lower(name) == "carrot"
    ensures LowerCaseRank(name) == 5
  {
    var n := Lower(name);
    ShortNameNoChili(n);
    assert 'b' !in n;
    if Contains(n, "beans") {
      ContainsFirstLetter(n, "beans");
    }
    assert |n| == 6;
  }

  function Rank(rule: RankRule, name: string): (r: int)
    ensures -1 <= r <= 5
  {
    match rule
    case ExactNames => ExactRank(name)
    case LowerCaseNames => LowerCaseRank(name)
  }

  /** The rank rule and the collation a page sorts with. */
  datatype Order = Order(rule: RankRule, collate: Collation)

  ghost predicate ValidOrder(o: Order) {
    IsCollation(o.collate)
  }

  /** The comparator passed to `sort`: ranked names by rank, ranked before
      unranked, unranked by the collation. */
  function Compare(o: Order, a: CatalogItem, b: CatalogItem): int {
    var indexA := Rank(o.rule, a.name);
    var indexB := Rank(o.rule, b.name);
    if indexA != -1 && indexB != -1 then indexA - indexB
    else if indexA != -1 then -1
    else if indexB != -1 then 1
    else o.collate(a.name, b.name)
  }

  /** `a` may stand before `b` in the sorted list. */
  predicate Before(o: Order, a: CatalogItem, b: CatalogItem) {
    Compare(o, a, b) <= 0
  }

  /** The comparator is consistent, so `sort` has one stable answer. */
  lemma CompareConsistent(o: Order, a: CatalogItem, b: CatalogItem, c: CatalogItem)
    requires ValidOrder(o)
    ensures Compare(o, a, b) < 0 <==> Compare(o, b, a) > 0
    ensures Before(o, a, b) || Before(o, b, a)
    ensures Before(o, a, b) && Before(o, b, c) ==> Before(o, a, c)
  {
  }

  /** What a sorted list looks like, spelled out: ranked items first, in rank
      order; unranked items after them, in collation order. */
  lemma {:induction false} BeforeMeaning(o: Order, a: CatalogItem, b: CatalogItem)
    requires Before(o, a, b)
    ensures Rank(o.rule, b.name) != -1 ==>
      Rank(o.rule, a.name) != -1 && Rank(o.rule, a.name) <= Rank(o.rule, b.name)
    ensures Rank(o.rule, a.name) == -1 ==>
      Rank(o.rule, b.name) == -1 && o.collate(a.name, b.name) <= 0
  {
  }

  predicate Sorted(o: Order, s: seq<CatalogItem>) {
    forall i, j :: 0 <= i < j < |s| ==> Before(o, s[i], s[j])
  }

  /** Items that compare equal to `e`; a stable sort keeps their input order. */
  function Ties(o: Order, e: CatalogItem): CatalogItem -> bool {
    x => Before(o, x, e) && Before(o, e, x)
  }

  /** Place `x` after every element that may precede it. */
  function Insert(o: Order, x: CatalogItem, t: seq<CatalogItem>): (r: seq<CatalogItem>)
    ensures multiset(r) == multiset(t) + multiset{x}
  {
    if t == [] then [x]
    else if !Before(o, t[0], x) then [x] + t
    else
      assert t == [t[0]] + t[1..];
      [t[0]] + Insert(o, x, t[1..])
  }

  /** `s.sort(comparator)`: a stable sort, here insertion of each element in
      input order. */
  function SortItems(o: Order, s: seq<CatalogItem>): (r: seq<CatalogItem>)
    ensures multiset(r) == multiset(s)
  {
    if s == [] then []
    else
      assert s == s[..|s| - 1] + [s[|s| - 1]];
      Insert(o, s[|s| - 1], SortItems(o, s[..|s| - 1]))
  }

  lemma {:induction false} SortedCons(o: Order, a: CatalogItem, s: seq<CatalogItem>)
    requires Sorted(o, s)
    requires forall y :: y in s ==> Before(o, a, y)
    ensures Sorted(o, [a] + s)
  {
    var r := [a] + s;
    forall i, j | 0 <= i < j < |r|
      ensures Before(o, r[i], r[j])
    {
      if i > 0 {
        assert r[i] == s[i - 1] && r[j] == s[j - 1];
      } else {
        assert r[j] == s[j - 1];
      }
    }
  }

  lemma {:induction false} InsertSorted(o: Order, x: CatalogItem, t: seq<CatalogItem>)
    requires ValidOrder(o) && Sorted(o, t)
    ensures Sorted(o, Insert(o, x, t))
  {
    if t == [] {
    } else if !Before(o, t[0], x) {
      forall y | y in t
        ensures Before(o, x, y)
      {
        CompareConsistent(o, t[0], x, y);
        CompareConsistent(o, x, t[0], y);
      }
      SortedCons(o, x, t);
    } else {
      InsertSorted(o, x, t[1..]);
      var rest := Insert(o, x, t[1..]);
      forall y | y in rest
        ensures Before(o, t[0], y)
      {
        assert y in multiset(rest);
      }
      SortedCons(o, t[0], rest);
    }
  }

  /** In a sorted list, nothing after an element that must follow `x`
      may precede `x`. */
  lemma {:induction false} NoTiesAfter(o: Order, x: CatalogItem, t: seq<CatalogItem>, e: CatalogItem)
    requires ValidOrder(o) && Sorted(o, t)
    requires t != [] && !Before(o, t[0], x) && Ties(o, e)(x)
    ensures Filter(t, Ties(o, e)) == []
  {
    var p := Ties(o, e);
    forall y | y in t
      ensures !p(y)
    {
      if p(y) {
        CompareConsistent(o, y, e, x);
        CompareConsistent(o, t[0], y, x);
      }
    }
    FilterNone(t, p);
  }

  /** The tail of a sorted list is sorted. */
  lemma {:induction false} SortedTail(o: Order, t: seq<CatalogItem>)
    requires t != [] && Sorted(o, t)
    ensures Sorted(o, t[1..])
  {
    forall i, j | 0 <= i < j < |t| - 1
      ensures Before(o, t[1..][i], t[1..][j])
    {
      assert t[1..][i] == t[i + 1] && t[1..][j] == t[j + 1];
    }
  }

  /** Inserting in front of `t`: only `x` is added, since no tie of `x`
      can follow it. */
  lemma {:induction false} InsertStableFront(o: Order, x: CatalogItem, t: seq<CatalogItem>, e: CatalogItem)
    requires ValidOrder(o) && Sorted(o, t)
    requires t != [] && !Before(o, t[0], x)
    ensures Filter(Insert(o, x, t), Ties(o, e))
         == Filter(t, Ties(o, e)) + (if Ties(o, e)(x) then [x] else [])
  {
    var p := Ties(o, e);
    assert Insert(o, x, t) == [x] + t;
    FilterCons(x, t, p);
    if p(x) {
      NoTiesAfter(o, x, t, e);
    }
  }

  /** Inserting past the first element keeps it first. */
  lemma {:induction false} InsertStableSkip(o: Order, x: CatalogItem, t: seq<CatalogItem>, e: CatalogItem)
    requires t != [] && Before(o, t[0], x)
    requires Filter(Insert(o, x, t[1..]), Ties(o, e))
          == Filter(t[1..], Ties(o, e)) + (if Ties(o, e)(x) then [x] else [])
    ensures Filter(Insert(o, x, t), Ties(o, e))
         == Filter(t, Ties(o, e)) + (if Ties(o, e)(x) then [x] else [])
  {
    FilterConsStep(t[0], Insert(o, x, t[1..]), t[1..], if Ties(o, e)(x) then [x] else [], Ties(o, e));
    assert Insert(o, x, t) == [t[0]] + Insert(o, x, t[1..]);
    assert [t[0]] + t[1..] == t;
  }

  lemma {:induction false} InsertStable(o: Order, x: CatalogItem, t: seq<CatalogItem>, e: CatalogItem)
    requires ValidOrder(o) && Sorted(o, t)
    ensures Filter(Insert(o, x, t), Ties(o, e))
         == Filter(t, Ties(o, e)) + (if Ties(o, e)(x) then [x] else [])
  {
    if t == [] {
      FilterCons(x, [], Ties(o, e));
    } else if !Before(o, t[0], x) {
      InsertStableFront(o, x, t, e);
    } else {
      SortedTail(o, t);
      InsertStable(o, x, t[1..], e);
      InsertStableSkip(o, x, t, e);
    }
  }

  lemma {:induction false} SortItemsSorted(o: Order, s: seq<CatalogItem>)
    requires ValidOrder(o)
    ensures Sorted(o, SortItems(o, s))
  {
    if s != [] {
      SortItemsSorted(o, s[..|s| - 1]);
      InsertSorted(o, s[|s| - 1], SortItems(o, s[..|s| - 1]));
    }
  }

  /** Filtering a sequence is filtering all but its last element, then
      keeping that one if it passes. */
  lemma {:induction false} FilterLast(s: seq<CatalogItem>, p: CatalogItem -> bool)
    requires s != []
    ensures Filter(s, p) == Filter(s[..|s| - 1], p) + (if p(s[|s| - 1]) then [s[|s| - 1]] else [])
  {
    var init, last := s[..|s| - 1], s[|s| - 1];
    assert s == init + [last];
    FilterAppend(init, [last], p);
    assert Filter([last], p) == (if p(last) then [last] else []) + Filter([], p);
  }

  lemma {:induction false} SortItemsStable(o: Order, s: seq<CatalogItem>, e: CatalogItem)
    requires ValidOrder(o)
    ensures Filter(SortItems(o, s), Ties(o, e)) == Filter(s, Ties(o, e))
  {
    if s != [] {
      var init, last := s[..|s| - 1], s[|s| - 1];
      assert SortItems(o, s) == Insert(o, last, SortItems(o, init));
      SortItemsStable(o, init, e);
      SortItemsSorted(o, init);
      InsertStable(o, last, SortItems(o, init), e);
      FilterLast(s, Ties(o, e));
    }
  }

  /** The sort's answer: in order, a permutation of its input, and stable:
      items that compare equal keep their input order. */
  lemma {:induction false} SortItemsSpec(o: Order, s: seq<CatalogItem>, e: CatalogItem)
    requires ValidOrder(o)
    ensures Sorted(o, SortItems(o, s))
    ensures multiset(SortItems(o, s)) == multiset(s)
    ensures Filter(SortItems(o, s), Ties(o, e)) == Filter(s, Ties(o, e))
  {
    SortItemsSorted(o, s);
    SortItemsStable(o, s, e);
  }

  /** The picker lists Green Chili before Tomato, and both before an
      unranked vegetable such as Beetroot, whatever the collation. */
  lemma {:induction false} PriorityExample(collate: Collation, tomato: CatalogItem, beetroot: CatalogItem, chili: CatalogItem)
    requires tomato.name == "Tomato" && beetroot.name == "Beetroot" && chili.name == "Green Chili"
    ensures SortItems(Order(ExactNames, collate), [tomato, beetroot, chili]) == [chili, tomato, beetroot]
  {
    TomatoRank(tomato.name);
    GreenChiliRank(chili.name);
    BeetrootUnranked(beetroot.name);
    SortThree(Order(ExactNames, collate), tomato, beetroot, chili);
  }

  lemma BeetrootUnranked(name: string)
    requires name == "Beetroot"
    ensures ExactRank(name) == -1
  {
    assert |name| == 8;
  }

  /** Sorting a rank-1, an unranked and a rank-0 item. */
  lemma {:induction false} SortThree(o: Order, a: CatalogItem, b: CatalogItem, c: CatalogItem)
    requires Rank(o.rule, a.name) == 1 && Rank(o.rule, b.name) == -1 && Rank(o.rule, c.name) == 0
    ensures SortItems(o, [a, b, c]) == [c, a, b]
  {
    assert Before(o, a, b) && !Before(o, a, c);
    SortTwo(o, a, b);
    SortSnoc(o, [a, b], c);
    assert [a, b] + [c] == [a, b, c];
    InsertBeforeFirst(o, c, [a, b]);
  }

  lemma {:induction false} SortTwo(o: Order, a: CatalogItem, b: CatalogItem)
    requires Before(o, a, b)
    ensures SortItems(o, [a, b]) == [a, b]
  {
    SortSnoc(o, [], a);
    assert SortItems(o, []) == [];
    InsertIntoEmpty(o, a);
    assert [] + [a] == [a];
    SortSnoc(o, [a], b);
    InsertAfterFirst(o, b, [a]);
    InsertIntoEmpty(o, b);
    assert [a] + [b] == [a, b];
  }

  lemma InsertBeforeFirst(o: Order, x: CatalogItem, t: seq<CatalogItem>)
    requires t != [] && !Before(o, t[0], x)
    ensures Insert(o, x, t) == [x] + t
  {
  }

  lemma SortSnoc(o: Order, s: seq<CatalogItem>, x: CatalogItem)
    ensures SortItems(o, s + [x]) == Insert(o, x, SortItems(o, s))
  {
    var t := s + [x];
    assert t[..|t| - 1] == s && t[|t| - 1] == x;
  }

  lemma InsertIntoEmpty(o: Order, x: CatalogItem)
    ensures Insert(o, x, []) == [x]
  {
  }

  lemma InsertAfterFirst(o: Order, x: CatalogItem, t: seq<CatalogItem>)
    requires t != [] && Before(o, t[0], x)
    ensures Insert(o, x, t) == [t[0]] + Insert(o, x, t[1..])
  {
  }
}
