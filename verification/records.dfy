/** The back end's stored rows that both the billing and the inventory
    endpoints work on (app/models/inventory.py, app/models/usage.py). */
module Records {
  /** Inventory rows and usage counters are looked up by owner and vegetable;
      the model keeps at most one row per such pair. */
  datatype InvKey = InvKey(userId: int, vegetableId: int)

  /** One inventory row: its id, the shop's price and the stock in kg. */
  datatype InventoryRow = InventoryRow(id: int, pricePerKg: real, stockKg: real)

  /** One entry of the vegetable master list. */
  datatype Vegetable = Vegetable(name: string, tamilName: string)

  /** The signed-in shop owner. */
  datatype User = User(id: int, shopName: string)

  /** The rows of one user. */
  function UserKeys(inventory: map<InvKey, InventoryRow>, userId: int): set<InvKey> {
    set k | k in inventory && k.userId == userId
  }

  /** A user's usage count of a vegetable, zero when nothing was counted. */
  function CountOf(usage: map<InvKey, int>, k: InvKey): int {
    if k in usage then usage[k] else 0
  }

  /** The elements of a sequence, as a set. */
  function Elems<T>(s: seq<T>): set<T> {
    set x | x in s
  }

  lemma ElemsAppend<T>(s: seq<T>, x: T)
    ensures Elems(s + [x]) == Elems(s) + {x}
  {
  }

  /** A sequence without repeats has as many elements as its set. */
  lemma {:induction false} DistinctCard<T>(s: seq<T>)
    requires forall i, j :: 0 <= i < j < |s| ==> s[i] != s[j]
    ensures |Elems(s)| == |s|
  {
    if s != [] {
      var front := s[..|s| - 1];
      DistinctCard(front);
      assert s == front + [s[|s| - 1]];
      ElemsAppend(front, s[|s| - 1]);
      assert s[|s| - 1] !in Elems(front);
    }
  }
}
