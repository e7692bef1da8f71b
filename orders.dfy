/** Resting orders: the mutable `Order` record and the dictionaries from id to
    order that the trader keeps for each side. */
module Orders {

  /** An order as the trader remembers it. `insert_shifted_order` changes
      `id`, `price` and `lot` of an order that is already stored in a
      dictionary, and `send_enlargen_order` changes only its `id`; neither of
      those paths is reached from the trader's handlers. */
  class Order {
    var id: int
    var price: int
    var lot: int
    var start: int

    constructor (id: int, price: int, lot: int, start: int)
      ensures this.id == id && this.price == price && this.lot == lot && this.start == start
    {
      this.id := id;
      this.price := price;
      this.lot := lot;
      this.start := start;
    }

    /** A new order with the same fields. */
    method Copy() returns (c: Order)
      ensures fresh(c)
      ensures c.id == id && c.price == price && c.lot == lot && c.start == start
    {
      c := new Order(id, price, lot, start);
    }
  }

  ghost predicate Distinct(s: seq<int>)
  {
    forall i, j :: 0 <= i < j < |s| ==> s[i] != s[j]
  }

  /** `s` with every occurrence of `k` taken out, the rest in order. */
  function Without(s: seq<int>, k: int): (r: seq<int>)
    ensures forall x :: x in r <==> x in s && x != k
    ensures |r| <= |s|
    ensures Distinct(s) ==> Distinct(r)
    ensures k !in s ==> r == s
  {
    if s == [] then []
    else if s[0] == k then Without(s[1..], k)
    else
      var rest := Without(s[1..], k);
      assert Distinct(s) ==> s[0] !in s[1..];
      [s[0]] + rest
  }

  /** Taking out a key that occurs once, at index `i`, keeps the keys before
      and after it in their order. */
  lemma {:induction false} WithoutKeepsOrder(s: seq<int>, k: int, i: int)
    requires Distinct(s) && 0 <= i < |s| && s[i] == k
    ensures Without(s, k) == s[..i] + s[i + 1..]
  {
    var t := s[1..];
    if i == 0 {
      assert k !in t;
      assert Without(s, k) == Without(t, k) == t;
    } else {
      assert s[0] != k;
      WithoutKeepsOrder(t, k, i - 1);
      assert Without(s, k) == [s[0]] + Without(t, k);
      assert s[..i] == [s[0]] + t[..i - 1];
    }
  }

  /** `keys` lists every key of `entries` exactly once. */
  ghost predicate Indexes(keys: seq<int>, entries: map<int, Order>)
  {
    Distinct(keys) && forall k :: k in entries <==> k in keys
  }

  /** A Python dict from order id to order. `keys` is its iteration order:
      a new key goes last, assigning to a present key keeps its place, and
      deleting a key takes it out. */
  class OrderDict {
    var keys: seq<int>
    var entries: map<int, Order>

    ghost predicate Valid()
      reads this
    {
      Indexes(keys, entries)
    }

    constructor ()
      ensures Valid() && keys == [] && entries == map[]
    {
      keys := [];
      entries := map[];
    }

    /** `d[k] = o` */
    method Put(k: int, o: Order)
      requires Valid()
      modifies this
      ensures Valid()
      ensures entries == old(entries)[k := o]
      ensures keys == if k in old(entries) then old(keys) else old(keys) + [k]
    {
      if k !in entries {
        keys := keys + [k];
      }
      entries := entries[k := o];
    }

    /** `del d[k]`, for a present key. */
    method Delete(k: int)
      requires Valid() && k in entries
      modifies this
      ensures Valid()
      ensures entries == old(entries) - {k}
      ensures keys == Without(old(keys), k)
    {
      keys := Without(keys, k);
      entries := entries - {k};
    }
  }
}
