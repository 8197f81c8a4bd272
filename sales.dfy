/**
 * The admin panel's best sellers: the quantities sold per product name over
 * the orders that are not cancelled, sorted by quantity, highest first, and
 * cut to five.
 */
module Sales {
  import opened Wrappers
  import opened Types

  /** The tally kept per product name: the first product sold under that name and the units sold. */
  datatype Tally = Tally(product: Product, count: int)

  /** No two tallies share a product name (the keys of the tally dictionary). */
  predicate DistinctNames(ts: seq<Tally>) {
    forall i, j :: 0 <= i < j < |ts| ==> ts[i].product.name != ts[j].product.name
  }

  /** The position of the tally for `name`, if there is one. */
  function NameIndex(ts: seq<Tally>, name: string): (k: Option<nat>)
    ensures k.None? <==> forall i :: 0 <= i < |ts| ==> ts[i].product.name != name
    ensures k.Some? ==> k.value < |ts| && ts[k.value].product.name == name
  {
    if ts == [] then None
    else if ts[0].product.name == name then Some(0)
    else
      match NameIndex(ts[1..], name)
      case None => None
      case Some(k) => Some(k + 1)
  }

  /** The units tallied for `name`: 0 when it has no tally. */
  function CountOf(ts: seq<Tally>, name: string): int {
    match NameIndex(ts, name)
    case None => 0
    case Some(k) => ts[k].count
  }

  /** With distinct names, a tally is found at its own position. */
  lemma {:induction false} NameIndexAt(ts: seq<Tally>, k: nat)
    requires DistinctNames(ts) && k < |ts|
    ensures NameIndex(ts, ts[k].product.name) == Some(k)
  {
    if k > 0 {
      assert DistinctNames(ts[1..]);
      assert ts[1..][k - 1] == ts[k];
      NameIndexAt(ts[1..], k - 1);
    }
  }

  /** Two tally lists with the same names in the same places find every name at the same place. */
  lemma {:induction false} NameIndexSameNames(ts: seq<Tally>, us: seq<Tally>, name: string)
    requires |ts| == |us|
    requires forall i :: 0 <= i < |ts| ==> ts[i].product.name == us[i].product.name
    ensures NameIndex(ts, name) == NameIndex(us, name)
  {
    if ts != [] {
      NameIndexSameNames(ts[1..], us[1..], name);
    }
  }

  /** One order line added to the tallies: a new tally for a new name, otherwise its units added. */
  function AddItem(ts: seq<Tally>, item: OrderItem): seq<Tally> {
    match NameIndex(ts, item.product.name)
    case None => ts + [Tally(item.product, item.quantity)]
    case Some(k) => ts[k := ts[k].(count := ts[k].count + item.quantity)]
  }

  /** Units of `name` among the lines. */
  function ItemsSold(items: seq<OrderItem>, name: string): int {
    if items == [] then 0
    else
      var last := items[|items| - 1];
      ItemsSold(items[..|items| - 1], name) + (if last.product.name == name then last.quantity else 0)
  }

  /** Some line is for `name`. */
  predicate HasItem(items: seq<OrderItem>, name: string) {
    exists i :: 0 <= i < |items| && items[i].product.name == name
  }

  /** Units of `name` sold in the orders that are not cancelled. */
  function Sold(orders: seq<Order>, name: string): int {
    if orders == [] then 0
    else
      var last := orders[|orders| - 1];
      Sold(orders[..|orders| - 1], name) + (if last.status != Cancelled then ItemsSold(last.items, name) else 0)
  }

  /** Some order that is not cancelled has a line for `name`. */
  predicate SoldSome(orders: seq<Order>, name: string) {
    exists i :: 0 <= i < |orders| && orders[i].status != Cancelled && HasItem(orders[i].items, name)
  }

  /** The lines of one order added to the tallies in order. */
  function TallyItems(ts: seq<Tally>, items: seq<OrderItem>): seq<Tally> {
    if items == [] then ts else AddItem(TallyItems(ts, items[..|items| - 1]), items[|items| - 1])
  }

  /** The tallies after going through every order that is not cancelled, in order. */
  function TallyOrders(orders: seq<Order>): seq<Tally> {
    if orders == [] then []
    else
      var prev := TallyOrders(orders[..|orders| - 1]);
      var last := orders[|orders| - 1];
      if last.status != Cancelled then TallyItems(prev, last.items) else prev
  }

  /** Adding a line keeps the names distinct, gives its name a tally and adds its units to that name only. */
  lemma AddItemCounts(ts: seq<Tally>, item: OrderItem)
    requires DistinctNames(ts)
    ensures DistinctNames(AddItem(ts, item))
    ensures forall name :: NameIndex(AddItem(ts, item), name).Some? <==>
      (NameIndex(ts, name).Some? || name == item.product.name)
    ensures forall name :: (CountOf(AddItem(ts, item), name) ==
      CountOf(ts, name) + (if name == item.product.name then item.quantity else 0))
  {
    var r := AddItem(ts, item);
    match NameIndex(ts, item.product.name)
    case None =>
      forall name
        ensures NameIndex(r, name).Some? <==> NameIndex(ts, name).Some? || name == item.product.name
        ensures CountOf(r, name) == CountOf(ts, name) + (if name == item.product.name then item.quantity else 0)
      {
        assert r[|ts|].product.name == item.product.name;
        if name == item.product.name {
          NameIndexAt(r, |ts|);
        } else if NameIndex(ts, name).Some? {
          NameIndexAt(r, NameIndex(ts, name).value);
        }
      }
    case Some(k) =>
      forall name ensures NameIndex(r, name) == NameIndex(ts, name) {
        NameIndexSameNames(r, ts, name);
      }
  }

  /** The lines of an order tallied: names stay distinct, and each name gains the units its lines sold. */
  lemma {:induction false} TallyItemsCounts(ts: seq<Tally>, items: seq<OrderItem>)
    requires DistinctNames(ts)
    ensures DistinctNames(TallyItems(ts, items))
    ensures forall name :: NameIndex(TallyItems(ts, items), name).Some? <==>
      (NameIndex(ts, name).Some? || HasItem(items, name))
    ensures forall name :: CountOf(TallyItems(ts, items), name) == CountOf(ts, name) + ItemsSold(items, name)
  {
    if items != [] {
      var init := items[..|items| - 1];
      var last := items[|items| - 1];
      TallyItemsCounts(ts, init);
      AddItemCounts(TallyItems(ts, init), last);
      forall name ensures HasItem(items, name) <==> HasItem(init, name) || last.product.name == name {
        if HasItem(init, name) {
          var i :| 0 <= i < |init| && init[i].product.name == name;
          assert items[i] == init[i];
        }
        if HasItem(items, name) && last.product.name != name {
          var i :| 0 <= i < |items| && items[i].product.name == name;
          assert init[i] == items[i];
        }
      }
    }
  }

  /**
   * The tallies of the best-seller list hold one entry per name sold in an
   * order that is not cancelled, and each entry's units are the units of
   * that name sold in those orders.
   */
  lemma {:induction false} TallyOrdersCounts(orders: seq<Order>)
    ensures DistinctNames(TallyOrders(orders))
    ensures forall name :: NameIndex(TallyOrders(orders), name).Some? <==> SoldSome(orders, name)
    ensures forall name :: CountOf(TallyOrders(orders), name) == Sold(orders, name)
  {
    if orders != [] {
      var init := orders[..|orders| - 1];
      var last := orders[|orders| - 1];
      TallyOrdersCounts(init);
      if last.status != Cancelled {
        TallyItemsCounts(TallyOrders(init), last.items);
      }
      forall name ensures SoldSome(orders, name) <==>
        SoldSome(init, name) || (last.status != Cancelled && HasItem(last.items, name))
      {
        if SoldSome(init, name) {
          var i :| 0 <= i < |init| && init[i].status != Cancelled && HasItem(init[i].items, name);
          assert orders[i] == init[i];
        }
        if SoldSome(orders, name) {
          var i :| 0 <= i < |orders| && orders[i].status != Cancelled && HasItem(orders[i].items, name);
          if i < |init| {
            assert init[i] == orders[i];
          }
        }
      }
    }
  }

  /** Highest count first. */
  predicate SortedByCount(ts: seq<Tally>) {
    forall i, j :: 0 <= i < j < |ts| ==> ts[i].count >= ts[j].count
  }

  /** `t` placed before the first tally it does not sell less than. */
  function Insert(t: Tally, s: seq<Tally>): (r: seq<Tally>)
    ensures |r| == |s| + 1 && (r[0] == t || (s != [] && r[0] == s[0]))
    ensures multiset(r) == multiset(s) + multiset{t}
  {
    if s == [] || t.count >= s[0].count then [t] + s
    else
      var rest := Insert(t, s[1..]);
      assert s == [s[0]] + s[1..];
      [s[0]] + rest
  }

  /** Inserting into a sorted list keeps it sorted. */
  lemma {:induction false} InsertSorted(t: Tally, s: seq<Tally>)
    requires SortedByCount(s)
    ensures SortedByCount(Insert(t, s))
  {
    if s != [] && t.count < s[0].count {
      InsertSorted(t, s[1..]);
      var r := Insert(t, s);
      var rest := Insert(t, s[1..]);
      assert r == [s[0]] + rest;
      assert rest[0].count <= s[0].count;
    }
  }

  /** `sort((a, b) => b.count - a.count)`: the same tallies, highest count first. */
  function SortByCount(ts: seq<Tally>): (r: seq<Tally>)
    ensures |r| == |ts| && multiset(r) == multiset(ts)
    ensures SortedByCount(r)
  {
    if ts == [] then []
    else
      assert ts == [ts[0]] + ts[1..];
      InsertSorted(ts[0], SortByCount(ts[1..]));
      Insert(ts[0], SortByCount(ts[1..]))
  }

  /** The tallies with count `c`, in their order. */
  function WithCount(ts: seq<Tally>, c: int): seq<Tally> {
    if ts == [] then [] else (if ts[0].count == c then [ts[0]] else []) + WithCount(ts[1..], c)
  }

  lemma WithCountCons(x: Tally, s: seq<Tally>, c: int)
    ensures WithCount([x] + s, c) == (if x.count == c then [x] else []) + WithCount(s, c)
  {
    assert ([x] + s)[1..] == s;
  }

  /** Insertion passes only tallies that sold more, so among equal counts the inserted one comes first. */
  lemma {:induction false} InsertWithCount(t: Tally, s: seq<Tally>, c: int)
    ensures WithCount(Insert(t, s), c) == (if t.count == c then [t] else []) + WithCount(s, c)
  {
    if s != [] && t.count < s[0].count {
      var rest := Insert(t, s[1..]);
      InsertWithCount(t, s[1..], c);
      assert Insert(t, s) == [s[0]] + rest;
      WithCountCons(s[0], rest, c);
      WithCountCons(s[0], s[1..], c);
      assert [s[0]] + s[1..] == s;
    } else {
      WithCountCons(t, s, c);
    }
  }

  /**
   * The sort is stable, as JavaScript's `sort` is: tallies with the same
   * count keep their order. With the permutation and the descending order
   * this fixes the sorted list, and with it which tallies make the top five.
   */
  lemma {:induction false} SortByCountStable(ts: seq<Tally>, c: int)
    ensures WithCount(SortByCount(ts), c) == WithCount(ts, c)
  {
    if ts != [] {
      SortByCountStable(ts[1..], c);
      InsertWithCount(ts[0], SortByCount(ts[1..]), c);
    }
  }

  function Min(a: int, b: int): int {
    if a <= b then a else b
  }

  /** `slice(0, 5)` of the sorted tallies. */
  function TopFive(ts: seq<Tally>): seq<Tally> {
    SortByCount(ts)[..Min(5, |ts|)]
  }

  /**
   * The best-seller list: at most five tallies, highest count first, each
   * one of the tallies with its name's count, and every tally left out
   * sold no more than the last one listed.
   */
  lemma TopFiveProperties(ts: seq<Tally>)
    requires DistinctNames(ts)
    ensures |TopFive(ts)| == Min(5, |ts|)
    ensures SortedByCount(TopFive(ts))
    ensures forall k :: 0 <= k < |TopFive(ts)| ==>
      TopFive(ts)[k] in ts && CountOf(ts, TopFive(ts)[k].product.name) == TopFive(ts)[k].count
    ensures |ts| >= 5 ==> forall x :: x in ts && x !in TopFive(ts) ==> x.count <= TopFive(ts)[4].count
  {
    var s := SortByCount(ts);
    var top := TopFive(ts);
    assert |s| == |ts| by {
      assert |multiset(s)| == |multiset(ts)|;
    }
    forall k | 0 <= k < |top| ensures top[k] in ts && CountOf(ts, top[k].product.name) == top[k].count {
      assert top[k] in multiset(s);
      var m :| 0 <= m < |ts| && ts[m] == top[k];
      NameIndexAt(ts, m);
    }
    forall x | |ts| >= 5 && x in ts && x !in top ensures x.count <= top[4].count {
      assert x in multiset(s);
      var m :| 0 <= m < |s| && s[m] == x;
      assert s[m] !in s[..Min(5, |ts|)];
      assert s[4] == top[4];
    }
  }

  /**
   * The best-seller computation with its loops: go through the orders and
   * their lines once, growing the tallies, then sort and cut to five.
   */
  method TopSellingProducts(orders: seq<Order>) returns (top: seq<Tally>)
    ensures top == TopFive(TallyOrders(orders))
    ensures |top| <= 5 && SortedByCount(top)
    ensures forall k :: 0 <= k < |top| ==> top[k].count == Sold(orders, top[k].product.name)
    ensures forall k :: 0 <= k < |top| ==> SoldSome(orders, top[k].product.name)
  {
    var counts: seq<Tally> := [];
    var i := 0;
    while i < |orders|
      invariant 0 <= i <= |orders|
      invariant counts == TallyOrders(orders[..i])
    {
      var order := orders[i];
      assert orders[..i + 1][..i] == orders[..i];
      if order.status != Cancelled {
        counts := TallyOrderItems(counts, order.items);
      }
      i := i + 1;
    }
    assert orders[..i] == orders;
    top := TopFive(counts);
    TopFiveOfOrders(orders);
  }

  /** The inner loop: each line of one order is added to the tallies. */
  method TallyOrderItems(start: seq<Tally>, items: seq<OrderItem>) returns (counts: seq<Tally>)
    ensures counts == TallyItems(start, items)
  {
    counts := start;
    var j := 0;
    while j < |items|
      invariant 0 <= j <= |items|
      invariant counts == TallyItems(start, items[..j])
      decreases |items| - j
    {
      var item := items[j];
      assert items[..j + 1][..j] == items[..j];
      match NameIndex(counts, item.product.name) {
        case None =>
          counts := counts + [Tally(item.product, item.quantity)];
        case Some(k) =>
          counts := counts[k := counts[k].(count := counts[k].count + item.quantity)];
      }
      j := j + 1;
    }
    assert items[..j] == items;
  }

  /** The best sellers of a list of orders: at most five, sorted, each with its units sold, each a name that sold. */
  lemma TopFiveOfOrders(orders: seq<Order>)
    ensures var top := TopFive(TallyOrders(orders));
            && |top| <= 5 && SortedByCount(top)
            && (forall k :: 0 <= k < |top| ==> top[k].count == Sold(orders, top[k].product.name))
            && (forall k :: 0 <= k < |top| ==> SoldSome(orders, top[k].product.name))
  {
    var counts := TallyOrders(orders);
    var top := TopFive(counts);
    TallyOrdersCounts(orders);
    TopFiveProperties(counts);
    forall k | 0 <= k < |top| ensures SoldSome(orders, top[k].product.name) {
      var m :| 0 <= m < |counts| && counts[m] == top[k];
      NameIndexAt(counts, m);
    }
  }
}
