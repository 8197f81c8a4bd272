/**
 * The shop's comparison list: at most three products, no two with the same
 * id. Comparing a listed product takes it out; comparing another one adds it
 * at the end while there is room, and otherwise only raises an alert.
 */
module Compare {
  import opened Types
  import opened Seqs

  const MaxCompared := 3

  predicate HasId(list: seq<Product>, id: int) {
    exists i :: 0 <= i < |list| && list[i].id == id
  }

  /** `list.filter(p => p.id !== id)` */
  function WithoutId(list: seq<Product>, id: int): (r: seq<Product>)
    ensures forall p :: p in r <==> p in list && p.id != id
    ensures IsSubsequence(r, list)
    ensures !HasId(r, id)
    ensures !HasId(list, id) ==> r == list
  {
    if list == [] then []
    else
      var rest := WithoutId(list[1..], id);
      assert list == [list[0]] + list[1..];
      if list[0].id != id then [list[0]] + rest else rest
  }

  /** A list the comparison bar can hold. */
  predicate ValidList(list: seq<Product>) {
    |list| <= MaxCompared && UniqueIds(list)
  }

  /** The list after `handleCompare(product)`. */
  function Toggled(list: seq<Product>, product: Product): (r: seq<Product>)
    ensures HasId(list, product.id) ==> r == WithoutId(list, product.id)
    ensures !HasId(list, product.id) && |list| < MaxCompared ==> r == list + [product]
    ensures !HasId(list, product.id) && |list| >= MaxCompared ==> r == list
  {
    if HasId(list, product.id) then WithoutId(list, product.id)
    else if |list| < MaxCompared then list + [product]
    else list
  }

  /** Whether `handleCompare(product)` raises the "at most 3" alert. */
  predicate Alerts(list: seq<Product>, product: Product) {
    !HasId(list, product.id) && |list| >= MaxCompared
  }

  /** Dropping entries keeps ids unique. */
  lemma {:induction false} WithoutIdKeepsUnique(list: seq<Product>, id: int)
    requires UniqueIds(list)
    ensures UniqueIds(WithoutId(list, id)) && |WithoutId(list, id)| <= |list|
  {
    if list != [] {
      WithoutIdKeepsUnique(list[1..], id);
      var rest := WithoutId(list[1..], id);
      if list[0].id != id {
        var r := [list[0]] + rest;
        forall i, j | 0 <= i < j < |r| ensures r[i].id != r[j].id {
          if i == 0 {
            assert r[j] in rest;
            assert r[j] in list[1..];
          }
        }
      }
    }
  }

  /** Every comparison keeps the list within three entries and free of repeated ids. */
  lemma ToggledValid(list: seq<Product>, product: Product)
    requires ValidList(list)
    ensures ValidList(Toggled(list, product))
  {
    if HasId(list, product.id) {
      WithoutIdKeepsUnique(list, product.id);
    }
  }

  /** Comparing a product that was added takes it out again. */
  lemma ToggleTwice(list: seq<Product>, product: Product)
    requires !HasId(list, product.id) && |list| < MaxCompared
    ensures Toggled(Toggled(list, product), product) == list
  {
    var added := list + [product];
    assert HasId(added, product.id) by { assert added[|list|].id == product.id; }
    WithoutIdAppend(list, product);
  }

  /** Removing the id of an appended product that was not there before removes exactly it. */
  lemma {:induction false} WithoutIdAppend(list: seq<Product>, product: Product)
    requires !HasId(list, product.id)
    ensures WithoutId(list + [product], product.id) == list
  {
    if list == [] {
      assert [] + [product] == [product];
    } else {
      assert (list + [product])[1..] == list[1..] + [product];
      assert list[0].id != product.id;
      forall i | 0 <= i < |list[1..]| ensures list[1..][i].id != product.id {
        assert list[1..][i] == list[i + 1];
      }
      WithoutIdAppend(list[1..], product);
      assert list == [list[0]] + list[1..];
    }
  }

  /** The comparison list of the shop. */
  class CompareList {
    var items: seq<Product>

    predicate Valid()
      reads this
    {
      ValidList(items)
    }

    constructor()
      ensures items == [] && Valid()
    {
      items := [];
    }

    /** `handleCompare(product)`; `alerted` says whether the "at most 3" alert is raised. */
    method Compare(product: Product) returns (alerted: bool)
      requires Valid()
      modifies this
      ensures Valid()
      ensures items == Toggled(old(items), product)
      ensures alerted <==> Alerts(old(items), product)
    {
      ToggledValid(items, product);
      alerted := Alerts(items, product);
      items := Toggled(items, product);
    }

    /** `handleRemoveFromCompare(productId)` */
    method Remove(productId: int)
      requires Valid()
      modifies this
      ensures Valid()
      ensures items == WithoutId(old(items), productId)
    {
      WithoutIdKeepsUnique(items, productId);
      items := WithoutId(items, productId);
    }

    /** `handleClearCompare` */
    method Clear()
      modifies this
      ensures items == [] && Valid()
    {
      items := [];
    }
  }
}
