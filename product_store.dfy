/**
 * The product collection of the document store, as the product service
 * uses it: documents keyed by the decimal text of the product id, a
 * "seeded" marker, a listing sorted by id, saving (update or create with the
 * next id) and deletion. Uploading an image is a parameter: the URL it
 * produced, if a file was chosen.
 */
module ProductStore {
  import opened Wrappers
  import opened Text
  import opened Types
  import opened Seqs

  /**
   * Documents are keyed by `String(id)` and listed with `parseInt` of the
   * key. The decimal text reads back as the id and distinct ids give
   * distinct keys, so the collection is modelled as a map from ids.
   */
  lemma KeyRoundTrip(a: int, b: int)
    ensures ParseInt(IntToString(a)) == Some(a)
    ensures IntToString(a) == IntToString(b) ==> a == b
  {
    ParseIntOfIntToString(a);
    ParseIntOfIntToString(b);
  }

  /** `{ ...doc.data(), id: parseInt(doc.id) }`: the stored fields with the id read from the key. */
  function Entry(id: int, doc: Product): (p: Product)
    ensures p.id == id && p == doc.(id := id)
  {
    doc.(id := id)
  }

  /** Strictly increasing ids. */
  predicate SortedById(ps: seq<Product>) {
    forall i, j :: 0 <= i < j < |ps| ==> ps[i].id < ps[j].id
  }

  /** `p` placed before the first product with a larger id. */
  function InsertById(p: Product, ps: seq<Product>): (r: seq<Product>)
    ensures |r| == |ps| + 1
    ensures forall i :: 0 <= i < |r| ==> r[i] == p || r[i] in ps
    ensures p in r && forall i :: 0 <= i < |ps| ==> ps[i] in r
    ensures r[0] == p || (ps != [] && r[0] == ps[0])
  {
    if ps == [] || p.id <= ps[0].id then [p] + ps
    else [ps[0]] + InsertById(p, ps[1..])
  }

  lemma {:induction false} InsertByIdSorted(p: Product, ps: seq<Product>)
    requires SortedById(ps) && forall i :: 0 <= i < |ps| ==> ps[i].id != p.id
    ensures SortedById(InsertById(p, ps))
  {
    if ps != [] && p.id > ps[0].id {
      InsertByIdSorted(p, ps[1..]);
      var rest := InsertById(p, ps[1..]);
      assert InsertById(p, ps) == [ps[0]] + rest;
      assert rest[0].id > ps[0].id;
    }
  }

  /** The batch of a seeding: every initial product written under its key, later ones over earlier ones. */
  function SeedDocs(docs: map<int, Product>, initial: seq<Product>): (r: map<int, Product>)
    ensures r.Keys == docs.Keys + set i | 0 <= i < |initial| :: initial[i].id
  {
    if initial == [] then docs
    else
      var n := |initial| - 1;
      var r := SeedDocs(docs, initial[..n])[initial[n].id := initial[n]];
      assert (set i | 0 <= i < |initial| :: initial[i].id) ==
        (set i | 0 <= i < n :: initial[..n][i].id) + {initial[n].id};
      r
  }

  /** With distinct ids, each initial product is stored as it is under its own key. */
  lemma {:induction false} SeedDocsStores(docs: map<int, Product>, initial: seq<Product>)
    requires UniqueIds(initial)
    ensures forall i :: 0 <= i < |initial| ==> SeedDocs(docs, initial)[initial[i].id] == initial[i]
  {
    if initial != [] {
      var n := |initial| - 1;
      assert UniqueIds(initial[..n]);
      SeedDocsStores(docs, initial[..n]);
      assert forall i :: 0 <= i < n ==> initial[..n][i] == initial[i];
    }
  }

  /** `updateDoc` with the product's fields: an absent review list leaves the stored one in place. */
  function Updated(stored: Product, p: Product): (r: Product)
    ensures p.reviews.Some? ==> r == p
    ensures p.reviews.None? ==> r == p.(reviews := stored.reviews)
  {
    if p.reviews.Some? then p else p.(reviews := stored.reviews)
  }

  /** The largest id listed, or 0: `reduce((max, p) => p.id > max ? p.id : max, 0)`. */
  function MaxId(ps: seq<Product>): (m: int)
    ensures m >= 0 && forall i :: 0 <= i < |ps| ==> ps[i].id <= m
    ensures m == 0 || exists i :: 0 <= i < |ps| && ps[i].id == m
  {
    if ps == [] then 0
    else
      var m := MaxId(ps[..|ps| - 1]);
      assert forall i :: 0 <= i < |ps| - 1 ==> ps[..|ps| - 1][i] == ps[i];
      if ps[|ps| - 1].id > m then ps[|ps| - 1].id else m
  }

  /** `keys` lists each key of the collection exactly once: the order in which `getDocs` returns the documents. */
  ghost predicate Enumerates(keys: seq<int>, docs: map<int, Product>) {
    Distinct(keys) && forall id :: id in keys <==> id in docs
  }

  /** What a save did: the id whose document was written, or an update that failed because the document does not exist. */
  datatype SaveResult = Written(id: int) | NoDocument

  class Store {
    /** The `products` collection, by the id its key encodes. */
    var docs: map<int, Product>
    /** Whether the `products_meta/seeded` marker exists. */
    var seeded: bool

    constructor(initialDocs: map<int, Product>, marker: bool)
      ensures docs == initialDocs && seeded == marker
    {
      docs := initialDocs;
      seeded := marker;
    }

    /**
     * `seedProducts`: nothing when the marker exists; otherwise every
     * initial product and the marker are written in one batch.
     */
    method Seed(initial: seq<Product>)
      modifies this
      ensures seeded
      ensures old(seeded) ==> docs == old(docs)
      ensures !old(seeded) ==> docs == SeedDocs(old(docs), initial)
    {
      if seeded {
        return;
      }
      var batch := docs;
      var i := 0;
      while i < |initial|
        invariant 0 <= i <= |initial|
        invariant batch == SeedDocs(docs, initial[..i])
      {
        assert initial[..i + 1][..i] == initial[..i];
        batch := batch[initial[i].id := initial[i]];
        i := i + 1;
      }
      assert initial[..i] == initial;
      docs := batch;
      seeded := true;
    }

    /**
     * `getProducts`: one product per document, with the id its key
     * encodes, in increasing id order. The store hands the documents over
     * in an order of its own, `keys`.
     */
    method List(keys: seq<int>) returns (ps: seq<Product>)
      requires Enumerates(keys, docs)
      ensures SortedById(ps)
      ensures forall id :: id in docs ==> Entry(id, docs[id]) in ps
      ensures forall i :: 0 <= i < |ps| ==> ps[i].id in docs && ps[i] == Entry(ps[i].id, docs[ps[i].id])
    {
      ps := [];
      var i := 0;
      while i < |keys|
        invariant 0 <= i <= |keys|
        invariant SortedById(ps)
        invariant forall j :: 0 <= j < i ==> Entry(keys[j], docs[keys[j]]) in ps
        invariant forall k :: 0 <= k < |ps| ==>
          ps[k].id in keys[..i] && ps[k] == Entry(ps[k].id, docs[ps[k].id])
      {
        var p := Entry(keys[i], docs[keys[i]]);
        assert keys[i] !in keys[..i];
        InsertByIdSorted(p, ps);
        ps := InsertById(p, ps);
        assert keys[..i + 1] == keys[..i] + [keys[i]];
        i := i + 1;
      }
    }

    /**
     * `saveProduct`. The image URL is the uploaded one when a file was
     * chosen. A non-zero id updates that product's document, which must
     * exist; id 0 creates a document under the next id after the largest
     * listed one (1 for an empty collection), an id no document has.
     */
    method Save(product: Product, uploadedUrl: Option<string>, keys: seq<int>) returns (result: SaveResult)
      requires Enumerates(keys, docs)
      modifies this
      ensures seeded == old(seeded)
      ensures var data := product.(imageUrl := uploadedUrl.GetOr(product.imageUrl));
        if product.id != 0 then
          (product.id in old(docs) ==>
            result == Written(product.id) &&
            docs == old(docs)[product.id := Updated(old(docs)[product.id], data)]) &&
          (product.id !in old(docs) ==> result == NoDocument && docs == old(docs))
        else
          result.Written? && result.id !in old(docs) && result.id > 0 &&
          (forall id :: id in old(docs) ==> id < result.id) &&
          (result.id == 1 || result.id - 1 in old(docs)) &&
          docs == old(docs)[result.id := data.(id := result.id)]
    {
      var data := product.(imageUrl := uploadedUrl.GetOr(product.imageUrl));
      if product.id != 0 {
        if product.id !in docs {
          return NoDocument;
        }
        docs := docs[product.id := Updated(docs[product.id], data)];
        return Written(product.id);
      }
      var all := List(keys);
      var newId := MaxId(all) + 1;
      forall id | id in docs ensures id < newId {
        assert Entry(id, docs[id]) in all;
      }
      if MaxId(all) != 0 {
        var k :| 0 <= k < |all| && all[k].id == MaxId(all);
        assert all[k].id in docs;
      }
      docs := docs[newId := data.(id := newId)];
      result := Written(newId);
    }

    /** `updateProduct`: the product's document takes its fields. */
    method Update(product: Product) returns (result: SaveResult)
      modifies this
      ensures seeded == old(seeded)
      ensures product.id in old(docs) ==>
        result == Written(product.id) &&
        docs == old(docs)[product.id := Updated(old(docs)[product.id], product)]
      ensures product.id !in old(docs) ==> result == NoDocument && docs == old(docs)
    {
      if product.id !in docs {
        return NoDocument;
      }
      docs := docs[product.id := Updated(docs[product.id], product)];
      result := Written(product.id);
    }

    /** `deleteProduct`: exactly the product's document goes. */
    method Delete(productId: int)
      modifies this
      ensures seeded == old(seeded)
      ensures docs == old(docs) - {productId}
    {
      docs := docs - {productId};
    }
  }

  /** Seeding an unseeded store twice gives the store one seeding gives. */
  method SeedTwice(store: Store, initial: seq<Product>)
    requires !store.seeded
    modifies store
    ensures store.docs == SeedDocs(old(store.docs), initial) && store.seeded
  {
    store.Seed(initial);
    store.Seed(initial);
  }

  /** After seeding an empty collection with distinct ids, each initial product is listed as it is. */
  lemma SeededListing(initial: seq<Product>)
    requires UniqueIds(initial)
    ensures var docs := SeedDocs(map[], initial);
      docs.Keys == (set i | 0 <= i < |initial| :: initial[i].id) &&
      forall i :: 0 <= i < |initial| ==> Entry(initial[i].id, docs[initial[i].id]) == initial[i]
  {
    SeedDocsStores(map[], initial);
  }
}
