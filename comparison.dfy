/**
 * The comparison table: three fixed rows (category, price, description)
 * and one row per feature key found among the compared products. A key is
 * the trimmed text before a feature's first ':'; a cell shows the text
 * between the first and second ':' of the first feature that starts with the
 * key, or '❌' when there is none.
 */
module Comparison {
  import opened Wrappers
  import opened Text
  import opened Types
  import opened Seqs

  /** `f.split(':')[0].trim()` */
  function FeatureKey(f: string): (k: string)
    ensures ':' !in f ==> k == Trim(f)
    ensures ':' in f ==> k == Trim(f[..FirstIndexOf(f, ':').value])
  {
    SplitHead(f, ':');
    Trim(Split(f, ':')[0])
  }

  /** The keys of a list of features, in order. */
  function KeysOf(features: seq<string>): seq<string> {
    seq(|features|, i requires 0 <= i < |features| => FeatureKey(features[i]))
  }

  /** `products.flatMap(p => p.features.map(FeatureKey))` */
  function AllKeys(ps: seq<Product>): seq<string> {
    if ps == [] then [] else KeysOf(ps[0].features) + AllKeys(ps[1..])
  }

  /** Every key in the list is the key of some feature of some product. */
  lemma KeyHasFeature(ps: seq<Product>, k: string) returns (i: nat, j: nat)
    requires k in AllKeys(ps)
    ensures i < |ps| && j < |ps[i].features| && k == FeatureKey(ps[i].features[j])
  {
    i := KeyFromProduct(ps, k);
    j := KeyOfFeature(ps[i].features, k);
  }

  /** A key in the list comes from the feature keys of one product. */
  lemma {:induction false} KeyFromProduct(ps: seq<Product>, k: string) returns (i: nat)
    requires k in AllKeys(ps)
    ensures i < |ps| && k in KeysOf(ps[i].features)
    decreases |ps|, 1
  {
    if k in KeysOf(ps[0].features) {
      i := 0;
    } else {
      i := KeyFromLaterProduct(ps, k);
    }
  }

  /** A key not among the first product's comes from a later product. */
  lemma {:induction false} KeyFromLaterProduct(ps: seq<Product>, k: string) returns (i: nat)
    requires ps != [] && k in AllKeys(ps[1..])
    ensures 0 < i < |ps| && k in KeysOf(ps[i].features)
    decreases |ps|, 0
  {
    var i' := KeyFromProduct(ps[1..], k);
    var features := ps[1..][i'].features;
    assert features == ps[i' + 1].features;
    i := i' + 1;
  }

  /** A key of a feature list is the key of one of its features. */
  lemma KeyOfFeature(features: seq<string>, k: string) returns (j: nat)
    requires k in KeysOf(features)
    ensures j < |features| && k == FeatureKey(features[j])
  {
    var keys := KeysOf(features);
    j :| 0 <= j < |keys| && keys[j] == k;
  }

  /** The key of every feature of every product is in the list. */
  lemma {:induction false} FeatureKeyListed(ps: seq<Product>, i: nat, j: nat)
    requires i < |ps| && j < |ps[i].features|
    ensures FeatureKey(ps[i].features[j]) in AllKeys(ps)
  {
    if i == 0 {
      assert KeysOf(ps[0].features)[j] == FeatureKey(ps[i].features[j]);
    } else {
      assert ps[1..][i - 1] == ps[i];
      FeatureKeyListed(ps[1..], i - 1, j);
    }
  }

  /** The row keys: every key once, in the order keys first appear across products, then features. */
  function DynamicKeys(ps: seq<Product>): (keys: seq<string>)
    ensures Distinct(keys)
    ensures forall k :: k in keys <==> k in AllKeys(ps)
    ensures forall a, b :: 0 <= a < b < |keys| ==> FirstIndex(AllKeys(ps), keys[a]) < FirstIndex(AllKeys(ps), keys[b])
  {
    var keys := Dedup(AllKeys(ps));
    DedupMembers(AllKeys(ps));
    keys
  }

  /** Every row key comes from a feature of a compared product, so products without features add none. */
  lemma KeysComeFromFeatures(ps: seq<Product>, k: string)
    requires k in DynamicKeys(ps)
    ensures exists i, j :: 0 <= i < |ps| && 0 <= j < |ps[i].features| && k == FeatureKey(ps[i].features[j])
  {
    var i, j := KeyHasFeature(ps, k);
  }

  /** Every feature of a compared product has its row. */
  lemma EveryFeatureHasRow(ps: seq<Product>, i: nat, j: nat)
    requires i < |ps| && j < |ps[i].features|
    ensures FeatureKey(ps[i].features[j]) in DynamicKeys(ps)
  {
    FeatureKeyListed(ps, i, j);
  }

  /** One cell of a feature row. */
  datatype Cell =
    | Value(text: string)   // shown in green
    | Missing               // '❌', shown in red
    | RenderError           // `split(':')[1]` is undefined and `.trim()` throws

  /** `features.find(f => f.startsWith(key))`, as a position. */
  function FindFeature(features: seq<string>, key: string): (r: Option<nat>)
    ensures r.Some? ==> r.value < |features| && StartsWith(features[r.value], key)
    ensures r.Some? ==> forall j :: 0 <= j < r.value ==> !StartsWith(features[j], key)
    ensures r.None? ==> forall j :: 0 <= j < |features| ==> !StartsWith(features[j], key)
  {
    if features == [] then None
    else if StartsWith(features[0], key) then Some(0)
    else
      var rest := FindFeature(features[1..], key);
      if rest.None? then None else Some(rest.value + 1)
  }

  /**
   * The cell of product `p` in the row `key`: from the first feature that
   * starts with the key (a prefix match, so "Sabor" also finds
   * "Sabores: ..."), the trimmed text between its first and second ':';
   * '❌' when no feature starts with the key or the one found is empty.
   */
  function FeatureCell(p: Product, key: string): (c: Cell)
    ensures c == Missing <==>
      FindFeature(p.features, key).None? || p.features[FindFeature(p.features, key).value] == []
    ensures c == RenderError <==>
      FindFeature(p.features, key).Some? && p.features[FindFeature(p.features, key).value] != [] &&
      ':' !in p.features[FindFeature(p.features, key).value]
    ensures c.Value? ==>
      var f := p.features[FindFeature(p.features, key).value];
      var i := FirstIndexOf(f, ':').value;
      c.text == Trim(Split(f[i + 1..], ':')[0])
  {
    match FindFeature(p.features, key)
    case None => Missing
    case Some(k) =>
      var f := p.features[k];
      if f == [] then Missing
      else
        SplitSecond(f, ':');
        match Nth(Split(f, ':'), 1)
        case None => RenderError
        case Some(v) => Value(Trim(v))
  }

  /** A feature without ':' whose text is already trimmed is the key of its own row and breaks that row. */
  lemma ColonlessFeatureBreaksRow(p: Product)
    requires |p.features| >= 1
    requires var f := p.features[0]; f != [] && ':' !in f && !IsSpace(f[0]) && !IsSpace(f[|f| - 1])
    ensures FeatureKey(p.features[0]) == p.features[0]
    ensures FeatureCell(p, FeatureKey(p.features[0])) == RenderError
  {
    var f := p.features[0];
    TrimOfTrimmed(f);
    assert f[..|f|] == f;
    assert StartsWith(f, f);
  }

  /** The fixed rows. */
  datatype StaticField = CategoryField | PriceField | DescriptionField

  const StaticFields: seq<StaticField> := [CategoryField, PriceField, DescriptionField]

  /** `String(product[field] || 'N/A')` */
  function StaticCell(p: Product, field: StaticField): (s: string)
    ensures s != []
    ensures s == "N/A" || s == (match field case CategoryField => p.category case PriceField => p.price case DescriptionField => p.description)
  {
    var v := match field case CategoryField => p.category case PriceField => p.price case DescriptionField => p.description;
    if v == [] then "N/A" else v
  }

  /** A fixed row: one cell per product. */
  function StaticRow(ps: seq<Product>, field: StaticField): (row: seq<string>)
    ensures |row| == |ps|
    ensures forall c :: 0 <= c < |ps| ==> row[c] == StaticCell(ps[c], field)
  {
    seq(|ps|, c requires 0 <= c < |ps| => StaticCell(ps[c], field))
  }

  /** A feature row: one cell per product. */
  function FeatureRow(ps: seq<Product>, key: string): (row: seq<Cell>)
    ensures |row| == |ps|
    ensures forall c :: 0 <= c < |ps| ==> row[c] == FeatureCell(ps[c], key)
  {
    seq(|ps|, c requires 0 <= c < |ps| => FeatureCell(ps[c], key))
  }

  /** The table: row keys, the fixed rows, then one feature row per key. */
  datatype Table = Table(staticRows: seq<seq<string>>, keys: seq<string>, featureRows: seq<seq<Cell>>)

  function BuildTable(ps: seq<Product>): (t: Table)
    ensures t.keys == DynamicKeys(ps)
    ensures |t.staticRows| == |StaticFields|
    ensures forall r :: 0 <= r < |StaticFields| ==> t.staticRows[r] == StaticRow(ps, StaticFields[r])
    ensures |t.featureRows| == |t.keys|
    ensures forall r :: 0 <= r < |t.keys| ==> t.featureRows[r] == FeatureRow(ps, t.keys[r])
  {
    var keys := DynamicKeys(ps);
    Table(
      seq(|StaticFields|, r requires 0 <= r < |StaticFields| => StaticRow(ps, StaticFields[r])),
      keys,
      seq(|keys|, r requires 0 <= r < |keys| => FeatureRow(ps, keys[r])))
  }

  /** The table renders when no cell throws. */
  predicate Renders(t: Table) {
    forall r, c :: 0 <= r < |t.featureRows| && 0 <= c < |t.featureRows[r]| ==> t.featureRows[r][c] != RenderError
  }

  /** When every feature holds a ':', the table renders. */
  lemma TableRendersWithColons(ps: seq<Product>)
    requires forall i, j :: 0 <= i < |ps| && 0 <= j < |ps[i].features| ==> ':' in ps[i].features[j]
    ensures Renders(BuildTable(ps))
  {
  }
}
