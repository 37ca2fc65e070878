/** The low-stock flag of the inventory_alerts add-on: a product template is
    low on stock when a positive minimum is configured and the quantity on
    hand is strictly below it. The flag is both computed per record and
    searchable. */
module StockAlerts {

  type Id = nat

  /** The low-stock condition. A minimum of zero or less (the default is 0.0)
      switches alerting off, and a quantity equal to the minimum is not low. */
  predicate IsLowStock(minimalStock: real, qtyAvailable: real)
  {
    minimalStock > 0.0 && qtyAvailable < minimalStock
  }

  /** The boundaries of the condition: with a minimum of zero or less no
      quantity is low, and the comparison with the minimum is strict. */
  lemma LowStockBoundaries(minimalStock: real, qtyAvailable: real)
    ensures minimalStock <= 0.0 ==> !IsLowStock(minimalStock, qtyAvailable)
    ensures !IsLowStock(minimalStock, minimalStock)
    ensures minimalStock > 0.0 ==> (IsLowStock(minimalStock, qtyAvailable) <==> qtyAvailable < minimalStock)
  {
  }

  /** A `product.template` record: the quantity on hand is computed by the
      platform and is an input here; the flag is the computed field. */
  class ProductTemplate {
    const id: Id
    var minimalStock: real
    var qtyAvailable: real
    var isLowStock: bool

    constructor (id: Id, qtyAvailable: real)
      ensures this.id == id && this.qtyAvailable == qtyAvailable
      ensures minimalStock == 0.0 && !isLowStock
    {
      this.id := id;
      this.qtyAvailable := qtyAvailable;
      minimalStock := 0.0;
      isLowStock := false;
    }
  }

  /** `_compute_is_low_stock`: each record's flag is set from that record's
      own minimum and quantity; nothing else is written. */
  method ComputeIsLowStock(records: seq<ProductTemplate>)
    modifies (set r | r in records)`isLowStock
    ensures forall r :: r in records ==> r.isLowStock == IsLowStock(r.minimalStock, r.qtyAvailable)
  {
    var i := 0;
    while i < |records|
      invariant 0 <= i <= |records|
      invariant forall r :: r in records[..i] ==> r.isLowStock == IsLowStock(r.minimalStock, r.qtyAvailable)
    {
      var record := records[i];
      if record.minimalStock > 0.0 && record.qtyAvailable < record.minimalStock {
        record.isLowStock := true;
      } else {
        record.isLowStock := false;
      }
      assert records[..i + 1] == records[..i] + [record];
      i := i + 1;
    }
  }

  /** A search domain on product templates: the empty domain (no
      restriction) or `[('id', 'in', ids)]`. */
  datatype Domain = NoRestriction | IdIn(ids: seq<Id>)

  predicate Selects(d: Domain, p: ProductTemplate)
  {
    match d
    case NoRestriction => true
    case IdIn(ids) => p.id in ids
  }

  /** `search([('minimal_stock', '>', 0)])`. */
  function WithPositiveMinimum(products: seq<ProductTemplate>): (s: seq<ProductTemplate>)
    reads products
    ensures forall i :: 0 <= i < |s| ==> s[i] in products && s[i].minimalStock > 0.0
    ensures forall i :: 0 <= i < |products| && products[i].minimalStock > 0.0 ==> products[i] in s
  {
    if products == [] then []
    else (if products[0].minimalStock > 0.0 then [products[0]] else []) + WithPositiveMinimum(products[1..])
  }

  /** `filtered(lambda p: p.qty_available < p.minimal_stock)`. */
  function BelowMinimum(products: seq<ProductTemplate>): (s: seq<ProductTemplate>)
    reads products
    ensures forall i :: 0 <= i < |s| ==> s[i] in products && s[i].qtyAvailable < s[i].minimalStock
    ensures forall i :: 0 <= i < |products| && products[i].qtyAvailable < products[i].minimalStock ==> products[i] in s
  {
    if products == [] then []
    else (if products[0].qtyAvailable < products[0].minimalStock then [products[0]] else []) + BelowMinimum(products[1..])
  }

  /** `.ids` of a recordset. */
  function Ids(products: seq<ProductTemplate>): (ids: seq<Id>)
    ensures |ids| == |products|
    ensures forall i :: 0 <= i < |products| ==> ids[i] == products[i].id
  {
    if products == [] then [] else [products[0].id] + Ids(products[1..])
  }

  /** The ids the positive-minimum search followed by the below-minimum
      filter yields are exactly those of the low-stock products. */
  lemma LowStockIds(products: seq<ProductTemplate>)
    ensures forall id :: id in Ids(BelowMinimum(WithPositiveMinimum(products))) <==>
      exists i :: 0 <= i < |products| && products[i].id == id && IsLowStock(products[i].minimalStock, products[i].qtyAvailable)
  {
    var positive := WithPositiveMinimum(products);
    var alerts := BelowMinimum(positive);
    var ids := Ids(alerts);
    forall id | id in ids
      ensures exists i :: 0 <= i < |products| && products[i].id == id && IsLowStock(products[i].minimalStock, products[i].qtyAvailable)
    {
      var k :| 0 <= k < |ids| && ids[k] == id;
      var j :| 0 <= j < |positive| && positive[j] == alerts[k];
      var i :| 0 <= i < |products| && products[i] == positive[j];
      assert products[i].id == id && IsLowStock(products[i].minimalStock, products[i].qtyAvailable);
    }
    forall i | 0 <= i < |products| && IsLowStock(products[i].minimalStock, products[i].qtyAvailable)
      ensures products[i].id in ids
    {
      assert products[i] in positive;
      var j :| 0 <= j < |positive| && positive[j] == products[i];
      assert products[i] in alerts;
      var k :| 0 <= k < |alerts| && alerts[k] == products[i];
      assert ids[k] == products[i].id;
    }
  }

  /** `_search_is_low_stock(operator, value)` over the product table
      `products`: only `= <truthy>` restricts the search, to the ids of the
      low-stock products; every other operator or value yields the empty
      domain. */
  function SearchIsLowStock(products: seq<ProductTemplate>, operator: string, value: bool): (d: Domain)
    reads products
    ensures operator == "=" && value ==>
      d.IdIn? && forall id :: id in d.ids <==>
        exists i :: 0 <= i < |products| && products[i].id == id && IsLowStock(products[i].minimalStock, products[i].qtyAvailable)
    ensures !(operator == "=" && value) ==> d == NoRestriction
  {
    if operator == "=" && value then
      LowStockIds(products);
      IdIn(Ids(BelowMinimum(WithPositiveMinimum(products))))
    else NoRestriction
  }

  /** The search filter agrees with the computed field: once the flags are
      computed and record ids are distinct, searching `is_low_stock = True`
      selects exactly the records whose flag is set. */
  lemma SearchAgreesWithCompute(products: seq<ProductTemplate>)
    requires forall p, q :: p in products && q in products && p.id == q.id ==> p == q
    requires forall p :: p in products ==> p.isLowStock == IsLowStock(p.minimalStock, p.qtyAvailable)
    ensures forall p :: p in products ==> (Selects(SearchIsLowStock(products, "=", true), p) <==> p.isLowStock)
  {
    var d := SearchIsLowStock(products, "=", true);
    forall p | p in products
      ensures Selects(d, p) <==> p.isLowStock
    {
      if Selects(d, p) {
        var q :| q in products && q.id == p.id && IsLowStock(q.minimalStock, q.qtyAvailable);
      }
    }
  }

  /** Any other search on the flag, `is_low_stock = False` included, places
      no restriction: it selects every record, low-stock ones too. */
  lemma OtherSearchesSelectAll(products: seq<ProductTemplate>, operator: string, value: bool, p: ProductTemplate)
    requires operator != "=" || !value
    ensures Selects(SearchIsLowStock(products, operator, value), p)
  {
  }
}
