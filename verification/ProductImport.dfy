/** The catalog side of a product import: upserts of categories by name and of products by SKU. */
module ProductImport {
  import opened Ledger
  import opened ProductCsv

  datatype Product = Product(name: Text, description: Option<Text>, category: Id, isActive: bool)

  datatype Catalog = Catalog(categories: map<Text, Id>, products: map<Text, Product>)

  predicate UsesCategory(rows: seq<ValidRow>, name: Text) {
    exists k :: 0 <= k < |rows| && rows[k].fields.category == name
  }

  function Written(fields: Fields, category: Id): Product {
    Product(fields.name, fields.description, category, fields.isActive)
  }

  /** Category ids identify categories. */
  predicate IdsDiffer(categories: map<Text, Id>) {
    forall a, b :: a in categories && b in categories && categories[a] == categories[b] ==> a == b
  }

  /** What importing `rows` may leave behind; the ids of new categories are free. Nothing here speaks of an order. */
  predicate Imported(before: Catalog, rows: seq<ValidRow>, after: Catalog) {
    && (forall name :: name in after.categories ==> name in before.categories || UsesCategory(rows, name))
    && (forall name :: name in before.categories ==>
        name in after.categories && after.categories[name] == before.categories[name])
    && (IdsDiffer(before.categories) ==> IdsDiffer(after.categories))
    && (forall sku :: sku in after.products ==> sku in before.products || HasSku(rows, sku))
    && (forall sku :: sku in before.products ==>
          sku in after.products && (!HasSku(rows, sku) ==> after.products[sku] == before.products[sku]))
    && (forall k :: 0 <= k < |rows| ==>
          var fields := rows[k].fields;
          && fields.category in after.categories && fields.sku in after.products
          && after.products[fields.sku] == Written(fields, after.categories[fields.category]))
  }

  // ---------------------------------------------------------------- the upserts

  /** The categories of the rows, each once, in order of first use. */
  method UniqueCategories(rows: seq<ValidRow>) returns (names: seq<Text>)
    ensures forall name :: name in names <==> UsesCategory(rows, name)
    ensures forall i, j :: 0 <= i < j < |names| ==> names[i] != names[j]
  {
    names := [];
    for k := 0 to |rows|
      invariant forall name :: name in names <==> UsesCategory(rows[..k], name)
      invariant forall i, j :: 0 <= i < j < |names| ==> names[i] != names[j]
    {
      UsesOneMore(rows, k);
      if rows[k].fields.category !in names {
        names := names + [rows[k].fields.category];
      }
    }
    assert rows[..|rows|] == rows;
  }

  lemma UsesOneMore(rows: seq<ValidRow>, k: nat)
    requires k < |rows|
    ensures forall name ::
              UsesCategory(rows[..k + 1], name) <==> UsesCategory(rows[..k], name) || rows[k].fields.category == name
    ensures forall sku :: HasSku(rows[..k + 1], sku) <==> HasSku(rows[..k], sku) || rows[k].fields.sku == sku
  {
    var front, more := rows[..k], rows[..k + 1];
    assert more == front + [rows[k]];
    forall name ensures UsesCategory(more, name) <==> UsesCategory(front, name) || rows[k].fields.category == name {
      if UsesCategory(front, name) {
        var j :| 0 <= j < |front| && front[j].fields.category == name;
        assert more[j].fields.category == name;
      }
      assert more[k] == rows[k];
    }
    forall sku ensures HasSku(more, sku) <==> HasSku(front, sku) || rows[k].fields.sku == sku {
      if HasSku(front, sku) {
        var j :| 0 <= j < |front| && front[j].fields.sku == sku;
        assert more[j].fields.sku == sku;
      }
      assert more[k] == rows[k];
    }
  }

  class Tables {
    var catalog: Catalog

    constructor (catalog: Catalog)
      ensures this.catalog == catalog
    {
      this.catalog := catalog;
    }

    /** Upsert with an empty update: an existing category keeps its id. */
    method UpsertCategory(name: Text) returns (id: Id)
      modifies this
      ensures catalog.products == old(catalog).products
      ensures name in catalog.categories && catalog.categories[name] == id
      ensures catalog.categories == old(catalog).categories[name := id]
      ensures name in old(catalog).categories ==> catalog == old(catalog)
      ensures IdsDiffer(old(catalog).categories) ==> IdsDiffer(catalog.categories)
    {
      if name in catalog.categories {
        id := catalog.categories[name];
        assert catalog.categories[name := id] == catalog.categories;
        return;
      }
      ghost var bound := UnusedId(catalog.categories.Values);
      assert bound !in catalog.categories.Values;
      id :| id !in catalog.categories.Values;
      catalog := catalog.(categories := catalog.categories[name := id]);
    }

    method UpsertProduct(fields: Fields, category: Id)
      modifies this
      ensures catalog == old(catalog).(products := old(catalog).products[fields.sku := Written(fields, category)])
    {
      if fields.sku in catalog.products {
        var updated := catalog.products[fields.sku].(
          name := fields.name, description := fields.description, category := category, isActive := fields.isActive);
        catalog := catalog.(products := catalog.products[fields.sku := updated]);
      } else {
        var created := Product(fields.name, fields.description, category, fields.isActive);
        catalog := catalog.(products := catalog.products[fields.sku := created]);
      }
    }

    /** First the categories, then the products; the lookup in between never misses. */
    method ImportRows(rows: seq<ValidRow>)
      requires DistinctSkus(rows)
      modifies this
      ensures Imported(old(catalog), rows, catalog)
    {
      var categoryIds := ImportCategories(rows);
      ImportProducts(rows, categoryIds);
      assert forall k :: 0 <= k < |rows| ==> UsesCategory(rows, rows[k].fields.category);
    }

    method ImportCategories(rows: seq<ValidRow>) returns (categoryIds: map<Text, Id>)
      modifies this
      ensures catalog.products == old(catalog).products
      ensures forall name :: name in catalog.categories <==> name in old(catalog).categories || UsesCategory(rows, name)
      ensures forall name :: name in old(catalog).categories ==>
                catalog.categories[name] == old(catalog).categories[name]
      ensures IdsDiffer(old(catalog).categories) ==> IdsDiffer(catalog.categories)
      ensures forall name :: UsesCategory(rows, name) ==>
                name in categoryIds && categoryIds[name] == catalog.categories[name]
    {
      var names := UniqueCategories(rows);
      categoryIds := map[];
      for n := 0 to |names|
        invariant catalog.products == old(catalog).products
        invariant forall name :: name in catalog.categories <==> name in old(catalog).categories || name in names[..n]
        invariant forall name :: name in old(catalog).categories ==>
                    catalog.categories[name] == old(catalog).categories[name]
        invariant IdsDiffer(old(catalog).categories) ==> IdsDiffer(catalog.categories)
        invariant forall name :: name in names[..n] ==>
                    name in categoryIds && categoryIds[name] == catalog.categories[name]
      {
        assert names[..n + 1] == names[..n] + [names[n]];
        var id := UpsertCategory(names[n]);
        categoryIds := categoryIds[names[n] := id];
      }
      assert names[..|names|] == names;
    }

    method ImportProducts(rows: seq<ValidRow>, categoryIds: map<Text, Id>)
      requires DistinctSkus(rows)
      requires forall name :: UsesCategory(rows, name) ==>
                 name in categoryIds && name in catalog.categories && categoryIds[name] == catalog.categories[name]
      modifies this
      ensures catalog.categories == old(catalog).categories
      ensures Upserted(old(catalog).products, rows, catalog.categories, catalog.products)
    {
      for k := 0 to |rows|
        invariant catalog.categories == old(catalog).categories
        invariant Upserted(old(catalog).products, rows[..k], catalog.categories, catalog.products)
      {
        assert UsesCategory(rows, rows[k].fields.category);
        OneMoreUpsert(old(catalog).products, rows, k, catalog.categories, catalog.products);
        UpsertProduct(rows[k].fields, categoryIds[rows[k].fields.category]);
      }
      assert rows[..|rows|] == rows;
    }
  }

  /** The products after upserting `rows`, given the category ids. */
  ghost predicate Upserted(before: map<Text, Product>, rows: seq<ValidRow>, categories: map<Text, Id>,
                            after: map<Text, Product>) {
    && (forall sku :: sku in after <==> sku in before || HasSku(rows, sku))
    && (forall sku :: sku in before && !HasSku(rows, sku) ==> after[sku] == before[sku])
    && (forall k :: 0 <= k < |rows| ==>
          rows[k].fields.category in categories && rows[k].fields.sku in after
          && after[rows[k].fields.sku] == Written(rows[k].fields, categories[rows[k].fields.category]))
  }

  lemma OneMoreUpsert(before: map<Text, Product>, rows: seq<ValidRow>, k: nat, categories: map<Text, Id>,
                      after: map<Text, Product>)
    requires DistinctSkus(rows) && k < |rows| && rows[k].fields.category in categories
    requires Upserted(before, rows[..k], categories, after)
    ensures Upserted(before, rows[..k + 1], categories,
                     after[rows[k].fields.sku := Written(rows[k].fields, categories[rows[k].fields.category])])
  {
    UsesOneMore(rows, k);
    var more := rows[..k + 1];
    forall j | 0 <= j < |more| ensures more[j] == rows[j] && (j < k ==> rows[..k][j] == rows[j]) {
    }
  }

  // ---------------------------------------------------------------- laws

  /** The order of the rows does not matter: both orders have the same possible results. */
  lemma AnyOrder(before: Catalog, rows: seq<ValidRow>, shuffled: seq<ValidRow>, after: Catalog)
    requires multiset(rows) == multiset(shuffled) && Imported(before, rows, after)
    ensures Imported(before, shuffled, after)
  {
    SameRows(rows, shuffled);
    forall k | 0 <= k < |shuffled|
      ensures var fields := shuffled[k].fields;
              && fields.category in after.categories && fields.sku in after.products
              && after.products[fields.sku] == Written(fields, after.categories[fields.category])
    {
      assert shuffled[k] in multiset(shuffled);
      var j :| 0 <= j < |rows| && rows[j] == shuffled[k];
    }
  }

  lemma SameRows(rows: seq<ValidRow>, shuffled: seq<ValidRow>)
    requires multiset(rows) == multiset(shuffled)
    ensures forall name :: UsesCategory(rows, name) <==> UsesCategory(shuffled, name)
    ensures forall sku :: HasSku(rows, sku) <==> HasSku(shuffled, sku)
  {
    Includes(rows, shuffled);
    Includes(shuffled, rows);
  }

  lemma Includes(rows: seq<ValidRow>, shuffled: seq<ValidRow>)
    requires multiset(rows) == multiset(shuffled)
    ensures forall name :: UsesCategory(rows, name) ==> UsesCategory(shuffled, name)
    ensures forall sku :: HasSku(rows, sku) ==> HasSku(shuffled, sku)
  {
    forall k | 0 <= k < |rows| ensures exists j :: 0 <= j < |shuffled| && shuffled[j] == rows[k] {
      assert rows[k] in multiset(rows);
      assert rows[k] in shuffled;
    }
  }

  /** Apart from the ids of new categories there is only one result. */
  lemma OneResult(before: Catalog, rows: seq<ValidRow>, a: Catalog, b: Catalog)
    requires Imported(before, rows, a) && Imported(before, rows, b)
    requires forall name :: name in a.categories && name in b.categories && name !in before.categories ==>
               a.categories[name] == b.categories[name]
    ensures a == b
  {
    assert a.categories == b.categories;
    forall sku | sku in a.products ensures sku in b.products && a.products[sku] == b.products[sku] {
      if HasSku(rows, sku) {
        var k :| 0 <= k < |rows| && rows[k].fields.sku == sku;
      }
    }
    assert a.products == b.products;
  }

  /** Importing the same file again changes nothing. */
  lemma Idempotent(before: Catalog, rows: seq<ValidRow>, after: Catalog, again: Catalog)
    requires Imported(before, rows, after) && Imported(after, rows, again)
    ensures again == after
  {
    ImportedStays(before, rows, after);
    OneResult(after, rows, after, again);
  }

  lemma ImportedStays(before: Catalog, rows: seq<ValidRow>, after: Catalog)
    requires Imported(before, rows, after)
    ensures Imported(after, rows, after)
  {
  }

  /** A file may be split: importing two parts with no SKU in common, one after the other, is importing the whole. */
  lemma Splits(before: Catalog, first: seq<ValidRow>, middle: Catalog, second: seq<ValidRow>, after: Catalog)
    requires Imported(before, first, middle) && Imported(middle, second, after)
    requires forall k :: 0 <= k < |first| ==> !HasSku(second, first[k].fields.sku)
    ensures Imported(before, first + second, after)
  {
    var rows := first + second;
    forall name ensures UsesCategory(rows, name) <==> UsesCategory(first, name) || UsesCategory(second, name) {
      if UsesCategory(first, name) {
        var k :| 0 <= k < |first| && first[k].fields.category == name;
        assert rows[k].fields.category == name;
      }
      if UsesCategory(second, name) {
        var k :| 0 <= k < |second| && second[k].fields.category == name;
        assert rows[|first| + k].fields.category == name;
      }
    }
    forall sku ensures HasSku(rows, sku) <==> HasSku(first, sku) || HasSku(second, sku) {
      if HasSku(first, sku) {
        var k :| 0 <= k < |first| && first[k].fields.sku == sku;
        assert rows[k].fields.sku == sku;
      }
      if HasSku(second, sku) {
        var k :| 0 <= k < |second| && second[k].fields.sku == sku;
        assert rows[|first| + k].fields.sku == sku;
      }
    }
  }

  // ---------------------------------------------------------------- some result always exists

  lemma {:induction false} CategoriesExist(before: map<Text, Id>, rows: seq<ValidRow>, k: nat)
    returns (after: map<Text, Id>)
    requires k <= |rows|
    ensures forall name :: name in after <==> name in before || UsesCategory(rows[..k], name)
    ensures forall name :: name in before ==> after[name] == before[name]
    ensures IdsDiffer(before) ==> IdsDiffer(after)
  {
    if k == 0 {
      after := before;
    } else {
      after := CategoriesExist(before, rows, k - 1);
      UsesOneMore(rows, k - 1);
      if rows[k - 1].fields.category !in after {
        var id := UnusedId(after.Values);
        assert id !in after.Values;
        after := after[rows[k - 1].fields.category := id];
      }
    }
  }

  lemma {:induction false} ProductsExist(before: map<Text, Product>, rows: seq<ValidRow>, k: nat,
                                         categories: map<Text, Id>)
    returns (after: map<Text, Product>)
    requires DistinctSkus(rows) && k <= |rows|
    requires forall j :: 0 <= j < |rows| ==> rows[j].fields.category in categories
    ensures Upserted(before, rows[..k], categories, after)
  {
    if k == 0 {
      after := before;
    } else {
      var rest := ProductsExist(before, rows, k - 1, categories);
      OneMoreUpsert(before, rows, k - 1, categories, rest);
      var fields := rows[k - 1].fields;
      after := rest[fields.sku := Written(fields, categories[fields.category])];
    }
  }

  /** Any rows with distinct SKUs can be imported into any catalog. */
  lemma ImportExists(before: Catalog, rows: seq<ValidRow>) returns (after: Catalog)
    requires DistinctSkus(rows)
    ensures Imported(before, rows, after)
  {
    assert rows[..|rows|] == rows;
    var categories := CategoriesExist(before.categories, rows, |rows|);
    assert forall j :: 0 <= j < |rows| ==> UsesCategory(rows, rows[j].fields.category);
    var products := ProductsExist(before.products, rows, |rows|, categories);
    after := Catalog(categories, products);
  }
}
