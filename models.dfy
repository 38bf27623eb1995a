/** The catalog object model: products, and categories that group them while
    keeping two counters shared by every category. */
module Models {
  import opened Counters

  /** One catalog item. The constructor stores its four arguments as given;
      nothing about price or quantity is checked, so construction cannot fail. */
  class Product {
    var name: string
    var description: string
    var price: real
    var quantity: int

    constructor (name: string, description: string, price: real, quantity: int)
      ensures this.name == name && this.description == description
      ensures this.price == price && this.quantity == quantity
    {
      this.name := name;
      this.description := description;
      this.price := price;
      this.quantity := quantity;
    }
  }

  /** The counters that the source keeps as class attributes of `Category`,
      made an explicit object that every category is built against. */
  class Registry {
    var categoryCount: int
    var productCount: int

    /** The counters as one value. */
    function Counts(): Snapshot
      reads this
    {
      Snapshot(categoryCount, productCount)
    }

    /** Both counters start at zero; a test's reset is a fresh registry. */
    constructor ()
      ensures Counts() == Zero()
    {
      categoryCount := 0;
      productCount := 0;
    }
  }

  /** A named, ordered group of products. */
  class Category {
    var name: string
    var description: string
    var products: seq<Product>
    const registry: Registry

    /** Stores the three arguments, then adds one to the category count and
        the length of `products` to the product count. Nothing else changes:
        the products themselves are left as they were. */
    constructor (registry: Registry, name: string, description: string, products: seq<Product>)
      modifies registry
      ensures this.registry == registry
      ensures this.name == name && this.description == description && this.products == products
      // The same update twice: field by field, as the source writes it, and
      // as one step of `Build`, which the lemmas about runs of constructions use.
      ensures registry.categoryCount == old(registry.categoryCount) + 1
      ensures registry.productCount == old(registry.productCount) + |products|
      ensures registry.Counts() == Build(old(registry.Counts()), [|products|])
      ensures forall p | p in products :: unchanged(p)
    {
      this.name := name;
      this.description := description;
      this.products := products;
      this.registry := registry;
      new;
      registry.categoryCount := registry.categoryCount + 1;
      registry.productCount := registry.productCount + |products|;
    }
  }

  /** What one category is built from: its name, description and products. */
  datatype CategoryRecord = CategoryRecord(name: string, description: string, products: seq<Product>)

  /** The length of each record's product list, in order. */
  function Sizes(records: seq<CategoryRecord>): (r: seq<nat>)
    ensures |r| == |records|
    ensures forall i :: 0 <= i < |records| ==> r[i] == |records[i].products|
  {
    if records == [] then [] else [|records[0].products|] + Sizes(records[1..])
  }

  /** Builds one category per record, in order, against a single registry.
      The registry ends where `Build` says a run of these constructions ends,
      so `category_count` grows by the number of records and `product_count`
      by the total length of their product lists. */
  method BuildEach(registry: Registry, records: seq<CategoryRecord>) returns (categories: seq<Category>)
    modifies registry
    ensures |categories| == |records|
    ensures forall i :: 0 <= i < |records| ==>
      fresh(categories[i]) && categories[i].registry == registry &&
      categories[i].name == records[i].name &&
      categories[i].description == records[i].description &&
      categories[i].products == records[i].products
    ensures registry.Counts() == Build(old(registry.Counts()), Sizes(records))
  {
    categories := [];
    var i := 0;
    while i < |records|
      invariant 0 <= i <= |records|
      invariant |categories| == i
      invariant forall k :: 0 <= k < i ==>
        fresh(categories[k]) && categories[k].registry == registry &&
        categories[k].name == records[k].name &&
        categories[k].description == records[k].description &&
        categories[k].products == records[k].products
      invariant registry.Counts() == Build(old(registry.Counts()), Sizes(records)[..i])
    {
      var r := records[i];
      var category := new Category(registry, r.name, r.description, r.products);
      BuildAppend(old(registry.Counts()), Sizes(records)[..i], [|r.products|]);
      assert Sizes(records)[..i + 1] == Sizes(records)[..i] + [|r.products|];
      categories := categories + [category];
      i := i + 1;
    }
    assert Sizes(records)[..i] == Sizes(records);
  }

  /** From reset counters, a category of two products and a category of one
      product leave two categories and three products counted. */
  method TwoCategories(a: Product, b: Product) returns (categoryCount: int, productCount: int)
    ensures categoryCount == 2 && productCount == 3
  {
    var registry := new Registry();
    var first := new Category(registry, "Category 1", "Description", [a, b]);
    var second := new Category(registry, "Category 2", "Description", [a]);
    categoryCount, productCount := registry.categoryCount, registry.productCount;
  }

  /** From reset counters, one category of two products counts one category
      and two products. */
  method OneCategory(a: Product, b: Product) returns (categoryCount: int, productCount: int)
    ensures categoryCount == 1 && productCount == 2
  {
    var registry := new Registry();
    var category := new Category(registry, "Category", "Description", [a, b]);
    categoryCount, productCount := registry.categoryCount, registry.productCount;
  }
}
