/**
 * The product resolver. The `products` query keeps the listed products whose
 * name contains the search term and sorts them by category, then by name; the
 * mutations fetch, check, mutate and save through the repository and fail with
 * "Product not found" when the id is not stored.
 */
module ProductResolvers {
  import opened Wrappers
  import opened Lifecycle
  import opened JsStrings
  import opened ProductEntities
  import opened ProductRepositories

  /** The `where` argument of `products`, as far as the resolver itself reads it. */
  datatype ProductWhere = ProductWhere(search: Option<string>)

  /** `where?.search`. */
  function SearchTerm(where: Option<ProductWhere>): Option<string> {
    if where.Some? then where.value.search else None
  }

  /** The filter callback: with a truthy search term, the name must contain it. */
  predicate Matches(where: Option<ProductWhere>, p: ProductRecord) {
    IsTruthy(SearchTerm(where)) ==> Includes(p.data.name, SearchTerm(where).value)
  }

  /** `data.filter(...)`: the listed products that match, in their listed order. */
  function Filter(where: Option<ProductWhere>, data: seq<ProductRecord>): (r: seq<ProductRecord>)
    ensures forall p :: p in r ==> Matches(where, p)
    ensures forall p :: multiset(r)[p] == if Matches(where, p) then multiset(data)[p] else 0
    ensures !IsTruthy(SearchTerm(where)) ==> r == data
    decreases |data|
  {
    if data == [] then []
    else
      assert data == [data[0]] + data[1..];
      (if Matches(where, data[0]) then [data[0]] else []) + Filter(where, data[1..])
  }

  /** The sort callback: by category, and by name within an equal category. */
  function CompareProducts(a: ProductRecord, b: ProductRecord): (c: int)
    ensures -1 <= c <= 1
    ensures c == 0 <==> a.data.category == b.data.category && a.data.name == b.data.name
  {
    if a.data.category == b.data.category then CompareStrings(a.data.name, b.data.name)
    else CompareStrings(a.data.category, b.data.category)
  }

  /** No product sorts after one that follows it. */
  ghost predicate Sorted(s: seq<ProductRecord>) {
    forall i, j :: 0 <= i < j < |s| ==> CompareProducts(s[i], s[j]) <= 0
  }

  /** The callback orders by category first and by name only within one category. */
  lemma CompareProductsOrder(a: ProductRecord, b: ProductRecord)
    ensures CompareProducts(a, b) <= 0 <==>
      CompareStrings(a.data.category, b.data.category) < 0 ||
      (a.data.category == b.data.category && CompareStrings(a.data.name, b.data.name) <= 0)
  {
  }

  lemma CompareProductsFlip(a: ProductRecord, b: ProductRecord)
    ensures CompareProducts(b, a) == -CompareProducts(a, b)
  {
    CompareStringsFlip(a.data.name, b.data.name);
    CompareStringsFlip(a.data.category, b.data.category);
  }

  lemma CompareProductsTransitive(a: ProductRecord, b: ProductRecord, c: ProductRecord)
    requires CompareProducts(a, b) <= 0 && CompareProducts(b, c) <= 0
    ensures CompareProducts(a, c) <= 0
  {
    var ca, cb, cc := a.data.category, b.data.category, c.data.category;
    if ca == cb && cb == cc {
      CompareStringsTransitive(a.data.name, b.data.name, c.data.name);
    } else if ca != cb && cb != cc {
      CompareStringsTransitive(ca, cb, cc);
      CompareStringsFlip(ca, cb);
    }
  }

  /** A product that sorts no earlier than the last of a sorted list may be appended. */
  lemma SortedAppend(s: seq<ProductRecord>, x: ProductRecord)
    requires Sorted(s)
    requires forall y :: y in s ==> CompareProducts(y, x) <= 0
    ensures Sorted(s + [x])
  {
    forall i, j | 0 <= i < j < |s| + 1 ensures CompareProducts((s + [x])[i], (s + [x])[j]) <= 0 {
      if j == |s| {
        assert s[i] in s;
      }
    }
  }

  /** Everything in sorted `s` sorts no later than `x` when its last product does (if any). */
  lemma AllBefore(s: seq<ProductRecord>, x: ProductRecord)
    requires Sorted(s) && (s == [] || CompareProducts(s[|s| - 1], x) <= 0)
    ensures forall y :: y in s ==> CompareProducts(y, x) <= 0
  {
    forall y | y in s ensures CompareProducts(y, x) <= 0 {
      var i :| 0 <= i < |s| && s[i] == y;
      if i < |s| - 1 {
        CompareProductsTransitive(y, s[|s| - 1], x);
      }
    }
  }

  /** When `x` sorts before the last product of sorted `s`, so does everything in `front`,
      a rearrangement of `x` and the rest of `s`. */
  lemma AllBeforeLast(s: seq<ProductRecord>, x: ProductRecord, front: seq<ProductRecord>)
    requires Sorted(s) && s != [] && CompareProducts(s[|s| - 1], x) > 0
    requires multiset(front) == multiset(s[..|s| - 1]) + multiset{x}
    ensures forall y :: y in front ==> CompareProducts(y, s[|s| - 1]) <= 0
  {
    var init, last := s[..|s| - 1], s[|s| - 1];
    forall y | y in front ensures CompareProducts(y, last) <= 0 {
      assert y in multiset(front);
      if y == x {
        CompareProductsFlip(last, x);
      } else {
        assert y in init;
        var i :| 0 <= i < |init| && init[i] == y;
        assert s[i] == y;
      }
    }
  }

  /** Dropping the last product of a sorted list leaves it sorted. */
  lemma SortedInit(s: seq<ProductRecord>)
    requires Sorted(s) && s != []
    ensures Sorted(s[..|s| - 1])
  {
  }

  /** `x` inserted into sorted `s`, after every product that does not sort after it. */
  function Insert(s: seq<ProductRecord>, x: ProductRecord): (r: seq<ProductRecord>)
    requires Sorted(s)
    ensures Sorted(r)
    ensures multiset(r) == multiset(s) + multiset{x}
    decreases |s|
  {
    if s == [] || CompareProducts(s[|s| - 1], x) <= 0 then
      AllBefore(s, x);
      SortedAppend(s, x);
      s + [x]
    else
      SortedInit(s);
      var front := Insert(s[..|s| - 1], x);
      AllBeforeLast(s, x, front);
      SortedAppend(front, s[|s| - 1]);
      assert s == s[..|s| - 1] + [s[|s| - 1]];
      front + [s[|s| - 1]]
  }

  /** `.sort(compare)`, a stable sort: insertion from the left, each product placed after every
      earlier one that does not sort after it. */
  function Sort(s: seq<ProductRecord>): (r: seq<ProductRecord>)
    ensures Sorted(r)
    ensures multiset(r) == multiset(s)
    decreases |s|
  {
    if s == [] then []
    else
      assert s == s[..|s| - 1] + [s[|s| - 1]];
      Insert(Sort(s[..|s| - 1]), s[|s| - 1])
  }

  /** The products of `s` with the given category and name, in their order in `s`. */
  function WithKey(s: seq<ProductRecord>, category: string, name: string): seq<ProductRecord>
    decreases |s|
  {
    if s == [] then []
    else (if s[0].data.category == category && s[0].data.name == name then [s[0]] else []) + WithKey(s[1..], category, name)
  }

  lemma {:induction false} WithKeyConcat(a: seq<ProductRecord>, b: seq<ProductRecord>, category: string, name: string)
    ensures WithKey(a + b, category, name) == WithKey(a, category, name) + WithKey(b, category, name)
    decreases |a|
  {
    if a == [] {
      assert a + b == b;
    } else {
      assert (a + b)[0] == a[0];
      assert (a + b)[1..] == a[1..] + b;
      WithKeyConcat(a[1..], b, category, name);
    }
  }

  /** The filter over a list with a known first product. */
  lemma FilterCons(where: Option<ProductWhere>, x: ProductRecord, rest: seq<ProductRecord>)
    ensures Filter(where, [x] + rest) == (if Matches(where, x) then [x] else []) + Filter(where, rest)
  {
    assert ([x] + rest)[0] == x;
    assert ([x] + rest)[1..] == rest;
  }

  /** The filter keeps the listed order: picking one category and name out of the
      filtered list gives the matching products among that key's listed ones, in order. */
  lemma {:induction false} FilterWithKey(where: Option<ProductWhere>, data: seq<ProductRecord>, category: string, name: string)
    ensures WithKey(Filter(where, data), category, name) == Filter(where, WithKey(data, category, name))
    decreases |data|
  {
    if data != [] {
      var x, tail := data[0], data[1..];
      var kept := if Matches(where, x) then [x] else [];
      var rest := WithKey(tail, category, name);
      assert data == [x] + tail;
      FilterCons(where, x, tail);
      FilterWithKey(where, tail, category, name);
      WithKeyConcat(kept, Filter(where, tail), category, name);
      WithKeySingle(x, category, name);
      if x.data.category == category && x.data.name == name {
        assert WithKey(data, category, name) == [x] + rest;
        FilterCons(where, x, rest);
      } else {
        assert WithKey(data, category, name) == rest;
      }
    }
  }

  lemma WithKeySingle(x: ProductRecord, category: string, name: string)
    ensures WithKey([x], category, name) == if x.data.category == category && x.data.name == name then [x] else []
  {
    assert [x][1..] == [];
  }

  /** Where `x` sorts no earlier than the last product, `Insert` appends it. */
  lemma InsertAppends(s: seq<ProductRecord>, x: ProductRecord)
    requires Sorted(s) && (s == [] || CompareProducts(s[|s| - 1], x) <= 0)
    ensures Insert(s, x) == s + [x]
  {
  }

  /** Where `x` sorts before the last product, `Insert` passes that product by. */
  lemma InsertPassesLast(s: seq<ProductRecord>, x: ProductRecord)
    requires Sorted(s) && s != [] && CompareProducts(s[|s| - 1], x) > 0
    ensures Insert(s, x) == Insert(s[..|s| - 1], x) + [s[|s| - 1]]
  {
  }

  /** One step of the stability argument: `last`, which does not sort together with `x`,
      may be moved in front of it without changing the order within any key. */
  lemma StableStep(front: seq<ProductRecord>, init: seq<ProductRecord>, x: ProductRecord, last: ProductRecord, category: string, name: string)
    requires WithKey(front, category, name) == WithKey(init, category, name) + WithKey([x], category, name)
    requires CompareProducts(last, x) != 0
    ensures WithKey(front + [last], category, name) == WithKey(init + [last], category, name) + WithKey([x], category, name)
  {
    WithKeyConcat(front, [last], category, name);
    WithKeyConcat(init, [last], category, name);
    WithKeySingle(x, category, name);
    WithKeySingle(last, category, name);
  }

  /** Inserting keeps the relative order of products with equal category and name. */
  lemma {:induction false} InsertStable(s: seq<ProductRecord>, x: ProductRecord, category: string, name: string)
    requires Sorted(s)
    ensures WithKey(Insert(s, x), category, name) == WithKey(s, category, name) + WithKey([x], category, name)
    decreases |s|
  {
    if s == [] || CompareProducts(s[|s| - 1], x) <= 0 {
      InsertAppends(s, x);
      WithKeyConcat(s, [x], category, name);
    } else {
      var init, last := s[..|s| - 1], s[|s| - 1];
      SortedInit(s);
      InsertPassesLast(s, x);
      InsertStable(init, x, category, name);
      StableStep(Insert(init, x), init, x, last, category, name);
      assert s == init + [last];
    }
  }

  /** Products with equal category and name come out in the order they went in. */
  lemma {:induction false} SortStable(s: seq<ProductRecord>, category: string, name: string)
    ensures WithKey(Sort(s), category, name) == WithKey(s, category, name)
    decreases |s|
  {
    if s != [] {
      var init, last := s[..|s| - 1], s[|s| - 1];
      assert s == init + [last];
      SortStable(init, category, name);
      InsertStable(Sort(init), last, category, name);
      WithKeyConcat(init, [last], category, name);
    }
  }

  /** The `products` query over `data`, the list the repository returned. */
  function Products(where: Option<ProductWhere>, data: seq<ProductRecord>): (r: seq<ProductRecord>)
    ensures Sorted(r)
    ensures forall p :: multiset(r)[p] == if Matches(where, p) then multiset(data)[p] else 0
    ensures IsTruthy(SearchTerm(where)) ==> forall p :: p in r ==> Includes(p.data.name, SearchTerm(where).value)
    ensures !IsTruthy(SearchTerm(where)) ==> multiset(r) == multiset(data)
  {
    var r := Sort(Filter(where, data));
    assert forall p :: p in r ==> p in Filter(where, data) by {
      forall p | p in r ensures p in Filter(where, data) {
        assert p in multiset(r);
      }
    }
    r
  }

  /** Among the products `products` returns, those with equal category and name come out
      in the order the repository listed them (keeping only those that match the search). */
  lemma ProductsStable(where: Option<ProductWhere>, data: seq<ProductRecord>, category: string, name: string)
    ensures WithKey(Products(where, data), category, name) == Filter(where, WithKey(data, category, name))
  {
    SortStable(Filter(where, data), category, name);
    FilterWithKey(where, data, category, name);
  }

  /** Category takes precedence over name: {category "B", name "A"} sorts after {category "A", name "Z"}. */
  lemma CategoryTakesPrecedence(p: ProductRecord, q: ProductRecord)
    requires p.data.category == "B" && p.data.name == "A"
    requires q.data.category == "A" && q.data.name == "Z"
    ensures Products(None, [p, q]) == [q, p]
  {
    assert [p, q][..1] == [p];
    assert Sort([p]) == [p];
  }

  /** The message of the error the mutations throw for an id that is not stored. */
  const ProductNotFound := "Product not found"

  class ProductResolver {
    const repository: ProductRepository

    constructor (repository: ProductRepository)
      ensures this.repository == repository
    {
      this.repository := repository;
    }

    /** The `product(id)` query. */
    method Product(id: string) returns (product: ProductEntity?)
      requires repository.Valid()
      ensures product != null <==> id in repository.items
      ensures product != null ==> fresh(product) && product.Snapshot() == repository.items[id]
    {
      product := repository.GetById(id);
    }

    /** `createProduct(data)`: a product the repository creates, merged with `data` and saved. */
    method CreateProduct(data: ProductUpdate, freshId: string, now: Timestamp) returns (product: ProductEntity)
      requires repository.Valid() && freshId != ""
      modifies repository
      ensures repository.Valid()
      ensures fresh(product)
      ensures product.Snapshot() == Merged(Created(ProductParams(repository.blank, None, None, None), freshId, now), data, now)
      ensures product.Snapshot().id == freshId && product.Snapshot().createdAt == now
      ensures repository.items == old(repository.items)[freshId := product.Snapshot()]
    {
      product := repository.Create(freshId, now);
      product.Update(data, now);
      repository.Save(product);
    }

    /** `updateProduct(id, data)`: fails, saving nothing, when `id` is not stored; otherwise
        stores and returns the stored product merged with `data`. */
    method UpdateProduct(id: string, data: ProductUpdate, now: Timestamp) returns (result: Result<ProductEntity, string>)
      requires repository.Valid()
      modifies repository
      ensures repository.Valid()
      ensures result.Failure? <==> id !in old(repository.items)
      ensures result.Failure? ==> result.error == ProductNotFound && repository.items == old(repository.items)
      ensures result.Success? ==>
        var updated := Merged(old(repository.items)[id], data, now);
        && fresh(result.value)
        && result.value.Snapshot() == updated
        && updated.id == id && updated.createdAt == old(repository.items)[id].createdAt
        && repository.items == old(repository.items)[id := updated]
    {
      var product := repository.GetById(id);
      if product == null {
        return Failure(ProductNotFound);
      }
      product.Update(data, now);
      repository.Save(product);
      return Success(product);
    }

    /** `deleteProduct(id)`: fails, deleting nothing, when `id` is not stored; otherwise removes
        exactly `id` and returns the product as it was stored. */
    method DeleteProduct(id: string) returns (result: Result<ProductEntity, string>)
      requires repository.Valid()
      modifies repository
      ensures repository.Valid()
      ensures result.Failure? <==> id !in old(repository.items)
      ensures result.Failure? ==> result.error == ProductNotFound && repository.items == old(repository.items)
      ensures result.Success? ==>
        && fresh(result.value)
        && result.value.Snapshot() == old(repository.items)[id]
        && repository.items == old(repository.items) - {id}
    {
      var product := repository.GetById(id);
      if product == null {
        return Failure(ProductNotFound);
      }
      repository.Delete(id);
      return Success(product);
    }
  }
}
