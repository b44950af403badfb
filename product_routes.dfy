/** The product routes' query construction: the listing filter and sort
    records built from request parameters, the similar-products query, and
    the required-fields and SKU checks of product creation. How the
    database evaluates these records is not part of this model. */
module ProductRoutes {
  import opened Common
  import opened Catalog

  // ---------------------------------------------------------------------
  // Comma-separated parameters
  // ---------------------------------------------------------------------

  /** `s.split(",")`: the pieces between commas, empty pieces included. */
  function Split(s: string): (parts: seq<string>)
    ensures |parts| >= 1
    ensures forall i :: 0 <= i < |parts| ==> ',' !in parts[i]
  {
    if s == [] then [""]
    else
      var rest := Split(s[1..]);
      if s[0] == ',' then [""] + rest
      else [[s[0]] + rest[0]] + rest[1..]
  }

  /** `parts.join(",")`. */
  function Join(parts: seq<string>): string
    requires |parts| >= 1
  {
    if |parts| == 1 then parts[0] else parts[0] + "," + Join(parts[1..])
  }

  /** Re-joining the pieces with commas gives the parameter back. */
  lemma {:induction false} JoinSplit(s: string)
    ensures Join(Split(s)) == s
  {
    if s != [] {
      var rest := Split(s[1..]);
      JoinSplit(s[1..]);
      if s[0] == ',' {
        assert ([""] + rest)[1..] == rest;
      } else {
        var parts := [[s[0]] + rest[0]] + rest[1..];
        if |rest| == 1 {
          assert parts == [[s[0]] + rest[0]];
        } else {
          assert parts[1..] == rest[1..];
          assert Join(rest) == rest[0] + "," + Join(rest[1..]);
        }
        assert s == [s[0]] + s[1..];
      }
    }
  }

  /** Splitting a comma-free prefix glues it to the first piece. */
  lemma {:induction false} SplitPrefix(a: string, t: string)
    requires ',' !in a
    ensures Split(a + t) == [a + Split(t)[0]] + Split(t)[1..]
  {
    if a != [] {
      var c, tail, r := a[0], a[1..], Split(t);
      assert c != ',' && ',' !in tail;
      SplitPrefix(tail, t);
      var rest := Split(tail + t);
      assert rest[0] == tail + r[0] && rest[1..] == r[1..];
      var u := a + t;
      assert u[0] == c && u[1..] == tail + t;
      assert Split(u) == [[c] + rest[0]] + rest[1..];
      assert [c] + (tail + r[0]) == a + r[0];
    } else {
      var r := Split(t);
      assert a + t == t && a + r[0] == r[0];
      assert [r[0]] + r[1..] == r;
    }
  }

  /** Splitting comma-free pieces joined with commas gives the pieces back. */
  lemma {:induction false} SplitJoin(parts: seq<string>)
    requires |parts| >= 1
    requires forall i :: 0 <= i < |parts| ==> ',' !in parts[i]
    ensures Split(Join(parts)) == parts
  {
    if |parts| == 1 {
      SplitPrefix(parts[0], "");
      assert Split("") == [""];
      assert parts[0] + "" == parts[0];
      assert parts == [parts[0]];
    } else {
      SplitJoin(parts[1..]);
      var t := "," + Join(parts[1..]);
      SplitPrefix(parts[0], t);
      assert t[0] == ',' && t[1..] == Join(parts[1..]);
      assert Split(t) == [""] + parts[1..];
      assert parts[0] + "" == parts[0];
      assert parts[0] + "," + Join(parts[1..]) == parts[0] + t;
      assert parts == [parts[0]] + parts[1..];
    }
  }

  // ---------------------------------------------------------------------
  // Listing filter and sort
  // ---------------------------------------------------------------------

  /** Listing parameters. A price parameter is Some(v) when it was given
      as a non-empty string whose numeric value is v. */
  datatype ListParams = ListParams(
    size: Option<string>,
    color: Option<string>,
    category: Option<string>,
    brand: Option<string>,
    gender: Option<string>,
    minPrice: Option<int>,
    maxPrice: Option<int>,
    sort: Option<string>)

  /** `{ $gte, $lte }`, each bound optional. */
  datatype PriceRange = PriceRange(gte: Option<int>, lte: Option<int>)

  /** The filter record; an absent field places no constraint. `sizes` and
      `colors` are the `$in` value sets. */
  datatype Filter = Filter(
    sizes: Option<seq<string>>,
    colors: Option<seq<string>>,
    category: Option<string>,
    brand: Option<string>,
    gender: Option<string>,
    price: Option<PriceRange>)

  /** A parameter copied into the filter only when it is truthy. */
  function IfTruthy(s: Option<string>): (r: Option<string>)
    ensures r.Some? <==> Truthy(s)
    ensures r.Some? ==> r == s
  {
    if Truthy(s) then s else None
  }

  function BuildFilter(q: ListParams): (f: Filter)
    ensures f.sizes.Some? <==> Truthy(q.size)
    ensures f.colors.Some? <==> Truthy(q.color)
    ensures f.category.Some? <==> Truthy(q.category)
    ensures f.category.Some? ==> f.category == q.category
    ensures f.brand.Some? <==> Truthy(q.brand)
    ensures f.brand.Some? ==> f.brand == q.brand
    ensures f.gender.Some? <==> Truthy(q.gender)
    ensures f.gender.Some? ==> f.gender == q.gender
    ensures f.price.Some? <==> q.minPrice.Some? || q.maxPrice.Some?
    ensures f.price.Some? ==> f.price.value.gte == q.minPrice && f.price.value.lte == q.maxPrice
  {
    Filter(
      if Truthy(q.size) then Some(Split(q.size.value)) else None,
      if Truthy(q.color) then Some(Split(q.color.value)) else None,
      IfTruthy(q.category),
      IfTruthy(q.brand),
      IfTruthy(q.gender),
      if q.minPrice.Some? || q.maxPrice.Some? then Some(PriceRange(q.minPrice, q.maxPrice)) else None)
  }

  /** The size and colour value sets are the comma pieces of their
      parameter: comma-free, and joining them gives the parameter back. */
  lemma FilterValueSets(q: ListParams)
    ensures var f := BuildFilter(q);
      && (f.sizes.Some? ==> Join(f.sizes.value) == q.size.value && Split(Join(f.sizes.value)) == f.sizes.value)
      && (f.colors.Some? ==> Join(f.colors.value) == q.color.value && Split(Join(f.colors.value)) == f.colors.value)
  {
    if Truthy(q.size) {
      JoinSplit(q.size.value);
    }
    if Truthy(q.color) {
      JoinSplit(q.color.value);
    }
  }

  /** The sort record: at most one key, 1 ascending, -1 descending. */
  datatype SortObj = SortObj(price: Option<int>, createdAt: Option<int>)

  function BuildSort(sort: Option<string>): (s: SortObj)
    ensures s.price.None? || s.createdAt.None?
    ensures s.price == Some(1) <==> sort == Some("price_asc")
    ensures s.price == Some(-1) <==> sort == Some("price_desc")
    ensures s.createdAt == Some(-1) <==> sort == Some("latest")
    ensures s == SortObj(None, None) <==>
      sort != Some("price_asc") && sort != Some("price_desc") && sort != Some("latest")
  {
    var s0 := SortObj(None, None);
    if !Truthy(sort) then s0
    else
      var s1 := if sort.value == "price_asc" then s0.(price := Some(1)) else s0;
      var s2 := if sort.value == "price_desc" then s1.(price := Some(-1)) else s1;
      if sort.value == "latest" then s2.(createdAt := Some(-1)) else s2
  }

  // ---------------------------------------------------------------------
  // Similar products
  // ---------------------------------------------------------------------

  const SimilarLimit: nat := 8

  /** `_id: { $ne }`, `category`, the optional `gender` and `brand`
      constraints, and the result cap. */
  datatype SimilarQuery = SimilarQuery(
    excludeId: ProductId,
    category: string,
    gender: Option<string>,
    brand: Option<string>,
    limit: nat)

  function BuildSimilar(id: ProductId, p: Product): (q: SimilarQuery)
    ensures q.excludeId == id && q.category == p.category
    ensures q.gender.Some? <==> Truthy(p.gender)
    ensures q.gender.Some? ==> q.gender == p.gender
    ensures q.brand.Some? <==> Truthy(p.brand)
    ensures q.brand.Some? ==> q.brand == p.brand
    ensures q.limit == 8
  {
    SimilarQuery(id, p.category, IfTruthy(p.gender), IfTruthy(p.brand), SimilarLimit)
  }

  // ---------------------------------------------------------------------
  // Product creation checks
  // ---------------------------------------------------------------------

  /** The body fields the creation route checks. */
  datatype CreateBody = CreateBody(
    name: Option<string>,
    description: Option<string>,
    price: Option<int>,
    sku: Option<string>,
    category: Option<string>)

  datatype Outcome = Pass | Fail(status: nat, message: string)

  /** Every required field is truthy; a price of 0 counts as missing. */
  predicate RequiredPresent(b: CreateBody) {
    Truthy(b.name) && Truthy(b.description) && TruthyNum(b.price) && Truthy(b.sku) && Truthy(b.category)
  }

  /** Some product already carries the SKU. */
  predicate SkuTaken(catalog: map<ProductId, Product>, sku: string) {
    exists id :: id in catalog && catalog[id].sku == sku
  }

  /** The checks made before anything is created: missing fields first,
      then the SKU lookup; both fail with 400. */
  function CheckCreate(b: CreateBody, catalog: map<ProductId, Product>): (r: Outcome)
    ensures r.Pass? <==> RequiredPresent(b) && !SkuTaken(catalog, b.sku.value)
    ensures !RequiredPresent(b) ==> r == Fail(400, "Please fill all required fields")
    ensures RequiredPresent(b) && SkuTaken(catalog, b.sku.value) ==>
      r == Fail(400, "Product with this SKU already exists")
  {
    if !Truthy(b.name) || !Truthy(b.description) || !TruthyNum(b.price) || !Truthy(b.sku) || !Truthy(b.category) then
      Fail(400, "Please fill all required fields")
    else if exists id :: id in catalog && catalog[id].sku == b.sku.value then
      Fail(400, "Product with this SKU already exists")
    else
      Pass
  }
}
