/**
 * The catalog handlers of backend/controllers/productController.js: the query
 * that `getProducts` assembles (filters, sort key, skip and limit, page count)
 * and the create / read / update / delete guards.
 */
module ProductController {
  import opened Common
  import opened ProductModel

  /**
   * The query string of `GET /products`. A text parameter that is absent and one
   * that is "" behave alike (both are falsy), so "" stands for both. A price
   * bound is None when absent or "", and otherwise carries its numeric value
   * (the text "0" is truthy, so Some(0) is a real bound). `page` and `limit`
   * are None when absent.
   */
  datatype QueryParams = QueryParams(
    search: string,
    category: string,
    sort: string,
    minPrice: Option<int>,
    maxPrice: Option<int>,
    page: Option<int>,
    limit: Option<int>)

  /** `filters.price`: `$gte` and `$lte`, each present only when its bound was given. */
  datatype PriceRange = PriceRange(gte: Option<int>, lte: Option<int>)

  /** The Mongo filter document: `category`, `name` (a case-insensitive regex) and `price`. */
  datatype Filters = Filters(category: Option<string>, name: Option<string>, price: Option<PriceRange>)

  datatype SortKey = PriceAscending | PriceDescending | NameAscending | NewestFirst

  const DefaultPage: int := 1
  const DefaultLimit: int := 12

  /** The filter document, assembled field by field from the truthy parameters. */
  function BuildFilters(q: QueryParams): Filters
  {
    Filters(
      if q.category != "" then Some(q.category) else None,
      if q.search != "" then Some(q.search) else None,
      if q.minPrice.Some? || q.maxPrice.Some? then Some(PriceRange(q.minPrice, q.maxPrice)) else None)
  }

  /** Whether a product satisfies a filter document; the regex match itself is a parameter. */
  predicate MatchesFilters(p: Product, f: Filters, nameMatches: (string, string) -> bool)
  {
    && (f.category.Some? ==> p.category == f.category.value)
    && (f.name.Some? ==> nameMatches(p.name, f.name.value))
    && (f.price.Some? ==>
          && (f.price.value.gte.Some? ==> p.price >= f.price.value.gte.value)
          && (f.price.value.lte.Some? ==> p.price <= f.price.value.lte.value))
  }

  /**
   * What the assembled filters select: a product is kept exactly when it has
   * the requested category (if any), its name matches the search (if any) and
   * its price lies within both given bounds, inclusive.
   */
  lemma FilterSemantics(q: QueryParams, p: Product, nameMatches: (string, string) -> bool)
    ensures MatchesFilters(p, BuildFilters(q), nameMatches) <==>
              && (q.category == "" || p.category == q.category)
              && (q.search == "" || nameMatches(p.name, q.search))
              && (q.minPrice.None? || q.minPrice.value <= p.price)
              && (q.maxPrice.None? || p.price <= q.maxPrice.value)
  {
  }

  /** The sort chosen by the `sort` parameter; anything unrecognised sorts newest first. */
  function ChooseSort(sort: string): (k: SortKey)
    ensures k == PriceAscending <==> sort == "price_asc"
    ensures k == PriceDescending <==> sort == "price_desc"
    ensures k == NameAscending <==> sort == "name_asc"
    ensures k == NewestFirst <==> sort !in {"price_asc", "price_desc", "name_asc"}
  {
    if sort == "price_asc" then PriceAscending
    else if sort == "price_desc" then PriceDescending
    else if sort == "name_asc" then NameAscending
    else NewestFirst
  }

  function PageOf(q: QueryParams): int
  {
    if q.page.Some? then q.page.value else DefaultPage
  }

  function LimitOf(q: QueryParams): int
  {
    if q.limit.Some? then q.limit.value else DefaultLimit
  }

  /** `skip = (page - 1) * limit`. */
  function SkipOf(q: QueryParams): int
  {
    (PageOf(q) - 1) * LimitOf(q)
  }

  /**
   * `Math.ceil(total / limit)`. A zero limit divides by zero (Infinity or NaN,
   * both sent as null); a negative limit gives a ceiling of a non-positive
   * quotient.
   */
  function TotalPages(total: nat, limit: int): (r: Option<int>)
    ensures r.None? <==> limit == 0
    ensures limit > 0 ==> r.value >= 0 && (r.value == 0 <==> total == 0)
    ensures limit > 0 && total > 0 ==> r.value * limit >= total && (r.value - 1) * limit < total
  {
    if limit > 0 then
      var pages := (total + limit - 1) / limit;
      CeilingBounds(total, limit);
      Some(pages)
    else if limit < 0 then Some(-(total / -limit))
    else None
  }

  lemma CeilingBounds(total: nat, limit: int)
    requires limit > 0
    ensures var pages := (total + limit - 1) / limit;
            && pages >= 0
            && (pages == 0 <==> total == 0)
            && (total > 0 ==> pages * limit >= total && (pages - 1) * limit < total)
  {
    var pages := (total + limit - 1) / limit;
    var rem := (total + limit - 1) % limit;
    assert total + limit - 1 == pages * limit + rem;
    assert 0 <= rem < limit;
    if total > 0 {
      assert pages * limit >= total by {
        assert pages * limit == total + limit - 1 - rem;
      }
    }
  }

  /** The documents that match, in the order the database's sort gives them. */
  function Selected(docs: seq<Product>, f: Filters, nameMatches: (string, string) -> bool): (r: seq<Product>)
    ensures |r| <= |docs|
    ensures forall p :: p in r <==> p in docs && MatchesFilters(p, f, nameMatches)
  {
    if |docs| == 0 then []
    else if MatchesFilters(docs[0], f, nameMatches) then [docs[0]] + Selected(docs[1..], f, nameMatches)
    else Selected(docs[1..], f, nameMatches)
  }

  /**
   * What `.skip(skip).limit(limit)` leaves of s: nothing past the end;
   * otherwise the documents from position skip on, as many as remain, but no
   * more than |limit| unless the limit is 0 (no limit).
   */
  predicate IsPageOf(s: seq<Product>, skip: nat, limit: int, w: seq<Product>)
  {
    && (skip >= |s| ==> w == [])
    && (skip < |s| ==> skip + |w| <= |s| && w == s[skip..skip + |w|])
    && (skip < |s| && limit == 0 ==> |w| == |s| - skip)
    && (skip < |s| && limit != 0 ==>
          var n := if limit > 0 then limit else -limit;
          |w| == if |s| - skip < n then |s| - skip else n)
  }

  /** `.skip(skip).limit(limit)` on the selected documents; a negative limit acts as its absolute value. */
  function Window(s: seq<Product>, skip: nat, limit: int): (r: seq<Product>)
    ensures IsPageOf(s, skip, limit, r)
  {
    if skip >= |s| then []
    else if limit == 0 then s[skip..]
    else
      var n := if limit > 0 then limit else -limit;
      if skip + n <= |s| then s[skip..skip + n] else s[skip..]
  }

  /** The body of a successful `getProducts`. */
  datatype ProductPage = ProductPage(products: seq<Product>, total: nat, totalPages: Option<int>)

  /**
   * `getProducts`. `docs` is the collection in the order of the chosen sort
   * key; `dbError` is the database's message for a negative skip.
   */
  function GetProducts(q: QueryParams, docs: seq<Product>, nameMatches: (string, string) -> bool,
                       dbError: string): (r: Response<ProductPage>)
    ensures SkipOf(q) < 0 <==> r.Error?
    ensures r.Error? ==> r.status == 500
    ensures r.Json? ==>
              var all := Selected(docs, BuildFilters(q), nameMatches);
              && r.status == 200
              && r.body.total == |all|
              && (forall p :: p in r.body.products ==> p in docs && MatchesFilters(p, BuildFilters(q), nameMatches))
              && IsPageOf(all, SkipOf(q), LimitOf(q), r.body.products)
              && r.body.totalPages == TotalPages(|all|, LimitOf(q))
  {
    var skip := SkipOf(q);
    if skip < 0 then Error(500, dbError)
    else
      var all := Selected(docs, BuildFilters(q), nameMatches);
      var products := Window(all, skip, LimitOf(q));
      assert forall p :: p in products ==> p in all;
      Json(200, ProductPage(products, |all|, TotalPages(|all|, LimitOf(q))))
  }

  /** Fields an update may carry; `findByIdAndUpdate` runs no validators. */
  function ApplyUpdate(p: Product, patch: ProductInput): (r: Product)
    ensures patch == ProductInput(None, None, None, None, None, None) ==> r == p
    ensures r.name == (if patch.name.Some? then patch.name.value else p.name)
    ensures r.category == (if patch.category.Some? then patch.category.value else p.category)
    ensures r.price == (if patch.price.Some? then patch.price.value else p.price)
    ensures r.description == (if patch.description.Some? then patch.description else p.description)
    ensures r.image == (if patch.image.Some? then patch.image else p.image)
    ensures r.stock == (if patch.stock.Some? then patch.stock.value else p.stock)
  {
    Product(
      if patch.name.Some? then patch.name.value else p.name,
      if patch.category.Some? then patch.category.value else p.category,
      if patch.price.Some? then patch.price.value else p.price,
      if patch.description.Some? then patch.description else p.description,
      if patch.image.Some? then patch.image else p.image,
      if patch.stock.Some? then patch.stock.value else p.stock)
  }

  /** An update can store what creation rejects: a category outside the enum. */
  lemma UpdateSkipsSchema(p: Product)
    requires Conforms(p)
    ensures !Conforms(ApplyUpdate(p, ProductInput(None, Some("Unisex"), None, None, None, None)))
    ensures Validate(ProductInput(Some(p.name), Some("Unisex"), Some(p.price), None, None, None)).Err?
  {
  }

  /** The catalog collection, by id. */
  class ProductStore {
    var products: map<string, Product>

    constructor ()
      ensures products == map[]
    {
      products := map[];
    }

    /**
     * `createProduct`: without an uploaded image answers 400 and stores
     * nothing; a document the schema rejects answers 500.
     */
    method CreateProduct(body: ProductInput, upload: Option<string>, newId: string)
      returns (res: Response<Product>)
      requires newId !in products
      modifies this
      ensures !Truthy(upload) ==> res == Error(400, "Image upload failed") && products == old(products)
      ensures Truthy(upload) && Validate(body.(image := upload)).Err? ==>
                res == Error(500, "Product validation failed") && products == old(products)
      ensures Truthy(upload) && Validate(body.(image := upload)).Ok? ==>
                var p := Validate(body.(image := upload)).value;
                && res == Json(201, p)
                && products == old(products)[newId := p]
                && Conforms(p) && p.image == upload
    {
      if !Truthy(upload) {
        return Error(400, "Image upload failed");
      }
      var validated := Validate(body.(image := upload));
      if validated.Err? {
        return Error(500, "Product validation failed");
      }
      products := products[newId := validated.value];
      res := Json(201, validated.value);
    }

    /** `getProductById`. */
    method GetProductById(id: string) returns (res: Response<Product>)
      ensures id !in products ==> res == Error(404, "Product not found")
      ensures id in products ==> res == Json(200, products[id])
    {
      if id !in products {
        return Error(404, "Product not found");
      }
      res := Json(200, products[id]);
    }

    /** `updateProduct`: 404 for an unknown id; otherwise overwrites the given fields, unvalidated. */
    method UpdateProduct(id: string, patch: ProductInput) returns (res: Response<Product>)
      modifies this
      ensures id !in old(products) ==> res == Error(404, "Product not found") && products == old(products)
      ensures id in old(products) ==>
                && products == old(products)[id := ApplyUpdate(old(products)[id], patch)]
                && res == Json(200, products[id])
    {
      if id !in products {
        return Error(404, "Product not found");
      }
      products := products[id := ApplyUpdate(products[id], patch)];
      res := Json(200, products[id]);
    }

    /** `deleteProduct`: 404 for an unknown id; otherwise removes exactly that product. */
    method DeleteProduct(id: string) returns (res: Response<string>)
      modifies this
      ensures id !in old(products) ==> res == Error(404, "Product not found") && products == old(products)
      ensures id in old(products) ==>
                && products == old(products) - {id}
                && res == Json(200, "Product deleted successfully")
    {
      if id !in products {
        return Error(404, "Product not found");
      }
      products := products - {id};
      res := Json(200, "Product deleted successfully");
    }
  }
}
