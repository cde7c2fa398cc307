/**
 * The product document of backend/models/Product.js: the schema's paths, its
 * `required` rules, the category enum and the stock default.
 */
module ProductModel {
  import opened Common

  /** The values the schema's `enum` admits for `category`. */
  const Categories: seq<string> := ["Men", "Women", "Kids"]

  /**
   * A stored product. `category` is a plain string: the schema checks the enum
   * when a document is created, but an update through `findByIdAndUpdate`
   * runs no validators, so a stored product need not conform.
   * Prices are integer cents.
   */
  datatype Product = Product(
    name: string,
    category: string,
    price: int,
    description: Option<string>,
    image: Option<string>,
    stock: int)

  /** The fields of a product as submitted; each may be missing. */
  datatype ProductInput = ProductInput(
    name: Option<string>,
    category: Option<string>,
    price: Option<int>,
    description: Option<string>,
    image: Option<string>,
    stock: Option<int>)

  /** One failed schema rule, by path. */
  datatype Violation = Required(path: string) | NotInEnum(path: string)

  /** A product that satisfies every rule the schema states. */
  predicate Conforms(p: Product)
  {
    p.name != "" && p.category in Categories
  }

  /**
   * The rules Mongoose checks on save. A required String path rejects both a
   * missing value and ""; a required Number rejects only a missing value.
   * Only the first failing validator of a path is reported, and `required`
   * runs before `enum`.
   */
  function Violations(d: ProductInput): set<Violation>
  {
    (if Truthy(d.name) then {} else {Required("name")})
    + (if !Truthy(d.category) then {Required("category")}
       else if d.category.value !in Categories then {NotInEnum("category")}
       else {})
    + (if d.price.None? then {Required("price")} else {})
  }

  /** Validate a submitted document and apply the default `stock: 0`. */
  function Validate(d: ProductInput): (r: Result<Product, set<Violation>>)
    ensures r.Ok? <==>
              && Truthy(d.name) && Truthy(d.category)
              && d.category.value in Categories && d.price.Some?
    ensures r.Ok? ==> Conforms(r.value)
    ensures r.Ok? ==> && Some(r.value.name) == d.name
                      && Some(r.value.category) == d.category
                      && Some(r.value.price) == d.price
                      && r.value.description == d.description
                      && r.value.image == d.image
    ensures r.Ok? ==> r.value.stock == (if d.stock.Some? then d.stock.value else 0)
    ensures r.Err? ==> r.error != {} && r.error == Violations(d)
  {
    var v := Violations(d);
    if v != {} then Err(v)
    else
      assert Required("name") !in v && Required("category") !in v && Required("price") !in v;
      Ok(Product(d.name.value, d.category.value, d.price.value, d.description, d.image,
                 if d.stock.Some? then d.stock.value else 0))
  }
}
