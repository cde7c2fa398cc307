/**
 * The money and the quantity buttons of frontend/src/pages/CartPage.jsx: the
 * subtotal the page adds up from the client cart, the free-shipping rule, and
 * the update / remove requests behind each line's buttons. The checkout page
 * uses the same subtotal and shipping rule.
 */
module CartPage {
  import opened Common
  import opened ProductModel
  import opened CartController
  import opened CartContext

  /** Shipping is free above 75 dollars (in cents); otherwise it costs 8 dollars. */
  const FreeShippingAbove: int := 7500
  const ShippingFee: int := 800

  /** `cart.items || []`. */
  function ItemsOf(c: ClientCart): seq<ClientItem>
  {
    if c.items.Some? then c.items.value else []
  }

  /** `item.price || item.product?.price || 0`: a zero or missing price falls through to the next. */
  function UnitPrice(item: ClientItem): (r: int)
    ensures item.price.Some? && item.price.value != 0 ==> r == item.price.value
    ensures (item.price.None? || item.price.value == 0) ==> r == PriceOrZero(item.product)
  {
    if item.price.Some? && item.price.value != 0 then item.price.value
    else if item.product.Some? && item.product.value.price != 0 then item.product.value.price
    else 0
  }

  /** The `reduce` that adds up unit price times quantity. */
  function Subtotal(items: seq<ClientItem>): int
  {
    if |items| == 0 then 0 else UnitPrice(items[0]) * items[0].quantity + Subtotal(items[1..])
  }

  /** `subtotal > 75 ? 0 : 8`. */
  function Shipping(subtotal: int): (r: int)
    ensures r == 0 <==> subtotal > FreeShippingAbove
    ensures r != 0 ==> r == ShippingFee
  {
    if subtotal > FreeShippingAbove then 0 else ShippingFee
  }

  /** The total shown: subtotal plus shipping. */
  function OrderTotal(subtotal: int): (r: int)
    ensures r - subtotal == Shipping(subtotal)
    ensures subtotal > FreeShippingAbove ==> r == subtotal
  {
    subtotal + Shipping(subtotal)
  }

  /** A subtotal of exactly 75 dollars still pays shipping, so a cent more makes the total smaller. */
  lemma ThresholdIsStrict()
    ensures Shipping(FreeShippingAbove) == ShippingFee
    ensures OrderTotal(FreeShippingAbove + 1) < OrderTotal(FreeShippingAbove)
  {
  }

  lemma {:induction false} SubtotalMatchesView(cs: seq<ClientItem>, vs: seq<ViewItem>)
    requires |cs| == |vs|
    requires forall i :: 0 <= i < |cs| ==>
               cs[i].price.None? && cs[i].product == vs[i].product && cs[i].quantity == vs[i].quantity
    ensures Subtotal(cs) == ViewTotal(vs)
  {
    if |cs| > 0 {
      SubtotalMatchesView(cs[1..], vs[1..]);
    }
  }

  /**
   * On a cart as the server sent it, the page's subtotal is the server's
   * total: the sum of current price times quantity, a deleted product
   * counting 0.
   */
  lemma SubtotalOfServerCart(items: seq<LineItem>, catalog: map<string, Product>)
    ensures Subtotal(ItemsOf(FromServer(FormatCartResponse(items, catalog)))) == CartTotal(items, catalog)
  {
    var view := FormatCartResponse(items, catalog);
    SubtotalMatchesView(ItemsOf(FromServer(view)), view.items);
    ViewTotalOfPopulate(items, catalog);
  }

  /**
   * The product id a line's buttons send: the populated product's `_id`; for
   * a deleted product the line object itself has no `_id`, so none is sent.
   */
  function ButtonProductId(item: ClientItem): (r: Option<string>)
    ensures r.Some? <==> item.product.Some?
    ensures r.Some? ==> r.value == item.productId
  {
    if item.product.Some? then Some(item.productId) else None
  }

  /** `Math.max(1, q - 1)`: never below 1. */
  function Decremented(q: int): (r: int)
    ensures r >= 1
    ensures q > 1 ==> r == q - 1
    ensures q <= 1 ==> r == 1
  {
    if q - 1 > 1 then q - 1 else 1
  }

  /** The body of `cartAPI.update` / `cartAPI.remove` (remove carries no quantity). */
  datatype LineRequest = LineRequest(productId: Option<string>, quantity: Option<int>,
                                     size: Option<string>, color: Option<string>)

  /** The − button: asks for one less, but at least 1. */
  function DecrementRequest(item: ClientItem): (r: LineRequest)
    ensures r.productId == ButtonProductId(item) && r.size == item.size && r.color == item.color
    ensures r.quantity == Some(Decremented(item.quantity))
  {
    LineRequest(ButtonProductId(item), Some(Decremented(item.quantity)), item.size, item.color)
  }

  /** The + button: asks for one more, with no upper bound. */
  function IncrementRequest(item: ClientItem): (r: LineRequest)
    ensures r.productId == ButtonProductId(item) && r.size == item.size && r.color == item.color
    ensures r.quantity == Some(item.quantity + 1)
  {
    LineRequest(ButtonProductId(item), Some(item.quantity + 1), item.size, item.color)
  }

  /** The Delete button. */
  function RemoveRequest(item: ClientItem): (r: LineRequest)
    ensures r.productId == ButtonProductId(item) && r.size == item.size && r.color == item.color
    ensures r.quantity.None?
  {
    LineRequest(ButtonProductId(item), None, item.size, item.color)
  }

  /**
   * The buttons of a line from the server carry that line's stored key:
   * its product id, size and color.
   */
  lemma ButtonsCarryStoredKey(items: seq<LineItem>, catalog: map<string, Product>, i: int)
    requires 0 <= i < |items| && items[i].productId in catalog
    ensures var item := ItemsOf(FromServer(FormatCartResponse(items, catalog)))[i];
            && DecrementRequest(item) == LineRequest(Some(items[i].productId), Some(Decremented(items[i].quantity)),
                                                     items[i].size, items[i].color)
            && IncrementRequest(item) == LineRequest(Some(items[i].productId), Some(items[i].quantity + 1),
                                                     items[i].size, items[i].color)
            && RemoveRequest(item) == LineRequest(Some(items[i].productId), None, items[i].size, items[i].color)
  {
    var item := ItemsOf(FromServer(FormatCartResponse(items, catalog)))[i];
    assert item == ToClient(FormatCartResponse(items, catalog).items[i]);
  }

  /**
   * In a cart without duplicate keys, a line's stored key addresses exactly
   * that line: the backend's update rewrites it and its remove drops it.
   */
  lemma StoredKeyAddressesLine(items: seq<LineItem>, i: int, q: int)
    requires NoDuplicateKeys(items) && 0 <= i < |items|
    ensures var sel := Selector(ById(items[i].productId), items[i].size, items[i].color);
            && FindIndex(items, sel) == i
            && UpdateLine(items, sel, q) == Some(items[i := items[i].(quantity := q)])
            && RemoveLines(items, sel) == items[..i] + items[i + 1..]
  {
    var sel := Selector(ById(items[i].productId), items[i].size, items[i].color);
    assert Matches(items[i], sel);
    forall j | 0 <= j < i ensures !Matches(items[j], sel) {
      assert KeyOf(items[j]) != KeyOf(items[i]);
    }
    RemoveUniqueKey(items, sel);
  }
}
