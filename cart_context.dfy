/**
 * The client-side cart of frontend/src/context/CartContext.jsx: one `cart`
 * state cell that every cart call replaces with the server's answer, and the
 * `itemCount` badge derived from it.
 */
module CartContext {
  import opened Common
  import opened ProductModel
  import opened CartController

  /**
   * One element of `cart.items` as the pages read it. Items that come from the
   * cart API carry no `price` of their own; `productId` is the populated
   * product's `_id` when `product` is present.
   */
  datatype ClientItem = ClientItem(product: Option<Product>, productId: string, price: Option<int>,
                                   quantity: int, size: Option<string>, color: Option<string>)

  /** The `cart` state cell; `items` may be missing in a malformed answer. */
  datatype ClientCart = ClientCart(items: Option<seq<ClientItem>>, total: int)

  /** `{ items: [], total: 0 }`. */
  const EmptyCart: ClientCart := ClientCart(Some([]), 0)

  /** A toast the provider shows. */
  datatype Toast = ToastSuccess(message: string) | ToastError(message: string)

  /** What a cart call yields: the server's cart view, or a failure with the server's message if it sent one. */
  type CartReply = Result<CartView, Option<string>>

  /** The body of `cartAPI.add`. */
  datatype AddRequest = AddRequest(selector: Selector, quantity: int)

  /** A server cart item as the client holds it: no `price` of its own. */
  function ToClient(v: ViewItem): ClientItem
  {
    ClientItem(v.product, v.productId, None, v.quantity, v.size, v.color)
  }

  function ToClientItems(vs: seq<ViewItem>): (r: seq<ClientItem>)
    ensures |r| == |vs|
    ensures forall i :: 0 <= i < |vs| ==> r[i] == ToClient(vs[i])
  {
    if |vs| == 0 then [] else [ToClient(vs[0])] + ToClientItems(vs[1..])
  }

  /** The cart the client holds after the server answered with view v. */
  function FromServer(v: CartView): (c: ClientCart)
    ensures c.items.Some? && |c.items.value| == |v.items| && c.total == v.total
    ensures forall i :: 0 <= i < |v.items| ==>
              && c.items.value[i].quantity == v.items[i].quantity
              && c.items.value[i].product == v.items[i].product
              && c.items.value[i].price.None?
  {
    ClientCart(Some(ToClientItems(v.items)), v.total)
  }

  /** `err.response?.data?.message || fallback`. */
  function ErrorText(message: Option<string>, fallback: string): (r: string)
    ensures Truthy(message) ==> r == message.value
    ensures !Truthy(message) ==> r == fallback
  {
    if Truthy(message) then message.value else fallback
  }

  function QuantitySum(items: seq<ClientItem>): int
  {
    if |items| == 0 then 0 else items[0].quantity + QuantitySum(items[1..])
  }

  /** `itemCount`: the quantities added up, 0 when there are no items. */
  function ItemCount(c: ClientCart): (r: int)
    ensures c.items.None? ==> r == 0
    ensures c.items.Some? ==> r == QuantitySum(c.items.value)
  {
    if c.items.Some? then QuantitySum(c.items.value) else 0
  }

  /** The number of pieces a stored cart holds. */
  function StoredQuantity(items: seq<LineItem>): int
  {
    if |items| == 0 then 0 else items[0].quantity + StoredQuantity(items[1..])
  }

  lemma {:induction false} SameQuantities(cs: seq<ClientItem>, items: seq<LineItem>)
    requires |cs| == |items|
    requires forall i :: 0 <= i < |cs| ==> cs[i].quantity == items[i].quantity
    ensures QuantitySum(cs) == StoredQuantity(items)
  {
    if |cs| > 0 {
      SameQuantities(cs[1..], items[1..]);
    }
  }

  /** The badge shows exactly the number of pieces in the stored cart. */
  lemma ItemCountOfServerCart(items: seq<LineItem>, catalog: map<string, Product>)
    ensures ItemCount(FromServer(FormatCartResponse(items, catalog))) == StoredQuantity(items)
  {
    var c := FromServer(FormatCartResponse(items, catalog));
    assert forall i :: 0 <= i < |items| ==> c.items.value[i].quantity == items[i].quantity;
    SameQuantities(c.items.value, items);
  }

  lemma {:induction false} StoredQuantityAppend(a: seq<LineItem>, b: seq<LineItem>)
    ensures StoredQuantity(a + b) == StoredQuantity(a) + StoredQuantity(b)
  {
    if |a| == 0 {
      assert a + b == b;
    } else {
      assert (a + b)[1..] == a[1..] + b;
      StoredQuantityAppend(a[1..], b);
    }
  }

  lemma {:induction false} StoredQuantityReplace(items: seq<LineItem>, i: nat, x: LineItem)
    requires i < |items|
    ensures StoredQuantity(items[i := x]) == StoredQuantity(items) - items[i].quantity + x.quantity
  {
    if i > 0 {
      assert items[i := x][1..] == items[1..][i - 1 := x];
      StoredQuantityReplace(items[1..], i - 1, x);
    }
  }

  /** Whether merged or appended, an add of q pieces raises the count by exactly q. */
  lemma AddLineQuantity(items: seq<LineItem>, sel: Selector, q: int)
    ensures StoredQuantity(AddLine(items, sel, q)) == StoredQuantity(items) + q
  {
    var i := FindIndex(items, sel);
    if i >= 0 {
      assert AddLine(items, sel, q) == items[i := items[i].(quantity := items[i].quantity + q)];
      StoredQuantityReplace(items, i, items[i].(quantity := items[i].quantity + q));
    } else {
      StoredQuantityAppend(items, [NewLine(sel, q)]);
    }
  }

  /** The provider's state. */
  class CartProvider {
    var cart: ClientCart

    constructor ()
      ensures cart == EmptyCart
    {
      cart := EmptyCart;
    }

    /**
     * `fetchCart`: with nobody logged in the cart is emptied without a
     * request; a failed request also empties it.
     */
    method FetchCart(loggedIn: bool, reply: CartReply) returns (requested: bool)
      modifies this
      ensures requested == loggedIn
      ensures !loggedIn ==> cart == EmptyCart
      ensures loggedIn && reply.Err? ==> cart == EmptyCart
      ensures loggedIn && reply.Ok? ==> cart == FromServer(reply.value)
    {
      if !loggedIn {
        cart := EmptyCart;
        return false;
      }
      requested := true;
      if reply.Ok? {
        cart := FromServer(reply.value);
      } else {
        cart := EmptyCart;
      }
    }

    /** `addItem`: the quantity defaults to 1; a failure leaves the cart as it was. */
    method AddItem(productId: ProductRef, quantity: Option<int>, size: Option<string>, color: Option<string>,
                   reply: CartReply)
      returns (request: AddRequest, toast: Toast)
      modifies this
      ensures request.selector == Selector(productId, size, color)
      ensures request.quantity == if quantity.Some? then quantity.value else 1
      ensures reply.Ok? ==> cart == FromServer(reply.value) && toast == ToastSuccess("Added to cart")
      ensures reply.Err? ==> cart == old(cart) && toast == ToastError(ErrorText(reply.error, "Failed to add item"))
    {
      var q := if quantity.Some? then quantity.value else 1;
      request := AddRequest(Selector(productId, size, color), q);
      if reply.Ok? {
        cart := FromServer(reply.value);
        toast := ToastSuccess("Added to cart");
      } else {
        toast := ToastError(ErrorText(reply.error, "Failed to add item"));
      }
    }

    /** `updateItem`: replaces the cart on success, shows an error and keeps it on failure. */
    method UpdateItem(reply: CartReply) returns (toast: Option<Toast>)
      modifies this
      ensures reply.Ok? ==> cart == FromServer(reply.value) && toast.None?
      ensures reply.Err? ==> cart == old(cart) && toast == Some(ToastError(ErrorText(reply.error, "Failed to update cart")))
    {
      if reply.Ok? {
        cart := FromServer(reply.value);
        toast := None;
      } else {
        toast := Some(ToastError(ErrorText(reply.error, "Failed to update cart")));
      }
    }

    /** `removeItem`: replaces the cart on success, shows an error and keeps it on failure. */
    method RemoveItem(reply: CartReply) returns (toast: Toast)
      modifies this
      ensures reply.Ok? ==> cart == FromServer(reply.value) && toast == ToastSuccess("Item removed")
      ensures reply.Err? ==> cart == old(cart) && toast == ToastError(ErrorText(reply.error, "Failed to remove item"))
    {
      if reply.Ok? {
        cart := FromServer(reply.value);
        toast := ToastSuccess("Item removed");
      } else {
        toast := ToastError(ErrorText(reply.error, "Failed to remove item"));
      }
    }

    /** `clearCart`: the local cart is emptied only once the server call succeeded; a failure is silent. */
    method ClearCart(succeeded: bool)
      modifies this
      ensures succeeded ==> cart == EmptyCart
      ensures !succeeded ==> cart == old(cart)
    {
      if succeeded {
        cart := EmptyCart;
      }
    }
  }
}
