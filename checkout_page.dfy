/**
 * frontend/src/pages/CheckoutPage.jsx: the form's starting values, the amounts
 * shown, and what `handleSubmit` does, in order, for each answer of the order
 * request.
 */
module CheckoutPage {
  import opened Common
  import opened ProductModel
  import opened CartController
  import opened CartContext
  import opened CartPage
  import opened OrderController
  import opened AuthContext

  datatype Form = Form(fullName: string, email: string, address: string, city: string, state: string,
                       zip: string, country: string, paymentMethod: string)

  /** The form's first state: name and e-mail from the user, country US, cash on delivery, the rest blank. */
  function InitialForm(user: Option<User>): (f: Form)
    ensures f.country == "US" && f.paymentMethod == "COD"
    ensures f.address == "" && f.city == "" && f.state == "" && f.zip == ""
    ensures user.None? ==> f.fullName == "" && f.email == ""
    ensures user.Some? ==> f.fullName == OrEmpty(user.value.name) && f.email == OrEmpty(user.value.email)
  {
    if user.None? then Form("", "", "", "", "", "", "US", "COD")
    else Form(OrEmpty(user.value.name), OrEmpty(user.value.email), "", "", "", "", "US", "COD")
  }

  /** `shippingAddress` of the request: every form field except e-mail and payment method. */
  datatype ShippingAddress = ShippingAddress(fullName: string, address: string, city: string, state: string,
                                             zip: string, country: string)

  /** The body of `orderAPI.place`. */
  datatype PlaceRequest = PlaceRequest(shippingAddress: ShippingAddress, paymentMethod: string, totalAmount: int)

  /** One observable step of `handleSubmit`. */
  datatype Effect =
    | ShowToast(toast: Toast)
    | SendOrder(request: PlaceRequest)
    | ClearCartCall
    | SetPlaced
    | NavigateAfter(path: string, delayMs: int)

  /** The total the page shows and sends: subtotal plus shipping. */
  function CheckoutTotal(cart: ClientCart): int
  {
    OrderTotal(Subtotal(ItemsOf(cart)))
  }

  function RequestOf(form: Form, cart: ClientCart): (r: PlaceRequest)
    ensures r.paymentMethod == form.paymentMethod && r.totalAmount == CheckoutTotal(cart)
    ensures r.shippingAddress.fullName == form.fullName && r.shippingAddress.country == form.country
    ensures r.shippingAddress.address == form.address && r.shippingAddress.city == form.city
    ensures r.shippingAddress.state == form.state && r.shippingAddress.zip == form.zip
  {
    PlaceRequest(ShippingAddress(form.fullName, form.address, form.city, form.state, form.zip, form.country),
                 form.paymentMethod, CheckoutTotal(cart))
  }

  /**
   * `handleSubmit` as the steps it takes. `reply` is the answer to the order
   * request (the server's message on failure, if any). `clearCart` never
   * throws, so a placed order always goes on to clear the cart.
   */
  function Submit(form: Form, cart: ClientCart, reply: Result<Order, Option<string>>): (r: seq<Effect>)
    ensures |ItemsOf(cart)| == 0 ==> r == [ShowToast(ToastError("Your cart is empty"))]
    ensures |ItemsOf(cart)| > 0 ==> |r| >= 2 && r[0] == SendOrder(RequestOf(form, cart))
    ensures forall i :: 0 <= i < |r| && r[i].SendOrder? ==> i == 0 && |ItemsOf(cart)| > 0
    ensures SetPlaced in r <==> |ItemsOf(cart)| > 0 && reply.Ok?
    ensures ClearCartCall in r <==> |ItemsOf(cart)| > 0 && reply.Ok?
    ensures forall i, j :: 0 <= i < |r| && 0 <= j < |r| && r[i] == ClearCartCall && r[j] == SetPlaced ==> i < j
    ensures |ItemsOf(cart)| > 0 && reply.Err? ==>
              r[|r| - 1] == ShowToast(ToastError(ErrorText(reply.error, "Failed to place order")))
    ensures ShowToast(ToastSuccess("Order placed successfully!")) in r <==> |ItemsOf(cart)| > 0 && reply.Ok?
    ensures NavigateAfter("/orders", 3000) in r <==> |ItemsOf(cart)| > 0 && reply.Ok?
    ensures |ItemsOf(cart)| > 0 && reply.Err? ==> |r| == 2
  {
    if |ItemsOf(cart)| == 0 then [ShowToast(ToastError("Your cart is empty"))]
    else if reply.Ok? then
      [SendOrder(RequestOf(form, cart)), ClearCartCall, SetPlaced,
       ShowToast(ToastSuccess("Order placed successfully!")), NavigateAfter("/orders", 3000)]
    else
      [SendOrder(RequestOf(form, cart)), ShowToast(ToastError(ErrorText(reply.error, "Failed to place order")))]
  }

  /**
   * The amount the page sends is the stored order total plus shipping: the
   * server prices the order from its own snapshot and ignores `totalAmount`,
   * so below the free-shipping threshold the two differ by the shipping fee.
   */
  lemma ShippingNotStored(items: seq<LineItem>, catalog: map<string, Product>)
    requires AllInCatalog(items, catalog)
    ensures var sent := CheckoutTotal(FromServer(FormatCartResponse(items, catalog)));
            var stored := LinesTotal(Snapshot(items, catalog));
            && sent == stored + Shipping(stored)
            && (stored <= FreeShippingAbove ==> sent == stored + ShippingFee)
  {
    SubtotalOfServerCart(items, catalog);
    SnapshotTotal(items, catalog);
  }
}
