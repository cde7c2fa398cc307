/**
 * The state cells of frontend/src/pages/ProductDetailPage.jsx: the selected
 * size and colour, the quantity stepper, and the add-to-cart handler.
 */
module ProductDetailPage {
  import opened Common
  import opened CartController
  import opened CartPage
  import ProductModel

  /**
   * The product as the page reads it: `sizes`, `colors` and `stock` are None
   * when the server's document has no such field.
   */
  datatype ShownProduct = ShownProduct(id: string, sizes: Option<seq<string>>, colors: Option<seq<string>>,
                                       stock: Option<int>)

  /** `data.xs?.[0]`, when it is a non-empty string. */
  function FirstListed(xs: Option<seq<string>>): (r: Option<string>)
    ensures r.Some? <==> xs.Some? && |xs.value| > 0 && xs.value[0] != ""
    ensures r.Some? ==> r.value == xs.value[0]
  {
    if xs.Some? && |xs.value| > 0 && xs.value[0] != "" then Some(xs.value[0]) else None
  }

  /** `product.stock || 10`: a missing or zero stock caps the stepper at 10. */
  function Cap(p: ShownProduct): (r: int)
    ensures p.stock.Some? && p.stock.value != 0 ==> r == p.stock.value
    ensures (p.stock.None? || p.stock.value == 0) ==> r == 10
  {
    if p.stock.Some? && p.stock.value != 0 then p.stock.value else 10
  }

  /** `Math.min(cap, q + 1)`: one more, but never above the cap. */
  function Incremented(q: int, cap: int): (r: int)
    ensures r <= cap
    ensures q + 1 <= cap ==> r == q + 1
    ensures q + 1 > cap ==> r == cap
  {
    if cap < q + 1 then cap else q + 1
  }

  /** `disabled={adding || product.stock === 0}`. */
  predicate AddDisabled(p: ShownProduct, adding: bool)
  {
    adding || p.stock == Some(0)
  }

  /**
   * A stored product as the page receives it. The product schema has no sizes
   * or colors, so those fields are always missing.
   */
  function ShownOf(id: string, p: ProductModel.Product): (s: ShownProduct)
    ensures s.id == id && s.sizes.None? && s.colors.None? && s.stock == Some(p.stock)
  {
    ShownProduct(id, None, None, Some(p.stock))
  }

  /**
   * For a stored product nothing is pre-selected, and the add button is
   * disabled, when no add is running, exactly when the stock is 0.
   */
  lemma StoredProductShown(id: string, p: ProductModel.Product)
    ensures FirstListed(ShownOf(id, p).sizes).None? && FirstListed(ShownOf(id, p).colors).None?
    ensures AddDisabled(ShownOf(id, p), false) <==> p.stock == 0
    ensures AddDisabled(ShownOf(id, p), true)
  {
  }

  /** What pressing "Add to Cart" led to. */
  datatype AddOutcome = GoToLogin | SentAdd(productId: ProductRef, quantity: int, size: string, color: string)

  class DetailState {
    var selectedSize: string
    var selectedColor: string
    var quantity: int
    var adding: bool

    /** The stepper shows a quantity between 1 and the cap. */
    predicate InRange(p: ShownProduct)
      reads this
    {
      1 <= quantity <= Cap(p)
    }

    /** The initial state before the product has loaded. */
    constructor ()
      ensures selectedSize == "" && selectedColor == "" && quantity == 1 && !adding
    {
      selectedSize := "";
      selectedColor := "";
      quantity := 1;
      adding := false;
    }

    /** The product arrived: pre-select the first size and colour, when listed. */
    method Loaded(p: ShownProduct)
      modifies this
      ensures FirstListed(p.sizes).Some? ==> selectedSize == FirstListed(p.sizes).value
      ensures FirstListed(p.sizes).None? ==> selectedSize == old(selectedSize)
      ensures FirstListed(p.colors).Some? ==> selectedColor == FirstListed(p.colors).value
      ensures FirstListed(p.colors).None? ==> selectedColor == old(selectedColor)
      ensures quantity == old(quantity) && adding == old(adding)
    {
      var size := FirstListed(p.sizes);
      if size.Some? {
        selectedSize := size.value;
      }
      var color := FirstListed(p.colors);
      if color.Some? {
        selectedColor := color.value;
      }
    }

    /** The − button: one less, but never below 1 (the cart page's rule). */
    method Decrement(p: ShownProduct)
      modifies this
      ensures quantity == Decremented(old(quantity))
      ensures old(InRange(p)) ==> InRange(p)
      ensures selectedSize == old(selectedSize) && selectedColor == old(selectedColor) && adding == old(adding)
    {
      quantity := Decremented(quantity);
    }

    /** The + button: one more, but never above the cap. */
    method Increment(p: ShownProduct)
      modifies this
      ensures quantity == Incremented(old(quantity), Cap(p))
      ensures old(InRange(p)) ==> InRange(p)
      ensures selectedSize == old(selectedSize) && selectedColor == old(selectedColor) && adding == old(adding)
    {
      quantity := Incremented(quantity, Cap(p));
    }

    /**
     * `handleAddToCart`: without a user it goes to the login page and asks
     * nothing of the cart; otherwise it sends the whole product object as the
     * product id, with the current quantity and selections, and is not adding
     * once the call has settled.
     */
    method AddToCart(p: ShownProduct, signedIn: bool) returns (out: AddOutcome)
      modifies this
      ensures !signedIn ==> out == GoToLogin
      ensures signedIn ==> out == SentAdd(ByObject(p.id), quantity, selectedSize, selectedColor)
      ensures quantity == old(quantity) && selectedSize == old(selectedSize) && selectedColor == old(selectedColor)
      ensures signedIn ==> !adding
      ensures !signedIn ==> adding == old(adding)
    {
      if !signedIn {
        return GoToLogin;
      }
      adding := true;
      out := SentAdd(ByObject(p.id), quantity, selectedSize, selectedColor);
      adding := false;
    }
  }

  /**
   * With a negative stock (the update handler does not validate) the cap is
   * negative and a single + press drops the quantity below 1.
   */
  lemma NegativeStockBreaksStepper(p: ShownProduct, q: int)
    requires p.stock.Some? && p.stock.value < 0 && q >= 1
    ensures Incremented(q, Cap(p)) < 1
  {
  }

  /**
   * From any quantity between 1 and a positive cap, every sequence of − and +
   * presses stays between 1 and the cap.
   */
  lemma {:induction false} SteppingStaysInRange(q: int, cap: int, presses: seq<bool>)
    requires cap >= 1 && 1 <= q <= cap
    ensures var r := Pressed(q, cap, presses); 1 <= r <= cap
    decreases |presses|
  {
    if |presses| > 0 {
      var next := if presses[0] then Incremented(q, cap) else Decremented(q);
      SteppingStaysInRange(next, cap, presses[1..]);
    }
  }

  /** The quantity after pressing + (true) or − (false) in turn. */
  function Pressed(q: int, cap: int, presses: seq<bool>): int
    decreases |presses|
  {
    if |presses| == 0 then q
    else Pressed(if presses[0] then Incremented(q, cap) else Decremented(q), cap, presses[1..])
  }

  /** The pieces a product page adds are never merged into an existing line. */
  lemma DetailAddsNeverMerge(items: seq<LineItem>, p: ShownProduct, q: int, size: string, color: string)
    ensures AddLine(items, Selector(ByObject(p.id), Some(size), Some(color)), q) ==
              items + [NewLine(Selector(ByObject(p.id), Some(size), Some(color)), q)]
  {
    var sel := Selector(ByObject(p.id), Some(size), Some(color));
    assert forall i :: 0 <= i < |items| ==> !Matches(items[i], sel);
  }
}
