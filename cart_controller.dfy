/**
 * The cart aggregate of backend/controllers/cartController.js: one sequence of
 * line items per user, keyed by (product id, size, color), with the add, update,
 * remove, clear and view handlers and the `formatCartResponse` total.
 */
module CartController {
  import opened Common
  import opened ProductModel

  /**
   * What a request sends as `productId`: the id string, or the whole product
   * object (the product detail page passes the object). Mongoose stores the
   * object's `_id` either way, but the handlers compare with `===`, and no
   * object is `===` to a string.
   */
  datatype ProductRef = ById(id: string) | ByObject(objectId: string)

  /** The product id stored for a reference. */
  function StoredId(ref: ProductRef): string
  {
    match ref
    case ById(id) => id
    case ByObject(id) => id
  }

  /** The identity of a line item: product, size and color; a missing size or color is part of it. */
  datatype Key = Key(productId: string, size: Option<string>, color: Option<string>)

  /** One element of `cart.products`. */
  datatype LineItem = LineItem(productId: string, quantity: int, size: Option<string>, color: Option<string>)

  /** The (productId, size, color) triple of a request body. */
  datatype Selector = Selector(ref: ProductRef, size: Option<string>, color: Option<string>)

  function KeyOf(p: LineItem): Key
  {
    Key(p.productId, p.size, p.color)
  }

  /** The key a request would store. */
  function SelectorKey(sel: Selector): Key
  {
    Key(StoredId(sel.ref), sel.size, sel.color)
  }

  /** `p.product.toString() === productId && p.size === size && p.color === color`. */
  predicate Matches(p: LineItem, sel: Selector)
  {
    sel.ref.ById? && KeyOf(p) == SelectorKey(sel)
  }

  /** The cart invariant: no two line items share a key. */
  predicate NoDuplicateKeys(items: seq<LineItem>)
  {
    forall i, j :: 0 <= i < j < |items| ==> KeyOf(items[i]) != KeyOf(items[j])
  }

  /** `findIndex`: the first matching position, or -1. */
  function FindIndex(items: seq<LineItem>, sel: Selector): (r: int)
    ensures -1 <= r < |items|
    ensures r == -1 <==> forall i :: 0 <= i < |items| ==> !Matches(items[i], sel)
    ensures r >= 0 ==> Matches(items[r], sel) && forall i :: 0 <= i < r ==> !Matches(items[i], sel)
  {
    if |items| == 0 then -1
    else if Matches(items[0], sel) then 0
    else
      var k := FindIndex(items[1..], sel);
      if k == -1 then -1 else k + 1
  }

  /** The new line item that `push` appends. */
  function NewLine(sel: Selector, quantity: int): LineItem
  {
    LineItem(StoredId(sel.ref), quantity, sel.size, sel.color)
  }

  /** `addToCart` on the item list: merge into the matching item by adding, or append. */
  function AddLine(items: seq<LineItem>, sel: Selector, quantity: int): (r: seq<LineItem>)
    ensures var i := FindIndex(items, sel);
            i >= 0 ==> && |r| == |items|
                       && r[i] == items[i].(quantity := items[i].quantity + quantity)
                       && forall j :: 0 <= j < |items| && j != i ==> r[j] == items[j]
    ensures FindIndex(items, sel) == -1 ==> r == items + [NewLine(sel, quantity)]
  {
    var i := FindIndex(items, sel);
    if i > -1 then items[i := items[i].(quantity := items[i].quantity + quantity)]
    else items + [NewLine(sel, quantity)]
  }

  lemma AddLineCases(items: seq<LineItem>, sel: Selector, quantity: int)
    ensures var i := FindIndex(items, sel);
            AddLine(items, sel, quantity)
            == if i > -1 then items[i := items[i].(quantity := items[i].quantity + quantity)]
               else items + [NewLine(sel, quantity)]
  {
  }

  /** `updateCartItem` on the item list: overwrite the matching item's quantity; None when no item matches. */
  function UpdateLine(items: seq<LineItem>, sel: Selector, quantity: int): (r: Option<seq<LineItem>>)
    ensures r.None? <==> forall i :: 0 <= i < |items| ==> !Matches(items[i], sel)
    ensures r.Some? ==> var i := FindIndex(items, sel);
                        && |r.value| == |items|
                        && r.value[i].quantity == quantity
                        && KeyOf(r.value[i]) == KeyOf(items[i])
                        && forall j :: 0 <= j < |items| && j != i ==> r.value[j] == items[j]
  {
    var i := FindIndex(items, sel);
    if i == -1 then None else Some(items[i := items[i].(quantity := quantity)])
  }

  /** `removeFromCart` on the item list: the `filter` that drops every matching item. */
  function RemoveLines(items: seq<LineItem>, sel: Selector): (r: seq<LineItem>)
    ensures |r| <= |items|
  {
    if |items| == 0 then []
    else if Matches(items[0], sel) then RemoveLines(items[1..], sel)
    else [items[0]] + RemoveLines(items[1..], sel)
  }

  /** The live-joined product of a line item: `populate` yields null for a deleted product. */
  datatype ViewItem = ViewItem(productId: string, product: Option<Product>, quantity: int,
                               size: Option<string>, color: Option<string>)

  /** The `{ items, total }` body of every cart response. */
  datatype CartView = CartView(items: seq<ViewItem>, total: int)

  function Lookup(catalog: map<string, Product>, id: string): Option<Product>
  {
    if id in catalog then Some(catalog[id]) else None
  }

  /** `item.product?.price || 0`: a deleted product counts as price 0. */
  function PriceOrZero(product: Option<Product>): int
  {
    if product.Some? then product.value.price else 0
  }

  function Populate(items: seq<LineItem>, catalog: map<string, Product>): (r: seq<ViewItem>)
    ensures |r| == |items|
    ensures forall i :: 0 <= i < |items| ==>
              r[i] == ViewItem(items[i].productId, Lookup(catalog, items[i].productId),
                               items[i].quantity, items[i].size, items[i].color)
  {
    if |items| == 0 then []
    else
      [ViewItem(items[0].productId, Lookup(catalog, items[0].productId),
                items[0].quantity, items[0].size, items[0].color)]
      + Populate(items[1..], catalog)
  }

  /** The `reduce` of `formatCartResponse`: the sum of price times quantity. */
  function ViewTotal(items: seq<ViewItem>): int
  {
    if |items| == 0 then 0
    else PriceOrZero(items[0].product) * items[0].quantity + ViewTotal(items[1..])
  }

  /** Price times quantity of one stored line, with the product looked up in the catalog. */
  function LineAmount(p: LineItem, catalog: map<string, Product>): int
  {
    PriceOrZero(Lookup(catalog, p.productId)) * p.quantity
  }

  /** The cart total as a sum over the stored items. */
  function CartTotal(items: seq<LineItem>, catalog: map<string, Product>): int
  {
    if |items| == 0 then 0 else LineAmount(items[0], catalog) + CartTotal(items[1..], catalog)
  }

  function FormatCartResponse(items: seq<LineItem>, catalog: map<string, Product>): (r: CartView)
    ensures r.items == Populate(items, catalog) && |r.items| == |items|
    ensures r.total == CartTotal(items, catalog)
  {
    var view := Populate(items, catalog);
    ViewTotalOfPopulate(items, catalog);
    CartView(view, ViewTotal(view))
  }

  /** The view a user without a cart gets. */
  const EmptyView: CartView := CartView([], 0)

  /** The items of a user's cart; no cart reads as no items. */
  function CartOf(carts: map<string, seq<LineItem>>, userId: string): seq<LineItem>
  {
    if userId in carts then carts[userId] else []
  }

  lemma {:induction false} ViewTotalOfPopulate(items: seq<LineItem>, catalog: map<string, Product>)
    ensures ViewTotal(Populate(items, catalog)) == CartTotal(items, catalog)
  {
    if |items| > 0 {
      ViewTotalOfPopulate(items[1..], catalog);
      assert Populate(items, catalog)[1..] == Populate(items[1..], catalog);
    }
  }

  lemma {:induction false} CartTotalAppend(a: seq<LineItem>, b: seq<LineItem>, catalog: map<string, Product>)
    ensures CartTotal(a + b, catalog) == CartTotal(a, catalog) + CartTotal(b, catalog)
  {
    if |a| > 0 {
      assert (a + b)[1..] == a[1..] + b;
      CartTotalAppend(a[1..], b, catalog);
    } else {
      assert a + b == b;
    }
  }

  lemma {:induction false} CartTotalReplace(items: seq<LineItem>, i: nat, x: LineItem, catalog: map<string, Product>)
    requires i < |items|
    ensures CartTotal(items[i := x], catalog)
            == CartTotal(items, catalog) - LineAmount(items[i], catalog) + LineAmount(x, catalog)
  {
    if i > 0 {
      assert items[i := x][1..] == items[1..][i - 1 := x];
      CartTotalReplace(items[1..], i - 1, x, catalog);
    } else {
      assert items[i := x][1..] == items[1..];
    }
  }

  /** Adding `q` of a product priced P raises the cart total by P * q, whether the add merges or appends. */
  lemma AddLineTotal(items: seq<LineItem>, sel: Selector, q: int, catalog: map<string, Product>)
    ensures CartTotal(AddLine(items, sel, q), catalog)
            == CartTotal(items, catalog) + PriceOrZero(Lookup(catalog, StoredId(sel.ref))) * q
  {
    var i := FindIndex(items, sel);
    if i >= 0 {
      CartTotalReplace(items, i, items[i].(quantity := items[i].quantity + q), catalog);
      assert items[i].productId == StoredId(sel.ref);
    } else {
      CartTotalAppend(items, [NewLine(sel, q)], catalog);
    }
  }

  /** Merging keeps the key set: an add by id leaves no duplicate where there was none. */
  lemma AddLinePreservesUniqueness(items: seq<LineItem>, sel: Selector, q: int)
    requires NoDuplicateKeys(items)
    requires sel.ref.ById?
    ensures NoDuplicateKeys(AddLine(items, sel, q))
  {
    var r := AddLine(items, sel, q);
    if FindIndex(items, sel) == -1 {
      forall i | 0 <= i < |items| ensures KeyOf(r[i]) != KeyOf(r[|items|]) {
        assert !Matches(items[i], sel);
      }
    }
  }

  /** An item is only ever found by a key it carries. */
  lemma FoundByOwnKey(items: seq<LineItem>, sel: Selector)
    requires sel.ref.ById?
    requires exists i :: 0 <= i < |items| && KeyOf(items[i]) == SelectorKey(sel)
    ensures FindIndex(items, sel) >= 0
  {
    var i :| 0 <= i < |items| && KeyOf(items[i]) == SelectorKey(sel);
    assert Matches(items[i], sel);
  }

  /**
   * Adding the same (productId, size, color) twice by id, to a cart without
   * that key, leaves exactly one new line item with the two quantities summed.
   */
  lemma AddTwiceMerges(items: seq<LineItem>, sel: Selector, q1: int, q2: int)
    requires sel.ref.ById?
    requires forall i :: 0 <= i < |items| ==> KeyOf(items[i]) != SelectorKey(sel)
    ensures AddLine(AddLine(items, sel, q1), sel, q2) == items + [NewLine(sel, q1 + q2)]
  {
    var once := AddLine(items, sel, q1);
    assert FindIndex(items, sel) == -1 by {
      forall i | 0 <= i < |items| ensures !Matches(items[i], sel) { }
    }
    assert once == items + [NewLine(sel, q1)];
    assert Matches(once[|items|], sel);
    assert forall j :: 0 <= j < |items| ==> once[j] == items[j] && !Matches(once[j], sel);
    assert FindIndex(once, sel) == |items|;
  }

  /**
   * A whole product object never matches, so each add of it appends: two adds
   * of one product object to an empty cart give two line items with one key.
   */
  lemma AddByObjectDuplicates(id: string, size: Option<string>, color: Option<string>, q1: int, q2: int)
    ensures var sel := Selector(ByObject(id), size, color);
            var r := AddLine(AddLine([], sel, q1), sel, q2);
            && r == [NewLine(sel, q1), NewLine(sel, q2)]
            && !NoDuplicateKeys(r)
  {
    var sel := Selector(ByObject(id), size, color);
    var r := AddLine(AddLine([], sel, q1), sel, q2);
    assert KeyOf(r[0]) == KeyOf(r[1]);
  }

  /** What survives a removal: exactly the items that do not match, and only those. */
  lemma {:induction false} RemoveLinesMembers(items: seq<LineItem>, sel: Selector)
    ensures forall x :: x in RemoveLines(items, sel) <==> x in items && !Matches(x, sel)
  {
    if |items| > 0 {
      RemoveLinesMembers(items[1..], sel);
      assert items == [items[0]] + items[1..];
    }
  }

  /** Removing a key no item carries leaves the list as it was. */
  lemma {:induction false} RemoveAbsentKey(items: seq<LineItem>, sel: Selector)
    requires forall i :: 0 <= i < |items| ==> !Matches(items[i], sel)
    ensures RemoveLines(items, sel) == items
  {
    if |items| > 0 {
      assert !Matches(items[0], sel);
      RemoveAbsentKey(items[1..], sel);
      assert [items[0]] + items[1..] == items;
    }
  }

  /** The filter distributes over concatenation: what survives keeps its order. */
  lemma {:induction false} RemoveLinesAppend(a: seq<LineItem>, b: seq<LineItem>, sel: Selector)
    ensures RemoveLines(a + b, sel) == RemoveLines(a, sel) + RemoveLines(b, sel)
  {
    if |a| == 0 {
      assert a + b == b;
    } else {
      assert (a + b)[1..] == a[1..] + b;
      RemoveLinesAppend(a[1..], b, sel);
    }
  }

  /** Removing a key that occurs once drops exactly that item and keeps the rest in order. */
  lemma RemoveUniqueKey(items: seq<LineItem>, sel: Selector)
    requires NoDuplicateKeys(items)
    requires FindIndex(items, sel) >= 0
    ensures var i := FindIndex(items, sel);
            RemoveLines(items, sel) == items[..i] + items[i + 1..]
  {
    var i := FindIndex(items, sel);
    var before, after := items[..i], items[i + 1..];
    NoMatchAfterUniqueKey(items, sel, i, after);
    assert forall j :: 0 <= j < |before| ==> before[j] == items[j];
    assert items == before + [items[i]] + after;
    RemoveLinesDropsOne(before, items[i], after, sel);
  }

  /** A matching item between two runs of non-matching items is the only one removed. */
  lemma RemoveLinesDropsOne(before: seq<LineItem>, x: LineItem, after: seq<LineItem>, sel: Selector)
    requires forall j :: 0 <= j < |before| ==> !Matches(before[j], sel)
    requires Matches(x, sel)
    requires forall j :: 0 <= j < |after| ==> !Matches(after[j], sel)
    ensures RemoveLines(before + [x] + after, sel) == before + after
  {
    RemoveMatchAtEnd(before, x, sel);
    RemoveAbsentKey(after, sel);
    RemoveLinesAppend(before + [x], after, sel);
  }

  lemma RemoveMatchAtEnd(before: seq<LineItem>, x: LineItem, sel: Selector)
    requires forall j :: 0 <= j < |before| ==> !Matches(before[j], sel)
    requires Matches(x, sel)
    ensures RemoveLines(before + [x], sel) == before
  {
    assert [x][1..] == [];
    assert RemoveLines([x], sel) == [];
    RemoveAbsentKey(before, sel);
    RemoveLinesAppend(before, [x], sel);
  }

  lemma NoMatchAfterUniqueKey(items: seq<LineItem>, sel: Selector, i: int, after: seq<LineItem>)
    requires NoDuplicateKeys(items)
    requires 0 <= i < |items| && Matches(items[i], sel)
    requires after == items[i + 1..]
    ensures forall j :: 0 <= j < |after| ==> !Matches(after[j], sel)
  {
    forall j | 0 <= j < |after| ensures !Matches(after[j], sel) {
      assert KeyOf(items[i]) != KeyOf(items[i + 1 + j]);
    }
  }

  /** Removing never creates a duplicate. */
  lemma {:induction false} RemovePreservesUniqueness(items: seq<LineItem>, sel: Selector)
    requires NoDuplicateKeys(items)
    ensures NoDuplicateKeys(RemoveLines(items, sel))
  {
    if |items| > 0 {
      assert NoDuplicateKeys(items[1..]) by {
        forall a, b | 0 <= a < b < |items[1..]| ensures KeyOf(items[1..][a]) != KeyOf(items[1..][b]) {
          assert KeyOf(items[a + 1]) != KeyOf(items[b + 1]);
        }
      }
      RemovePreservesUniqueness(items[1..], sel);
      var rest := RemoveLines(items[1..], sel);
      if !Matches(items[0], sel) {
        RemoveLinesMembers(items[1..], sel);
        forall j | 0 <= j < |rest| ensures KeyOf(items[0]) != KeyOf(rest[j]) {
          assert rest[j] in items[1..];
          var k :| 0 <= k < |items[1..]| && items[1..][k] == rest[j];
          assert KeyOf(items[0]) != KeyOf(items[k + 1]);
        }
        var r := [items[0]] + rest;
        forall a, b | 0 <= a < b < |r| ensures KeyOf(r[a]) != KeyOf(r[b]) {
          if a > 0 { assert r[a] == rest[a - 1] && r[b] == rest[b - 1]; }
        }
      }
    }
  }

  /** Overwriting a quantity changes no key, so the invariant survives an update. */
  lemma UpdatePreservesUniqueness(items: seq<LineItem>, sel: Selector, q: int)
    requires NoDuplicateKeys(items)
    requires UpdateLine(items, sel, q).Some?
    ensures NoDuplicateKeys(UpdateLine(items, sel, q).value)
  {
    var r := UpdateLine(items, sel, q).value;
    forall a, b | 0 <= a < b < |r| ensures KeyOf(r[a]) != KeyOf(r[b]) {
      assert KeyOf(r[a]) == KeyOf(items[a]) && KeyOf(r[b]) == KeyOf(items[b]);
    }
  }

  /** Updating twice with the same value is the same as updating once. */
  lemma UpdateIdempotent(items: seq<LineItem>, sel: Selector, q: int)
    requires UpdateLine(items, sel, q).Some?
    ensures UpdateLine(UpdateLine(items, sel, q).value, sel, q) == UpdateLine(items, sel, q)
  {
    var r := UpdateLine(items, sel, q).value;
    var i := FindIndex(items, sel);
    assert Matches(r[i], sel);
    assert forall j :: 0 <= j < i ==> r[j] == items[j] && !Matches(r[j], sel);
    assert FindIndex(r, sel) == i;
    assert r[i].(quantity := q) == r[i];
    assert r[i := r[i].(quantity := q)] == r;
  }

  /**
   * Add 2 then 3 of ("p1", "M", "Black") gives one line of 5; updating to 1
   * overwrites; removing the key leaves no items and a zero total.
   */
  lemma AddUpdateRemoveScenario(catalog: map<string, Product>)
    ensures var sel := Selector(ById("p1"), Some("M"), Some("Black"));
            var added := AddLine(AddLine([], sel, 2), sel, 3);
            && added == [LineItem("p1", 5, Some("M"), Some("Black"))]
            && UpdateLine(added, sel, 1) == Some([LineItem("p1", 1, Some("M"), Some("Black"))])
            && RemoveLines(UpdateLine(added, sel, 1).value, sel) == []
            && FormatCartResponse([], catalog) == EmptyView
  {
    var sel := Selector(ById("p1"), Some("M"), Some("Black"));
    AddTwiceMerges([], sel, 2, 3);
    assert FindIndex([LineItem("p1", 5, Some("M"), Some("Black"))], sel) == 0;
    var updated := [LineItem("p1", 1, Some("M"), Some("Black"))];
    var added := [LineItem("p1", 5, Some("M"), Some("Black"))];
    assert AddLine(AddLine([], sel, 2), sel, 3) == added;
    assert Matches(added[0], sel);
    assert FindIndex(added, sel) == 0;
    assert added[0 := added[0].(quantity := 1)] == updated;
    assert UpdateLine(AddLine(AddLine([], sel, 2), sel, 3), sel, 1) == Some(updated);
    assert updated[1..] == [];
    assert RemoveLines(updated, sel) == RemoveLines(updated[1..], sel) == [];
  }

  /**
   * The per-user cart collection. Each handler looks up the caller's cart,
   * changes its `products` list and answers with `formatCartResponse`.
   */
  class CartStore {
    var carts: map<string, seq<LineItem>>

    constructor ()
      ensures carts == map[]
    {
      carts := map[];
    }

    /** `addToCart`: creates the cart on first add, then merges or appends. */
    method AddToCart(userId: string, sel: Selector, quantity: int, catalog: map<string, Product>)
      returns (res: Response<CartView>)
      modifies this
      ensures carts == old(carts)[userId := AddLine(CartOf(old(carts), userId), sel, quantity)]
      ensures res == Json(200, FormatCartResponse(carts[userId], catalog))
      ensures res.body.total == CartTotal(CartOf(old(carts), userId), catalog)
                                + PriceOrZero(Lookup(catalog, StoredId(sel.ref))) * quantity
      ensures sel.ref.ById? && NoDuplicateKeys(CartOf(old(carts), userId)) ==> NoDuplicateKeys(carts[userId])
    {
      var products := if userId in carts then carts[userId] else [];
      ghost var cart := products;
      assert cart == CartOf(carts, userId);
      AddLineTotal(cart, sel, quantity, catalog);
      if sel.ref.ById? && NoDuplicateKeys(cart) {
        AddLinePreservesUniqueness(cart, sel, quantity);
      }
      var itemIndex := FindIndex(products, sel);
      AddLineCases(cart, sel, quantity);
      if itemIndex > -1 {
        products := products[itemIndex := products[itemIndex].(quantity := products[itemIndex].quantity + quantity)];
      } else {
        products := products + [NewLine(sel, quantity)];
      }
      ghost var added := AddLine(cart, sel, quantity);
      assert products == added;
      carts := carts[userId := products];
      res := Json(200, FormatCartResponse(products, catalog));
    }

    /** `removeFromCart`: 404 without a cart; otherwise drops every matching item (an absent key is no error). */
    method RemoveFromCart(userId: string, sel: Selector, catalog: map<string, Product>)
      returns (res: Response<CartView>)
      modifies this
      ensures userId !in old(carts) ==> res == Error(404, "Cart not found") && carts == old(carts)
      ensures userId in old(carts) ==>
                && carts == old(carts)[userId := RemoveLines(old(carts)[userId], sel)]
                && res == Json(200, FormatCartResponse(carts[userId], catalog))
      ensures userId in old(carts) && NoDuplicateKeys(old(carts)[userId]) ==> NoDuplicateKeys(carts[userId])
    {
      if userId !in carts {
        return Error(404, "Cart not found");
      }
      var products := RemoveLines(carts[userId], sel);
      if NoDuplicateKeys(carts[userId]) {
        RemovePreservesUniqueness(carts[userId], sel);
      }
      carts := carts[userId := products];
      res := Json(200, FormatCartResponse(products, catalog));
    }

    /** `getCart`: a missing cart reads as an empty view, not an error. */
    method GetCart(userId: string, catalog: map<string, Product>) returns (res: Response<CartView>)
      ensures userId !in carts ==> res == Json(200, EmptyView)
      ensures userId in carts ==> res == Json(200, FormatCartResponse(carts[userId], catalog))
      ensures res.Json? && res.body.total == CartTotal(CartOf(carts, userId), catalog)
    {
      if userId !in carts {
        return Json(200, EmptyView);
      }
      res := Json(200, FormatCartResponse(carts[userId], catalog));
    }

    /** `updateCartItem`: 404 without a cart or without a matching item; otherwise overwrites the quantity. */
    method UpdateCartItem(userId: string, sel: Selector, quantity: int, catalog: map<string, Product>)
      returns (res: Response<CartView>)
      modifies this
      ensures userId !in old(carts) ==> res == Error(404, "Cart not found") && carts == old(carts)
      ensures userId in old(carts) && UpdateLine(old(carts)[userId], sel, quantity).None? ==>
                res == Error(404, "Product not in cart") && carts == old(carts)
      ensures userId in old(carts) && UpdateLine(old(carts)[userId], sel, quantity).Some? ==>
                && carts == old(carts)[userId := UpdateLine(old(carts)[userId], sel, quantity).value]
                && res == Json(200, FormatCartResponse(carts[userId], catalog))
    {
      if userId !in carts {
        return Error(404, "Cart not found");
      }
      var products := carts[userId];
      var itemIndex := FindIndex(products, sel);
      if itemIndex == -1 {
        return Error(404, "Product not in cart");
      }
      products := products[itemIndex := products[itemIndex].(quantity := quantity)];
      carts := carts[userId := products];
      res := Json(200, FormatCartResponse(products, catalog));
    }

    /** `clearCart`: 404 without a cart; otherwise keeps the cart with no items. */
    method ClearCart(userId: string, catalog: map<string, Product>) returns (res: Response<CartView>)
      modifies this
      ensures userId !in old(carts) ==> res == Error(404, "Cart not found") && carts == old(carts)
      ensures userId in old(carts) ==> carts == old(carts)[userId := []] && res == Json(200, EmptyView)
    {
      if userId !in carts {
        return Error(404, "Cart not found");
      }
      carts := carts[userId := []];
      res := Json(200, FormatCartResponse([], catalog));
    }
  }
}
