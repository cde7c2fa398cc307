/**
 * Checkout and the order store of backend/controllers/orderController.js:
 * `placeOrder` freezes the cart into an order priced at checkout time and empties
 * the cart; owners list and delete their orders; an administrator lists all
 * orders and writes any status.
 */
module OrderController {
  import opened Common
  import opened ProductModel
  import opened CartController

  /** One element of `order.products`: no size and no color survive checkout. */
  datatype OrderLine = OrderLine(productId: string, quantity: int, price: int)

  datatype Order = Order(id: string, user: string, products: seq<OrderLine>, totalPrice: int,
                         status: string, createdAt: int)

  /** The status every new order gets (capitalised; the admin page offers only lower-case names). */
  const PendingStatus: string := "Pending"

  /** The TypeError `item.product._id` raises when a cart item's product was deleted. */
  const NullProductMessage: string := "Cannot read properties of null (reading '_id')"

  /** Every cart item's product still exists, so `populate` resolves all of them. */
  predicate AllInCatalog(items: seq<LineItem>, catalog: map<string, Product>)
  {
    forall i :: 0 <= i < |items| ==> items[i].productId in catalog
  }

  /** The `map` that builds the order lines: product, cart quantity and the price read now. */
  function Snapshot(items: seq<LineItem>, catalog: map<string, Product>): (r: seq<OrderLine>)
    requires AllInCatalog(items, catalog)
    ensures |r| == |items|
    ensures forall i :: 0 <= i < |items| ==>
              r[i] == OrderLine(items[i].productId, items[i].quantity, catalog[items[i].productId].price)
  {
    if |items| == 0 then []
    else
      [OrderLine(items[0].productId, items[0].quantity, catalog[items[0].productId].price)]
      + Snapshot(items[1..], catalog)
  }

  /** The `reduce` over the frozen lines: the sum of price times quantity. */
  function LinesTotal(lines: seq<OrderLine>): int
  {
    if |lines| == 0 then 0 else lines[0].price * lines[0].quantity + LinesTotal(lines[1..])
  }

  /**
   * The order total computed from the snapshot is the total of the cart view
   * at the moment of checkout (no shipping in either).
   */
  lemma {:induction false} SnapshotTotal(items: seq<LineItem>, catalog: map<string, Product>)
    requires AllInCatalog(items, catalog)
    ensures LinesTotal(Snapshot(items, catalog)) == CartTotal(items, catalog)
  {
    if |items| > 0 {
      assert AllInCatalog(items[1..], catalog) by {
        forall i | 0 <= i < |items[1..]| ensures items[1..][i].productId in catalog {
          assert items[1..][i] == items[i + 1];
        }
      }
      SnapshotTotal(items[1..], catalog);
      assert Snapshot(items, catalog)[1..] == Snapshot(items[1..], catalog);
    }
  }

  /** Two cart lines that differ only in size or color become the same order line. */
  lemma SnapshotForgetsVariant(a: LineItem, b: LineItem, catalog: map<string, Product>)
    requires a.productId == b.productId && a.quantity == b.quantity && a.productId in catalog
    requires KeyOf(a) != KeyOf(b)
    ensures Snapshot([a], catalog) == Snapshot([b], catalog)
  {
  }

  /** The first order with the given id (and, when an owner is given, that owner), or -1. */
  function FindOrder(orders: seq<Order>, id: string, owner: Option<string>): (r: int)
    ensures -1 <= r < |orders|
    ensures r == -1 <==>
              forall i :: 0 <= i < |orders| ==> !(orders[i].id == id && (owner.Some? ==> orders[i].user == owner.value))
    ensures r >= 0 ==> orders[r].id == id && (owner.Some? ==> orders[r].user == owner.value)
  {
    if |orders| == 0 then -1
    else if orders[0].id == id && (owner.Some? ==> orders[0].user == owner.value) then 0
    else
      var k := FindOrder(orders[1..], id, owner);
      if k == -1 then -1 else k + 1
  }

  /** The orders of one user, in stored order. */
  function OwnedBy(orders: seq<Order>, userId: string): (r: seq<Order>)
    ensures forall o :: o in r <==> o in orders && o.user == userId
  {
    if |orders| == 0 then []
    else if orders[0].user == userId then [orders[0]] + OwnedBy(orders[1..], userId)
    else OwnedBy(orders[1..], userId)
  }

  function Reverse(s: seq<Order>): (r: seq<Order>)
    ensures |r| == |s|
    ensures forall i :: 0 <= i < |s| ==> r[i] == s[|s| - 1 - i]
  {
    if |s| == 0 then [] else Reverse(s[1..]) + [s[0]]
  }

  /** Stored order is creation order: `createdAt` never decreases along the sequence. */
  predicate OldestFirst(s: seq<Order>)
  {
    forall i, j :: 0 <= i < j < |s| ==> s[i].createdAt <= s[j].createdAt
  }

  predicate NewestFirst(s: seq<Order>)
  {
    forall i, j :: 0 <= i < j < |s| ==> s[i].createdAt >= s[j].createdAt
  }

  predicate UniqueIds(s: seq<Order>)
  {
    forall i, j :: 0 <= i < j < |s| ==> s[i].id != s[j].id
  }

  /** Removing one order keeps ids unique, the order of creation and every total. */
  lemma RemoveAtKeepsStore(s: seq<Order>, i: int)
    requires 0 <= i < |s|
    requires UniqueIds(s) && OldestFirst(s)
    requires forall k :: 0 <= k < |s| ==> s[k].totalPrice == LinesTotal(s[k].products)
    ensures var r := s[..i] + s[i + 1..];
            && UniqueIds(r) && OldestFirst(r)
            && forall k :: 0 <= k < |r| ==> r[k].totalPrice == LinesTotal(r[k].products)
  {
    var r := s[..i] + s[i + 1..];
    assert forall k :: 0 <= k < |r| ==> r[k] == s[if k < i then k else k + 1];
  }

  lemma {:induction false} OwnedByKeepsOrder(orders: seq<Order>, userId: string)
    requires OldestFirst(orders)
    ensures OldestFirst(OwnedBy(orders, userId))
  {
    if |orders| > 0 {
      OwnedByKeepsOrder(orders[1..], userId);
      var rest := OwnedBy(orders[1..], userId);
      if orders[0].user == userId {
        forall j | 0 <= j < |rest| ensures orders[0].createdAt <= rest[j].createdAt {
          assert rest[j] in orders[1..];
        }
      }
    }
  }

  lemma {:induction false} OwnedByKeepsUniqueIds(orders: seq<Order>, userId: string)
    requires UniqueIds(orders)
    ensures UniqueIds(OwnedBy(orders, userId))
  {
    if |orders| > 0 {
      OwnedByKeepsUniqueIds(orders[1..], userId);
      var rest := OwnedBy(orders[1..], userId);
      if orders[0].user == userId {
        forall j | 0 <= j < |rest| ensures orders[0].id != rest[j].id {
          assert rest[j] in orders[1..];
        }
      }
    }
  }

  /** The listing answer: exactly the selected orders, each once, newest first. */
  lemma ListingNewestFirst(s: seq<Order>)
    requires OldestFirst(s) && UniqueIds(s)
    ensures NewestFirst(Reverse(s)) && UniqueIds(Reverse(s))
    ensures forall o :: o in Reverse(s) <==> o in s
  {
    var r := Reverse(s);
    forall o | o in s ensures o in r {
      var i :| 0 <= i < |s| && s[i] == o;
      assert r[|s| - 1 - i] == o;
    }
  }

  /** The stored orders. */
  class OrderStore {
    var orders: seq<Order>

    /** Ids are unique, orders are stored oldest first, and every total is its lines' total. */
    ghost predicate Valid()
      reads this
    {
      && UniqueIds(orders)
      && OldestFirst(orders)
      && forall i :: 0 <= i < |orders| ==> orders[i].totalPrice == LinesTotal(orders[i].products)
    }

    constructor ()
      ensures Valid() && orders == []
    {
      orders := [];
    }

    /**
     * `placeOrder`. `newId` is the id the database assigns and `now` the
     * clock; neither repeats nor runs backwards.
     */
    method PlaceOrder(carts: CartStore, userId: string, catalog: map<string, Product>, newId: string, now: int)
      returns (res: Response<Order>)
      requires Valid()
      requires forall i :: 0 <= i < |orders| ==> orders[i].id != newId && orders[i].createdAt <= now
      modifies this, carts
      ensures Valid()
      ensures CartOf(old(carts.carts), userId) == [] ==>
                && res == Error(400, "Cart is empty")
                && orders == old(orders) && carts.carts == old(carts.carts)
      ensures CartOf(old(carts.carts), userId) != [] && !AllInCatalog(old(carts.carts)[userId], catalog) ==>
                && res == Error(500, NullProductMessage)
                && orders == old(orders) && carts.carts == old(carts.carts)
      ensures CartOf(old(carts.carts), userId) != [] && AllInCatalog(old(carts.carts)[userId], catalog) ==>
                var lines := Snapshot(old(carts.carts)[userId], catalog);
                var placed := Order(newId, userId, lines, LinesTotal(lines), PendingStatus, now);
                && res == Json(201, placed)
                && orders == old(orders) + [placed]
                && carts.carts == old(carts.carts)[userId := []]
                && placed.totalPrice == CartTotal(old(carts.carts)[userId], catalog)
    {
      if userId !in carts.carts || |carts.carts[userId]| == 0 {
        return Error(400, "Cart is empty");
      }
      var items := carts.carts[userId];
      if !AllInCatalog(items, catalog) {
        return Error(500, NullProductMessage);
      }
      var products := Snapshot(items, catalog);
      var totalPrice := LinesTotal(products);
      SnapshotTotal(items, catalog);
      var order := Order(newId, userId, products, totalPrice, PendingStatus, now);
      orders := orders + [order];
      carts.carts := carts.carts[userId := []];
      res := Json(201, order);
    }

    /** `getUserOrders`: the caller's orders and no others, newest first. */
    method GetUserOrders(userId: string) returns (r: seq<Order>)
      requires Valid()
      ensures forall o :: o in r <==> o in orders && o.user == userId
      ensures NewestFirst(r) && UniqueIds(r)
    {
      var mine := OwnedBy(orders, userId);
      OwnedByKeepsOrder(orders, userId);
      OwnedByKeepsUniqueIds(orders, userId);
      ListingNewestFirst(mine);
      r := Reverse(mine);
    }

    /** `getAllOrders`: every order, newest first. */
    method GetAllOrders() returns (r: seq<Order>)
      requires Valid()
      ensures forall o :: o in r <==> o in orders
      ensures |r| == |orders| && NewestFirst(r)
    {
      ListingNewestFirst(orders);
      r := Reverse(orders);
    }

    /** `deleteOrder`: removes the order only when both its id and its owner match. */
    method DeleteOrder(userId: string, orderId: string) returns (res: Response<string>)
      requires Valid()
      modifies this
      ensures Valid()
      ensures var i := FindOrder(old(orders), orderId, Some(userId));
              && (i == -1 ==> res == Error(404, "Order not found or not yours") && orders == old(orders))
              && (i >= 0 ==> && res == Json(200, "Order deleted successfully")
                             && orders == old(orders)[..i] + old(orders)[i + 1..])
    {
      var i := FindOrder(orders, orderId, Some(userId));
      if i == -1 {
        return Error(404, "Order not found or not yours");
      }
      RemoveAtKeepsStore(orders, i);
      orders := orders[..i] + orders[i + 1..];
      res := Json(200, "Order deleted successfully");
    }

    /** `updateOrderStatus`: writes any status, with no transition check; 404 for an unknown id. */
    method UpdateOrderStatus(orderId: string, status: string) returns (res: Response<Order>)
      requires Valid()
      modifies this
      ensures Valid()
      ensures var i := FindOrder(old(orders), orderId, None);
              && (i == -1 ==> res == Error(404, "Order not found") && orders == old(orders))
              && (i >= 0 ==> && orders == old(orders)[i := old(orders)[i].(status := status)]
                             && res == Json(200, orders[i]))
    {
      var i := FindOrder(orders, orderId, None);
      if i == -1 {
        return Error(404, "Order not found");
      }
      orders := orders[i := orders[i].(status := status)];
      res := Json(200, orders[i]);
    }
  }
}
