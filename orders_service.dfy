/** `OrdersService`: order creation from contact info, the order history
    and the enriched cart items, followed by clearing the cart. */
module Orders {
  import opened Errors
  import opened CartLines
  import opened CartItems
  import opened Backend
  import opened ShoppingCart

  /** The contact object the order form hands to `createOrder`, which adds
      `id` and `products` to it in place. */
  class ContactInfo {
    var firstName: string
    var lastName: string
    var email: string
    var phone: string
    var id: Option<int>
    var products: Option<seq<OrderLine>>

    constructor (firstName: string, lastName: string, email: string, phone: string)
      ensures this.firstName == firstName && this.lastName == lastName
      ensures this.email == email && this.phone == phone
      ensures id == None && products == None
    {
      this.firstName := firstName;
      this.lastName := lastName;
      this.email := email;
      this.phone := phone;
      id := None;
      products := None;
    }

    /** The order `JSON.stringify(contactInfo)` describes once `id` and
        `products` are set. */
    function AsOrder(): Order
      reads this
      requires id.Some? && products.Some?
    {
      Order(id.value, firstName, lastName, email, phone, products.value)
    }
  }

  /** `items.map(item => ({id: item.product.id, quantity: item.quantity}))`. */
  function OrderProducts(items: seq<Item>): (products: seq<OrderLine>)
    ensures |products| == |items|
    ensures forall i :: 0 <= i < |items| ==>
              products[i] == OrderLine(items[i].product.id, items[i].quantity)
  {
    if items == [] then [] else [OrderLine(items[0].product.id, items[0].quantity)] + OrderProducts(items[1..])
  }

  /** The id `createOrder` assigns: one more than the number of orders. */
  function NextOrderId(orders: seq<Order>): nat {
    |orders| + 1
  }

  /** Ids as the order list holds them when every order was created
      through `createOrder`: 1, 2, 3, ... */
  predicate SequentialIds(orders: seq<Order>) {
    forall i :: 0 <= i < |orders| ==> orders[i].id == i + 1
  }

  /** With sequential ids the next id is not yet taken, and appending an
      order that carries it keeps the ids sequential. */
  lemma NextOrderIdFresh(orders: seq<Order>, order: Order)
    requires SequentialIds(orders)
    ensures forall o :: o in orders ==> o.id != NextOrderId(orders)
    ensures order.id == NextOrderId(orders) ==> SequentialIds(orders + [order])
  {
  }

  /** The ordered products are the enriched items: a cart line whose
      product is not in the catalog is not ordered. */
  lemma {:induction false} OrderOmitsUnlisted(catalog: seq<Product>, lines: seq<CartLine>, id: int)
    requires !Listed(catalog, id)
    ensures forall ol :: ol in OrderProducts(Join(catalog, lines)) ==> ol.id != id
  {
    var items := Join(catalog, lines);
    var products := OrderProducts(items);
    forall ol | ol in products ensures ol.id != id {
      var k :| 0 <= k < |products| && products[k] == ol;
      assert items[k] in items;
    }
  }

  /** When the catalog lists every product of a cart with one line per
      product, the order carries every line once: `{id, quantity}` for each
      `{productId, quantity}`, in catalog order. */
  lemma {:induction false} OrderCoversCart(catalog: seq<Product>, lines: seq<CartLine>)
    requires DistinctIds(catalog) && Unique(lines) && Covers(catalog, lines)
    ensures var products := OrderProducts(Join(catalog, lines));
            && |products| == |lines|
            && forall l :: l in lines <==> OrderLine(l.productId, l.quantity) in products
  {
    var items := Join(catalog, lines);
    var view := LinesOf(items);
    assert multiset(view) == multiset(lines) by { JoinKeepsCoveredLines(catalog, lines); }
    assert |view| == |lines| by {
      assert |multiset(view)| == |view| && |multiset(lines)| == |lines|;
    }
    forall l ensures l in lines <==> OrderLine(l.productId, l.quantity) in OrderProducts(items) {
      assert l in lines <==> l in view by { assert l in lines <==> l in multiset(view); }
      OrderLineOfView(items, l);
    }
  }

  /** An item's `{id, quantity}` entry is in the order exactly when its
      `{productId, quantity}` line is among the items' lines. */
  lemma {:induction false} OrderLineOfView(items: seq<Item>, l: CartLine)
    ensures l in LinesOf(items) <==> OrderLine(l.productId, l.quantity) in OrderProducts(items)
  {
    var view, products := LinesOf(items), OrderProducts(items);
    if l in view {
      var k :| 0 <= k < |view| && view[k] == l;
      assert products[k] == OrderLine(l.productId, l.quantity);
    }
    if OrderLine(l.productId, l.quantity) in products {
      var k :| 0 <= k < |products| && products[k] == OrderLine(l.productId, l.quantity);
      assert view[k] == l;
    }
  }

  class OrdersService {
    const api: Api
    const cart: ShoppingCartService

    ghost predicate Valid()
      reads this, cart, api
    {
      cart.api == api && cart.Valid()
    }

    constructor (api: Api, cart: ShoppingCartService)
      requires cart.api == api && cart.Valid()
      ensures this.api == api && this.cart == cart
      ensures Valid()
    {
      this.api := api;
      this.cart := cart;
    }

    /** `getOrders`. */
    method GetOrderHistory(reply: Outcome<HttpError>) returns (r: Result<seq<Order>, Rejection>)
      modifies api`log
      ensures api.log == old(api.log) + [GetOrders]
      ensures r == if reply.Pass? then Success(api.orders) else Failure(Rejected(reply.error))
    {
      var fetched := api.GetOrderList(reply);
      r := if fetched.Success? then Success(fetched.value) else Failure(Rejected(fetched.error));
    }

    /** The callback `createOrder` runs once both reads succeeded: stamp
        `id` and `products` on the contact object, POST it, and only once
        that POST succeeded clear the cart. */
    method PlaceOrder(
      contact: ContactInfo, orders: seq<Order>, items: seq<Item>,
      postReply: Outcome<HttpError>, clearReply: Outcome<HttpError>)
      returns (r: Result<ContactInfo, Rejection>)
      requires Valid()
      modifies contact`id, contact`products
      modifies cart`cache, cart`changes, api`cart, api`orders, api`log
      ensures Valid()
      ensures contact.id == Some(NextOrderId(orders))
      ensures contact.products == Some(OrderProducts(items))
      ensures var order := contact.AsOrder();
              if postReply.Fail? then
                && r == Failure(Rejected(postReply.error))
                && api.log == old(api.log) + [PostOrder(order)]
                && api.cart == old(api.cart) && api.orders == old(api.orders)
                && cart.changes == old(cart.changes) && cart.cache == old(cart.cache)
              else
                && api.orders == old(api.orders) + [order]
                && api.log == old(api.log) + [PostOrder(order), DeleteCart]
                && api.cart == (if clearReply.Pass? then [] else old(api.cart))
                && cart.changes == old(cart.changes) + Emitted(clearReply)
                && cart.cache == None
                && r == (if clearReply.Pass? then Success(contact) else Failure(Rejected(clearReply.error)))
    {
      contact.id := Some(NextOrderId(orders));
      contact.products := Some(OrderProducts(items));
      var order := contact.AsOrder();
      var posted := api.PostNewOrder(order, postReply);
      if posted.Fail? {
        return Failure(HandleError(Raw(posted.error)));
      }
      var cleared := cart.RemoveAllItems(clearReply);
      if cleared.Fail? {
        // `createOrder`'s own handler sees the rejection `removeAllItems`
        // already handled, and passes it on unchanged.
        HandleErrorIdempotent(Raw(clearReply.error));
        return Failure(HandleError(cleared.error));
      }
      r := Success(contact);
    }

    /** `createOrder`: read the order history and the enriched cart items
        (both requests are issued before either settles), then place the
        order. Resolves to the same contact object. */
    method CreateOrder(
      contact: ContactInfo,
      catalog: Result<seq<Product>, Rejection>,
      ordersReply: Outcome<HttpError>,
      cartReply: Outcome<HttpError>,
      postReply: Outcome<HttpError>,
      clearReply: Outcome<HttpError>)
      returns (r: Result<ContactInfo, Rejection>)
      requires Valid()
      modifies contact`id, contact`products
      modifies cart`cache, cart`changes, api`cart, api`orders, api`log
      ensures Valid()
      // contact fields are never touched
      ensures contact.firstName == old(contact.firstName) && contact.lastName == old(contact.lastName)
      ensures contact.email == old(contact.email) && contact.phone == old(contact.phone)
      ensures var read := ReadOutcome(old(cart.cache), old(api.cart), cartReply);
              var fetches := [GetOrders] + (if old(cart.cache).None? then [GetCart] else []);
              if ordersReply.Fail? || catalog.Failure? || read.Failure? then
                // a read failed: nothing is stamped, posted or cleared
                && r == Failure(if ordersReply.Fail? then Rejected(ordersReply.error)
                                else if catalog.Failure? then catalog.error
                                else read.error)
                && contact.id == old(contact.id) && contact.products == old(contact.products)
                && api.log == old(api.log) + fetches
                && api.cart == old(api.cart) && api.orders == old(api.orders)
                && cart.changes == old(cart.changes)
                // the settled cart read stays cached
                && cart.cache == Some(read)
              else
                && contact.id == Some(NextOrderId(old(api.orders)))
                && contact.products == Some(OrderProducts(Join(catalog.value, read.value)))
                && var order := contact.AsOrder();
                if postReply.Fail? then
                  // the order was refused: the cart is left as it was
                  && r == Failure(Rejected(postReply.error))
                  && api.log == old(api.log) + fetches + [PostOrder(order)]
                  && api.cart == old(api.cart) && api.orders == old(api.orders)
                  && cart.changes == old(cart.changes)
                  && cart.cache == Some(read)
                else
                  && api.orders == old(api.orders) + [order]
                  && api.log == old(api.log) + fetches + [PostOrder(order), DeleteCart]
                  && api.cart == (if clearReply.Pass? then [] else old(api.cart))
                  && cart.changes == old(cart.changes) + Emitted(clearReply)
                  && cart.cache == None
                  && r == (if clearReply.Pass? then Success(contact) else Failure(Rejected(clearReply.error)))
    {
      ghost var read := ReadOutcome(cart.cache, api.cart, cartReply);
      ghost var fetches := [GetOrders] + (if cart.cache.None? then [GetCart] else []);
      ghost var log0 := api.log;
      var orders := GetOrderHistory(ordersReply);
      var items := cart.GetItems(catalog, cartReply);
      assert api.log == log0 + fetches;
      if orders.Failure? {
        return Failure(orders.error);
      }
      if items.Failure? {
        return Failure(items.error);
      }
      assert items.value == Join(catalog.value, read.value);
      r := PlaceOrder(contact, orders.value, items.value, postReply, clearReply);
      ghost var order := contact.AsOrder();
      assert postReply.Fail? ==> api.log == log0 + fetches + [PostOrder(order)];
      assert postReply.Pass? ==> api.log == log0 + fetches + [PostOrder(order), DeleteCart];
    }
  }
}
