/** The remote API the two services talk to, seen through HTTP: the stored
    cart lines, the stored orders, and the log of requests it has
    received. Whether a request succeeds is an input (`reply`); a request
    that fails reaches the log but changes nothing. */
module Backend {
  import opened Errors
  import opened CartLines

  /** One `{id, quantity}` entry of an order's `products`. */
  datatype OrderLine = OrderLine(id: int, quantity: int)

  /** An order as posted: the contact fields plus `id` and `products`. */
  datatype Order = Order(
    id: int,
    firstName: string,
    lastName: string,
    email: string,
    phone: string,
    products: seq<OrderLine>)

  /** The HTTP requests the core issues. */
  datatype Request =
    | GetCart                         // GET    /shopping-cart
    | PostLine(line: CartLine)        // POST   /shopping-cart      {productId, quantity}
    | PutQuantity(productId: int, quantity: int)  // PUT /shopping-cart/{productId} {quantity}
    | DeleteLine(productId: int)      // DELETE /shopping-cart/{productId}
    | DeleteCart                      // DELETE /shopping-cart/
    | GetOrders                       // GET    /orders
    | PostOrder(order: Order)         // POST   /orders

  /** Number of `GET /shopping-cart` requests in a log. */
  function Fetches(log: seq<Request>): (n: nat)
    ensures n <= |log|
    ensures forall i :: 0 <= i < |log| && log[i] == GetCart ==> n > 0
  {
    if log == [] then 0
    else Fetches(log[..|log| - 1]) + (if log[|log| - 1] == GetCart then 1 else 0)
  }

  lemma {:induction false} FetchesAppend(log: seq<Request>, more: seq<Request>)
    ensures Fetches(log + more) == Fetches(log) + Fetches(more)
  {
    if more == [] {
      assert log + more == log;
    } else {
      var whole := log + more;
      assert whole[..|whole| - 1] == log + more[..|more| - 1];
      FetchesAppend(log, more[..|more| - 1]);
    }
  }

  class Api {
    var cart: seq<CartLine>
    var orders: seq<Order>
    var log: seq<Request>

    constructor (cart0: seq<CartLine>, orders0: seq<Order>)
      ensures cart == cart0 && orders == orders0 && log == []
    {
      cart := cart0;
      orders := orders0;
      log := [];
    }

    method GetCartLines(reply: Outcome<HttpError>) returns (r: Result<seq<CartLine>, HttpError>)
      modifies this`log
      ensures log == old(log) + [GetCart]
      ensures r == if reply.Pass? then Success(cart) else Failure(reply.error)
    {
      log := log + [GetCart];
      r := if reply.Pass? then Success(cart) else Failure(reply.error);
    }

    /** POST appends the line it carries. */
    method PostCartLine(line: CartLine, reply: Outcome<HttpError>) returns (r: Outcome<HttpError>)
      modifies this`log, this`cart
      ensures log == old(log) + [PostLine(line)]
      ensures r == reply
      ensures cart == if reply.Pass? then old(cart) + [line] else old(cart)
    {
      log := log + [PostLine(line)];
      if reply.Pass? {
        cart := cart + [line];
      }
      r := reply;
    }

    /** PUT replaces the quantity of the line for `productId`. */
    method PutCartQuantity(productId: int, quantity: int, reply: Outcome<HttpError>) returns (r: Outcome<HttpError>)
      modifies this`log, this`cart
      ensures log == old(log) + [PutQuantity(productId, quantity)]
      ensures r == reply
      ensures cart == if reply.Pass? then SetQuantity(old(cart), productId, quantity) else old(cart)
    {
      log := log + [PutQuantity(productId, quantity)];
      if reply.Pass? {
        cart := SetQuantity(cart, productId, quantity);
      }
      r := reply;
    }

    /** DELETE by id removes the line for `productId`. */
    method DeleteCartLine(productId: int, reply: Outcome<HttpError>) returns (r: Outcome<HttpError>)
      modifies this`log, this`cart
      ensures log == old(log) + [DeleteLine(productId)]
      ensures r == reply
      ensures cart == if reply.Pass? then RemoveLine(old(cart), productId) else old(cart)
    {
      log := log + [DeleteLine(productId)];
      if reply.Pass? {
        cart := RemoveLine(cart, productId);
      }
      r := reply;
    }

    /** DELETE on the collection empties the cart. */
    method DeleteWholeCart(reply: Outcome<HttpError>) returns (r: Outcome<HttpError>)
      modifies this`log, this`cart
      ensures log == old(log) + [DeleteCart]
      ensures r == reply
      ensures cart == if reply.Pass? then [] else old(cart)
    {
      log := log + [DeleteCart];
      if reply.Pass? {
        cart := [];
      }
      r := reply;
    }

    method GetOrderList(reply: Outcome<HttpError>) returns (r: Result<seq<Order>, HttpError>)
      modifies this`log
      ensures log == old(log) + [GetOrders]
      ensures r == if reply.Pass? then Success(orders) else Failure(reply.error)
    {
      log := log + [GetOrders];
      r := if reply.Pass? then Success(orders) else Failure(reply.error);
    }

    /** POST appends the order it carries. */
    method PostNewOrder(order: Order, reply: Outcome<HttpError>) returns (r: Outcome<HttpError>)
      modifies this`log, this`orders
      ensures log == old(log) + [PostOrder(order)]
      ensures r == reply
      ensures orders == if reply.Pass? then old(orders) + [order] else old(orders)
    {
      log := log + [PostOrder(order)];
      if reply.Pass? {
        orders := orders + [order];
      }
      r := reply;
    }
  }
}
