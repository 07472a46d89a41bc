/** `ShoppingCartService`: the cached snapshot of the cart, the requests
    each operation issues, and the change events it emits. Each remote
    call's success or failure is a parameter (`...Reply`). */
module ShoppingCart {
  import opened Errors
  import opened CartLines
  import opened CartItems
  import opened Backend

  /** What a fetch of the cart settles to: the lines, or the rejection. */
  type Snapshot = Result<seq<CartLine>, Rejection>

  /** The value a cart read settles to: the cached snapshot when there is
      one, otherwise the result of a fresh `GET /shopping-cart`. */
  function ReadOutcome(cache: Option<Snapshot>, cart: seq<CartLine>, reply: Outcome<HttpError>): Snapshot {
    if cache.Some? then cache.value
    else if reply.Pass? then Success(cart)
    else Failure(Rejected(reply.error))
  }

  /** The settled value of a mutator's
      `.then(() => emit()).catch(handleError)` chain. */
  function Settled(reply: Outcome<HttpError>): Outcome<Rejection> {
    if reply.Pass? then Pass else Fail(Rejected(reply.error))
  }

  /** Number of change events a call whose remote request had `reply` emits. */
  function Emitted(reply: Outcome<HttpError>): nat {
    if reply.Pass? then 1 else 0
  }

  /** A read settles once: reading again from the snapshot a read cached
      gives the same value, whatever the second reply would have been. */
  lemma ReadSettlesOnce(cache: Option<Snapshot>, cart: seq<CartLine>, first: Outcome<HttpError>, second: Outcome<HttpError>)
    ensures ReadOutcome(Some(ReadOutcome(cache, cart, first)), cart, second) == ReadOutcome(cache, cart, first)
  {
  }

  /** While a cached success is the remote cart, every successful read
      sees the remote cart. */
  lemma ReadSeesRemoteCart(cache: Option<Snapshot>, cart: seq<CartLine>, reply: Outcome<HttpError>)
    requires cache.Some? && cache.value.Success? ==> cache.value.value == cart
    ensures ReadOutcome(cache, cart, reply).Success? ==> ReadOutcome(cache, cart, reply).value == cart
  {
  }

  /** A mutator resolves exactly when it emitted its change event, and a
      rejection it settles to has already been through `handleError`. */
  lemma EventIffResolved(reply: Outcome<HttpError>)
    ensures Settled(reply).Pass? <==> Emitted(reply) == 1
    ensures Settled(reply).Fail? <==> Emitted(reply) == 0
    ensures Settled(reply).Fail? ==> HandleError(Settled(reply).error) == Settled(reply).error
  {
    if reply.Fail? {
      HandleErrorIdempotent(Raw(reply.error));
    }
  }

  class ShoppingCartService {
    const api: Api
    /** `shoppingCartPromise`: `None` when undefined. */
    var cache: Option<Snapshot>
    /** Number of `onChanges` events emitted so far. */
    var changes: nat

    /** A successful cached snapshot is what the remote cart holds: every
        request that changes the cart is preceded by clearing the cache. */
    ghost predicate Valid()
      reads this, api
    {
      cache.Some? && cache.value.Success? ==> cache.value.value == api.cart
    }

    constructor (api: Api)
      ensures this.api == api && cache == None && changes == 0
      ensures Valid()
    {
      this.api := api;
      cache := None;
      changes := 0;
    }

    /** `retrieveItemsFromAPI`: reuse the cached snapshot, or fetch once and
        cache what the fetch settles to, failure included. */
    method RetrieveItems(reply: Outcome<HttpError>) returns (r: Snapshot)
      requires Valid()
      modifies this`cache, api`log
      ensures Valid()
      ensures r == ReadOutcome(old(cache), api.cart, reply)
      ensures cache == Some(r)
      ensures api.log == old(api.log) + (if old(cache).None? then [GetCart] else [])
    {
      if cache.None? {
        var fetched := api.GetCartLines(reply);
        cache := Some(if fetched.Success? then Success(fetched.value) else Failure(Rejected(fetched.error)));
      }
      r := cache.value;
    }

    /** The common tail of every mutator: emit one change event when the
        request succeeded, settle to the handled rejection when it failed. */
    method Complete(reply: Outcome<HttpError>) returns (r: Outcome<Rejection>)
      modifies this`changes
      ensures r == Settled(reply)
      ensures changes == old(changes) + Emitted(reply)
    {
      if reply.Pass? {
        changes := changes + 1;
        r := Pass;
      } else {
        r := Fail(Rejected(reply.error));
      }
    }

    /** `updateItemQuantity`: clear the cache, PUT the new quantity. */
    method UpdateItemQuantity(productId: int, quantity: int, reply: Outcome<HttpError>) returns (r: Outcome<Rejection>)
      requires Valid()
      modifies this`cache, this`changes, api`cart, api`log
      ensures Valid()
      ensures cache == None
      ensures r == Settled(reply)
      ensures changes == old(changes) + Emitted(reply)
      ensures api.log == old(api.log) + [PutQuantity(productId, quantity)]
      ensures api.cart == if reply.Pass? then SetQuantity(old(api.cart), productId, quantity) else old(api.cart)
    {
      cache := None;
      var sent := api.PutCartQuantity(productId, quantity, reply);
      r := Complete(sent);
    }

    /** `addItem`: read the cart; POST a new line when the product has none,
        otherwise update the found line to its quantity plus `quantity`. */
    method AddItem(productId: int, quantity: int := 1, nameonly getReply: Outcome<HttpError>, nameonly writeReply: Outcome<HttpError>)
      returns (r: Outcome<Rejection>)
      requires Valid()
      modifies this`cache, this`changes, api`cart, api`log
      ensures Valid()
      ensures var read := ReadOutcome(old(cache), old(api.cart), getReply);
              var fetch := if old(cache).None? then [GetCart] else [];
              if read.Failure? then
                && r == Fail(read.error)
                && cache == Some(read)
                && api.cart == old(api.cart)
                && changes == old(changes)
                && api.log == old(api.log) + fetch
              else
                && r == Settled(writeReply)
                && cache == None
                && api.cart == (if writeReply.Pass? then AddedLines(old(api.cart), productId, quantity) else old(api.cart))
                && changes == old(changes) + Emitted(writeReply)
                && api.log == old(api.log) + fetch +
                     [match Find(old(api.cart), productId)
                      case None => PostLine(CartLine(productId, quantity))
                      case Some(line) => PutQuantity(productId, line.quantity + quantity)]
      // sequential calls never give a product a second line
      ensures Unique(old(api.cart)) ==> Unique(api.cart)
    {
      ghost var cart0 := api.cart;
      var items := RetrieveItems(getReply);
      if items.Failure? {
        return Fail(items.error);
      }
      var found := Find(items.value, productId);
      if found.None? {
        cache := None;
        var sent := api.PostCartLine(CartLine(productId, quantity), writeReply);
        r := Complete(sent);
      } else {
        r := UpdateItemQuantity(productId, found.value.quantity + quantity, writeReply);
      }
      if Unique(cart0) {
        AddedUnique(cart0, productId, quantity);
      }
    }

    /** `removeItem`: clear the cache, DELETE the line of `productId`. */
    method RemoveItem(productId: int, reply: Outcome<HttpError>) returns (r: Outcome<Rejection>)
      requires Valid()
      modifies this`cache, this`changes, api`cart, api`log
      ensures Valid()
      ensures cache == None
      ensures r == Settled(reply)
      ensures changes == old(changes) + Emitted(reply)
      ensures api.log == old(api.log) + [DeleteLine(productId)]
      ensures api.cart == if reply.Pass? then RemoveLine(old(api.cart), productId) else old(api.cart)
    {
      cache := None;
      var sent := api.DeleteCartLine(productId, reply);
      r := Complete(sent);
    }

    /** `removeAllItems`: clear the cache, DELETE the whole cart. */
    method RemoveAllItems(reply: Outcome<HttpError>) returns (r: Outcome<Rejection>)
      requires Valid()
      modifies this`cache, this`changes, api`cart, api`log
      ensures Valid()
      ensures cache == None
      ensures r == Settled(reply)
      ensures changes == old(changes) + Emitted(reply)
      ensures api.log == old(api.log) + [DeleteCart]
      ensures api.cart == if reply.Pass? then [] else old(api.cart)
    {
      cache := None;
      var sent := api.DeleteWholeCart(reply);
      r := Complete(sent);
    }

    /** `getItems`: the catalog (requested in `alpha-asc` order) joined with
        the cart lines. The cart read happens whether or not the catalog
        request fails. */
    method GetItems(catalog: Result<seq<Product>, Rejection>, getReply: Outcome<HttpError>)
      returns (r: Result<seq<Item>, Rejection>)
      requires Valid()
      modifies this`cache, api`log
      ensures Valid()
      ensures var read := ReadOutcome(old(cache), api.cart, getReply);
              && cache == Some(read)
              && r == (if catalog.Failure? then Failure(catalog.error)
                       else if read.Failure? then Failure(read.error)
                       else Success(Join(catalog.value, read.value)))
      ensures api.log == old(api.log) + (if old(cache).None? then [GetCart] else [])
    {
      var items := RetrieveItems(getReply);
      if catalog.Failure? {
        r := Failure(catalog.error);
      } else if items.Failure? {
        r := Failure(items.error);
      } else {
        r := Success(Join(catalog.value, items.value));
      }
    }

    /** `getItemsCount`: the sum of the line quantities. */
    method GetItemsCount(getReply: Outcome<HttpError>) returns (r: Result<int, Rejection>)
      requires Valid()
      modifies this`cache, api`log
      ensures Valid()
      ensures var read := ReadOutcome(old(cache), api.cart, getReply);
              && cache == Some(read)
              && r == (if read.Failure? then Failure(read.error) else Success(Sum(read.value)))
      ensures api.log == old(api.log) + (if old(cache).None? then [GetCart] else [])
    {
      var items := RetrieveItems(getReply);
      if items.Failure? {
        r := Failure(items.error);
      } else {
        r := Success(Sum(items.value));
      }
    }
  }

  // -----------------------------------------------------------------------
  // Clients: what a caller of the service can rely on from the contracts

  /** Two cart reads with no mutation between them issue at most one fetch
      and settle to the same value, a failed fetch included. */
  method ReadTwice(s: ShoppingCartService, first: Outcome<HttpError>, second: Outcome<HttpError>)
    returns (a: Snapshot, b: Snapshot)
    requires s.Valid()
    modifies s`cache, s.api`log
    ensures b == a
    ensures Fetches(s.api.log) == Fetches(old(s.api.log)) + (if old(s.cache).None? then 1 else 0)
  {
    ghost var log0 := s.api.log;
    ghost var fetch := if s.cache.None? then [GetCart] else [];
    a := s.RetrieveItems(first);
    b := s.RetrieveItems(second);
    assert s.api.log == log0 + fetch + [];
    assert s.api.log == log0 + fetch;
    FetchesAppend(log0, fetch);
    assert Fetches([GetCart]) == 1 by { assert [GetCart][..0] == []; }
  }

  /** A failed read stays cached across `addItem`: each call rejects with
      the cached failure before reaching the cache clear, and sends nothing. */
  method AddAfterFailedRead(
    s: ShoppingCartService, e: Rejection, p1: int, p2: int,
    replies: seq<Outcome<HttpError>>)
    returns (a: Outcome<Rejection>, b: Outcome<Rejection>)
    requires s.Valid() && s.cache == Some(Failure(e)) && |replies| == 4
    modifies s`cache, s`changes, s.api`cart, s.api`log
    ensures a == Fail(e) && b == Fail(e)
    ensures s.cache == Some(Failure(e))
    ensures s.api.log == old(s.api.log) && s.api.cart == old(s.api.cart)
    ensures s.changes == old(s.changes)
  {
    a := s.AddItem(p1, getReply := replies[0], writeReply := replies[1]);
    b := s.AddItem(p2, 2, getReply := replies[2], writeReply := replies[3]);
  }

  /** A read after a mutation never reuses the snapshot from before it: it
      fetches again and sees the cart as the mutation left it. */
  method ReadAfterUpdate(
    s: ShoppingCartService, productId: int, quantity: int,
    first: Outcome<HttpError>, put: Outcome<HttpError>, second: Outcome<HttpError>)
    returns (before: Snapshot, after: Snapshot)
    requires s.Valid()
    modifies s`cache, s`changes, s.api`cart, s.api`log
    ensures s.api.log == old(s.api.log) + (if old(s.cache).None? then [GetCart] else [])
                         + [PutQuantity(productId, quantity), GetCart]
    ensures second.Pass? ==> after == Success(s.api.cart)
    ensures put.Pass? && before.Success? && second.Pass? ==>
              after == Success(SetQuantity(before.value, productId, quantity))
  {
    before := s.RetrieveItems(first);
    var updated := s.UpdateItemQuantity(productId, quantity, put);
    after := s.RetrieveItems(second);
  }

  /** `addItem` without a quantity adds one unit. */
  method AddOneUnit(s: ShoppingCartService, productId: int, getReply: Outcome<HttpError>, writeReply: Outcome<HttpError>)
    returns (r: Outcome<Rejection>)
    requires s.Valid()
    modifies s`cache, s`changes, s.api`cart, s.api`log
    ensures r.Pass? ==> s.api.cart == AddedLines(old(s.api.cart), productId, 1)
    ensures r.Pass? ==> QuantityOf(s.api.cart, productId) == QuantityOf(old(s.api.cart), productId) + 1
  {
    r := s.AddItem(productId, getReply := getReply, writeReply := writeReply);
    if r.Pass? {
      AddedQuantity(old(s.api.cart), productId, 1);
    }
  }
}
