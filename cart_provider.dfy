/** The cart provider: the in-memory cart, the persisted copy of it, the log of
    messages shown to the user and the log of reads issued to the remote
    service. Each operation copies the cart, edits the copy and commits it, or
    stops early with a message; its new state is exactly what the matching
    effect function of CartModel says. */
module CartStore {
  import opened CartModel
  import CartProperties

  class CartProvider {
    /** The cart the rendering layer sees. */
    var cart: seq<Product>
    /** The persisted storage slot; None when nothing has been stored. */
    var stored: Option<seq<Product>>
    /** Messages shown to the user, oldest first. */
    var messages: seq<string>
    /** Reads issued to the remote service, oldest first. */
    var requests: seq<Request>

    /** Unique ids and positive amounts. */
    ghost predicate Valid()
      reads this
    {
      WellFormed(cart)
    }

    /** The stored copy is the visible cart, or nothing is stored and the cart
        is empty; restarting from the stored slot then gives back this cart. */
    ghost predicate InSync()
      reads this
    {
      if stored.Some? then stored.value == cart else cart == []
    }

    /** The state of this object is the state before an operation
        (cart0, stored0, messages0, requests0) changed as effect `e` says: the
        reads are logged; a commit replaces the cart and the stored copy
        together; a message leaves both alone; an ignored call changes nothing. */
    ghost predicate Reflects(cart0: seq<Product>, stored0: Option<seq<Product>>,
                             messages0: seq<string>, requests0: seq<Request>, e: Effect)
      reads this
    {
      && requests == requests0 + e.requests
      && match e.outcome
         case Committed(c) => cart == c && stored == Some(c) && messages == messages0
         case Notified(m) => cart == cart0 && stored == stored0 && messages == messages0 + [m]
         case Ignored => cart == cart0 && stored == stored0 && messages == messages0
    }

    /** Start from the storage slot: its content when there is one, else empty. */
    constructor (slot: Option<seq<Product>>)
      ensures cart == (if slot.Some? then slot.value else [])
      ensures stored == slot && messages == [] && requests == []
      ensures InSync()
      ensures slot.None? || WellFormed(slot.value) ==> Valid()
    {
      cart := if slot.Some? then slot.value else [];
      stored := slot;
      messages := [];
      requests := [];
    }

    /** Commit: the new cart becomes both the visible and the stored one. */
    method AttCart(updatedCart: seq<Product>)
      modifies this
      ensures cart == updatedCart && stored == Some(updatedCart)
      ensures messages == old(messages) && requests == old(requests)
    {
      cart := updatedCart;
      stored := Some(updatedCart);
    }

    /** Show a message to the user. */
    method Notify(message: string)
      modifies this
      ensures messages == old(messages) + [message]
      ensures cart == old(cart) && stored == old(stored) && requests == old(requests)
    {
      messages := messages + [message];
    }

    /** `GET /stock/{id}`: the amount in stock, or None when the read fails. */
    method FetchStock(id: int, api: Api) returns (amount: Option<int>)
      modifies this
      ensures amount == if id in api.stock then Some(api.stock[id]) else None
      ensures requests == old(requests) + [GetStock(id)]
      ensures cart == old(cart) && stored == old(stored) && messages == old(messages)
    {
      requests := requests + [GetStock(id)];
      amount := if id in api.stock then Some(api.stock[id]) else None;
    }

    /** `GET /products/{id}`: the catalogue data, or None when the read fails. */
    method FetchProduct(id: int, api: Api) returns (data: Option<ProductData>)
      modifies this
      ensures data == if id in api.products then Some(api.products[id]) else None
      ensures requests == old(requests) + [GetProduct(id)]
      ensures cart == old(cart) && stored == old(stored) && messages == old(messages)
    {
      requests := requests + [GetProduct(id)];
      data := if id in api.products then Some(api.products[id]) else None;
    }

    /** Add one unit of a product: one more on its entry, or a new entry with
        amount 1 built from the catalogue; rejected when the stock does not
        cover it; any failed read ends in the add error. */
    method AddProduct(productId: int, api: Api)
      modifies this
      ensures Reflects(old(cart), old(stored), old(messages), old(requests),
                       AddProductEffect(old(cart), productId, api))
      ensures old(Valid()) && ProductIdMatches(api, productId) ==> Valid()
      ensures old(InSync()) ==> InSync()
    {
      ghost var cart0 := cart;
      var updatedCart := cart;
      var productExists := Find(updatedCart, productId);
      var stock := FetchStock(productId, api);
      if stock.None? {
        Notify(AddErrorMessage);
        return;
      }
      var currentAmount := if productExists.Some? then updatedCart[productExists.value].amount else 0;
      var amount := currentAmount + 1;
      if amount > stock.value {
        Notify(OutOfStockMessage);
        return;
      }
      if productExists.Some? {
        updatedCart := SetAmount(updatedCart, productExists.value, amount);
      } else {
        var product := FetchProduct(productId, api);
        if product.None? {
          Notify(AddErrorMessage);
          return;
        }
        updatedCart := updatedCart + [NewItem(product.value)];
      }
      AttCart(updatedCart);
      if WellFormed(cart0) && ProductIdMatches(api, productId) {
        CartProperties.AddPreservesWellFormed(cart0, productId, api);
      }
    }

    /** Delete the entry of a product, or report the remove error. */
    method RemoveProduct(productId: int)
      modifies this
      ensures Reflects(old(cart), old(stored), old(messages), old(requests),
                       RemoveProductEffect(old(cart), productId))
      ensures old(Valid()) ==> Valid()
      ensures old(InSync()) ==> InSync()
    {
      ghost var cart0 := cart;
      var updatedCart := cart;
      var productExists := Find(updatedCart, productId);
      if productExists.None? {
        Notify(RemoveErrorMessage);
      } else {
        updatedCart := RemoveAt(updatedCart, productExists.value);
        AttCart(updatedCart);
        if WellFormed(cart0) {
          CartProperties.RemovePreservesWellFormed(cart0, productId);
        }
      }
    }

    /** Set the amount of a product's entry; non-positive amounts are ignored,
        the stock check runs before the cart is searched. */
    method UpdateProductAmount(productId: int, amount: int, api: Api)
      modifies this
      ensures Reflects(old(cart), old(stored), old(messages), old(requests),
                       UpdateProductAmountEffect(old(cart), productId, amount, api))
      ensures old(Valid()) ==> Valid()
      ensures old(InSync()) ==> InSync()
    {
      ghost var cart0 := cart;
      if amount <= 0 {
        return;
      }
      var stock := FetchStock(productId, api);
      if stock.None? {
        Notify(UpdateErrorMessage);
        return;
      }
      if amount > stock.value {
        Notify(OutOfStockMessage);
        return;
      }
      var updatedCart := cart;
      var productExist := Find(updatedCart, productId);
      if productExist.Some? {
        updatedCart := SetAmount(updatedCart, productExist.value, amount);
        AttCart(updatedCart);
        if WellFormed(cart0) {
          CartProperties.UpdatePreservesWellFormed(cart0, productId, amount, api);
        }
      } else {
        Notify(UpdateErrorMessage);
      }
    }
  }
}
