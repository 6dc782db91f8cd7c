/** What the three cart operations promise, proved about their effect
    functions: which branch fires, what the cart becomes, which reads are
    issued, which message is shown, and that unique ids and positive amounts
    survive every operation and every sequence of operations. */
module CartProperties {
  import opened CartModel

  // ---------------------------------------------------------------------------
  // The abstract quantity view under the three edits the operations make

  lemma {:induction false} QuantityAppend(items: seq<Product>, p: Product, id: int)
    ensures QuantityOf(items + [p], id) == QuantityOf(items, id) + Share(p, id)
  {
    if |items| == 0 {
      assert (items + [p])[1..] == [];
    } else {
      assert (items + [p])[1..] == items[1..] + [p];
      QuantityAppend(items[1..], p, id);
    }
  }

  lemma {:induction false} QuantityUpdate(items: seq<Product>, i: nat, q: Product, id: int)
    requires i < |items|
    ensures QuantityOf(items[i := q], id) == QuantityOf(items, id) - Share(items[i], id) + Share(q, id)
  {
    if i == 0 {
      assert items[i := q][1..] == items[1..];
    } else {
      assert items[i := q][1..] == items[1..][i - 1 := q];
      QuantityUpdate(items[1..], i - 1, q, id);
    }
  }

  lemma {:induction false} QuantityRemove(items: seq<Product>, i: nat, id: int)
    requires i < |items|
    ensures QuantityOf(RemoveAt(items, i), id) == QuantityOf(items, id) - Share(items[i], id)
  {
    if i == 0 {
      assert RemoveAt(items, 0) == items[1..];
    } else {
      assert RemoveAt(items, i)[1..] == RemoveAt(items[1..], i - 1);
      QuantityRemove(items[1..], i - 1, id);
    }
  }

  /** A product the cart does not hold has quantity 0. */
  lemma {:induction false} QuantityAbsent(items: seq<Product>, id: int)
    requires forall j :: 0 <= j < |items| ==> items[j].id != id
    ensures QuantityOf(items, id) == 0
  {
    if |items| > 0 {
      QuantityAbsent(items[1..], id);
    }
  }

  /** With unique ids, the quantity of a product is the amount of its entry. */
  lemma {:induction false} QuantityOfEntry(items: seq<Product>, i: nat)
    requires UniqueIds(items) && i < |items|
    ensures QuantityOf(items, items[i].id) == items[i].amount
  {
    var id := items[i].id;
    if i == 0 {
      QuantityAbsent(items[1..], id);
    } else {
      assert items[0].id != id;
      QuantityOfEntry(items[1..], i - 1);
    }
  }

  lemma {:induction false} WithoutAbsent(items: seq<Product>, id: int)
    requires forall j :: 0 <= j < |items| ==> items[j].id != id
    ensures Without(items, id) == items
  {
    if |items| > 0 {
      WithoutAbsent(items[1..], id);
    }
  }

  /** With unique ids, splicing out the entry of `id` is filtering `id` out. */
  lemma {:induction false} RemoveAtIsWithout(items: seq<Product>, i: nat)
    requires UniqueIds(items) && i < |items|
    ensures RemoveAt(items, i) == Without(items, items[i].id)
  {
    var id := items[i].id;
    if i == 0 {
      WithoutAbsent(items[1..], id);
      assert RemoveAt(items, 0) == items[1..];
    } else {
      assert items[0].id != id;
      RemoveAtIsWithout(items[1..], i - 1);
      assert RemoveAt(items, i) == [items[0]] + RemoveAt(items[1..], i - 1);
    }
  }

  // ---------------------------------------------------------------------------
  // addProduct

  /** Adding a product the cart holds, with stock for one more: only that
      entry's amount goes up by one, nothing moves, and the catalogue is not
      read. */
  lemma AddExistingIncrements(items: seq<Product>, api: Api, i: nat)
    requires UniqueIds(items) && i < |items|
    requires items[i].id in api.stock && items[i].amount + 1 <= api.stock[items[i].id]
    ensures var e := AddProductEffect(items, items[i].id, api);
      && e.requests == [GetStock(items[i].id)]
      && e.outcome.Committed?
      && |e.outcome.cart| == |items|
      && e.outcome.cart[i] == items[i].(amount := items[i].amount + 1)
      && forall j :: 0 <= j < |items| && j != i ==> e.outcome.cart[j] == items[j]
  {
  }

  /** Adding a product the cart does not hold, in stock and found in the
      catalogue: the fetched product is appended with amount 1, after a stock
      read and a catalogue read. */
  lemma AddNewAppends(items: seq<Product>, id: int, api: Api)
    requires forall j :: 0 <= j < |items| ==> items[j].id != id
    requires id in api.stock && 1 <= api.stock[id] && id in api.products
    ensures var e := AddProductEffect(items, id, api);
      && e.requests == [GetStock(id), GetProduct(id)]
      && e.outcome.Committed?
      && |e.outcome.cart| == |items| + 1
      && e.outcome.cart[..|items|] == items
      && Data(e.outcome.cart[|items|]) == api.products[id]
      && e.outcome.cart[|items|].amount == 1
  {
  }

  /** Asking for one unit more than the stock: the cart is untouched and the
      one message is the out-of-stock message. */
  lemma AddOutOfStock(items: seq<Product>, id: int, api: Api)
    requires id in api.stock && CartAmount(items, id) + 1 > api.stock[id]
    ensures AddProductEffect(items, id, api) == Effect(Notified(OutOfStockMessage), [GetStock(id)])
  {
  }

  /** A failed stock read, or a failed catalogue read for a new product: the
      cart is untouched and the message is the add error. */
  lemma AddLookupFails(items: seq<Product>, id: int, api: Api)
    requires id !in api.stock
          || ((forall j :: 0 <= j < |items| ==> items[j].id != id)
              && 1 <= api.stock[id] && id !in api.products)
    ensures AddProductEffect(items, id, api).outcome == Notified(AddErrorMessage)
  {
  }

  /** addProduct commits exactly when the stock read succeeds, the stock covers
      one more unit, and the product is in the cart or the catalogue read
      succeeds; otherwise it shows one of two messages. */
  lemma AddCommitsIff(items: seq<Product>, id: int, api: Api)
    ensures AddProductEffect(items, id, api).outcome.Committed?
        <==> (id in api.stock && CartAmount(items, id) + 1 <= api.stock[id]
              && (Find(items, id).Some? || id in api.products))
    ensures !AddProductEffect(items, id, api).outcome.Committed? ==>
              AddProductEffect(items, id, api).outcome
              in {Notified(OutOfStockMessage), Notified(AddErrorMessage)}
  {
  }

  /** On a commit, the cart holds one more unit of the product, never more
      than the stock read said, and the same of every other product. */
  lemma AddQuantity(items: seq<Product>, id: int, api: Api)
    requires UniqueIds(items) && ProductIdMatches(api, id)
    requires AddProductEffect(items, id, api).outcome.Committed?
    ensures var c := AddProductEffect(items, id, api).outcome.cart;
      && QuantityOf(c, id) == QuantityOf(items, id) + 1
      && QuantityOf(c, id) <= api.stock[id]
      && forall k :: k != id ==> QuantityOf(c, k) == QuantityOf(items, k)
  {
    var c := AddProductEffect(items, id, api).outcome.cart;
    match Find(items, id)
    case Some(i) =>
      var q := items[i].(amount := items[i].amount + 1);
      assert c == items[i := q];
      QuantityOfEntry(items, i);
      QuantityUpdate(items, i, q, id);
      forall k | k != id ensures QuantityOf(c, k) == QuantityOf(items, k) {
        QuantityUpdate(items, i, q, k);
      }
    case None =>
      var p := NewItem(api.products[id]);
      assert c == items + [p];
      QuantityAbsent(items, id);
      QuantityAppend(items, p, id);
      forall k | k != id ensures QuantityOf(c, k) == QuantityOf(items, k) {
        QuantityAppend(items, p, k);
      }
  }

  /** The appended entry carries the id the catalogue answered with, not the id
      that was asked for: a catalogue that answers a request for 5 with a
      product of id 7 leaves two entries of id 7 in a cart that held one. */
  lemma AddCopiesServedId()
    ensures var items := [Product(7, "t", 1.0, "i", 1)];
      var api := Api(map[5 := 10], map[5 := ProductData(7, "t", 1.0, "i")]);
      var e := AddProductEffect(items, 5, api);
      && UniqueIds(items)
      && e.outcome.Committed?
      && !UniqueIds(e.outcome.cart)
  {
    var items := [Product(7, "t", 1.0, "i", 1)];
    var api := Api(map[5 := 10], map[5 := ProductData(7, "t", 1.0, "i")]);
    var c := AddProductEffect(items, 5, api).outcome.cart;
    assert Find(items, 5) == None;
    assert c == items + [NewItem(ProductData(7, "t", 1.0, "i"))];
    assert c[0].id == c[1].id;
  }

  /** addProduct keeps ids unique and amounts positive, given that the
      catalogue answers with the product that was asked for. */
  lemma AddPreservesWellFormed(items: seq<Product>, id: int, api: Api)
    requires WellFormed(items) && ProductIdMatches(api, id)
    ensures WellFormed(After(items, AddProductEffect(items, id, api)))
  {
  }

  // ---------------------------------------------------------------------------
  // removeProduct

  /** Removing a product the cart holds: exactly its entry goes, the others
      stay in order, every other quantity is kept, and nothing is read. */
  lemma RemovePresent(items: seq<Product>, i: nat)
    requires UniqueIds(items) && i < |items|
    ensures var e := RemoveProductEffect(items, items[i].id);
      && e == Effect(Committed(Without(items, items[i].id)), [])
      && |e.outcome.cart| == |items| - 1
      && QuantityOf(e.outcome.cart, items[i].id) == 0
      && forall k :: k != items[i].id ==> QuantityOf(e.outcome.cart, k) == QuantityOf(items, k)
  {
    var id := items[i].id;
    assert Find(items, id) == Some(i);
    RemoveAtIsWithout(items, i);
    QuantityOfEntry(items, i);
    QuantityRemove(items, i, id);
    forall k | k != id ensures QuantityOf(RemoveAt(items, i), k) == QuantityOf(items, k) {
      QuantityRemove(items, i, k);
    }
  }

  /** Removing a product the cart does not hold: the cart is untouched and the
      message is the remove error. */
  lemma RemoveAbsent(items: seq<Product>, id: int)
    requires forall j :: 0 <= j < |items| ==> items[j].id != id
    ensures RemoveProductEffect(items, id) == Effect(Notified(RemoveErrorMessage), [])
  {
  }

  lemma RemovePreservesWellFormed(items: seq<Product>, id: int)
    requires WellFormed(items)
    ensures WellFormed(After(items, RemoveProductEffect(items, id)))
  {
  }

  // ---------------------------------------------------------------------------
  // updateProductAmount

  /** A non-positive amount is ignored: no change, no message, no stock read. */
  lemma UpdateNonPositiveIgnored(items: seq<Product>, id: int, amount: int, api: Api)
    requires amount <= 0
    ensures UpdateProductAmountEffect(items, id, amount, api) == Effect(Ignored, [])
  {
  }

  /** An amount above the stock is rejected with the out-of-stock message
      whether or not the cart holds the product: the stock check comes first. */
  lemma UpdateOutOfStock(items: seq<Product>, id: int, amount: int, api: Api)
    requires amount > 0 && id in api.stock && amount > api.stock[id]
    ensures UpdateProductAmountEffect(items, id, amount, api)
         == Effect(Notified(OutOfStockMessage), [GetStock(id)])
    ensures After(items, UpdateProductAmountEffect(items, id, amount, api)) == items
  {
  }

  /** A failed stock read, or an in-stock amount for a product the cart does
      not hold: the cart is untouched and the message is the update error. */
  lemma UpdateFails(items: seq<Product>, id: int, amount: int, api: Api)
    requires amount > 0
    requires id !in api.stock
          || (amount <= api.stock[id] && forall j :: 0 <= j < |items| ==> items[j].id != id)
    ensures UpdateProductAmountEffect(items, id, amount, api)
         == Effect(Notified(UpdateErrorMessage), [GetStock(id)])
  {
  }

  /** An in-stock positive amount for a product the cart holds: that entry's
      amount becomes `amount`, nothing moves, and every other quantity is kept. */
  lemma UpdateSetsAmount(items: seq<Product>, i: nat, amount: int, api: Api)
    requires UniqueIds(items) && i < |items|
    requires 0 < amount && items[i].id in api.stock && amount <= api.stock[items[i].id]
    ensures var e := UpdateProductAmountEffect(items, items[i].id, amount, api);
      && e.requests == [GetStock(items[i].id)]
      && e.outcome.Committed?
      && |e.outcome.cart| == |items|
      && e.outcome.cart[i] == items[i].(amount := amount)
      && (forall j :: 0 <= j < |items| && j != i ==> e.outcome.cart[j] == items[j])
      && QuantityOf(e.outcome.cart, items[i].id) == amount
      && forall k :: k != items[i].id ==> QuantityOf(e.outcome.cart, k) == QuantityOf(items, k)
  {
    var id := items[i].id;
    var q := items[i].(amount := amount);
    assert Find(items, id) == Some(i);
    QuantityOfEntry(items, i);
    QuantityUpdate(items, i, q, id);
    forall k | k != id ensures QuantityOf(items[i := q], k) == QuantityOf(items, k) {
      QuantityUpdate(items, i, q, k);
    }
  }

  /** updateProductAmount commits exactly when the amount is positive, the
      stock read succeeds and covers it, and the cart holds the product. */
  lemma UpdateCommitsIff(items: seq<Product>, id: int, amount: int, api: Api)
    ensures UpdateProductAmountEffect(items, id, amount, api).outcome.Committed?
        <==> (0 < amount && id in api.stock && amount <= api.stock[id]
              && exists j :: 0 <= j < |items| && items[j].id == id)
  {
  }

  lemma UpdatePreservesWellFormed(items: seq<Product>, id: int, amount: int, api: Api)
    requires WellFormed(items)
    ensures WellFormed(After(items, UpdateProductAmountEffect(items, id, amount, api)))
  {
  }

  // ---------------------------------------------------------------------------
  // Sequences of operations

  datatype Action = AddAction(id: int) | RemoveAction(id: int) | UpdateAction(id: int, amount: int)

  /** One user action against the service as it answers at that moment. */
  datatype Step = Step(action: Action, api: Api)

  function EffectOf(items: seq<Product>, s: Step): Effect {
    match s.action
    case AddAction(id) => AddProductEffect(items, id, s.api)
    case RemoveAction(id) => RemoveProductEffect(items, id)
    case UpdateAction(id, amount) => UpdateProductAmountEffect(items, id, amount, s.api)
  }

  /** The cart after running the steps one after the other. */
  function Run(items: seq<Product>, steps: seq<Step>): seq<Product>
    decreases |steps|
  {
    if |steps| == 0 then items else Run(After(items, EffectOf(items, steps[0])), steps[1..])
  }

  /** Every step keeps the cart well formed. */
  lemma StepPreservesWellFormed(items: seq<Product>, s: Step)
    requires WellFormed(items) && ProductIdMatches(s.api, s.action.id)
    ensures WellFormed(After(items, EffectOf(items, s)))
  {
  }

  /** Starting from a well-formed cart, any sequence of operations leaves at
      most one entry per product id and every amount at least one. */
  lemma {:induction false} RunPreservesWellFormed(items: seq<Product>, steps: seq<Step>)
    requires WellFormed(items)
    requires forall n :: 0 <= n < |steps| ==> ProductIdMatches(steps[n].api, steps[n].action.id)
    ensures WellFormed(Run(items, steps))
    decreases |steps|
  {
    if |steps| > 0 {
      StepPreservesWellFormed(items, steps[0]);
      RunPreservesWellFormed(After(items, EffectOf(items, steps[0])), steps[1..]);
    }
  }
}
