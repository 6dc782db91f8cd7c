/** Values of the shopping cart: line items, the remote inventory service seen as
    two lookup tables, the messages shown to the user, and the effect of each of
    the three cart operations as a pure function of the cart before the call. */
module CartModel {

  datatype Option<+T> = None | Some(value: T)

  /** A line item of the cart: the catalogue data of a product plus the amount
      the user selected. */
  datatype Product = Product(id: int, title: string, price: real, image: string, amount: int)

  /** What `GET /products/{id}` returns: a product without an amount. */
  datatype ProductData = ProductData(id: int, title: string, price: real, image: string)

  /** The two read endpoints of the remote service. A key that is absent stands
      for a request that fails (not found, or a transport error). */
  datatype Api = Api(stock: map<int, int>, products: map<int, ProductData>)

  /** One outbound read, in the order the operation issues them. */
  datatype Request = GetStock(id: int) | GetProduct(id: int)

  /** How an operation ends: it commits a new cart, it shows one message and
      leaves the cart alone, or it does nothing at all. */
  datatype Outcome = Committed(cart: seq<Product>) | Notified(message: string) | Ignored

  datatype Effect = Effect(outcome: Outcome, requests: seq<Request>)

  const OutOfStockMessage := "Quantidade solicitada fora de estoque"
  const AddErrorMessage := "Erro na adição do produto"
  const RemoveErrorMessage := "Erro na remoção do produto"
  const UpdateErrorMessage := "Erro na alteração de quantidade do produto"

  /** The catalogue part of a line item: everything but its amount. */
  function Data(p: Product): ProductData {
    ProductData(p.id, p.title, p.price, p.image)
  }

  /** The line item built from fetched catalogue data: the data spread into a
      new object with amount 1. It is the one line item whose catalogue part
      is `d` and whose amount is 1. */
  function NewItem(d: ProductData): (p: Product)
    ensures Data(p) == d && p.amount == 1
    ensures forall q: Product :: Data(q) == d && q.amount == 1 ==> q == p
  {
    Product(d.id, d.title, d.price, d.image, 1)
  }

  /** Index of the first line item with the given id (`Array.find` by id). */
  function Find(items: seq<Product>, id: int): (r: Option<nat>)
    ensures r.Some? ==> r.value < |items| && items[r.value].id == id
    ensures r.Some? ==> forall j :: 0 <= j < r.value ==> items[j].id != id
    ensures r.None? ==> forall j :: 0 <= j < |items| ==> items[j].id != id
  {
    if |items| == 0 then None
    else if items[0].id == id then Some(0)
    else match Find(items[1..], id)
      case None => None
      case Some(k) => Some(k + 1)
  }

  /** The cart with the entry at index i taken out (`splice(i, 1)`). */
  function RemoveAt(items: seq<Product>, i: nat): (r: seq<Product>)
    requires i < |items|
    ensures |r| == |items| - 1
    ensures forall j :: 0 <= j < i ==> r[j] == items[j]
    ensures forall j :: i <= j < |r| ==> r[j] == items[j + 1]
  {
    items[..i] + items[i + 1..]
  }

  /** The cart with the amount of the entry at index i replaced. */
  function SetAmount(items: seq<Product>, i: nat, amount: int): (r: seq<Product>)
    requires i < |items|
    ensures |r| == |items| && r[i].id == items[i].id && r[i].amount == amount
    ensures r[i] == items[i].(amount := amount)
    ensures forall j :: 0 <= j < |r| && j != i ==> r[j] == items[j]
  {
    items[i := items[i].(amount := amount)]
  }

  /** No two entries share an id. */
  ghost predicate UniqueIds(items: seq<Product>) {
    forall i, j :: 0 <= i < j < |items| ==> items[i].id != items[j].id
  }

  /** Every entry has an amount of at least one. */
  ghost predicate AmountsPositive(items: seq<Product>) {
    forall i :: 0 <= i < |items| ==> items[i].amount >= 1
  }

  ghost predicate WellFormed(items: seq<Product>) {
    UniqueIds(items) && AmountsPositive(items)
  }

  /** The product service answers a request for `id` with a product of that id. */
  ghost predicate ProductIdMatches(api: Api, id: int) {
    id in api.products ==> api.products[id].id == id
  }

  /** How much of product `id` one entry holds. */
  function Share(p: Product, id: int): int {
    if p.id == id then p.amount else 0
  }

  /** Abstract view of a cart: the total amount held for a product id, summed
      over all entries (with unique ids, the amount of its one entry). */
  function QuantityOf(items: seq<Product>, id: int): int {
    if |items| == 0 then 0 else Share(items[0], id) + QuantityOf(items[1..], id)
  }

  /** Reference definition of removal: the cart with every entry of `id`
      filtered out, the others kept in order. */
  function Without(items: seq<Product>, id: int): (r: seq<Product>)
    ensures |r| <= |items|
    ensures forall j :: 0 <= j < |r| ==> r[j].id != id
  {
    if |items| == 0 then []
    else (if items[0].id == id then [] else [items[0]]) + Without(items[1..], id)
  }

  /** The amount the cart holds in the first entry of `id`, or 0 when there is
      none (`currentAmount`). */
  function CartAmount(items: seq<Product>, id: int): (a: int)
    ensures (forall j :: 0 <= j < |items| ==> items[j].id != id) ==> a == 0
    ensures forall j :: 0 <= j < |items| && items[j].id == id && UniqueIds(items) ==> a == items[j].amount
  {
    match Find(items, id)
    case None => 0
    case Some(i) => items[i].amount
  }

  /** What `addProduct(id)` does to `items`: read the stock; reject when one
      more unit than the cart holds exceeds it; otherwise raise the existing
      entry's amount, or fetch the product and append it with amount 1. A failed
      read anywhere ends in the generic add error. */
  function AddProductEffect(items: seq<Product>, id: int, api: Api): Effect {
    var found := Find(items, id);
    if id !in api.stock then Effect(Notified(AddErrorMessage), [GetStock(id)])
    else
      var amount := CartAmount(items, id) + 1;
      if amount > api.stock[id] then Effect(Notified(OutOfStockMessage), [GetStock(id)])
      else if found.Some? then Effect(Committed(SetAmount(items, found.value, amount)), [GetStock(id)])
      else if id !in api.products then Effect(Notified(AddErrorMessage), [GetStock(id), GetProduct(id)])
      else Effect(Committed(items + [NewItem(api.products[id])]), [GetStock(id), GetProduct(id)])
  }

  /** What `removeProduct(id)` does: delete the first entry of `id`, or report
      the remove error. It reads nothing remotely. */
  function RemoveProductEffect(items: seq<Product>, id: int): Effect {
    match Find(items, id)
    case None => Effect(Notified(RemoveErrorMessage), [])
    case Some(i) => Effect(Committed(RemoveAt(items, i)), [])
  }

  /** What `updateProductAmount(id, amount)` does: ignore a non-positive amount;
      read the stock and reject an amount above it; then set the amount of the
      entry of `id`, or report the update error when there is none. A failed
      stock read also ends in the update error. */
  function UpdateProductAmountEffect(items: seq<Product>, id: int, amount: int, api: Api): Effect {
    if amount <= 0 then Effect(Ignored, [])
    else if id !in api.stock then Effect(Notified(UpdateErrorMessage), [GetStock(id)])
    else if amount > api.stock[id] then Effect(Notified(OutOfStockMessage), [GetStock(id)])
    else match Find(items, id)
      case None => Effect(Notified(UpdateErrorMessage), [GetStock(id)])
      case Some(i) => Effect(Committed(SetAmount(items, i, amount)), [GetStock(id)])
  }

  /** The cart after an operation with the given effect. */
  function After(items: seq<Product>, e: Effect): seq<Product> {
    if e.outcome.Committed? then e.outcome.cart else items
  }
}
