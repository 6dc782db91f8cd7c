# Shopping-cart state of the RocketShoes store, in Dafny

This project models the cart provider of a small React store
(`src/hooks/useCart.tsx`). The provider holds the cart as an ordered list of
line items. Each item is a product with an `id` and an `amount`. It keeps a copy
of the cart in browser storage and offers three operations:

- `addProduct` adds one unit of a product, checked against the remote stock;
- `removeProduct` deletes a product's entry;
- `updateProductAmount` sets a product's amount, checked against the remote stock.

An operation that succeeds commits through `attCart`, which replaces the visible
cart and the stored copy together. An operation that fails shows a toast message
and leaves both alone.

The project has three files:

- `cart_model.dfy` (module `CartModel`) holds the values: `Product`, the
  service as two lookup maps (`Api`), the outbound reads (`Request`), the four
  toast messages, and one pure *effect function* per operation. An effect
  function gives the operation's outcome (`Committed`, `Notified` or
  `Ignored`) and the reads it issues, from the cart before the call.
- `cart_properties.dfy` (module `CartProperties`) proves what the operations
  promise about those functions. It states which branch fires and what the cart
  becomes, with `QuantityOf` (total amount held per product id) and `Without`
  (a filter) as independent views. It also proves that unique ids and positive
  amounts survive every operation and every sequence of operations.
- `cart_provider.dfy` (module `CartStore`) holds the class `CartProvider`. Its
  fields are `cart`, `stored`, `messages` and `requests`. Its methods follow the
  source step by step: copy the cart, search it, read the stock, return early
  with a toast, edit the copy, commit. Each method is proved to leave exactly
  the state its effect function describes (`Reflects`), and to keep `Valid()`
  (for `AddProduct`, when the catalogue answers with the requested id) and
  `InSync()`.

How the external collaborators are modelled:

- The remote service is a parameter `Api(stock, products)`. A missing key is a
  failed request, whether through a 404 or a transport error.
- Each read is appended to `requests`, so "no catalogue read" and "no stock
  read" can be stated.
- A toast is a string appended to `messages`.
- The storage slot `@RocketShoes:cart` is the field `stored: Option<seq<Product>>`.

Three facts about the code shape the model:

- The toast messages are the code's own Portuguese strings.
- When `updateProductAmount` fails to read the stock, the update error
  'Erro na alteração de quantidade do produto' is shown (lines 135-136).
- A stored slot that `JSON.parse` rejects throws at line 30. The model therefore
  starts only from an absent slot (an empty cart) or from a parsed cart.

The effect functions `CartModel.AddProductEffect`, `CartModel.RemoveProductEffect`
and `CartModel.UpdateProductAmountEffect` carry no contract of their own. The
rows of the `CartProperties` lemmas state their properties, and the rows of the
`CartProvider` methods tie each method to its effect function.

`[...cart]` is a shallow copy. The assignments `productExists.amount = amount`
(lines 72 and 127) therefore write to objects shared with the current state.
Each of them runs only after every check has passed, and `attCart` follows it
at once. So the model uses sequence update (value semantics) and loses nothing
that can be observed.

## Model

| member | source | states |
|---|---|---|
| CartModel.Find | src/hooks/useCart.tsx:58 | the index found holds the id and no earlier entry does; None exactly when no entry holds the id |
| CartModel.NewItem | src/hooks/useCart.tsx:76-79 | the new line item is the only one whose catalogue part (`Data`) is the fetched data and whose amount is 1 |
| CartModel.CartAmount | src/hooks/useCart.tsx:63 | 0 when the cart does not hold the id; with unique ids, the amount of the entry that does |
| CartModel.RemoveAt | src/hooks/useCart.tsx:98 | one entry shorter; entries before the index kept, entries after it shifted down by one |
| CartModel.SetAmount | src/hooks/useCart.tsx:72 | only the entry at the index changes, and only its amount |
| CartModel.Without | src/hooks/useCart.tsx:98 | reference filter for removal: no entry of the id remains, never longer than the input |
| CartProperties.AddExistingIncrements | src/hooks/useCart.tsx:58-72 | for a held product with stock for one more: that entry's amount goes up by 1, all other entries and the order are unchanged, and the only read is the stock read (no catalogue read) |
| CartProperties.AddNewAppends | src/hooks/useCart.tsx:73-82 | for an absent product with stock of at least 1 and catalogue data: the old cart is kept as a prefix and one entry is appended at the end, whose catalogue fields are exactly the fetched data and whose amount is 1, after a stock read and a catalogue read |
| CartProperties.AddOutOfStock | src/hooks/useCart.tsx:63-69 | current amount + 1 above the stock: nothing committed, single message 'Quantidade solicitada fora de estoque', no catalogue read |
| CartProperties.AddLookupFails | src/hooks/useCart.tsx:60-87 | a failed stock read, or a failed catalogue read for a new product: nothing committed, message 'Erro na adição do produto' |
| CartProperties.AddCommitsIff | src/hooks/useCart.tsx:55-88 | addProduct commits if and only if the stock read succeeds, the stock covers one more unit, and the product is held or found in the catalogue; otherwise it shows exactly one of the two add messages |
| CartProperties.AddQuantity | src/hooks/useCart.tsx:63-82 | on commit, with unique ids and a catalogue that answers with the requested id: the product's quantity rises by exactly 1 and stays within the stock read, and every other product's quantity is unchanged |
| CartProperties.AddCopiesServedId | src/hooks/useCart.tsx:74-80 | a catalogue that answers a request for 5 with a product of id 7 makes addProduct commit a cart with two entries of id 7 |
| CartProperties.AddPreservesWellFormed | src/hooks/useCart.tsx:58-80 | unique ids and amounts of at least 1 survive addProduct, when the catalogue answers with the requested id, because it appends only when find found no match |
| CartProperties.RemovePresent | src/hooks/useCart.tsx:93-99 | removing a held product commits the cart with exactly that entry filtered out and the rest in order: one entry shorter, that product's quantity 0, others unchanged, no remote read |
| CartProperties.RemoveAbsent | src/hooks/useCart.tsx:95-105 | removing an absent product: nothing committed, message 'Erro na remoção do produto' |
| CartProperties.RemovePreservesWellFormed | src/hooks/useCart.tsx:98 | unique ids and positive amounts survive removeProduct |
| CartProperties.UpdateNonPositiveIgnored | src/hooks/useCart.tsx:110-112 | amount <= 0: nothing changes, no message, no stock read |
| CartProperties.UpdateOutOfStock | src/hooks/useCart.tsx:114-121 | amount above stock: out-of-stock message and cart unchanged, whether the product is held or not |
| CartProperties.UpdateFails | src/hooks/useCart.tsx:114-136 | a failed stock read, or an in-stock amount for an absent product: message 'Erro na alteração de quantidade do produto', nothing committed |
| CartProperties.UpdateSetsAmount | src/hooks/useCart.tsx:123-128 | an in-stock positive amount on a held product: only that entry's amount is set, the product's quantity becomes the amount, every other quantity and the order are unchanged |
| CartProperties.UpdateCommitsIff | src/hooks/useCart.tsx:108-138 | updateProductAmount commits if and only if the amount is positive, the stock read succeeds and covers it, and the cart holds the product |
| CartProperties.UpdatePreservesWellFormed | src/hooks/useCart.tsx:110-127 | unique ids and amounts of at least 1 survive updateProductAmount |
| CartProperties.RunPreservesWellFormed | src/hooks/useCart.tsx:55-138 | after any sequence of the three operations, each against the service as it then answers and with a catalogue that answers every add with the requested id: at most one entry per id remains and every amount is at least 1 |
| CartStore.CartProvider.constructor | src/hooks/useCart.tsx:26-34 | the cart starts from the stored slot, or empty when nothing is stored; the stored copy and the cart agree; a well-formed slot gives a Valid cart |
| CartStore.CartProvider.AttCart | src/hooks/useCart.tsx:36-39 | the cart and the stored copy both become the new cart; nothing else changes |
| CartStore.CartProvider.Notify | src/hooks/useCart.tsx:67 | a toast: the message goes at the end of the log, nothing else changes |
| CartStore.CartProvider.FetchStock | src/hooks/useCart.tsx:60-62 | one stock read is logged; returns the stock amount, or None when the read fails |
| CartStore.CartProvider.FetchProduct | src/hooks/useCart.tsx:74 | one catalogue read is logged; returns the product data, or None when the read fails |
| CartStore.CartProvider.AddProduct | src/hooks/useCart.tsx:55-88 | the new cart, stored copy, message log and read log are exactly those of AddProductEffect; a commit writes the same cart to both; keeps InSync, and keeps Valid when the catalogue answers with the requested id |
| CartStore.CartProvider.RemoveProduct | src/hooks/useCart.tsx:90-106 | the new state is exactly that of RemoveProductEffect; keeps Valid and InSync |
| CartStore.CartProvider.UpdateProductAmount | src/hooks/useCart.tsx:108-138 | the new state is exactly that of UpdateProductAmountEffect; keeps Valid and InSync |

## Left out

- React context, the provider component and `useCart` (lines 23, 140-153) are
  rendering plumbing, not cart logic.
- `api.get` and `await` are replaced by lookups in the `Api` parameter. A
  success response is assumed to carry an integer `stock.data.amount`. A reply
  without that field, which the code would compare as `undefined`, is not modelled.
- Two overlapping asynchronous calls can produce a lost update, because each
  one works from the cart it captured. The model runs each operation to
  completion on its own, so this concurrency behaviour is not captured.
- `localStorage` and JSON are modelled as the `stored` field. A slot that
  `JSON.parse` rejects throws at line 30. A slot that parses to anything other
  than a list of products (`{}`, `null`, a string) is not modelled: the code
  keeps it as the cart and fails or misbehaves later, at `[...cart]` inside the
  operations.
- A product with a `NaN` or fractional amount is not modelled: amounts are integers.
- The commented-out effect code (lines 41-53) has no behaviour.
- `src/pages/Cart/index.tsx` is not part of this model. It holds table markup,
  floating-point subtotals and currency formatting, and handlers that only call
  `updateProductAmount` with `amount ± 1`.
- CartProperties.AddPreservesWellFormed: for uniqueness after an append, the model assumes
  that the catalogue answers a request for `id` with a product whose id is `id`
  (`ProductIdMatches`). The code copies whatever id the service returns.
- CartProperties.AddQuantity: assumes the catalogue answers a request for `id`
  with a product whose id is `id` (`ProductIdMatches`). Otherwise the appended
  entry counts towards the served id, as AddCopiesServedId shows.
- CartProperties.RunPreservesWellFormed: assumes `ProductIdMatches` for every
  step. Without it, unique ids can break (AddCopiesServedId).
- CartStore.CartProvider.AddProduct: keeps `Valid()` only under
  `ProductIdMatches`, for the same reason.
- CartStore.CartProvider.AttCart: always writes both the cart and the stored
  slot. In the code, `localStorage.setItem` (line 38) can throw after `setCart`
  (line 37), for example when storage is full or disabled. The cart is then
  replaced, the slot keeps its old value, and the caller's `catch` shows its
  error toast. That path is not modelled, and `InSync` relies on its absence.
