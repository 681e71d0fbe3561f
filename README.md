# Shopping-cart state model

This project models the cart state container of a storefront front-end
(`CartProvider` in `src/hooks/useCart.tsx`) and proves properties of it
in Dafny. The cart is an ordered list of product lines. Each line has an
`id`, an `amount` and some descriptive fields. The container offers three
operations: add a product, remove a product and set a product's quantity.
Every accepted change replaces the in-memory cart and writes the same
snapshot to a local storage slot. At start-up the cart is read from that
slot, or is empty when the slot holds nothing.

The model has three modules:

- `Products` (`products.dfy`) holds the cart line and the three list
  computations the operations use. `Find` is the first-match
  `cart.find`. `Without` is the `cart.filter` that drops an id.
  `SetAmount` is the `cart.map` that sets an id's quantity. The module
  also holds lemmas about these functions: order is kept, ids are kept,
  and an absent id leaves the cart as it was.
- `Transitions` (`transitions.dfy`) gives each operation as a pure step.
  A step takes the cart, the operation's arguments and the answers of the
  remote lookups. It returns an `Outcome`: `Committed(snapshot)`,
  `Ignored` (a silent no-op) or `Notified(notice)` (state untouched, a
  message shown). There is one `Notice` per distinct message. Lemmas state
  what each operation does. Removal and quantity changes keep the cart
  invariant (unique ids, every amount at least 1). Addition keeps it, except
  when a new id's fetched record carries an id already in the cart. The source
  trusts the product lookup's id, and `AddDuplicatesServerId` shows the
  duplicate line that results otherwise.
- `Provider` (`provider.dfy`) holds the class `CartProvider`. Its fields
  are `cart` and `stored` (the storage slot: the persisted snapshot,
  if any). It has the start-up constructor, `HandleChangeCartState` and
  one method per operation. Each method has the same branches as the
  source. Each one is proved to yield its step's outcome, to leave the
  cart the step gives, and to keep the slot equal to the cart.

The remote lookups (`GET products/{id}`, `GET stock/{id}`) are not
performed. Their answers come in as parameters of type `Lookup<T>`: the
record, or `LookupFailed`. A failed lookup stands for the exception
caught by the operation's `catch` block.

The model follows the code where its behaviour differs from what a
storefront cart might be expected to do:

- Adding an id that is not yet in the cart checks no stock. The product
  is appended with amount 1 even when the stock is zero. This is stated
  by `AddNewIgnoresStock`.
- A quantity change looks up the stock before it tests `amount < 1`.
  So a failed lookup shows the "change failed" message even for an
  amount below 1. The silent no-op happens only when the lookup
  succeeds.
- An accepted quantity change (the stock lookup succeeds and
  1 <= amount <= stock) for an id that is not in the cart is not a no-op.
  It commits, and so persists, a snapshot equal to the old cart.
- Removing an absent id shows the same message as removal's `catch`
  block. So `RemovalFailed` covers both cases.

## Model

| member | source | states |
|---|---|---|
| Products.Find | src/hooks/useCart.tsx:42 | none exactly when no line has the id; otherwise the result carries that id |
| Products.FindFirst | src/hooks/useCart.tsx:42 | when no line before line i has line i's id, the search for that id returns line i: the search returns the first match |
| Products.FindUnique | src/hooks/useCart.tsx:61 | when ids are unique, the search for a line's id returns that line |
| Products.Without | src/hooks/useCart.tsx:68 | a line is in the result exactly when it is in the cart and has a different id; the result is no longer than the cart |
| Products.WithoutAbsent | src/hooks/useCart.tsx:68 | filtering an id that no line has returns the cart unchanged |
| Products.WithoutConcat | src/hooks/useCart.tsx:68 | filtering works piece by piece on a concatenation, so the kept lines stay in their original order |
| Products.WithoutSplit | src/hooks/useCart.tsx:68 | filtering a line's id out of (before, line, after) gives the filtered part before followed by the filtered part after |
| Products.WithoutOnlyLine | src/hooks/useCart.tsx:68 | when neither the part before nor the part after carries the line's id, filtering it returns exactly those two parts |
| Products.WithoutUniqueLine | src/hooks/useCart.tsx:68 | when ids are unique, filtering a present id returns the cart with exactly that one line cut out |
| Products.WithoutKeepsUnique | src/hooks/useCart.tsx:68 | filtering keeps ids unique |
| Products.SetAmountLines | src/hooks/useCart.tsx:93-99 | same length; every line keeps its id and descriptive fields; lines with the id get the new amount; every other line is returned as it was |
| Products.AppendKeepsWellFormed | src/hooks/useCart.tsx:51 | appending a line with a new id and an amount of at least 1 keeps ids unique and amounts positive |
| Products.SetAmountKeepsIds | src/hooks/useCart.tsx:93-99 | the ids present are the same before and after, and unique ids stay unique |
| Products.SetAmountAbsent | src/hooks/useCart.tsx:93-99 | setting the quantity of an id no line has returns the cart unchanged |
| Products.SetAmountUniqueLine | src/hooks/useCart.tsx:93-99 | when ids are unique, the result is the cart with only the matching line's amount replaced |
| Transitions.UpdateStep | src/hooks/useCart.tsx:76-105 | a failed stock lookup notifies UpdateFailed; an amount below 1 is ignored; an amount above the stock notifies OutOfStock; it commits exactly when the lookup succeeds and 1 <= amount <= stock; a committed snapshot is the map that sets the amount of the lines of that id |
| Transitions.UpdateChangesOnlyAmounts | src/hooks/useCart.tsx:93-100 | a committed snapshot keeps length, order, ids and details; lines of the id get the new amount and every other line keeps its amount |
| Transitions.AddStep | src/hooks/useCart.tsx:40-57 | for an id not in the cart: a failed product lookup notifies AdditionFailed; a fetched product is committed as the old cart plus exactly one line at the end, with amount 1 and the fetched id and details |
| Transitions.RemoveStep | src/hooks/useCart.tsx:59-74 | it commits exactly when some line has the id; otherwise it notifies RemovalFailed; a committed snapshot holds exactly the cart's lines of other ids |
| Transitions.RemoveKeepsOrder | src/hooks/useCart.tsx:68-70 | removing a present id commits the lines before and after its line, each part filtered, in their original order; with unique ids it commits the cart with just that line cut out |
| Transitions.RemoveTwice | src/hooks/useCart.tsx:59-70 | a second removal of the same id notifies RemovalFailed and leaves the cart as the first removal left it |
| Transitions.UpdateAbsentCommitsSameCart | src/hooks/useCart.tsx:93-100 | an accepted quantity change for an id not in the cart commits a snapshot equal to the old cart |
| Transitions.UpdateSetsOneLine | src/hooks/useCart.tsx:93-100 | with unique ids and 1 <= amount <= stock, the committed snapshot is the cart with only that line's amount replaced |
| Transitions.AddExistingIsUpdate | src/hooks/useCart.tsx:42-46 | adding an id already in the cart gives the same outcome as a quantity change to the first matching line's amount plus one, with the same stock answer |
| Transitions.AddExistingIncrements | src/hooks/useCart.tsx:42-46 | with unique ids, a successful stock lookup and a line amount of at least 0: if the stock covers one more unit, the commit increments only that line; otherwise it notifies OutOfStock |
| Transitions.AddNewIgnoresStock | src/hooks/useCart.tsx:49-53 | for an id not in the cart, the outcome is the same whatever the stock lookup answers |
| Transitions.RemovePreservesWellFormed | src/hooks/useCart.tsx:68 | removal keeps ids unique and every amount at least 1 |
| Transitions.UpdatePreservesWellFormed | src/hooks/useCart.tsx:84-99 | a quantity change keeps ids unique and every amount at least 1 |
| Transitions.AddExistingPreservesWellFormed | src/hooks/useCart.tsx:42-46 | adding an id already in the cart keeps ids unique and every amount at least 1 |
| Transitions.AddPreservesWellFormed | src/hooks/useCart.tsx:42-51 | an addition keeps ids unique and every amount at least 1, provided that, when a new line is appended, the fetched record's id is not already in the cart |
| Transitions.AddDuplicatesServerId | src/hooks/useCart.tsx:49-51 | adding a new id whose fetched record carries an id already in the cart yields a cart with duplicate ids |
| Transitions.AddDuplicatesServerIdExample | src/hooks/useCart.tsx:49-51 | cart [product 2], add(1), lookup answers with product 2's record: the cart was well formed and the result holds product 2 twice |
| Provider.CartProvider.constructor | src/hooks/useCart.tsx:25-33 | the cart is the stored snapshot when there is one, else empty; the slot agrees with the cart |
| Provider.CartProvider.HandleChangeCartState | src/hooks/useCart.tsx:35-38 | the cart becomes the new snapshot, and the slot holds the same snapshot |
| Provider.CartProvider.UpdateProductAmount | src/hooks/useCart.tsx:76-105 | the outcome is UpdateStep's; the cart becomes the committed snapshot or stays as it was; the slot is written only on commit; cart and slot agree afterwards; the cart invariant is kept |
| Provider.CartProvider.AddProduct | src/hooks/useCart.tsx:40-57 | the outcome is AddStep's; the slot is written only on commit and agrees with the cart; the cart invariant is kept when a fetched record's id is not already in the cart |
| Provider.CartProvider.RemoveProduct | src/hooks/useCart.tsx:59-74 | the outcome is RemoveStep's; the slot is written only on commit and agrees with the cart; the cart invariant is kept |
| Provider.Reload | src/hooks/useCart.tsx:25-38 | a provider started from another provider's slot holds the same cart |

## Left out

- React context, provider rendering and the `useCart` hook: UI-framework plumbing with no cart logic.
- Notification messages: only which message is shown is modelled, as a `Notice` value.
- The HTTP lookups: foreign I/O. Their answers, or their failure, are parameters.
- JSON encoding and `localStorage`: the slot is an optional snapshot value, not text. So a slot holding an empty string (falsy, read as no cart) and a slot whose text does not parse (an uncaught exception at start-up) are not represented.
- A storage write that throws (for example, a full quota) after the in-memory cart was set: storage failures are not modelled, so `HandleChangeCartState` always writes both.
- Asynchrony: the un-awaited quantity change that `addProduct` starts, and any interleaving of concurrent operations, are out of scope. Each operation runs to completion on the cart it started with.
- Number representation: ids and amounts are unbounded integers, not floating-point numbers. Non-integer or non-numeric values read from storage are not represented.
- Descriptive product fields: the product type is not part of this model. The `Details` fields (name, price, image) are assumed, not taken from it; they are carried and never read.
- The stock record's own `id` field is carried but not compared with the requested id, as in the source.
- Transitions.AddPreservesWellFormed: the invariant is promised only when a fetched record's id is not already in the cart. The source appends whatever id the product lookup returns and never compares it with the requested id, so uniqueness rests on the server. `AddDuplicatesServerId` states what happens otherwise.
