/** The three cart operations as pure steps. A step takes the current cart,
    the operation's arguments and the answers of the product and stock
    lookups, and yields an outcome: a snapshot to commit, a silent no-op or a
    user notification. */
module Transitions {
  import opened Products

  /** The answer of a remote lookup: the record, or an error (network or parse). */
  datatype Lookup<T> = Found(value: T) | LookupFailed

  /** A stock entry: how many units of a product are available. */
  datatype Stock = Stock(id: int, amount: int)

  /** A catalogue product as the product lookup returns it (no quantity). */
  datatype CatalogueProduct = CatalogueProduct(id: int, details: Details)

  /** The user notifications, one per distinct message the cart shows. */
  datatype Notice =
    | AdditionFailed  // the product lookup of an addition failed
    | RemovalFailed   // a removal targeted an id not in the cart
    | UpdateFailed    // the stock lookup of a quantity change failed
    | OutOfStock      // the requested quantity exceeds the stock

  datatype Outcome =
    | Committed(snapshot: seq<Product>)  // new snapshot, published and persisted
    | Ignored                            // silent no-op
    | Notified(notice: Notice)           // state untouched, notification shown

  /** The cart after an outcome: the committed snapshot, or the old cart. */
  function Apply(cart: seq<Product>, o: Outcome): seq<Product>
  {
    if o.Committed? then o.snapshot else cart
  }

  /** The line a fetched catalogue product becomes: its fields with quantity 1. */
  function NewLine(p: CatalogueProduct): Product
  {
    Product(p.id, 1, p.details)
  }

  /** Changing the quantity of `productId` to `amount`. The stock lookup comes
      first, so its failure is reported whatever the amount; then an amount
      below 1 is ignored, one above the stock is refused, and otherwise every
      line of that id gets the new amount. */
  function UpdateStep(cart: seq<Product>, productId: int, amount: int, stock: Lookup<Stock>): (o: Outcome)
    ensures stock.LookupFailed? ==> o == Notified(UpdateFailed)
    ensures stock.Found? && amount < 1 ==> o == Ignored
    ensures stock.Found? && 1 <= amount && stock.value.amount < amount ==> o == Notified(OutOfStock)
    ensures o.Committed? <==> stock.Found? && 1 <= amount <= stock.value.amount
    ensures o.Committed? ==> o.snapshot == SetAmount(cart, productId, amount)
  {
    match stock
    case LookupFailed => Notified(UpdateFailed)
    case Found(s) =>
      var inStock := s.amount >= amount;
      if amount < 1 then Ignored
      else if !inStock then Notified(OutOfStock)
      else Committed(SetAmount(cart, productId, amount))
  }

  /** Adding one unit of `productId`. An id already in the cart goes through
      the quantity change with the first matching line's amount plus one;
      a new id is fetched and appended with quantity 1, with no stock check. */
  function AddStep(cart: seq<Product>, productId: int, product: Lookup<CatalogueProduct>, stock: Lookup<Stock>): (o: Outcome)
    ensures !Has(cart, productId) && product.LookupFailed? ==> o == Notified(AdditionFailed)
    ensures !Has(cart, productId) && product.Found? ==>
      o.Committed? && |o.snapshot| == |cart| + 1 && o.snapshot[..|cart|] == cart &&
      o.snapshot[|cart|].amount == 1 && o.snapshot[|cart|].id == product.value.id &&
      o.snapshot[|cart|].details == product.value.details
  {
    match Find(cart, productId)
    case Some(productInCart) => UpdateStep(cart, productId, productInCart.amount + 1, stock)
    case None =>
      match product
      case LookupFailed => Notified(AdditionFailed)
      case Found(p) => Committed(cart + [NewLine(p)])
  }

  /** Removing `productId`: refused with a notification when no line carries
      it, otherwise every line of it is filtered out. */
  function RemoveStep(cart: seq<Product>, productId: int): (o: Outcome)
    ensures o.Committed? <==> Has(cart, productId)
    ensures !o.Committed? ==> o == Notified(RemovalFailed)
    ensures o.Committed? ==> forall p :: p in o.snapshot <==> p in cart && p.id != productId
  {
    match Find(cart, productId)
    case None => Notified(RemovalFailed)
    case Some(_) => Committed(Without(cart, productId))
  }

  /** Removing a present id keeps the other lines in their original order:
      the snapshot is the old cart filtered piece by piece, and with unique
      ids it is the old cart with the one matching line cut out. */
  lemma RemoveKeepsOrder(cart: seq<Product>, i: int)
    requires 0 <= i < |cart|
    ensures RemoveStep(cart, cart[i].id) == Committed(Without(cart[..i], cart[i].id) + Without(cart[i + 1..], cart[i].id))
    ensures UniqueIds(cart) ==> RemoveStep(cart, cart[i].id) == Committed(cart[..i] + cart[i + 1..])
  {
    assert cart == cart[..i] + [cart[i]] + cart[i + 1..];
    WithoutSplit(cart[..i], cart[i], cart[i + 1..]);
    if UniqueIds(cart) {
      WithoutUniqueLine(cart, i);
    }
  }

  /** Removing twice: the second removal finds nothing and changes nothing. */
  lemma RemoveTwice(cart: seq<Product>, productId: int)
    ensures var after := Apply(cart, RemoveStep(cart, productId));
      RemoveStep(after, productId) == Notified(RemovalFailed) &&
      Apply(after, RemoveStep(after, productId)) == after
  {
  }

  /** An accepted quantity change keeps length, order, ids and descriptive
      fields; only the lines of the id change, and they get the new amount. */
  lemma UpdateChangesOnlyAmounts(cart: seq<Product>, productId: int, amount: int, stock: Lookup<Stock>)
    requires UpdateStep(cart, productId, amount, stock).Committed?
    ensures var r := UpdateStep(cart, productId, amount, stock).snapshot;
      |r| == |cart| &&
      forall i :: 0 <= i < |cart| ==>
        r[i].id == cart[i].id && r[i].details == cart[i].details &&
        r[i].amount == (if cart[i].id == productId then amount else cart[i].amount)
  {
    SetAmountLines(cart, productId, amount);
  }

  /** Changing the quantity of an id no line carries commits the old cart unchanged. */
  lemma UpdateAbsentCommitsSameCart(cart: seq<Product>, productId: int, amount: int, stock: Lookup<Stock>)
    requires !Has(cart, productId)
    ensures UpdateStep(cart, productId, amount, stock).Committed? ==>
      UpdateStep(cart, productId, amount, stock) == Committed(cart)
  {
    SetAmountAbsent(cart, productId, amount);
  }

  /** With unique ids, an accepted quantity change rewrites exactly the one
      matching line and leaves every other line, and the order, alone. */
  lemma UpdateSetsOneLine(cart: seq<Product>, i: int, amount: int, stock: Lookup<Stock>)
    requires UniqueIds(cart)
    requires 0 <= i < |cart|
    requires stock.Found? && 1 <= amount <= stock.value.amount
    ensures UpdateStep(cart, cart[i].id, amount, stock) == Committed(cart[i := cart[i].(amount := amount)])
  {
    SetAmountUniqueLine(cart, i, amount);
  }

  /** Adding a product already in the cart is the quantity change of that id
      to the amount of its first line plus one. */
  lemma AddExistingIsUpdate(cart: seq<Product>, i: int, product: Lookup<CatalogueProduct>, stock: Lookup<Stock>)
    requires 0 <= i < |cart|
    requires !Has(cart[..i], cart[i].id)
    ensures AddStep(cart, cart[i].id, product, stock) == UpdateStep(cart, cart[i].id, cart[i].amount + 1, stock)
  {
    FindFirst(cart, i);
  }

  /** With unique ids, adding a product already in the cart is accepted when
      the stock covers one more unit, with only that line incremented, and
      refused as out of stock otherwise. */
  lemma AddExistingIncrements(cart: seq<Product>, i: int, product: Lookup<CatalogueProduct>, stock: Lookup<Stock>)
    requires UniqueIds(cart)
    requires 0 <= i < |cart|
    requires cart[i].amount >= 0
    requires stock.Found?
    ensures cart[i].amount + 1 <= stock.value.amount ==>
      AddStep(cart, cart[i].id, product, stock) == Committed(cart[i := cart[i].(amount := cart[i].amount + 1)])
    ensures stock.value.amount < cart[i].amount + 1 ==>
      AddStep(cart, cart[i].id, product, stock) == Notified(OutOfStock)
  {
    UniqueElsewhereAbsent(cart, i);
    AddExistingIsUpdate(cart, i, product, stock);
    if cart[i].amount + 1 <= stock.value.amount {
      UpdateSetsOneLine(cart, i, cart[i].amount + 1, stock);
    }
  }

  /** Adding a new id does not consult the stock: the outcome is the same
      whatever the stock lookup answers, even a stock of zero. */
  lemma AddNewIgnoresStock(cart: seq<Product>, productId: int, product: Lookup<CatalogueProduct>, s1: Lookup<Stock>, s2: Lookup<Stock>)
    requires !Has(cart, productId)
    ensures AddStep(cart, productId, product, s1) == AddStep(cart, productId, product, s2)
  {
  }

  /** Removal keeps the cart invariant. */
  lemma RemovePreservesWellFormed(cart: seq<Product>, productId: int)
    requires WellFormed(cart)
    ensures WellFormed(Apply(cart, RemoveStep(cart, productId)))
  {
    WithoutKeepsUnique(cart, productId);
  }

  /** A quantity change keeps the cart invariant. */
  lemma UpdatePreservesWellFormed(cart: seq<Product>, productId: int, amount: int, stock: Lookup<Stock>)
    requires WellFormed(cart)
    ensures WellFormed(Apply(cart, UpdateStep(cart, productId, amount, stock)))
  {
    var o := UpdateStep(cart, productId, amount, stock);
    if o.Committed? {
      var r := o.snapshot;
      SetAmountKeepsIds(cart, productId, amount);
      SetAmountLines(cart, productId, amount);
      forall p | p in r ensures p.amount >= 1 {
        var k :| 0 <= k < |r| && r[k] == p;
        assert cart[k] in cart;
      }
    }
  }

  /** An addition of an id already in the cart keeps the cart invariant. */
  lemma AddExistingPreservesWellFormed(cart: seq<Product>, productId: int, product: Lookup<CatalogueProduct>, stock: Lookup<Stock>)
    requires WellFormed(cart)
    requires Has(cart, productId)
    ensures WellFormed(Apply(cart, AddStep(cart, productId, product, stock)))
  {
    var i :| 0 <= i < |cart| && cart[i].id == productId;
    UniqueElsewhereAbsent(cart, i);
    AddExistingIsUpdate(cart, i, product, stock);
    UpdatePreservesWellFormed(cart, productId, cart[i].amount + 1, stock);
  }

  /** An addition keeps the cart invariant, provided that, when a new line is
      appended, the record the product lookup answers with carries an id not
      yet in the cart (as it does when it is the product that was asked for). */
  lemma AddPreservesWellFormed(cart: seq<Product>, productId: int, product: Lookup<CatalogueProduct>, stock: Lookup<Stock>)
    requires WellFormed(cart)
    requires !Has(cart, productId) && product.Found? ==> !Has(cart, product.value.id)
    ensures WellFormed(Apply(cart, AddStep(cart, productId, product, stock)))
  {
    if Has(cart, productId) {
      AddExistingPreservesWellFormed(cart, productId, product, stock);
    } else if product.Found? {
      AppendKeepsWellFormed(cart, NewLine(product.value));
    }
  }

  /** The source trusts the product lookup: when adding a new id, the line
      appended carries whatever id the fetched record has. If that id is
      already in the cart, the result holds two lines of it. */
  lemma AddDuplicatesServerId(cart: seq<Product>, productId: int, product: Lookup<CatalogueProduct>, stock: Lookup<Stock>)
    requires !Has(cart, productId)
    requires product.Found? && Has(cart, product.value.id)
    ensures !UniqueIds(Apply(cart, AddStep(cart, productId, product, stock)))
  {
    var r := Apply(cart, AddStep(cart, productId, product, stock));
    var k :| 0 <= k < |cart| && cart[k].id == product.value.id;
    assert r[..|cart|][k] == r[k];
    assert r[k].id == r[|cart|].id;
  }

  /** A concrete instance: the cart holds product 2, product 1 is added and
      the lookup answers with product 2's record. */
  lemma AddDuplicatesServerIdExample(d: Details, stock: Lookup<Stock>)
    ensures var cart := [Product(2, 1, d)];
      WellFormed(cart) &&
      AddStep(cart, 1, Found(CatalogueProduct(2, d)), stock) == Committed([Product(2, 1, d), Product(2, 1, d)]) &&
      !UniqueIds(Apply(cart, AddStep(cart, 1, Found(CatalogueProduct(2, d)), stock)))
  {
    var cart := [Product(2, 1, d)];
    assert !Has(cart, 1);
    var r := [Product(2, 1, d), Product(2, 1, d)];
    assert r[0].id == r[1].id;
  }
}
