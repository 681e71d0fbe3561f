/** The cart provider: the in-memory cart and the persisted storage slot,
    and the operations that change them. Every accepted change goes through
    HandleChangeCartState, which replaces the cart and writes the same
    snapshot to the slot. */
module Provider {
  import opened Products
  import opened Transitions

  class CartProvider {
    /** The cart the views read. */
    var cart: seq<Product>
    /** The persisted slot: the persisted snapshot, if any. */
    var stored: Option<seq<Product>>

    /** Loading the slot now would give back the in-memory cart. */
    ghost predicate Persisted()
      reads this
    {
      (stored.Some? ==> cart == stored.value) && (stored.None? ==> cart == [])
    }

    /** Start-up: the stored snapshot when there is one, otherwise the empty cart. */
    constructor (storage: Option<seq<Product>>)
      ensures stored == storage
      ensures storage.Some? ==> cart == storage.value
      ensures storage.None? ==> cart == []
      ensures Persisted()
    {
      stored := storage;
      match storage {
        case Some(snapshot) => cart := snapshot;
        case None => cart := [];
      }
    }

    /** Replaces the cart and persists the same snapshot. */
    method HandleChangeCartState(newCartState: seq<Product>)
      modifies this
      ensures cart == newCartState
      ensures stored == Some(newCartState)
      ensures Persisted()
    {
      cart := newCartState;
      stored := Some(newCartState);
    }

    /** Changes the quantity of `productId` to `amount`, given the stock lookup's answer. */
    method UpdateProductAmount(productId: int, amount: int, stock: Lookup<Stock>) returns (o: Outcome)
      requires Persisted()
      modifies this
      ensures o == UpdateStep(old(cart), productId, amount, stock)
      ensures cart == Apply(old(cart), o)
      ensures stored == if o.Committed? then Some(cart) else old(stored)
      ensures Persisted()
      ensures WellFormed(old(cart)) ==> WellFormed(cart)
    {
      ghost var before := cart;
      match stock {
        case LookupFailed =>
          o := Notified(UpdateFailed);
        case Found(s) =>
          var inStock := s.amount >= amount;
          if amount < 1 {
            o := Ignored;
          } else if !inStock {
            o := Notified(OutOfStock);
          } else {
            var newCartState := SetAmount(cart, productId, amount);
            HandleChangeCartState(newCartState);
            o := Committed(newCartState);
          }
      }
      if WellFormed(before) {
        UpdatePreservesWellFormed(before, productId, amount, stock);
      }
    }

    /** Adds one unit of `productId`, given the answers of the product and stock lookups. */
    method AddProduct(productId: int, product: Lookup<CatalogueProduct>, stock: Lookup<Stock>) returns (o: Outcome)
      requires Persisted()
      modifies this
      ensures o == AddStep(old(cart), productId, product, stock)
      ensures cart == Apply(old(cart), o)
      ensures stored == if o.Committed? then Some(cart) else old(stored)
      ensures Persisted()
      ensures WellFormed(old(cart)) && (!Has(old(cart), productId) && product.Found? ==> !Has(old(cart), product.value.id)) ==> WellFormed(cart)
    {
      ghost var before := cart;
      var productInCart := Find(cart, productId);
      if productInCart.Some? {
        o := UpdateProductAmount(productId, productInCart.value.amount + 1, stock);
      } else {
        match product {
          case LookupFailed =>
            o := Notified(AdditionFailed);
          case Found(p) =>
            var newCartState := cart + [NewLine(p)];
            HandleChangeCartState(newCartState);
            o := Committed(newCartState);
        }
      }
      if WellFormed(before) && (!Has(before, productId) && product.Found? ==> !Has(before, product.value.id)) {
        AddPreservesWellFormed(before, productId, product, stock);
      }
    }

    /** Removes every line of `productId`, or reports that there is none. */
    method RemoveProduct(productId: int) returns (o: Outcome)
      requires Persisted()
      modifies this
      ensures o == RemoveStep(old(cart), productId)
      ensures cart == Apply(old(cart), o)
      ensures stored == if o.Committed? then Some(cart) else old(stored)
      ensures Persisted()
      ensures WellFormed(old(cart)) ==> WellFormed(cart)
    {
      ghost var before := cart;
      var productInCart := Find(cart, productId);
      if productInCart.None? {
        o := Notified(RemovalFailed);
      } else {
        var newCartState := Without(cart, productId);
        HandleChangeCartState(newCartState);
        o := Committed(newCartState);
      }
      if WellFormed(before) {
        RemovePreservesWellFormed(before, productId);
      }
    }
  }

  /** A reload: a provider started from the slot of another holds the same cart. */
  method Reload(p: CartProvider) returns (q: CartProvider)
    requires p.Persisted()
    ensures fresh(q)
    ensures q.cart == p.cart && q.stored == p.stored
  {
    q := new CartProvider(p.stored);
  }
}
