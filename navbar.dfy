/** The navigation bar's cart badge. */
module Navbar {
  import opened Sequences
  import opened CartStore

  function ItemQuantity(item: CartItem): int
  {
    item.quantity
  }

  /** `totalItems`: the sum of the quantities of the lines of the cart. */
  function TotalItems(cart: seq<CartItem>): int
  {
    SumOf(cart, ItemQuantity)
  }

  /** The badge is rendered when `totalItems > 0`. */
  predicate ShowBadge(cart: seq<CartItem>)
  {
    TotalItems(cart) > 0
  }

  lemma TotalItemsEmpty()
    ensures TotalItems([]) == 0
    ensures !ShowBadge([])
  {
  }

  /** The count of a cart is the counts of its parts added up, whatever their order. */
  lemma TotalItemsAppend(a: seq<CartItem>, b: seq<CartItem>)
    ensures TotalItems(a + b) == TotalItems(a) + TotalItems(b)
    ensures TotalItems(a + b) == TotalItems(b + a)
  {
    SumOfAppend(a, b, ItemQuantity);
    SumOfAppend(b, a, ItemQuantity);
  }

  /** Under the store's invariant every line holds at least one unit. */
  lemma TotalItemsAtLeastLines(cart: seq<CartItem>)
    requires AllPositive(cart)
    ensures TotalItems(cart) >= |cart|
  {
    SumOfAtLeastLength(cart, ItemQuantity);
  }

  /** Under the store's invariant the badge shows exactly when the cart has a line. */
  lemma BadgeIffNonEmpty(cart: seq<CartItem>)
    requires AllPositive(cart)
    ensures ShowBadge(cart) <==> cart != []
  {
    TotalItemsAtLeastLines(cart);
  }

  /** Adding a dish the cart does not hold raises the count by its quantity. */
  lemma TotalItemsAfterInsert(cart: seq<CartItem>, p: AddToCartPayload)
    requires !HasId(cart, p.id) && p.quantity > 0
    ensures TotalItems(AddedToCart(cart, p)) == TotalItems(cart) + p.quantity
  {
    SumAfterInsert(cart, p, ItemQuantity);
  }

  /**
   * Adding to line `k` of a well-formed cart raises the count by the units added, unless the
   * line drops out, which takes all its units away.
   */
  lemma TotalItemsAfterUpdate(cart: seq<CartItem>, k: nat, p: AddToCartPayload)
    requires WellFormed(cart) && k < |cart| && cart[k].id == p.id
    ensures TotalItems(AddedToCart(cart, p)) ==
              if cart[k].quantity + p.quantity > 0 then TotalItems(cart) + p.quantity
              else TotalItems(cart) - cart[k].quantity
  {
    SumAfterUpdate(cart, k, p, ItemQuantity);
  }

  /** Removing a line takes all its units off the count. */
  lemma TotalItemsAfterRemove(cart: seq<CartItem>, k: nat)
    requires WellFormed(cart) && k < |cart|
    ensures TotalItems(RemovedFromCart(cart, cart[k].id)) == TotalItems(cart) - cart[k].quantity
  {
    RemoveExisting(cart, k);
    SumOfRemove(cart, k, ItemQuantity);
  }
}
