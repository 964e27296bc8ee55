/**
 * The shopping-cart store: an ordered list of line items shared by every view,
 * changed only through `addToCart`, `removeFromCart` and `resetCart`.
 * Prices are integer cents; quantities are signed integers.
 */
module CartStore {
  import opened Wrappers
  import opened Sequences

  /** A line of the cart; as an add-to-cart payload, `quantity` is a signed delta. */
  datatype CartItem = CartItem(id: int, name: string, price: int, quantity: int)

  type AddToCartPayload = CartItem

  predicate HasId(cart: seq<CartItem>, id: int)
  {
    exists i | 0 <= i < |cart| :: cart[i].id == id
  }

  predicate AllPositive(cart: seq<CartItem>)
  {
    forall i | 0 <= i < |cart| :: cart[i].quantity > 0
  }

  predicate UniqueIds(cart: seq<CartItem>)
  {
    forall i, j | 0 <= i < j < |cart| :: cart[i].id != cart[j].id
  }

  /** The store invariant: every line has a positive quantity and no id occurs twice. */
  predicate WellFormed(cart: seq<CartItem>)
  {
    AllPositive(cart) && UniqueIds(cart)
  }

  /** The test `i => i.id === id`. */
  function IdIs(id: int): CartItem -> bool
  {
    (item: CartItem) => item.id == id
  }

  /** `cart.find(i => i.id === id)`: the first line with that id, if any. */
  function Find(cart: seq<CartItem>, id: int): (r: Option<CartItem>)
    ensures r.None? <==> !HasId(cart, id)
    ensures r.Some? ==> r.value.id == id
    ensures r.Some? ==> exists k | 0 <= k < |cart| :: cart[k] == r.value &&
                          forall j | 0 <= j < k :: cart[j].id != id
  {
    FindFirst(cart, IdIs(id))
  }

  /** In a cart with unique ids, `Find` returns exactly the line carrying the id. */
  lemma FindUnique(cart: seq<CartItem>, k: nat)
    requires UniqueIds(cart) && k < |cart|
    ensures Find(cart, cart[k].id) == Some(cart[k])
  {
  }

  predicate HasPositiveQuantity(item: CartItem)
  {
    item.quantity > 0
  }

  /** The `map` step of `addToCart`: every line with `id` has `delta` added to its quantity. */
  function AddQuantity(cart: seq<CartItem>, id: int, delta: int): seq<CartItem>
  {
    seq(|cart|, i requires 0 <= i < |cart| =>
      if cart[i].id == id then cart[i].(quantity := cart[i].quantity + delta) else cart[i])
  }

  /** The cart after `addToCart(p)`, where `p.quantity` is a signed delta. */
  function AddedToCart(cart: seq<CartItem>, p: AddToCartPayload): (r: seq<CartItem>)
    ensures !HasId(cart, p.id) && p.quantity <= 0 ==> r == cart
    ensures !HasId(cart, p.id) && p.quantity > 0 ==> r == cart + [p]
    ensures HasId(cart, p.id) ==> AllPositive(r) && |r| <= |cart|
    ensures HasId(cart, p.id) ==> forall i | 0 <= i < |r| && r[i].id != p.id :: r[i] in cart
    ensures |r| > |cart| ==> !HasId(cart, p.id) && p.quantity > 0 && r == cart + [p]
  {
    match Find(cart, p.id)
    case None => if p.quantity <= 0 then cart else cart + [p]
    case Some(_) =>
      var m := AddQuantity(cart, p.id, p.quantity);
      assert forall i | 0 <= i < |cart| && cart[i].id != p.id :: m[i] == cart[i];
      Filter(m, HasPositiveQuantity)
  }

  /** The test `item => item.id !== id` of `removeFromCart`. */
  function IdOtherThan(id: int): CartItem -> bool
  {
    (item: CartItem) => item.id != id
  }

  /** The cart after `removeFromCart(id)`. */
  function RemovedFromCart(cart: seq<CartItem>, id: int): (r: seq<CartItem>)
    ensures !HasId(r, id)
    ensures forall i | 0 <= i < |r| :: r[i] in cart
  {
    Filter(cart, IdOtherThan(id))
  }

  /** Every line with another id survives the removal. */
  lemma RemoveKeepsOthers(cart: seq<CartItem>, id: int)
    ensures forall i | 0 <= i < |cart| && cart[i].id != id :: cart[i] in RemovedFromCart(cart, id)
  {
    FilterKeepsKept(cart, IdOtherThan(id));
  }

  /** Filtering never creates a duplicate id. */
  lemma {:induction false} FilterKeepsUniqueIds(cart: seq<CartItem>, keep: CartItem -> bool)
    requires UniqueIds(cart)
    ensures UniqueIds(Filter(cart, keep))
    decreases |cart|
  {
    if cart != [] {
      var rest := cart[1..];
      assert UniqueIds(rest) by {
        forall i, j | 0 <= i < j < |rest| ensures rest[i].id != rest[j].id {
          assert rest[i] == cart[i + 1] && rest[j] == cart[j + 1];
        }
      }
      FilterKeepsUniqueIds(rest, keep);
      var fr := Filter(rest, keep);
      if keep(cart[0]) {
        forall j | 0 <= j < |fr| ensures cart[0].id != fr[j].id {
          assert fr[j] in rest;
          var i' :| 0 <= i' < |rest| && rest[i'] == fr[j];
          assert rest[i'] == cart[i' + 1];
        }
        assert Filter(cart, keep) == [cart[0]] + fr;
      }
    }
  }

  /** Adding `delta` to the line at `k` of a cart with unique ids touches that line only. */
  lemma AddQuantityAt(cart: seq<CartItem>, k: nat, delta: int)
    requires UniqueIds(cart) && k < |cart|
    ensures AddQuantity(cart, cart[k].id, delta) ==
            cart[..k] + [cart[k].(quantity := cart[k].quantity + delta)] + cart[k + 1..]
  {
  }

  /** On the existing-line path every other line that is positive survives. */
  lemma AddKeepsOtherLines(cart: seq<CartItem>, p: AddToCartPayload)
    requires HasId(cart, p.id)
    ensures forall i | 0 <= i < |cart| && cart[i].id != p.id && cart[i].quantity > 0 ::
              cart[i] in AddedToCart(cart, p)
  {
    var m := AddQuantity(cart, p.id, p.quantity);
    AddedExistingUnfolds(cart, p);
    FilterKeepsKept(m, HasPositiveQuantity);
    forall i | 0 <= i < |cart| && cart[i].id != p.id && cart[i].quantity > 0
      ensures cart[i] in AddedToCart(cart, p)
    {
      assert m[i] == cart[i] && HasPositiveQuantity(m[i]);
    }
  }

  /** On the existing-line path, `addToCart` is the `map` step followed by the `filter` step. */
  lemma AddedExistingUnfolds(cart: seq<CartItem>, p: AddToCartPayload)
    requires HasId(cart, p.id)
    ensures AddedToCart(cart, p) == Filter(AddQuantity(cart, p.id, p.quantity), HasPositiveQuantity)
  {
    assert Find(cart, p.id).Some?;
  }

  /**
   * On a well-formed cart, adding to an existing line changes its quantity in place and keeps
   * its name and price; when the new quantity is not positive the line is dropped and the other
   * lines keep their order.
   */
  lemma AddExisting(cart: seq<CartItem>, k: nat, p: AddToCartPayload)
    requires WellFormed(cart) && k < |cart| && cart[k].id == p.id
    ensures var q := cart[k].quantity + p.quantity;
            AddedToCart(cart, p) ==
              if q > 0 then cart[k := cart[k].(quantity := q)] else cart[..k] + cart[k + 1..]
  {
    var q := cart[k].quantity + p.quantity;
    AddExistingAround(cart, k, p);
    if q > 0 {
      UpdateAt(cart, k, cart[k].(quantity := q));
    } else {
      assert cart[..k] + [] + cart[k + 1..] == cart[..k] + cart[k + 1..];
    }
  }

  /** Helper for `AddExisting`: the lines around line `k` stay, and line `k` stays if still positive. */
  lemma AddExistingAround(cart: seq<CartItem>, k: nat, p: AddToCartPayload)
    requires WellFormed(cart) && k < |cart| && cart[k].id == p.id
    ensures var line := cart[k].(quantity := cart[k].quantity + p.quantity);
            AddedToCart(cart, p) ==
              cart[..k] + (if line.quantity > 0 then [line] else []) + cart[k + 1..]
  {
    var line := cart[k].(quantity := cart[k].quantity + p.quantity);
    var before, after := cart[..k], cart[k + 1..];
    var added := AddQuantity(cart, p.id, p.quantity);
    AddQuantityAt(cart, k, p.quantity);
    assert added == before + [line] + after;
    AddedExistingUnfolds(cart, p);
    PositiveAround(cart, k);
    KeepPositiveAround(before, line, after);
  }

  /** The lines before and after a line of a cart of positive lines are positive too. */
  lemma PositiveAround(cart: seq<CartItem>, k: nat)
    requires AllPositive(cart) && k < |cart|
    ensures AllPositive(cart[..k]) && AllPositive(cart[k + 1..])
  {
    var after := cart[k + 1..];
    assert forall i | 0 <= i < |after| :: after[i] == cart[k + 1 + i];
  }

  /** Dropping non-positive lines around `line`, when its neighbours are all positive, can only drop `line`. */
  lemma KeepPositiveAround(before: seq<CartItem>, line: CartItem, after: seq<CartItem>)
    requires AllPositive(before) && AllPositive(after)
    ensures Filter(before + [line] + after, HasPositiveQuantity) ==
            before + (if line.quantity > 0 then [line] else []) + after
  {
    assert forall i | 0 <= i < |before| :: HasPositiveQuantity(before[i]);
    assert forall i | 0 <= i < |after| :: HasPositiveQuantity(after[i]);
    FilterAround(before, line, after, HasPositiveQuantity);
  }

  /** Decrementing a line whose quantity is 1 removes it from the cart. */
  lemma DecrementLastUnitRemoves(cart: seq<CartItem>, k: nat)
    requires WellFormed(cart) && k < |cart| && cart[k].quantity == 1
    ensures AddedToCart(cart, cart[k].(quantity := -1)) == cart[..k] + cart[k + 1..]
    ensures !HasId(AddedToCart(cart, cart[k].(quantity := -1)), cart[k].id)
  {
    AddExisting(cart, k, cart[k].(quantity := -1));
    var r := cart[..k] + cart[k + 1..];
    forall i | 0 <= i < |r| ensures r[i].id != cart[k].id {
      if i < k { assert r[i] == cart[i]; } else { assert r[i] == cart[i + 1]; }
    }
  }

  /**
   * How any per-line sum (money, item count) moves under `addToCart` when the id is new:
   * the inserted line adds its own value.
   */
  lemma SumAfterInsert(cart: seq<CartItem>, p: AddToCartPayload, f: CartItem -> int)
    requires !HasId(cart, p.id) && p.quantity > 0
    ensures SumOf(AddedToCart(cart, p), f) == SumOf(cart, f) + f(p)
  {
    SumOfAppend(cart, [p], f);
    SumOfSingleton(p, f);
  }

  /**
   * The same when line `k` of a well-formed cart carries the payload's id: an updated line
   * swaps its old value for its new one, and a dropped line takes its value away.
   */
  lemma SumAfterUpdate(cart: seq<CartItem>, k: nat, p: AddToCartPayload, f: CartItem -> int)
    requires WellFormed(cart) && k < |cart| && cart[k].id == p.id
    ensures var q := cart[k].quantity + p.quantity;
            SumOf(AddedToCart(cart, p), f) ==
              SumOf(cart, f) - f(cart[k]) + (if q > 0 then f(cart[k].(quantity := q)) else 0)
  {
    if cart[k].quantity + p.quantity > 0 {
      SumAfterKeep(cart, k, p, f);
    } else {
      SumAfterDrop(cart, k, p, f);
    }
  }

  lemma SumAfterKeep(cart: seq<CartItem>, k: nat, p: AddToCartPayload, f: CartItem -> int)
    requires WellFormed(cart) && k < |cart| && cart[k].id == p.id
    requires cart[k].quantity + p.quantity > 0
    ensures SumOf(AddedToCart(cart, p), f) ==
              SumOf(cart, f) - f(cart[k]) + f(cart[k].(quantity := cart[k].quantity + p.quantity))
  {
    AddExisting(cart, k, p);
    SumOfUpdate(cart, k, cart[k].(quantity := cart[k].quantity + p.quantity), f);
  }

  lemma SumAfterDrop(cart: seq<CartItem>, k: nat, p: AddToCartPayload, f: CartItem -> int)
    requires WellFormed(cart) && k < |cart| && cart[k].id == p.id
    requires cart[k].quantity + p.quantity <= 0
    ensures SumOf(AddedToCart(cart, p), f) == SumOf(cart, f) - f(cart[k])
  {
    AddExisting(cart, k, p);
    SumOfRemove(cart, k, f);
  }


  /** Every `addToCart` keeps the store invariant. */
  lemma AddPreservesWellFormed(cart: seq<CartItem>, p: AddToCartPayload)
    requires WellFormed(cart)
    ensures WellFormed(AddedToCart(cart, p))
  {
    if HasId(cart, p.id) {
      var m := AddQuantity(cart, p.id, p.quantity);
      assert UniqueIds(m) by {
        forall i, j | 0 <= i < j < |m| ensures m[i].id != m[j].id {
          assert m[i].id == cart[i].id && m[j].id == cart[j].id;
        }
      }
      FilterKeepsUniqueIds(m, HasPositiveQuantity);
    } else if p.quantity > 0 {
      var r := cart + [p];
      forall i | 0 <= i < |cart| ensures r[i].id != p.id {
        assert r[i] == cart[i];
      }
    }
  }

  /** In a cart of distinct ids, the lines around `line` all have other ids. */
  lemma OthersAround(before: seq<CartItem>, line: CartItem, after: seq<CartItem>)
    requires UniqueIds(before + [line] + after)
    ensures forall i | 0 <= i < |before| :: IdOtherThan(line.id)(before[i])
    ensures forall i | 0 <= i < |after| :: IdOtherThan(line.id)(after[i])
  {
    var cart := before + [line] + after;
    forall i | 0 <= i < |before|
      ensures IdOtherThan(line.id)(before[i])
    {
      assert cart[i] == before[i] && cart[|before|] == line;
    }
    forall i | 0 <= i < |after|
      ensures IdOtherThan(line.id)(after[i])
    {
      assert cart[|before| + 1 + i] == after[i] && cart[|before|] == line;
    }
  }

  /** In a cart of distinct ids, removing an id that is present deletes exactly its line. */
  lemma RemoveExisting(cart: seq<CartItem>, k: nat)
    requires UniqueIds(cart) && k < |cart|
    ensures RemovedFromCart(cart, cart[k].id) == cart[..k] + cart[k + 1..]
  {
    var id := cart[k].id;
    var keep := IdOtherThan(id);
    var before, after := cart[..k], cart[k + 1..];
    SplitAt(cart, k);
    OthersAround(before, cart[k], after);
    FilterAround(before, cart[k], after, keep);
    assert !keep(cart[k]);
    assert before + [] + after == before + after;
  }

  /** Removing an absent id leaves the cart exactly as it was. */
  lemma RemoveAbsentIsNoOp(cart: seq<CartItem>, id: int)
    requires !HasId(cart, id)
    ensures RemovedFromCart(cart, id) == cart
  {
    FilterKeepsAll(cart, IdOtherThan(id));
  }

  /** Removing the same id twice is removing it once. */
  lemma RemoveIdempotent(cart: seq<CartItem>, id: int)
    ensures RemovedFromCart(RemovedFromCart(cart, id), id) == RemovedFromCart(cart, id)
  {
    RemoveAbsentIsNoOp(RemovedFromCart(cart, id), id);
  }

  /** `removeFromCart` keeps the store invariant. */
  lemma RemovePreservesWellFormed(cart: seq<CartItem>, id: int)
    requires WellFormed(cart)
    ensures WellFormed(RemovedFromCart(cart, id))
  {
    FilterKeepsUniqueIds(cart, IdOtherThan(id));
    var r := RemovedFromCart(cart, id);
    forall i | 0 <= i < |r| ensures r[i].quantity > 0 {
      assert r[i] in cart;
    }
  }

  /** The store object: its one field is the cart, replaced wholesale by each operation. */
  class Store {
    var cart: seq<CartItem>

    predicate Valid()
      reads this
    {
      WellFormed(cart)
    }

    constructor ()
      ensures cart == [] && Valid()
    {
      cart := [];
    }

    method AddToCart(product: AddToCartPayload)
      modifies this
      ensures cart == AddedToCart(old(cart), product)
      ensures old(Valid()) ==> Valid()
    {
      if Valid() {
        AddPreservesWellFormed(cart, product);
      }
      cart := AddedToCart(cart, product);
    }

    method RemoveFromCart(id: int)
      modifies this
      ensures cart == RemovedFromCart(old(cart), id)
      ensures old(Valid()) ==> Valid()
    {
      if Valid() {
        RemovePreservesWellFormed(cart, id);
      }
      cart := RemovedFromCart(cart, id);
    }

    method ResetCart()
      modifies this
      ensures cart == [] && Valid()
    {
      cart := [];
    }
  }
}
