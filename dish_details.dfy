/**
 * The dish page: the lookup of a dish by its route id, the "Add to Cart" button and the
 * cart sidebar beside it, with its `+`/`−` buttons and its total.
 */
module DishDetails {
  import opened Wrappers
  import opened Sequences
  import opened CartStore
  import CartPage

  /** A dish of the menu; `price` is in cents. */
  datatype Dish = Dish(id: int, name: string, description: string, price: int, image: string)

  /** The page's hard-coded menu. */
  const DummyDishes: seq<Dish> := [
    Dish(1, "Margherita Pizza", "Classic pizza with fresh mozzarella, tomato sauce, and basil.", 899,
         "https://source.unsplash.com/400x300/?pizza"),
    Dish(2, "Cheeseburger", "Juicy beef patty with cheddar, lettuce, tomato, and special sauce.", 650,
         "https://source.unsplash.com/400x300/?burger"),
    Dish(3, "Caesar Salad", "Crisp romaine lettuce with parmesan, croutons, and Caesar dressing.", 599,
         "https://source.unsplash.com/400x300/?salad"),
    Dish(4, "Spaghetti Bolognese", "Classic Italian pasta with rich meat sauce and parmesan.", 950,
         "https://source.unsplash.com/400x300/?spaghetti"),
    Dish(5, "Chocolate Cake", "Decadent chocolate cake with a creamy ganache topping.", 475,
         "https://source.unsplash.com/400x300/?chocolate-cake")
  ]

  /** The menu's ids are 1 to 5, in order. */
  lemma DishIds()
    ensures |DummyDishes| == 5
    ensures forall i | 0 <= i < |DummyDishes| :: DummyDishes[i].id == i + 1
  {
  }

  /** No two dishes of the menu share an id. */
  lemma DishIdsUnique()
    ensures forall i, j | 0 <= i < |DummyDishes| && 0 <= j < |DummyDishes| ::
              DummyDishes[i].id == DummyDishes[j].id ==> i == j
  {
    DishIds();
  }

  function DishIdIs(n: int): Dish -> bool
  {
    (d: Dish) => d.id == n
  }

  /**
   * `dummyDishes.find(d => d.id === Number(id)) || null`. The route id arrives already
   * converted: `Some(n)` when `Number(id)` is the integer `n`, `None` otherwise, for which
   * no dish matches.
   */
  function LookupDish(routeId: Option<int>): (r: Option<Dish>)
    ensures r.Some? <==> routeId.Some? && 1 <= routeId.value <= 5
    ensures r.Some? ==> r.value in DummyDishes && r.value.id == routeId.value
  {
    match routeId
    case None => None
    case Some(n) =>
      DishIds();
      assert 1 <= n <= 5 ==> DishIdIs(n)(DummyDishes[n - 1]);
      FindFirst(DummyDishes, DishIdIs(n))
  }

  /** The dish found is the only one on the menu with that id. */
  lemma LookupIsUnique(n: int, d: Dish)
    requires d in DummyDishes && d.id == n
    ensures LookupDish(Some(n)) == Some(d)
  {
    DishIdsUnique();
  }

  /** `const [quantity] = useState(1)`: the page never changes it. */
  const AddButtonQuantity: int := 1

  /** The payload of "Add to Cart": the dish's id, name and price and one unit. */
  function DishPayload(d: Dish): AddToCartPayload
  {
    CartItem(d.id, d.name, d.price, AddButtonQuantity)
  }

  /**
   * On a well-formed cart "Add to Cart" appends the dish as a new line of one unit when it
   * is not in the cart, and otherwise adds one unit to its line, in place, keeping that
   * line's own name and price.
   */
  lemma AddDishInsertsOrIncrements(cart: seq<CartItem>, d: Dish)
    requires WellFormed(cart)
    ensures !HasId(cart, d.id) ==> AddedToCart(cart, DishPayload(d)) == cart + [CartItem(d.id, d.name, d.price, 1)]
    ensures forall k | 0 <= k < |cart| && cart[k].id == d.id ::
              AddedToCart(cart, DishPayload(d)) == cart[k := cart[k].(quantity := cart[k].quantity + 1)]
  {
    forall k | 0 <= k < |cart| && cart[k].id == d.id
      ensures AddedToCart(cart, DishPayload(d)) == cart[k := cart[k].(quantity := cart[k].quantity + 1)]
    {
      AddExisting(cart, k, DishPayload(d));
    }
  }

  /** The dish page over the shared cart store. */
  class DishPage {
    /** The dish shown, or `None` for "Dish not found." */
    var dish: Option<Dish>
    const store: Store

    constructor (store: Store, routeId: Option<int>)
      ensures this.store == store && dish == LookupDish(routeId)
    {
      this.store := store;
      dish := LookupDish(routeId);
    }

    /** The "Add to Cart" button; the page shows no button when no dish was found. */
    method AddDishToCart()
      modifies store
      ensures dish.None? ==> store.cart == old(store.cart)
      ensures dish.Some? ==> store.cart == AddedToCart(old(store.cart), DishPayload(dish.value))
      ensures old(store.Valid()) ==> store.Valid()
    {
      if dish.None? {
        return;
      }
      store.AddToCart(DishPayload(dish.value));
    }
  }

  /** The cart sidebar over the shared cart store. */
  class CartSidebar {
    const store: Store

    constructor (store: Store)
      ensures this.store == store
    {
      this.store := store;
    }

    /** `increment(id)`: one more unit of the line with that id; nothing when there is none. */
    method Increment(id: int)
      modifies store
      ensures store.cart == CartPage.Stepped(old(store.cart), id, 1)
      ensures old(store.Valid()) ==> store.Valid()
    {
      var item := Find(store.cart, id);
      if item.None? {
        return;
      }
      store.AddToCart(item.value.(quantity := 1));
    }

    /** `decrement(id)`: one unit less, the store dropping the line at zero. */
    method Decrement(id: int)
      modifies store
      ensures store.cart == CartPage.Stepped(old(store.cart), id, -1)
      ensures old(store.Valid()) ==> store.Valid()
    {
      var item := Find(store.cart, id);
      if item.None? {
        return;
      }
      store.AddToCart(item.value.(quantity := -1));
    }

    /** `total`: the sum of price times quantity, the same amount the checkout calls its subtotal. */
    function Total(): (t: int)
      reads this, store
      ensures t == CartPage.Subtotal(store.cart)
      ensures store.cart == [] ==> t == 0
    {
      SumOf(store.cart, CartPage.LineAmount)
    }
  }
}
