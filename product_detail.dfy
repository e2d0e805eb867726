/** The product page of `src/pages/ProductDetail.tsx`: loading the product named by the
    route, the quantity stepper, adding the chosen quantity to the cart, and the list of
    related products shown under it. */
module ProductDetail {
  import opened Wrappers
  import opened Lists
  import opened Products
  import Cart
  import Routes

  /** Bounds of the quantity stepper (the `min`/`max` of the number input). */
  const MinQuantity := 1
  const MaxQuantity := 10

  /** How many related products are listed. */
  const RelatedCount := 4

  /** The object handed to `addItem`: id, title, price and first image of the product. */
  function CartLine(p: Product): (r: Cart.NewItem)
  {
    Cart.NewItem(Cart.Num(p.id), p.title, p.price, p.image1, None, None)
  }

  /** The cart list after `addItem(x)` has been called `n` times in a row. */
  function AddRepeatedly(items: seq<Cart.CartItem>, x: Cart.NewItem, n: nat): seq<Cart.CartItem>
  {
    if n == 0 then items else Cart.AddTo(AddRepeatedly(items, x, n - 1), x)
  }

  lemma BumpedTwice(items: seq<Cart.CartItem>, mid: seq<Cart.CartItem>, r: seq<Cart.CartItem>, id: Cart.Id, m: int, n: int)
    requires Cart.Bumped(items, mid, id, m) && Cart.Bumped(mid, r, id, n)
    ensures Cart.Bumped(items, r, id, m + n)
  {
    forall i | 0 <= i < |items|
      ensures r[i] == if items[i].id == id then items[i].(quantity := items[i].quantity + (m + n)) else items[i]
    {
      assert mid[i].id == items[i].id;
    }
  }

  /** Adding to lines keeps their ids, so an id present before is present after. */
  lemma BumpedKeepsId(items: seq<Cart.CartItem>, r: seq<Cart.CartItem>, id: Cart.Id, n: int)
    requires Cart.HasId(items, id) && Cart.Bumped(items, r, id, n)
    ensures Cart.HasId(r, id)
  {
    var j :| 0 <= j < |items| && items[j].id == id;
    assert r[j].id == id;
  }

  /** Adding `n` units of an id already in the cart: that line gains `n` units and every
      other line is untouched. */
  lemma {:induction false} AddRepeatedlyExisting(items: seq<Cart.CartItem>, x: Cart.NewItem, n: nat)
    requires Cart.HasId(items, x.id)
    ensures Cart.Bumped(items, AddRepeatedly(items, x, n), x.id, n)
  {
    if n == 0 {
      assert Cart.Bumped(items, items, x.id, 0);
    } else {
      AddRepeatedlyExisting(items, x, n - 1);
      var prev := AddRepeatedly(items, x, n - 1);
      BumpedKeepsId(items, prev, x.id, n - 1);
      BumpedTwice(items, prev, Cart.AddTo(prev, x), x.id, n - 1, 1);
    }
  }

  /** An `addItem` whose id only the last line carries adds one unit to that line. */
  lemma AddToLast(items: seq<Cart.CartItem>, line: Cart.CartItem, x: Cart.NewItem)
    requires !Cart.HasId(items, x.id) && line.id == x.id
    ensures Cart.AddTo(items + [line], x) == items + [line.(quantity := line.quantity + 1)]
  {
    var s := items + [line];
    assert s[|items|].id == x.id;
    var r := Cart.AddTo(s, x);
    var want := items + [line.(quantity := line.quantity + 1)];
    forall i | 0 <= i < |s| ensures r[i] == want[i] {
      if i < |items| {
        assert s[i] == items[i] && items[i].id != x.id;
      }
    }
  }

  /** Adding `n >= 1` units of a new id appends one line holding quantity `n`. */
  lemma {:induction false} AddRepeatedlyNew(items: seq<Cart.CartItem>, x: Cart.NewItem, n: nat)
    requires !Cart.HasId(items, x.id) && n >= 1
    ensures AddRepeatedly(items, x, n) == items + [Cart.WithQuantity(x, n)]
  {
    if n == 1 {
      assert AddRepeatedly(items, x, 1) == Cart.AddTo(items, x);
    } else {
      AddRepeatedlyNew(items, x, n - 1);
      AddOneMore(items, x, n);
    }
  }

  /** One more add of a new id raises its appended line from `n - 1` to `n` units. */
  lemma AddOneMore(items: seq<Cart.CartItem>, x: Cart.NewItem, n: nat)
    requires !Cart.HasId(items, x.id) && n >= 1
    requires AddRepeatedly(items, x, n - 1) == items + [Cart.WithQuantity(x, n - 1)]
    ensures AddRepeatedly(items, x, n) == items + [Cart.WithQuantity(x, n)]
  {
    var line := Cart.WithQuantity(x, n - 1);
    var next := line.(quantity := line.quantity + 1);
    assert next == Cart.WithQuantity(x, n);
    assert AddRepeatedly(items, x, n) == Cart.AddTo(items + [line], x);
    AddToLast(items, line, x);
  }

  /** Repeated adds keep the cart invariant. */
  lemma AddRepeatedlyWellFormed(items: seq<Cart.CartItem>, x: Cart.NewItem, n: nat)
    requires Cart.WellFormed(items)
    ensures Cart.WellFormed(AddRepeatedly(items, x, n))
  {
    if n == 0 {
      assert AddRepeatedly(items, x, 0) == items;
    } else if Cart.HasId(items, x.id) {
      AddRepeatedlyExisting(items, x, n);
      Cart.BumpedWellFormed(items, AddRepeatedly(items, x, n), x.id, n);
    } else {
      AddRepeatedlyNew(items, x, n);
      Cart.AppendWellFormed(items, Cart.WithQuantity(x, n));
    }
  }

  /** Number of times the add-to-cart loop runs: `for (i = 0; i < quantity; i++)`, where a
      NaN quantity (`None`) or one below 1 runs it zero times. */
  function Iterations(quantity: Option<int>): (r: nat)
  {
    if quantity.Some? && quantity.value > 0 then quantity.value else 0
  }

  /** "−": decrement only above the minimum. */
  function Decremented(quantity: Option<int>): Option<int>
  {
    if quantity.Some? && quantity.value > MinQuantity then Some(quantity.value - 1) else quantity
  }

  /** "+": increment only below the maximum. */
  function Incremented(quantity: Option<int>): Option<int>
  {
    if quantity.Some? && quantity.value < MaxQuantity then Some(quantity.value + 1) else quantity
  }

  predicate InRange(quantity: Option<int>)
  {
    quantity.Some? && MinQuantity <= quantity.value <= MaxQuantity
  }

  datatype Press = Minus | Plus

  function Presses(quantity: Option<int>, presses: seq<Press>): Option<int>
    decreases |presses|
  {
    if presses == [] then quantity
    else
      var q := if presses[0] == Minus then Decremented(quantity) else Incremented(quantity);
      Presses(q, presses[1..])
  }

  /** Starting from the initial quantity 1, any sequence of "−" and "+" presses keeps the
      quantity within the stepper's bounds. */
  lemma {:induction false} StepperStaysInRange(quantity: Option<int>, presses: seq<Press>)
    requires InRange(quantity)
    ensures InRange(Presses(quantity, presses))
    decreases |presses|
  {
    if presses != [] {
      var q := if presses[0] == Minus then Decremented(quantity) else Incremented(quantity);
      assert InRange(q);
      StepperStaysInRange(q, presses[1..]);
    }
  }

  /** The other products of the same category, in catalogue order, at most four of them. */
  function Related(all: seq<Product>, current: Product): (r: seq<Product>)
    ensures |r| <= RelatedCount
    ensures forall i :: 0 <= i < |r| ==> r[i].category == current.category && r[i].id != current.id
  {
    Slice(Filter(all, (p: Product) => p.category == current.category && p.id != current.id), 0, RelatedCount)
  }

  /** Related products share the category, never include the current id, keep catalogue
      order, number at most four, and are the first four candidates (all of them when there
      are fewer). */
  lemma RelatedSpec(all: seq<Product>, current: Product)
    ensures |Related(all, current)| <= RelatedCount
    ensures forall p :: p in Related(all, current) ==>
      p in all && p.category == current.category && p.id != current.id
    ensures IsSubsequence(Related(all, current), all)
    ensures var candidates := Filter(all, (p: Product) => p.category == current.category && p.id != current.id);
      Related(all, current) == if |candidates| <= RelatedCount then candidates else candidates[..RelatedCount]
  {
    var keep := (p: Product) => p.category == current.category && p.id != current.id;
    var candidates := Filter(all, keep);
    var r := Related(all, current);
    var k := if |candidates| <= RelatedCount then |candidates| else RelatedCount;
    assert r == candidates[..k];
    assert forall q :: q in r ==> q in candidates;
    FilterKeepsOnlyMatches(all, keep);
    FilterIsSubsequence(all, keep);
    SubsequencePrefix(candidates, k, all);
    assert candidates[..|candidates|] == candidates;
  }

  /** The link each related product carries, `/product/${id}`. */
  function RelatedLinkAsWritten(id: int): (r: string)
    ensures Routes.IsPathname(r)
  {
    "/product/" + IntString(id)
  }

  /** The link as written matches no route: the router falls through to the not-found page. */
  lemma RelatedLinkAsWrittenIsNotFound(id: int, isAuthenticated: bool, isAdmin: bool)
    ensures Routes.Navigate(RelatedLinkAsWritten(id), isAuthenticated, isAdmin) == Routes.Show(Routes.NotFound)
  {
    var digits := IntString(id);
    assert RelatedLinkAsWritten(id) == "/" + "product" + ("/" + digits);
    Routes.SegmentsOfTwo("product", digits);
    Routes.UnknownPathsNotFound(["product", digits], isAuthenticated, isAdmin);
  }

  /** The link of the product route, `/products/${id}`. */
  function RelatedLink(id: int): (r: string)
    ensures Routes.IsPathname(r)
  {
    "/products/" + IntString(id)
  }

  /** The corrected link opens the product page for that same id, for any session. */
  lemma RelatedLinkOpensProduct(id: int, isAuthenticated: bool, isAdmin: bool)
    ensures Routes.Navigate(RelatedLink(id), isAuthenticated, isAdmin) == Routes.Show(Routes.ProductDetail(IntString(id)))
    ensures ParseInt(IntString(id)) == Some(id)
  {
    var digits := IntString(id);
    assert RelatedLink(id) == "/" + "products" + ("/" + digits);
    Routes.SegmentsOfTwo("products", digits);
    Routes.PublicPaths(["products", digits], isAuthenticated, isAdmin);
    ParseIntRoundTrip(id);
  }

  /** The page state: the loaded product (`null` until found), the image shown, the chosen
      quantity (`None` stands for NaN) and the add-to-cart notification flag. */
  class ProductDetailPage {
    const routeId: Option<string>
    var product: Option<Product>
    var activeImage: string
    var quantity: Option<int>
    var showNotification: bool

    constructor (routeId: Option<string>)
      ensures this.routeId == routeId
      ensures product == None && activeImage == "" && quantity == Some(1) && !showNotification
    {
      this.routeId := routeId;
      product := None;
      activeImage := "";
      quantity := Some(MinQuantity);
      showNotification := false;
    }

    /** The fetch effect: with a non-empty `:id`, `getById(parseInt(id))`; a found product
        is shown with its first image; a failed lookup leaves the page as it was. */
    method FetchProduct(store: ProductStore)
      modifies this`product, this`activeImage
      ensures var found := if routeId.Some? && routeId.value != "" then
                 match ParseInt(routeId.value) case Some(id) => FindById(store.bin, id) case None => None
               else None;
        && (found.Some? ==> product == found && activeImage == found.value.image1)
        && (found.None? ==> product == old(product) && activeImage == old(activeImage))
    {
      if routeId.None? || routeId.value == "" {
        return;
      }
      var numericId := ParseInt(routeId.value);
      if numericId.None? {
        // `getById(NaN)` finds no product and throws; the error is only logged.
        return;
      }
      var response := store.GetById(numericId.value);
      if response.Ok? {
        product := Some(response.value);
        activeImage := response.value.image1;
      }
    }

    /** Typing in the number input: `setQuantity(parseInt(value))`. */
    method HandleQuantityChange(value: string)
      modifies this`quantity
      ensures quantity == ParseInt(value)
    {
      quantity := ParseInt(value);
    }

    method Decrement()
      modifies this`quantity
      ensures quantity == Decremented(old(quantity))
      ensures old(InRange(quantity)) ==> InRange(quantity)
    {
      if quantity.Some? && quantity.value > MinQuantity {
        quantity := Some(quantity.value - 1);
      }
    }

    method Increment()
      modifies this`quantity
      ensures quantity == Incremented(old(quantity))
      ensures old(InRange(quantity)) ==> InRange(quantity)
    {
      if quantity.Some? && quantity.value < MaxQuantity {
        quantity := Some(quantity.value + 1);
      }
    }

    /** `handleAddToCart`: with a product, call `addItem` once per unit of the quantity and
        raise the notification; without one, do nothing. A quantity that is NaN or not
        positive adds nothing, so the cart, its totals and its saved copy stay as they were. */
    method HandleAddToCart(cart: Cart.CartProvider)
      modifies cart, this`showNotification
      ensures product.None? ==> unchanged(cart) && showNotification == old(showNotification)
      ensures product.Some? ==>
        && cart.items == AddRepeatedly(old(cart.items), CartLine(product.value), Iterations(quantity))
        && (Iterations(quantity) > 0 ==> cart.Valid())
        && showNotification
      ensures product.Some? && Iterations(quantity) == 0 ==>
        && cart.items == old(cart.items) && cart.totalItems == old(cart.totalItems)
        && cart.totalPrice == old(cart.totalPrice) && cart.saved == old(cart.saved)
    {
      if product.None? {
        return;
      }
      if Iterations(quantity) == 0 {
        // The loop below would not run: nothing is added, only the notification shows.
        showNotification := true;
        return;
      }
      var line := CartLine(product.value);
      ghost var start := cart.items;
      var i := 0;
      while quantity.Some? && i < quantity.value
        invariant 0 <= i <= Iterations(quantity)
        invariant cart.items == AddRepeatedly(start, line, i)
        invariant i > 0 ==> cart.Valid()
        decreases Iterations(quantity) - i
      {
        cart.AddItem(line);
        assert cart.items == AddRepeatedly(start, line, i + 1);
        i := i + 1;
      }
      assert i == Iterations(quantity);
      showNotification := true;
    }
  }

  /** What the add-to-cart button leaves in a well-formed cart for a positive quantity:
      the product's line holds its old quantity plus the chosen quantity, or is a new last
      line holding exactly the chosen quantity with the product's id, title, price and
      first image; no other line changes. */
  lemma AddToCartEffect(items: seq<Cart.CartItem>, p: Product, quantity: Option<int>)
    requires Cart.WellFormed(items)
    requires quantity.Some? && quantity.value >= 1
    ensures Cart.WellFormed(AddRepeatedly(items, CartLine(p), Iterations(quantity)))
    ensures Cart.HasId(items, Cart.Num(p.id)) ==>
      Cart.Bumped(items, AddRepeatedly(items, CartLine(p), Iterations(quantity)), Cart.Num(p.id), quantity.value)
    ensures !Cart.HasId(items, Cart.Num(p.id)) ==>
      AddRepeatedly(items, CartLine(p), Iterations(quantity))
        == items + [Cart.CartItem(Cart.Num(p.id), p.title, p.price, quantity.value, p.image1, None, None)]
  {
    var x := CartLine(p);
    AddRepeatedlyWellFormed(items, x, Iterations(quantity));
    if Cart.HasId(items, x.id) {
      AddRepeatedlyExisting(items, x, Iterations(quantity));
    } else {
      AddRepeatedlyNew(items, x, Iterations(quantity));
    }
  }
}
