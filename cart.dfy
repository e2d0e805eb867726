/** The cart engine of `src/context/CartContext.tsx`: an ordered list of line
    items keyed by id, the operations that replace that list, and the totals
    derived from it after every change. */
module Cart {
  import opened Wrappers
  import opened Lists

  /** A line id: a catalogue product id, or a synthesized string for a custom knife. */
  datatype Id = Num(n: int) | Str(s: string)

  /** One cart line; the two optional fields are absent for catalogue products. */
  datatype CartItem = CartItem(
    id: Id, title: string, price: real, quantity: int, image: string,
    isCustom: Option<bool>, customSummary: Option<string>)

  /** What `addItem` receives: a line without its quantity. */
  datatype NewItem = NewItem(
    id: Id, title: string, price: real, image: string,
    isCustom: Option<bool>, customSummary: Option<string>)

  function WithQuantity(x: NewItem, q: int): (r: CartItem)
    ensures r.id == x.id && r.title == x.title && r.price == x.price && r.quantity == q
  {
    CartItem(x.id, x.title, x.price, q, x.image, x.isCustom, x.customSummary)
  }

  predicate HasId(items: seq<CartItem>, id: Id)
  {
    exists i :: 0 <= i < |items| && items[i].id == id
  }

  /** The cart invariant: at most one line per id, and every quantity at least 1. */
  predicate WellFormed(items: seq<CartItem>)
  {
    && (forall i, j :: 0 <= i < j < |items| ==> items[i].id != items[j].id)
    && (forall i :: 0 <= i < |items| ==> items[i].quantity >= 1)
  }

  /** `items.map(i => i.id === id ? {...i, quantity: f(i.quantity)} : i)`. */
  function MapMatching(items: seq<CartItem>, id: Id, f: int -> int): (r: seq<CartItem>)
    ensures |r| == |items|
    ensures forall i :: 0 <= i < |items| ==>
      r[i] == if items[i].id == id then items[i].(quantity := f(items[i].quantity)) else items[i]
  {
    if items == [] then []
    else
      var head := if items[0].id == id then items[0].(quantity := f(items[0].quantity)) else items[0];
      [head] + MapMatching(items[1..], id, f)
  }

  /** `r` is `items` with `n` more units on the lines carrying `id`, every other line unchanged. */
  ghost predicate Bumped(items: seq<CartItem>, r: seq<CartItem>, id: Id, n: int)
  {
    && |r| == |items|
    && forall i :: 0 <= i < |items| ==>
         r[i] == if items[i].id == id then items[i].(quantity := items[i].quantity + n) else items[i]
  }

  /** The list `addItem` produces: an existing line gains one unit, a new id is appended with quantity 1. */
  function AddTo(items: seq<CartItem>, x: NewItem): (r: seq<CartItem>)
    ensures !HasId(items, x.id) ==> r == items + [WithQuantity(x, 1)]
    ensures HasId(items, x.id) ==> Bumped(items, r, x.id, 1)
  {
    if HasId(items, x.id) then MapMatching(items, x.id, q => q + 1)
    else items + [WithQuantity(x, 1)]
  }

  /** The list `removeItem` produces. */
  function Removed(items: seq<CartItem>, id: Id): (r: seq<CartItem>)
    ensures |r| <= |items|
    ensures forall i :: 0 <= i < |r| ==> r[i].id != id
  {
    Filter(items, (it: CartItem) => it.id != id)
  }

  /** The list `updateQuantity` produces for a positive quantity. */
  function QuantitySet(items: seq<CartItem>, id: Id, q: int): (r: seq<CartItem>)
    ensures |r| == |items|
    ensures forall i :: 0 <= i < |items| ==>
      r[i] == if items[i].id == id then items[i].(quantity := q) else items[i]
  {
    MapMatching(items, id, _ => q)
  }

  /** Sum of the quantities (the `totalItems` reduction). */
  function TotalItems(items: seq<CartItem>): (r: int)
    ensures (forall i :: 0 <= i < |items| ==> items[i].quantity >= 1) ==> r >= |items|
  {
    if items == [] then 0 else items[0].quantity + TotalItems(items[1..])
  }

  /** What one line contributes to the price total. */
  function LineTotal(it: CartItem): real
  {
    it.price * (it.quantity as real)
  }

  /** One more unit on a line adds its unit price to what the line contributes. */
  lemma LineTotalIncrement(it: CartItem)
    ensures LineTotal(it.(quantity := it.quantity + 1)) == LineTotal(it) + it.price
  {
    var p, q := it.price, it.quantity;
    assert p * ((q + 1) as real) == p * (q as real) + p;
  }

  /** Sum of price times quantity (the `totalPrice` reduction). */
  function TotalPrice(items: seq<CartItem>): (r: real)
  {
    if items == [] then 0.0 else LineTotal(items[0]) + TotalPrice(items[1..])
  }

  /** Unit price of the first line with the given id (0 when there is none). */
  function PriceOf(items: seq<CartItem>, id: Id): real
  {
    if items == [] then 0.0 else if items[0].id == id then items[0].price else PriceOf(items[1..], id)
  }

  lemma {:induction false} TotalsAppend(items: seq<CartItem>, line: CartItem)
    ensures TotalItems(items + [line]) == TotalItems(items) + line.quantity
    ensures TotalPrice(items + [line]) == TotalPrice(items) + LineTotal(line)
  {
    if items != [] {
      assert (items + [line])[1..] == items[1..] + [line];
      TotalsAppend(items[1..], line);
    }
  }

  /** Incrementing the one line with a given id adds one unit and that line's unit price to the totals. */
  lemma TotalsIncrement(items: seq<CartItem>, id: Id)
    requires WellFormed(items) && HasId(items, id)
    ensures TotalItems(MapMatching(items, id, q => q + 1)) == TotalItems(items) + 1
    ensures TotalPrice(MapMatching(items, id, q => q + 1)) == TotalPrice(items) + PriceOf(items, id)
  {
    ItemsIncrement(items, id);
    PriceIncrement(items, id);
  }

  lemma {:induction false} ItemsIncrement(items: seq<CartItem>, id: Id)
    requires WellFormed(items) && HasId(items, id)
    ensures TotalItems(MapMatching(items, id, q => q + 1)) == TotalItems(items) + 1
  {
    var r := MapMatching(items, id, q => q + 1);
    assert r[1..] == MapMatching(items[1..], id, q => q + 1);
    if items[0].id == id {
      MapAbsentUnchanged(items[1..], id, q => q + 1);
    } else {
      TailHasId(items, id);
      ItemsIncrement(items[1..], id);
    }
  }

  lemma {:induction false} PriceIncrement(items: seq<CartItem>, id: Id)
    requires WellFormed(items) && HasId(items, id)
    ensures TotalPrice(MapMatching(items, id, q => q + 1)) == TotalPrice(items) + PriceOf(items, id)
  {
    if items[0].id == id {
      PriceIncrementHere(items, id);
    } else {
      TailHasId(items, id);
      PriceIncrement(items[1..], id);
      PriceIncrementLater(items, id);
    }
  }

  /** The first line carries the id: it alone gains one unit's price. */
  lemma PriceIncrementHere(items: seq<CartItem>, id: Id)
    requires WellFormed(items) && items != [] && items[0].id == id
    ensures TotalPrice(MapMatching(items, id, q => q + 1)) == TotalPrice(items) + PriceOf(items, id)
  {
    var r := MapMatching(items, id, q => q + 1);
    assert r[1..] == MapMatching(items[1..], id, q => q + 1);
    MapAbsentUnchanged(items[1..], id, q => q + 1);
    LineTotalIncrement(items[0]);
    assert TotalPrice(r) == LineTotal(r[0]) + TotalPrice(items[1..]);
  }

  /** The first line does not carry the id: the increase is the tail's. */
  lemma PriceIncrementLater(items: seq<CartItem>, id: Id)
    requires items != [] && items[0].id != id
    requires TotalPrice(MapMatching(items[1..], id, q => q + 1)) == TotalPrice(items[1..]) + PriceOf(items[1..], id)
    ensures TotalPrice(MapMatching(items, id, q => q + 1)) == TotalPrice(items) + PriceOf(items, id)
  {
    var r := MapMatching(items, id, q => q + 1);
    assert r[1..] == MapMatching(items[1..], id, q => q + 1);
    assert r[0] == items[0];
    TotalPriceSplit(r, items);
  }

  /** Two lists with the same first line differ in total by what their tails differ by. */
  lemma TotalPriceSplit(r: seq<CartItem>, items: seq<CartItem>)
    requires r != [] && items != [] && r[0] == items[0]
    ensures TotalPrice(r) - TotalPrice(items) == TotalPrice(r[1..]) - TotalPrice(items[1..])
  {
    assert TotalPrice(r) == LineTotal(r[0]) + TotalPrice(r[1..]);
    assert TotalPrice(items) == LineTotal(items[0]) + TotalPrice(items[1..]);
  }

  /** A well-formed cart whose first line does not carry `id` keeps `id` in its tail. */
  lemma TailHasId(items: seq<CartItem>, id: Id)
    requires WellFormed(items) && HasId(items, id) && items[0].id != id
    ensures WellFormed(items[1..]) && HasId(items[1..], id)
  {
    var i :| 0 <= i < |items| && items[i].id == id;
    assert items[1..][i - 1].id == id;
  }

  /** Mapping over an id that no line carries changes nothing. */
  lemma {:induction false} MapAbsentUnchanged(items: seq<CartItem>, id: Id, f: int -> int)
    requires !HasId(items, id)
    ensures MapMatching(items, id, f) == items
  {
  }

  /** Whatever the cart held, one `addItem` adds exactly one unit, priced at the line's unit price. */
  lemma AddTotals(items: seq<CartItem>, x: NewItem)
    requires WellFormed(items)
    ensures TotalItems(AddTo(items, x)) == TotalItems(items) + 1
    ensures TotalPrice(AddTo(items, x)) ==
      TotalPrice(items) + (if HasId(items, x.id) then PriceOf(items, x.id) else x.price)
  {
    if HasId(items, x.id) {
      TotalsIncrement(items, x.id);
    } else {
      TotalsAppend(items, WithQuantity(x, 1));
      assert LineTotal(WithQuantity(x, 1)) == x.price;
    }
  }

  /** `addItem` keeps at most one line per id and every quantity at least 1. */
  lemma AddPreservesWellFormed(items: seq<CartItem>, x: NewItem)
    requires WellFormed(items)
    ensures WellFormed(AddTo(items, x))
  {
    if HasId(items, x.id) {
      BumpedWellFormed(items, AddTo(items, x), x.id, 1);
    } else {
      AppendWellFormed(items, WithQuantity(x, 1));
    }
  }

  /** Raising the quantity of the lines with one id keeps the cart invariant. */
  lemma BumpedWellFormed(items: seq<CartItem>, r: seq<CartItem>, id: Id, n: int)
    requires WellFormed(items) && Bumped(items, r, id, n) && n >= 0
    ensures WellFormed(r)
  {
    assert forall i :: 0 <= i < |r| ==> r[i].id == items[i].id && r[i].quantity >= items[i].quantity;
  }

  /** Appending a line with a new id and a positive quantity keeps the cart invariant. */
  lemma AppendWellFormed(items: seq<CartItem>, line: CartItem)
    requires WellFormed(items) && !HasId(items, line.id) && line.quantity >= 1
    ensures WellFormed(items + [line])
  {
    var r := items + [line];
    assert forall i :: 0 <= i < |items| ==> r[i] == items[i];
  }


  /** Setting a positive quantity keeps the cart invariant. */
  lemma QuantitySetPreservesWellFormed(items: seq<CartItem>, id: Id, q: int)
    requires WellFormed(items) && q > 0
    ensures WellFormed(QuantitySet(items, id, q))
  {
  }

  /** `removeItem` drops exactly the lines with that id, keeping the others in order. */
  lemma RemovedSpec(items: seq<CartItem>, id: Id)
    ensures !HasId(Removed(items, id), id)
    ensures IsSubsequence(Removed(items, id), items)
    ensures forall it :: multiset(Removed(items, id))[it] == if it.id == id then 0 else multiset(items)[it]
    ensures !HasId(items, id) ==> Removed(items, id) == items
  {
    var p := (it: CartItem) => it.id != id;
    FilterKeepsOnlyMatches(items, p);
    FilterIsSubsequence(items, p);
    FilterCounts(items, p);
    if !HasId(items, id) {
      FilterAllTrue(items, p);
    }
    var r := Removed(items, id);
    forall i | 0 <= i < |r| ensures r[i].id != id {
      assert r[i] in r;
    }
  }

  /** Removing lines keeps the cart invariant. */
  lemma {:induction false} RemovedPreservesWellFormed(items: seq<CartItem>, id: Id)
    requires WellFormed(items)
    ensures WellFormed(Removed(items, id))
  {
    if items != [] {
      var p := (it: CartItem) => it.id != id;
      var rest := Removed(items[1..], id);
      RemovedPreservesWellFormed(items[1..], id);
      FilterKeepsOnlyMatches(items[1..], p);
      if p(items[0]) {
        forall k | 0 <= k < |rest| ensures rest[k].id != items[0].id {
          assert rest[k] in items[1..];
        }
        assert Removed(items, id) == [items[0]] + rest;
      }
    }
  }

  /** The cart as the provider holds it: the list, the derived totals, and the copy saved under the `cart` key. */
  class CartProvider {
    var items: seq<CartItem>
    var totalItems: int
    var totalPrice: real
    var saved: Option<seq<CartItem>>

    /** The totals and the saved copy reflect the current list (the effect has run). */
    ghost predicate Valid()
      reads this
    {
      totalItems == TotalItems(items) && totalPrice == TotalPrice(items) && saved == Some(items)
    }

    /** Mount: rehydrate the list from the `cart` key when it is present. */
    constructor (stored: Option<seq<CartItem>>)
      ensures Valid()
      ensures items == if stored.Some? then stored.value else []
    {
      var initial := if stored.Some? then stored.value else [];
      items := initial;
      totalItems := TotalItems(initial);
      totalPrice := TotalPrice(initial);
      saved := Some(initial);
    }

    /** `setItems` followed by the effect: recompute both totals and save the list. */
    method SetItems(newItems: seq<CartItem>)
      modifies this
      ensures Valid() && items == newItems
    {
      items := newItems;
      totalItems := TotalItems(items);
      totalPrice := TotalPrice(items);
      saved := Some(items);
    }

    method AddItem(x: NewItem)
      modifies this
      ensures Valid() && items == AddTo(old(items), x)
    {
      SetItems(AddTo(items, x));
    }

    method UpdateQuantity(id: Id, quantity: int)
      modifies this
      ensures Valid()
      ensures quantity <= 0 ==> items == Removed(old(items), id)
      ensures quantity > 0 ==> items == QuantitySet(old(items), id, quantity)
    {
      if quantity <= 0 {
        RemoveItem(id);
        return;
      }
      SetItems(QuantitySet(items, id, quantity));
    }

    method RemoveItem(id: Id)
      modifies this
      ensures Valid() && items == Removed(old(items), id)
    {
      SetItems(Removed(items, id));
    }

    method ClearCart()
      modifies this
      ensures Valid() && items == [] && totalItems == 0 && totalPrice == 0.0
    {
      SetItems([]);
    }
  }
}
