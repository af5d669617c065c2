/** The shopping-cart slice: a sequence of line items in insertion order and a
    stored total, changed only by the four reducers `addItem`, `removeItem`,
    `updateQuantity` and `clearCart`. Prices are whole numbers of the smallest
    currency unit, so the total is exact. */
module Cart {
  import opened Collections

  /** A catalog entry. */
  datatype Product = Product(id: int, name: string, price: int, description: string)

  /** A product's fields together with how many of it are in the cart. */
  datatype CartItem = CartItem(id: int, name: string, price: int, description: string, quantity: int)

  /** The slice's action creators, one per reducer, with their payloads. */
  datatype Action =
    | AddItemAction(product: Product)
    | RemoveItemAction(id: int)
    | UpdateQuantityAction(id: int, quantity: int)
    | ClearCartAction

  /** `{ ...product, quantity: 1 }`: the line item that adding a new product creates. */
  function NewLine(p: Product): CartItem
  {
    CartItem(p.id, p.name, p.price, p.description, 1)
  }

  // ---------------------------------------------------------------------------
  // Queries over the item sequence

  /** Position of the first item with the given id, as `items.find` locates it. */
  function IndexOf(items: seq<CartItem>, id: int): (r: Option<nat>)
    ensures r.Some? ==> r.value < |items| && items[r.value].id == id
    ensures r.Some? ==> forall k :: 0 <= k < r.value ==> items[k].id != id
    ensures r.None? <==> forall k :: 0 <= k < |items| ==> items[k].id != id
  {
    if items == [] then None
    else if items[0].id == id then Some(0)
    else match IndexOf(items[1..], id)
      case None => None
      case Some(k) => Some(k + 1)
  }

  function Subtotal(item: CartItem): int {
    item.price * item.quantity
  }

  /** `calculateTotal`: the left-to-right sum of price * quantity. */
  function Total(items: seq<CartItem>): int {
    if items == [] then 0
    else Total(items[..|items| - 1]) + Subtotal(items[|items| - 1])
  }

  /** The sum of every line's subtotal, taken from the front: the reference
      that the left-to-right `reduce` of `calculateTotal` has to agree with. */
  function SumOfSubtotals(items: seq<CartItem>): int {
    if items == [] then 0 else Subtotal(items[0]) + SumOfSubtotals(items[1..])
  }

  /** The item-filtering predicate `item => item.id !== id`. */
  function IdIsNot(id: int): CartItem -> bool {
    (item: CartItem) => item.id != id
  }

  /** `items.filter(item => item.id !== id)`. */
  function Without(items: seq<CartItem>, id: int): (r: seq<CartItem>)
    ensures forall x :: x in r <==> x in items && x.id != id
    ensures IndexOf(items, id).None? ==> r == items
  {
    Filter(items, IdIsNot(id))
  }

  // ---------------------------------------------------------------------------
  // The cart invariant

  predicate UniqueIds(items: seq<CartItem>) {
    forall i, j :: 0 <= i < j < |items| ==> items[i].id != items[j].id
  }

  predicate PositiveQuantities(items: seq<CartItem>) {
    forall k :: 0 <= k < |items| ==> items[k].quantity >= 1
  }

  /** At most one line per product, and no line with quantity below 1. */
  predicate WellFormed(items: seq<CartItem>) {
    UniqueIds(items) && PositiveQuantities(items)
  }

  // ---------------------------------------------------------------------------
  // Lemmas about the total

  lemma TotalSingleton(x: CartItem)
    ensures Total([x]) == Subtotal(x)
  {
    assert [x][..0] == [];
  }

  /** The total of a concatenation is the sum of the totals. */
  lemma {:induction false} TotalAppend(xs: seq<CartItem>, ys: seq<CartItem>)
    ensures Total(xs + ys) == Total(xs) + Total(ys)
    decreases |ys|
  {
    if ys == [] {
      assert xs + ys == xs;
    } else {
      var zs := xs + ys;
      assert zs[..|zs| - 1] == xs + ys[..|ys| - 1];
      assert zs[|zs| - 1] == ys[|ys| - 1];
      TotalAppend(xs, ys[..|ys| - 1]);
    }
  }

  /** Splits a sequence around position i. */
  lemma SplitAt(items: seq<CartItem>, i: nat)
    requires i < |items|
    ensures items == items[..i] + [items[i]] + items[i + 1..]
  {
  }

  /** Replacing one line changes the total by the difference of the two subtotals. */
  lemma TotalUpdate(items: seq<CartItem>, i: nat, x: CartItem)
    requires i < |items|
    ensures Total(items[i := x]) == Total(items) - Subtotal(items[i]) + Subtotal(x)
  {
    SplitAt(items, i);
    assert items[i := x] == items[..i] + [x] + items[i + 1..];
    TotalAppend(items[..i] + [items[i]], items[i + 1..]);
    TotalAppend(items[..i], [items[i]]);
    TotalAppend(items[..i] + [x], items[i + 1..]);
    TotalAppend(items[..i], [x]);
    TotalSingleton(items[i]);
    TotalSingleton(x);
  }

  /** Dropping the line at position i lowers the total by that line's subtotal. */
  lemma TotalRemoveAt(items: seq<CartItem>, i: nat)
    requires i < |items|
    ensures Total(items[..i] + items[i + 1..]) == Total(items) - Subtotal(items[i])
  {
    SplitAt(items, i);
    TotalAppend(items[..i], items[i + 1..]);
    TotalAppend(items[..i] + [items[i]], items[i + 1..]);
    TotalAppend(items[..i], [items[i]]);
    TotalSingleton(items[i]);
  }

  /** `calculateTotal` is the sum of price * quantity over all lines,
      whichever end the sum starts from. */
  lemma {:induction false} TotalIsSumOfSubtotals(items: seq<CartItem>)
    ensures Total(items) == SumOfSubtotals(items)
  {
    if items != [] {
      assert items == [items[0]] + items[1..];
      TotalAppend([items[0]], items[1..]);
      TotalSingleton(items[0]);
      TotalIsSumOfSubtotals(items[1..]);
    }
  }

  /** With non-negative prices and positive quantities the total is never negative. */
  lemma {:induction false} TotalNonNegative(items: seq<CartItem>)
    requires PositiveQuantities(items)
    requires forall k :: 0 <= k < |items| ==> items[k].price >= 0
    ensures Total(items) >= 0
    decreases |items|
  {
    if items != [] {
      var last := items[|items| - 1];
      assert last.price * last.quantity >= 0;
      TotalNonNegative(items[..|items| - 1]);
    }
  }

  // ---------------------------------------------------------------------------
  // Lemmas about removing lines

  /** `Without` distributes over concatenation, so relative order is kept. */
  lemma WithoutConcat(a: seq<CartItem>, b: seq<CartItem>, id: int)
    ensures Without(a + b, id) == Without(a, id) + Without(b, id)
  {
    FilterConcat(a, b, IdIsNot(id));
  }

  lemma WithoutSingleton(x: CartItem, id: int)
    ensures Without([x], id) == if x.id == id then [] else [x]
  {
    FilterSingleton(x, IdIsNot(id));
  }

  /** In a cart with unique ids, no line before or after position i shares its id. */
  lemma OnlyLineWithId(items: seq<CartItem>, i: nat)
    requires UniqueIds(items)
    requires i < |items|
    ensures IndexOf(items[..i], items[i].id).None?
    ensures IndexOf(items[i + 1..], items[i].id).None?
  {
    var front, back := items[..i], items[i + 1..];
    forall k | 0 <= k < |front| ensures front[k].id != items[i].id {
      assert front[k] == items[k];
    }
    forall k | 0 <= k < |back| ensures back[k].id != items[i].id {
      assert back[k] == items[i + 1 + k];
    }
  }

  /** In a cart with unique ids, filtering out the id found at position i
      removes exactly that position and keeps every other line in order. */
  lemma WithoutAt(items: seq<CartItem>, i: nat)
    requires UniqueIds(items)
    requires i < |items|
    ensures Without(items, items[i].id) == items[..i] + items[i + 1..]
  {
    var id := items[i].id;
    var front, back := items[..i], items[i + 1..];
    OnlyLineWithId(items, i);
    SplitAt(items, i);
    WithoutConcat(front + [items[i]], back, id);
    WithoutConcat(front, [items[i]], id);
    WithoutSingleton(items[i], id);
  }

  /** Changing the quantity of a line whose id is then filtered out makes no
      difference to the filtered result. */
  lemma WithoutIgnoresUpdate(items: seq<CartItem>, i: nat, x: CartItem)
    requires i < |items|
    requires items[i].id == x.id
    ensures Without(items[i := x], x.id) == Without(items, x.id)
  {
    var front, back := items[..i], items[i + 1..];
    SplitAt(items, i);
    assert items[i := x] == front + [x] + back;
    WithoutConcat(front + [items[i]], back, x.id);
    WithoutConcat(front, [items[i]], x.id);
    WithoutConcat(front + [x], back, x.id);
    WithoutConcat(front, [x], x.id);
    WithoutSingleton(items[i], x.id);
    WithoutSingleton(x, x.id);
  }

  /** The tail of a well-formed cart is well formed. */
  lemma TailWellFormed(items: seq<CartItem>)
    requires items != [] && WellFormed(items)
    ensures WellFormed(items[1..])
  {
    var rest := items[1..];
    forall i, j | 0 <= i < j < |rest| ensures rest[i].id != rest[j].id {
      assert rest[i] == items[i + 1] && rest[j] == items[j + 1];
    }
  }

  /** Putting a line in front of a well-formed cart that lacks its id keeps it well formed. */
  lemma ConsWellFormed(x: CartItem, tail: seq<CartItem>)
    requires WellFormed(tail) && x.quantity >= 1
    requires forall k :: 0 <= k < |tail| ==> tail[k].id != x.id
    ensures WellFormed([x] + tail)
  {
    var r := [x] + tail;
    forall i, j | 0 <= i < j < |r| ensures r[i].id != r[j].id {
      assert r[j] == tail[j - 1];
      if i > 0 {
        assert r[i] == tail[i - 1];
      }
    }
  }

  /** Filtering keeps the cart invariant. */
  lemma {:induction false} FilterKeepsWellFormed(items: seq<CartItem>, keep: CartItem -> bool)
    requires WellFormed(items)
    ensures WellFormed(Filter(items, keep))
  {
    if items != [] {
      var rest := items[1..];
      TailWellFormed(items);
      FilterKeepsWellFormed(rest, keep);
      if keep(items[0]) {
        var tail := Filter(rest, keep);
        forall k | 0 <= k < |tail| ensures tail[k].id != items[0].id {
          assert tail[k] in rest;
          var m :| 0 <= m < |rest| && rest[m] == tail[k];
          assert rest[m] == items[m + 1];
        }
        ConsWellFormed(items[0], tail);
      }
    }
  }

  /** Giving line i a positive quantity keeps the invariant. */
  lemma UpdateWellFormed(items: seq<CartItem>, i: nat, q: int)
    requires WellFormed(items) && i < |items| && q >= 1
    ensures WellFormed(items[i := items[i].(quantity := q)])
  {
  }

  /** Setting the quantity of line i to q changes the total by price * (q - old quantity). */
  lemma TotalSetQuantity(items: seq<CartItem>, i: nat, q: int)
    requires i < |items|
    ensures Total(items[i := items[i].(quantity := q)])
         == Total(items) + items[i].price * (q - items[i].quantity)
  {
    var x := items[i];
    TotalUpdate(items, i, x.(quantity := q));
    assert x.price * q - x.price * x.quantity == x.price * (q - x.quantity);
  }

  /** Removing the id of line i from a well-formed cart drops exactly that line,
      keeps the invariant and lowers the total by the line's subtotal. */
  lemma RemoveLine(items: seq<CartItem>, i: nat)
    requires WellFormed(items) && i < |items|
    ensures Without(items, items[i].id) == items[..i] + items[i + 1..]
    ensures WellFormed(Without(items, items[i].id))
    ensures Total(Without(items, items[i].id)) == Total(items) - Subtotal(items[i])
  {
    WithoutAt(items, i);
    FilterKeepsWellFormed(items, IdIsNot(items[i].id));
    TotalRemoveAt(items, i);
  }

  /** One more unit on line i raises the total by that line's own price and
      keeps the invariant. */
  lemma IncrementLine(items: seq<CartItem>, i: nat)
    requires i < |items|
    ensures Total(items[i := items[i].(quantity := items[i].quantity + 1)]) == Total(items) + items[i].price
    ensures WellFormed(items) ==> WellFormed(items[i := items[i].(quantity := items[i].quantity + 1)])
  {
    TotalSetQuantity(items, i, items[i].quantity + 1);
  }

  /** Appending a new product raises the total by its price and, when its id
      is not yet in the cart, keeps the invariant. */
  lemma AppendLine(items: seq<CartItem>, p: Product)
    requires IndexOf(items, p.id).None?
    ensures Total(items + [NewLine(p)]) == Total(items) + p.price
    ensures WellFormed(items) ==> WellFormed(items + [NewLine(p)])
  {
    TotalAppend(items, [NewLine(p)]);
    TotalSingleton(NewLine(p));
  }

  /** The items `updateQuantity` leaves: for an id in the cart, line i with
      its quantity set to q, and then, when q is 0 or less, every line with
      the id filtered out; for an absent id, the items as they were. */
  function QuantityUpdated(items: seq<CartItem>, id: int, q: int): (r: seq<CartItem>)
    ensures IndexOf(items, id).None? ==> r == items
    ensures IndexOf(items, id).Some? && q > 0 ==>
      var i := IndexOf(items, id).value;
      r == items[i := items[i].(quantity := q)]
    ensures IndexOf(items, id).Some? && q <= 0 ==> r == Without(items, id)
  {
    match IndexOf(items, id)
    case None => items
    case Some(i) =>
      var updated := items[i := items[i].(quantity := q)];
      if q <= 0 then
        WithoutIgnoresUpdate(items, i, updated[i]);
        Without(updated, id)
      else updated
  }

  /** `updateQuantity` with a positive quantity on a present id changes the
      total by price * (q - old quantity). */
  lemma QuantitySetTotal(items: seq<CartItem>, id: int, q: int, i: nat)
    requires IndexOf(items, id) == Some(i) && q > 0
    ensures Total(QuantityUpdated(items, id, q)) == Total(items) + items[i].price * (q - items[i].quantity)
  {
    assert QuantityUpdated(items, id, q) == items[i := items[i].(quantity := q)];
    TotalSetQuantity(items, i, q);
  }

  /** In a valid cart, `updateQuantity` with a quantity of 0 or less on a
      present id drops exactly that line and lowers the total by its subtotal. */
  lemma QuantityDroppedTotal(items: seq<CartItem>, id: int, q: int, i: nat)
    requires WellFormed(items)
    requires IndexOf(items, id) == Some(i) && q <= 0
    ensures QuantityUpdated(items, id, q) == items[..i] + items[i + 1..]
    ensures Total(QuantityUpdated(items, id, q)) == Total(items) - Subtotal(items[i])
  {
    WithoutAt(items, i);
    TotalRemoveAt(items, i);
  }

  /** `updateQuantity` keeps the cart invariant. */
  lemma QuantityUpdatedWellFormed(items: seq<CartItem>, id: int, q: int)
    requires WellFormed(items)
    ensures WellFormed(QuantityUpdated(items, id, q))
  {
    match IndexOf(items, id)
    case None =>
    case Some(i) =>
      if q > 0 {
        UpdateWellFormed(items, i, q);
      } else {
        FilterKeepsWellFormed(items, IdIsNot(id));
      }
  }

  // ---------------------------------------------------------------------------
  // The slice

  /** The cart slice's state. The reducers keep `Valid`; `initialState` has it. */
  class CartStore {
    var items: seq<CartItem>
    var total: int

    ghost predicate Valid()
      reads this
    {
      total == Total(items) && WellFormed(items)
    }

    /** `initialState`: no items, total 0. */
    constructor ()
      ensures items == [] && total == 0
      ensures Valid()
    {
      items := [];
      total := 0;
    }

    /** `addItem`: an existing line gains one unit and keeps its own name and
        price; a new product is appended with quantity 1. The total then rises
        by exactly one unit price. */
    method AddItem(product: Product)
      modifies this
      ensures match IndexOf(old(items), product.id)
        case Some(i) =>
          items == old(items)[i := old(items)[i].(quantity := old(items)[i].quantity + 1)]
          && (old(Valid()) ==> total == old(total) + old(items)[i].price)
        case None =>
          items == old(items) + [NewLine(product)]
          && (old(Valid()) ==> total == old(total) + product.price)
      ensures total == Total(items)
      ensures old(Valid()) ==> Valid()
    {
      var found := IndexOf(items, product.id);
      match found {
        case Some(i) =>
          IncrementLine(items, i);
          items := items[i := items[i].(quantity := items[i].quantity + 1)];
        case None =>
          AppendLine(items, product);
          items := items + [NewLine(product)];
      }
      total := Total(items);
    }

    /** `removeItem`: every line with the id goes and the rest keep their
        order (`RemoveLine` gives the exact positions and the new total in a
        valid cart); an absent id leaves the items unchanged. */
    method RemoveItem(id: int)
      modifies this
      ensures items == Without(old(items), id)
      ensures total == Total(items)
      ensures IndexOf(old(items), id).None? ==> items == old(items)
      ensures old(Valid()) ==> Valid()
    {
      ghost var before := items;
      items := Without(items, id);
      total := Total(items);
      if WellFormed(before) {
        FilterKeepsWellFormed(before, IdIsNot(id));
      }
    }

    /** `updateQuantity`: the items become `QuantityUpdated`; for an id in
        the cart the total is recomputed, for an absent id it is left as it was. */
    method UpdateQuantity(id: int, quantity: int)
      modifies this
      ensures items == QuantityUpdated(old(items), id, quantity)
      ensures IndexOf(old(items), id).None? ==> total == old(total)
      ensures IndexOf(old(items), id).Some? ==> total == Total(items)
      ensures old(Valid()) ==> Valid()
    {
      var found := IndexOf(items, id);
      if found.Some? {
        var i := found.value;
        ghost var before := items;
        var updated := items[i := items[i].(quantity := quantity)];
        if quantity <= 0 {
          items := Without(updated, id);
        } else {
          items := updated;
        }
        total := Total(items);
        if WellFormed(before) {
          QuantityUpdatedWellFormed(before, id, quantity);
        }
      }
    }

    /** `clearCart`: back to the initial state. */
    method ClearCart()
      modifies this
      ensures items == [] && total == 0
      ensures Valid()
    {
      items := [];
      total := 0;
    }

    /** The slice reducer: runs the reducer that the action names. */
    method Dispatch(action: Action)
      modifies this
      ensures action.UpdateQuantityAction? && IndexOf(old(items), action.id).None? ==>
        items == old(items) && total == old(total)
      ensures !(action.UpdateQuantityAction? && IndexOf(old(items), action.id).None?) ==>
        total == Total(items)
      ensures old(Valid()) ==> Valid()
    {
      match action {
        case AddItemAction(product) => AddItem(product);
        case RemoveItemAction(id) => RemoveItem(id);
        case UpdateQuantityAction(id, quantity) => UpdateQuantity(id, quantity);
        case ClearCartAction => ClearCart();
      }
    }
  }

  // ---------------------------------------------------------------------------
  // Scenarios

  /** Whatever actions reach a store that starts from the initial state, the
      stored total is the sum of price * quantity, ids stay unique and every
      quantity stays at least 1. */
  method InvariantAfterAnyActions(actions: seq<Action>) returns (items: seq<CartItem>, total: int)
    ensures total == Total(items)
    ensures WellFormed(items)
  {
    var cart := new CartStore();
    var k := 0;
    while k < |actions|
      invariant 0 <= k <= |actions|
      invariant cart.Valid()
    {
      cart.Dispatch(actions[k]);
      k := k + 1;
    }
    items, total := cart.items, cart.total;
  }

  /** Adding the same product twice to an empty cart gives one line with
      quantity 2 and a total of twice the price. */
  method AddSameProductTwice(p: Product) returns (items: seq<CartItem>, total: int)
    ensures items == [NewLine(p).(quantity := 2)]
    ensures total == 2 * p.price
  {
    var cart := new CartStore();
    cart.AddItem(p);
    cart.AddItem(p);
    items, total := cart.items, cart.total;
  }

  /** The cart values the removal scenario below passes through. */
  lemma TwoLinesFacts(p: Product, q: Product)
    requires p.id != q.id
    ensures IndexOf([NewLine(p)], q.id).None?
    ensures IndexOf([NewLine(p), NewLine(q)], p.id) == Some(0)
    ensures QuantityUpdated([NewLine(p), NewLine(q)], p.id, 2) == [NewLine(p).(quantity := 2), NewLine(q)]
    ensures Total([NewLine(p).(quantity := 2), NewLine(q)]) == 2 * p.price + q.price
    ensures Without([NewLine(p).(quantity := 2), NewLine(q)], p.id) == [NewLine(q)]
    ensures Total([NewLine(q)]) == q.price
  {
    var raised := [NewLine(p).(quantity := 2), NewLine(q)];
    TotalAppend([raised[0]], [raised[1]]);
    assert [raised[0]] + [raised[1]] == raised;
    TotalSingleton(raised[0]);
    TotalSingleton(raised[1]);
    assert WellFormed(raised);
    RemoveLine(raised, 0);
    assert raised[..0] + raised[1..] == [NewLine(q)];
  }

  /** Two units of a product priced 10 and one of a product priced 5 total 25;
      removing the first product leaves only the second and a total of 5. */
  method RemoveFromTwoLines(p: Product, q: Product)
    returns (totalBefore: int, items: seq<CartItem>, totalAfter: int)
    requires p.id == 1 && p.price == 10 && q.id == 2 && q.price == 5
    ensures totalBefore == 25
    ensures items == [NewLine(q)] && totalAfter == 5
  {
    TwoLinesFacts(p, q);
    var cart := new CartStore();
    cart.AddItem(p);
    cart.AddItem(q);
    cart.UpdateQuantity(1, 2);
    totalBefore := cart.total;
    cart.RemoveItem(1);
    items, totalAfter := cart.items, cart.total;
  }

  /** Setting the quantity of a line priced 10 to 3 gives a total of 30;
      setting it to 0 then empties the cart. */
  method RaiseThenZero(p: Product)
    returns (raised: seq<CartItem>, totalRaised: int, items: seq<CartItem>, totalAfter: int)
    requires p.price == 10
    ensures raised == [NewLine(p).(quantity := 3)] && totalRaised == 30
    ensures items == [] && totalAfter == 0
  {
    var cart := new CartStore();
    cart.AddItem(p);
    ghost var one := cart.items;
    assert IndexOf(one, p.id) == Some(0);
    cart.UpdateQuantity(p.id, 3);
    QuantitySetTotal(one, p.id, 3, 0);
    raised, totalRaised := cart.items, cart.total;
    assert IndexOf(raised, p.id) == Some(0);
    cart.UpdateQuantity(p.id, 0);
    QuantityDroppedTotal(raised, p.id, 0, 0);
    items, totalAfter := cart.items, cart.total;
  }
}
