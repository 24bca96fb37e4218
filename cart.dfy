/** The shopping cart slice: the cart lines, the two totals recomputed after
    every change, and the open flag of the cart drawer. Prices are in cents. */
module Cart {
  import opened Common

  datatype Customizations = Customizations(
    size: Option<string>,
    flavor: Option<string>,
    message: Option<string>,
    decorations: Option<seq<string>>)

  /** One cake in the cart, with its quantity. */
  datatype CartItem = CartItem(
    id: string,
    name: string,
    description: string,
    price: int,
    imageUrl: string,
    quantity: int,
    customizations: Option<Customizations>)

  function Ids(items: seq<CartItem>): (ids: seq<string>)
    ensures |ids| == |items|
    ensures forall i :: 0 <= i < |items| ==> ids[i] == items[i].id
  {
    seq(|items|, i requires 0 <= i < |items| => items[i].id)
  }

  function Quantity(item: CartItem): int { item.quantity }

  function LineAmount(item: CartItem): int { item.price * item.quantity }

  /** Array.prototype.reduce summing `f` over the lines. */
  function SumBy(items: seq<CartItem>, f: CartItem -> int): (r: int)
    ensures (forall i :: 0 <= i < |items| ==> f(items[i]) >= 1) ==> r >= |items|
  {
    if |items| == 0 then 0 else SumBy(items[..|items| - 1], f) + f(items[|items| - 1])
  }

  /** The invariant the cart keeps: no id twice, and every line holds at least
      one cake. */
  predicate WellFormed(items: seq<CartItem>) {
    Distinct(Ids(items)) && forall i :: 0 <= i < |items| ==> items[i].quantity >= 1
  }

  // ---------------------------------------------------------------------
  // The three list updates

  /** addToCart: one more of a cake already in the cart, otherwise a new line
      holding one. */
  function Added(items: seq<CartItem>, c: CartItem): (r: seq<CartItem>)
    ensures c.id in Ids(items) ==>
              var i := IndexOf(Ids(items), c.id);
              && items[i].id == c.id && c.id !in Ids(items)[..i]
              && |r| == |items| && r[i] == items[i].(quantity := items[i].quantity + 1)
              && forall k :: 0 <= k < |items| && k != i ==> r[k] == items[k]
    ensures c.id !in Ids(items) ==> r == items + [c.(quantity := 1)]
  {
    var i := IndexOf(Ids(items), c.id);
    if i > -1 then items[i := items[i].(quantity := items[i].quantity + 1)]
    else items + [c.(quantity := 1)]
  }

  /** Array.prototype.filter keeping the lines whose id differs. */
  function WithoutId(items: seq<CartItem>, id: string): (r: seq<CartItem>)
    ensures |r| <= |items|
  {
    if |items| == 0 then []
    else
      var init := WithoutId(items[..|items| - 1], id);
      var last := items[|items| - 1];
      if last.id != id then init + [last] else init
  }

  /** The filter keeps exactly the lines whose id differs. */
  lemma {:induction false} WithoutIdMembers(items: seq<CartItem>, id: string)
    ensures forall x :: x in WithoutId(items, id) <==> x in items && x.id != id
    decreases |items|
  {
    if |items| > 0 {
      var n := |items| - 1;
      WithoutIdMembers(items[..n], id);
      assert items == items[..n] + [items[n]];
    }
  }

  /** updateQuantity: a positive quantity replaces the first matching line's,
      zero drops every matching line, and anything else (or an unknown id)
      changes nothing. */
  function QuantityUpdated(items: seq<CartItem>, id: string, q: int): (r: seq<CartItem>)
    ensures id in Ids(items) && q > 0 ==>
              var i := IndexOf(Ids(items), id);
              && items[i].id == id && id !in Ids(items)[..i]
              && |r| == |items| && r[i] == items[i].(quantity := q)
              && forall k :: 0 <= k < |items| && k != i ==> r[k] == items[k]
    ensures id in Ids(items) && q == 0 ==> r == WithoutId(items, id)
    ensures id !in Ids(items) || q < 0 ==> r == items
  {
    var i := IndexOf(Ids(items), id);
    if i > -1 && q > 0 then items[i := items[i].(quantity := q)]
    else if i > -1 && q == 0 then WithoutId(items, id)
    else items
  }

  // ---------------------------------------------------------------------
  // How the totals move

  lemma {:induction false} SumBySnoc(items: seq<CartItem>, x: CartItem, f: CartItem -> int)
    ensures SumBy(items + [x], f) == SumBy(items, f) + f(x)
  {
    assert (items + [x])[..|items|] == items;
  }

  /** Replacing one line changes a sum by the difference of the two lines. */
  lemma {:induction false} SumByUpdate(items: seq<CartItem>, i: int, x: CartItem, f: CartItem -> int)
    requires 0 <= i < |items|
    ensures SumBy(items[i := x], f) == SumBy(items, f) - f(items[i]) + f(x)
    decreases |items|
  {
    var n := |items| - 1;
    var u := items[i := x];
    assert u[..n] == if i == n then items[..n] else items[..n][i := x];
    if i < n {
      SumByUpdate(items[..n], i, x, f);
    }
  }

  /** Filtering out an id whose single line sits at `i` takes that line's
      share off a sum. */
  lemma {:induction false} SumByWithout(items: seq<CartItem>, id: string, i: int, f: CartItem -> int)
    requires Distinct(Ids(items)) && 0 <= i < |items| && items[i].id == id
    ensures SumBy(WithoutId(items, id), f) == SumBy(items, f) - f(items[i])
    decreases |items|
  {
    var n := |items| - 1;
    var init := items[..n];
    var last := items[n];
    assert Ids(init) == Ids(items)[..n];
    assert SumBy(items, f) == SumBy(init, f) + f(last);
    if i < n {
      assert Ids(items)[i] != Ids(items)[n];
      assert WithoutId(items, id) == WithoutId(init, id) + [last];
      SumBySnoc(WithoutId(init, id), last, f);
      SumByWithout(init, id, i, f);
    } else {
      forall k | 0 <= k < n ensures Ids(init)[k] != id {
        assert Ids(items)[k] != Ids(items)[n];
      }
      WithoutAbsent(init, id);
      assert WithoutId(items, id) == WithoutId(init, id);
    }
  }

  /** The filter works line by line: filtering a list split in two filters
      each half, so the kept lines stay in order with their repetitions. */
  lemma {:induction false} WithoutIdAppend(a: seq<CartItem>, b: seq<CartItem>, id: string)
    ensures WithoutId(a + b, id) == WithoutId(a, id) + WithoutId(b, id)
    decreases |b|
  {
    if |b| > 0 {
      var n := |b| - 1;
      assert (a + b)[..|a + b| - 1] == a + b[..n];
      WithoutIdAppend(a, b[..n], id);
    } else {
      assert a + b == a;
    }
  }

  /** Filtering out an id no line has changes nothing. */
  lemma {:induction false} WithoutAbsent(items: seq<CartItem>, id: string)
    requires id !in Ids(items)
    ensures WithoutId(items, id) == items
    decreases |items|
  {
    if |items| > 0 {
      var n := |items| - 1;
      assert Ids(items[..n]) == Ids(items)[..n];
      WithoutAbsent(items[..n], id);
      assert items == items[..n] + [items[n]];
    }
  }

  /** Adding a cake always adds one to the item count, and adds the price of
      the line it lands on to the amount. */
  lemma AddedTotals(items: seq<CartItem>, c: CartItem)
    ensures SumBy(Added(items, c), Quantity) == SumBy(items, Quantity) + 1
    ensures c.id !in Ids(items) ==> SumBy(Added(items, c), LineAmount) == SumBy(items, LineAmount) + c.price
    ensures c.id in Ids(items) ==>
              SumBy(Added(items, c), LineAmount)
              == SumBy(items, LineAmount) + items[IndexOf(Ids(items), c.id)].price
  {
    var i := IndexOf(Ids(items), c.id);
    if i > -1 {
      var x := items[i].(quantity := items[i].quantity + 1);
      assert Added(items, c) == items[i := x];
      assert LineAmount(x) == LineAmount(items[i]) + items[i].price by {
        assert x.price * (items[i].quantity + 1) == x.price * items[i].quantity + x.price;
      }
      SumByUpdate(items, i, x, Quantity);
      SumByUpdate(items, i, x, LineAmount);
    } else {
      SumBySnoc(items, c.(quantity := 1), Quantity);
      SumBySnoc(items, c.(quantity := 1), LineAmount);
    }
  }

  /** Removing a cake takes its whole line off both totals. */
  lemma RemovedTotals(items: seq<CartItem>, id: string)
    requires Distinct(Ids(items))
    ensures id !in Ids(WithoutId(items, id))
    ensures id !in Ids(items) ==> WithoutId(items, id) == items
    ensures id in Ids(items) ==>
              var line := items[IndexOf(Ids(items), id)];
              SumBy(WithoutId(items, id), Quantity) == SumBy(items, Quantity) - line.quantity
              && SumBy(WithoutId(items, id), LineAmount) == SumBy(items, LineAmount) - line.price * line.quantity
  {
    var r := WithoutId(items, id);
    WithoutIdMembers(items, id);
    forall k | 0 <= k < |r| ensures Ids(r)[k] != id {
      assert r[k] in r;
    }
    if id in Ids(items) {
      var i := IndexOf(Ids(items), id);
      SumByWithout(items, id, i, Quantity);
      SumByWithout(items, id, i, LineAmount);
    } else {
      WithoutAbsent(items, id);
    }
  }

  /** A positive quantity replaces the line's quantity in the item count. */
  lemma UpdatedTotals(items: seq<CartItem>, id: string, q: int)
    requires id in Ids(items) && q > 0
    ensures var line := items[IndexOf(Ids(items), id)];
            SumBy(QuantityUpdated(items, id, q), Quantity) == SumBy(items, Quantity) - line.quantity + q
            && SumBy(QuantityUpdated(items, id, q), LineAmount)
               == SumBy(items, LineAmount) - line.price * line.quantity + line.price * q
  {
    var i := IndexOf(Ids(items), id);
    var x := items[i].(quantity := q);
    SumByUpdate(items, i, x, Quantity);
    SumByUpdate(items, i, x, LineAmount);
  }

  // ---------------------------------------------------------------------
  // The invariant

  lemma WithoutIdWellFormed(items: seq<CartItem>, id: string)
    requires WellFormed(items)
    ensures WellFormed(WithoutId(items, id))
  {
    var r := WithoutId(items, id);
    forall a, b | 0 <= a < b < |r| ensures Ids(r)[a] != Ids(r)[b] {
      SubsequenceIds(items, id, a, b);
    }
    WithoutIdMembers(items, id);
    forall k | 0 <= k < |r| ensures r[k].quantity >= 1 {
      assert r[k] in items;
    }
  }

  /** Two positions of the filtered list come from two positions of the
      original list in the same order. */
  lemma {:induction false} SubsequenceIds(items: seq<CartItem>, id: string, a: int, b: int)
    requires Distinct(Ids(items))
    requires 0 <= a < b < |WithoutId(items, id)|
    ensures WithoutId(items, id)[a].id != WithoutId(items, id)[b].id
    decreases |items|
  {
    var n := |items| - 1;
    var init := items[..n];
    var last := items[n];
    assert Ids(init) == Ids(items)[..n];
    var r0 := WithoutId(init, id);
    if last.id != id && b == |r0| {
      assert WithoutId(items, id)[a] == r0[a];
      WithoutIdMembers(init, id);
      assert r0[a] in init;
      var j :| 0 <= j < n && init[j] == r0[a];
      assert Ids(items)[j] != Ids(items)[n];
    } else {
      SubsequenceIds(init, id, a, b);
    }
  }

  /** Adding keeps the ids distinct and every quantity positive. */
  lemma AddedWellFormed(items: seq<CartItem>, c: CartItem)
    requires WellFormed(items)
    ensures WellFormed(Added(items, c))
  {
    var i := IndexOf(Ids(items), c.id);
    if i > -1 {
      assert Ids(Added(items, c)) == Ids(items);
    } else {
      assert Ids(Added(items, c)) == Ids(items) + [c.id];
    }
  }

  /** Updating a quantity keeps the ids distinct and every quantity positive. */
  lemma QuantityUpdatedWellFormed(items: seq<CartItem>, id: string, q: int)
    requires WellFormed(items)
    ensures WellFormed(QuantityUpdated(items, id, q))
  {
    var j := IndexOf(Ids(items), id);
    if j > -1 && q > 0 {
      assert Ids(QuantityUpdated(items, id, q)) == Ids(items);
    } else if j > -1 && q == 0 {
      WithoutIdWellFormed(items, id);
    }
  }

  // ---------------------------------------------------------------------
  // The slice

  class CartStore {
    var items: seq<CartItem>
    var totalAmount: int
    var totalItems: int
    var isOpen: bool

    /** Both totals agree with the lines, no cake has two lines and every
        line holds at least one cake. */
    ghost predicate Valid()
      reads this
    {
      && totalItems == SumBy(items, Quantity) && totalAmount == SumBy(items, LineAmount)
      && WellFormed(items)
    }

    constructor ()
      ensures items == [] && totalAmount == 0 && totalItems == 0 && !isOpen
      ensures Valid()
    {
      items, totalAmount, totalItems, isOpen := [], 0, 0, false;
    }

    method Recalculate()
      requires WellFormed(items)
      modifies this`totalItems, this`totalAmount
      ensures Valid()
    {
      totalItems := SumBy(items, Quantity);
      totalAmount := SumBy(items, LineAmount);
    }

    method AddToCart(c: CartItem)
      requires Valid()
      modifies this`items, this`totalItems, this`totalAmount
      ensures items == Added(old(items), c) && Valid()
      ensures totalItems == old(totalItems) + 1
    {
      ghost var next := Added(items, c);
      AddedTotals(items, c);
      AddedWellFormed(items, c);
      var i := IndexOf(Ids(items), c.id);
      if i > -1 {
        items := items[i := items[i].(quantity := items[i].quantity + 1)];
      } else {
        items := items + [c.(quantity := 1)];
      }
      assert items == next;
      Recalculate();
    }

    method RemoveFromCart(id: string)
      requires Valid()
      modifies this`items, this`totalItems, this`totalAmount
      ensures items == WithoutId(old(items), id) && Valid()
      ensures id !in Ids(items)
    {
      RemovedTotals(items, id);
      WithoutIdWellFormed(items, id);
      items := WithoutId(items, id);
      Recalculate();
    }

    method UpdateQuantity(id: string, q: int)
      requires Valid()
      modifies this`items, this`totalItems, this`totalAmount
      ensures items == QuantityUpdated(old(items), id, q) && Valid()
    {
      QuantityUpdatedWellFormed(items, id, q);
      var i := IndexOf(Ids(items), id);
      if i > -1 && q > 0 {
        items := items[i := items[i].(quantity := q)];
      } else if i > -1 && q == 0 {
        items := WithoutId(items, id);
      }
      Recalculate();
    }

    method ClearCart()
      modifies this`items, this`totalItems, this`totalAmount
      ensures items == [] && totalAmount == 0 && totalItems == 0 && Valid()
    {
      items, totalAmount, totalItems := [], 0, 0;
    }

    method ToggleCart()
      modifies this`isOpen
      ensures isOpen == !old(isOpen)
    {
      isOpen := !isOpen;
    }

    method OpenCart()
      modifies this`isOpen
      ensures isOpen
    {
      isOpen := true;
    }

    method CloseCart()
      modifies this`isOpen
      ensures !isOpen
    {
      isOpen := false;
    }
  }
}
