/**
 * The cart of the standalone page (fivem-market/html/market-app.js): a list of
 * `{itemId, quantity}` entries, and the sums the page shows for it.
 */
module VanillaCart {
  import opened Base
  import opened Catalog
  import opened Pricing

  datatype CartLine = CartLine(itemId: string, quantity: int)

  /** `cart.find(i => i.itemId === id)`, as the index of the first match, or -1. */
  function LineIndex(cart: seq<CartLine>, id: string): (r: int)
    ensures -1 <= r < |cart|
    ensures r >= 0 ==> cart[r].itemId == id && forall j :: 0 <= j < r ==> cart[j].itemId != id
    ensures r == -1 <==> forall j :: 0 <= j < |cart| ==> cart[j].itemId != id
  {
    if cart == [] then -1
    else if cart[0].itemId == id then 0
    else
      var k := LineIndex(cart[1..], id);
      assert forall j :: 1 <= j < |cart| ==> cart[j] == cart[1..][j - 1];
      if k < 0 then -1 else k + 1
  }

  /** No item appears on two lines. */
  predicate DistinctIds(cart: seq<CartLine>) {
    forall i, j :: 0 <= i < j < |cart| ==> cart[i].itemId != cart[j].itemId
  }

  /** Every line holds at least one unit. */
  predicate PositiveQuantities(cart: seq<CartLine>) {
    forall i :: 0 <= i < |cart| ==> cart[i].quantity >= 1
  }

  /** The number of units in the cart: the sum of the quantities. */
  function TotalItems(cart: seq<CartLine>): int {
    if cart == [] then 0 else TotalItems(cart[..|cart| - 1]) + cart[|cart| - 1].quantity
  }

  lemma TotalItemsAppend(cart: seq<CartLine>, line: CartLine)
    ensures TotalItems(cart + [line]) == TotalItems(cart) + line.quantity
  {
    assert (cart + [line])[..|cart|] == cart;
  }

  /** Replacing one line changes the unit count by the difference of the two quantities. */
  lemma {:induction false} TotalItemsUpdate(cart: seq<CartLine>, i: int, line: CartLine)
    requires 0 <= i < |cart|
    ensures TotalItems(cart[i := line]) == TotalItems(cart) - cart[i].quantity + line.quantity
  {
    var n := |cart| - 1;
    if i == n {
      assert cart[i := line][..n] == cart[..n];
    } else {
      TotalItemsUpdate(cart[..n], i, line);
      assert cart[i := line][..n] == cart[..n][i := line];
    }
  }

  /** Cutting out one line removes its units from the count. */
  lemma {:induction false} TotalItemsSplice(cart: seq<CartLine>, i: int)
    requires 0 <= i < |cart|
    ensures TotalItems(cart[..i] + cart[i + 1..]) == TotalItems(cart) - cart[i].quantity
  {
    var n := |cart| - 1;
    if i == n {
      assert cart[..i] + cart[i + 1..] == cart[..n];
    } else {
      TotalItemsSplice(cart[..n], i);
      assert cart[..n][..i] == cart[..i];
      assert cart[i + 1..] == cart[..n][i + 1..] + [cart[n]];
      assert cart[..i] + cart[i + 1..] == (cart[..n][..i] + cart[..n][i + 1..]) + [cart[n]];
      TotalItemsAppend(cart[..n][..i] + cart[..n][i + 1..], cart[n]);
    }
  }

  /** Setting a positive quantity on an existing line keeps the cart's invariants. */
  lemma SetKeepsInvariants(cart: seq<CartLine>, i: int, q: int)
    requires DistinctIds(cart) && PositiveQuantities(cart) && 0 <= i < |cart| && q >= 1
    ensures DistinctIds(cart[i := CartLine(cart[i].itemId, q)])
    ensures PositiveQuantities(cart[i := CartLine(cart[i].itemId, q)])
  {
  }

  /** `cart.filter(item => item.itemId !== id)`. */
  function Without(cart: seq<CartLine>, id: string): (r: seq<CartLine>)
    ensures |r| <= |cart|
  {
    if cart == [] then []
    else
      var last := cart[|cart| - 1];
      var rest := Without(cart[..|cart| - 1], id);
      if last.itemId == id then rest else rest + [last]
  }

  /** The filter keeps exactly the lines of other items. */
  lemma {:induction false} WithoutMembers(cart: seq<CartLine>, id: string)
    ensures forall l :: l in Without(cart, id) <==> l in cart && l.itemId != id
  {
    if cart != [] {
      var n := |cart| - 1;
      WithoutMembers(cart[..n], id);
      assert cart == cart[..n] + [cart[n]];
    }
  }

  /** Removing an item the cart does not hold leaves it as it is. */
  lemma {:induction false} WithoutAbsent(cart: seq<CartLine>, id: string)
    requires forall j :: 0 <= j < |cart| ==> cart[j].itemId != id
    ensures Without(cart, id) == cart
  {
    if cart != [] {
      var n := |cart| - 1;
      WithoutAbsent(cart[..n], id);
      assert cart[..n] + [cart[n]] == cart;
    }
  }

  /** In a cart without duplicates, removing an item cuts out its one line and keeps the rest in order. */
  lemma {:induction false} WithoutSplices(cart: seq<CartLine>, id: string, i: int)
    requires DistinctIds(cart) && 0 <= i < |cart| && cart[i].itemId == id
    ensures Without(cart, id) == cart[..i] + cart[i + 1..]
  {
    var n := |cart| - 1;
    if i == n {
      WithoutAbsent(cart[..n], id);
    } else {
      WithoutSplices(cart[..n], id, i);
      assert cart[..n][..i] + cart[..n][i + 1..] + [cart[n]] == cart[..i] + cart[i + 1..];
    }
  }

  /** Cutting one line out of a cart keeps it free of duplicates and of empty lines. */
  lemma SpliceKeepsInvariants(cart: seq<CartLine>, i: int)
    requires DistinctIds(cart) && PositiveQuantities(cart) && 0 <= i < |cart|
    ensures DistinctIds(cart[..i] + cart[i + 1..]) && PositiveQuantities(cart[..i] + cart[i + 1..])
  {
    var r := cart[..i] + cart[i + 1..];
    assert forall a :: 0 <= a < i ==> r[a] == cart[a];
    assert forall a :: i <= a < |r| ==> r[a] == cart[a + 1];
  }

  /** Removing a line keeps a cart free of duplicates and of empty lines. */
  lemma WithoutKeepsInvariants(cart: seq<CartLine>, id: string)
    requires DistinctIds(cart) && PositiveQuantities(cart)
    ensures DistinctIds(Without(cart, id)) && PositiveQuantities(Without(cart, id))
  {
    var i := LineIndex(cart, id);
    if i < 0 {
      WithoutAbsent(cart, id);
    } else {
      WithoutSplices(cart, id, i);
      SpliceKeepsInvariants(cart, i);
    }
  }

  /** Only the item id decides which lines a removal drops. */
  lemma {:induction false} WithoutIgnoresQuantity(cart: seq<CartLine>, id: string, i: int, q: int)
    requires 0 <= i < |cart| && cart[i].itemId == id
    ensures Without(cart[i := CartLine(id, q)], id) == Without(cart, id)
  {
    var n := |cart| - 1;
    if i < n {
      WithoutIgnoresQuantity(cart[..n], id, i, q);
      assert cart[i := CartLine(id, q)][..n] == cart[..n][i := CartLine(id, q)];
    } else {
      assert cart[i := CartLine(id, q)][..n] == cart[..n];
    }
  }

  /**
   * What one line costs: the effective unit price times the quantity, or
   * nothing when the item is no longer in the catalog (lines 206-211).
   */
  function LinePrice(items: seq<Item>, discountId: Option<string>, line: CartLine): int {
    match FindItem(items, line.itemId)
    case None => 0
    case Some(item) => EffectivePrice(line.itemId, item.price, discountId) * line.quantity
  }

  /** The cart total shown in the drawer and charged on purchase. */
  function CartTotal(items: seq<Item>, discountId: Option<string>, cart: seq<CartLine>): int {
    if cart == [] then 0
    else CartTotal(items, discountId, cart[..|cart| - 1]) + LinePrice(items, discountId, cart[|cart| - 1])
  }

  predicate PricesNonNegative(items: seq<Item>) {
    forall i :: 0 <= i < |items| ==> items[i].price >= 0
  }

  /** A line costs at least nothing and at most its undiscounted price. */
  lemma LinePriceBounds(items: seq<Item>, discountId: Option<string>, line: CartLine)
    requires PricesNonNegative(items) && line.quantity >= 0
    ensures 0 <= LinePrice(items, discountId, line) <= LinePrice(items, None, line)
  {
    match FindItem(items, line.itemId)
    case None =>
    case Some(item) =>
      var p := EffectivePrice(line.itemId, item.price, discountId);
      assert 0 <= p <= item.price;
      assert p * line.quantity <= item.price * line.quantity by {
        assert (item.price - p) * line.quantity >= 0;
      }
  }

  /**
   * With non-negative prices and quantities the total is non-negative and
   * the discount never makes the cart dearer than at base prices.
   */
  lemma {:induction false} CartTotalBounds(items: seq<Item>, discountId: Option<string>, cart: seq<CartLine>)
    requires PricesNonNegative(items)
    requires forall i :: 0 <= i < |cart| ==> cart[i].quantity >= 0
    ensures 0 <= CartTotal(items, discountId, cart) <= CartTotal(items, None, cart)
  {
    if cart != [] {
      var n := |cart| - 1;
      CartTotalBounds(items, discountId, cart[..n]);
      LinePriceBounds(items, discountId, cart[n]);
    }
  }

  /** Without a discounted line the discount changes nothing. */
  lemma {:induction false} CartTotalUndiscounted(items: seq<Item>, discountId: Option<string>, cart: seq<CartLine>)
    requires forall i :: 0 <= i < |cart| ==> Some(cart[i].itemId) != discountId
    ensures CartTotal(items, discountId, cart) == CartTotal(items, None, cart)
  {
    if cart != [] {
      CartTotalUndiscounted(items, discountId, cart[..|cart| - 1]);
    }
  }

  /** The demo burger costs 25: two of them cost 50, one discounted burger costs 23. */
  lemma BurgerTotals()
    ensures CartTotal([Item("burger", "Burger", 25, "food")], None, [CartLine("burger", 2)]) == 50
    ensures CartTotal([Item("burger", "Burger", 25, "food")], Some("burger"), [CartLine("burger", 1)]) == 23
    ensures CartTotal([Item("burger", "Burger", 25, "food")], Some("burger"), [CartLine("pizza", 3)]) == 0
  {
    var items := [Item("burger", "Burger", 25, "food")];
    assert FindItem(items, "pizza") == None;
    assert [CartLine("burger", 2)][..0] == [];
  }
}
