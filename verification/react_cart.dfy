/**
 * The cart hook of the React storefront (src/hooks/useCart.ts). Every
 * operation returns a new list of `{item, quantity}` entries; totals use the
 * base price, without the daily discount.
 */
module ReactCart {
  import opened Catalog
  import opened Economy

  datatype CartItem = CartItem(item: Item, quantity: int)

  /** One `{itemId, quantity}` line of a purchase request. */
  datatype RequestLine = RequestLine(itemId: string, quantity: int)

  /** What the cart hands to the purchase: its lines, the payment method and the total. */
  datatype CartData = CartData(items: seq<RequestLine>, paymentMethod: PayMethod, totalPrice: int)

  /** `items.findIndex(ci => ci.item.id === id)`. */
  function IndexOf(items: seq<CartItem>, id: string): (r: int)
    ensures -1 <= r < |items|
    ensures r >= 0 ==> items[r].item.id == id && forall j :: 0 <= j < r ==> items[j].item.id != id
    ensures r == -1 <==> forall j :: 0 <= j < |items| ==> items[j].item.id != id
  {
    if items == [] then -1
    else if items[0].item.id == id then 0
    else
      var k := IndexOf(items[1..], id);
      assert forall j :: 1 <= j < |items| ==> items[j] == items[1..][j - 1];
      if k < 0 then -1 else k + 1
  }

  /** No item appears in two entries. */
  predicate UniqueIds(items: seq<CartItem>) {
    forall i, j :: 0 <= i < j < |items| ==> items[i].item.id != items[j].item.id
  }

  /** `addItem`: raise the quantity of the existing entry in place, or append a new entry. */
  function AddItem(items: seq<CartItem>, item: Item, quantity: int := 1): seq<CartItem> {
    var i := IndexOf(items, item.id);
    if i >= 0 then items[i := CartItem(items[i].item, items[i].quantity + quantity)]
    else items + [CartItem(item, quantity)]
  }

  /** `removeItem`: the entries whose id differs, in their original order. */
  function RemoveItem(items: seq<CartItem>, id: string): (r: seq<CartItem>)
    ensures |r| <= |items|
  {
    if items == [] then []
    else
      var last := items[|items| - 1];
      var rest := RemoveItem(items[..|items| - 1], id);
      if last.item.id == id then rest else rest + [last]
  }

  /** The filter keeps exactly the entries of other items. */
  lemma {:induction false} RemoveItemMembers(items: seq<CartItem>, id: string)
    ensures forall ci :: ci in RemoveItem(items, id) <==> ci in items && ci.item.id != id
  {
    if items != [] {
      var n := |items| - 1;
      RemoveItemMembers(items[..n], id);
      assert items == items[..n] + [items[n]];
    }
  }

  /** Every entry of `id` gets `quantity`; the others are left as they are. */
  function SetQuantity(items: seq<CartItem>, id: string, quantity: int): (r: seq<CartItem>)
    ensures |r| == |items|
    ensures forall i :: 0 <= i < |items| ==>
              r[i] == if items[i].item.id == id then CartItem(items[i].item, quantity) else items[i]
  {
    if items == [] then []
    else
      var last := items[|items| - 1];
      SetQuantity(items[..|items| - 1], id, quantity)
        + [if last.item.id == id then CartItem(last.item, quantity) else last]
  }

  /** `updateQuantity`: a quantity of zero or less removes the item, any other sets it. */
  function UpdateQuantity(items: seq<CartItem>, id: string, quantity: int): seq<CartItem> {
    if quantity <= 0 then RemoveItem(items, id) else SetQuantity(items, id, quantity)
  }

  /** `clearCart`. */
  function ClearCart(items: seq<CartItem>): (r: seq<CartItem>)
    ensures |r| == 0
  {
    []
  }

  /** `totalPrice`: the sum of base price times quantity. */
  function TotalPrice(items: seq<CartItem>): int {
    if items == [] then 0
    else TotalPrice(items[..|items| - 1]) + items[|items| - 1].item.price * items[|items| - 1].quantity
  }

  /** `totalItems`: the sum of the quantities. */
  function TotalItems(items: seq<CartItem>): int {
    if items == [] then 0 else TotalItems(items[..|items| - 1]) + items[|items| - 1].quantity
  }

  /** The `{itemId, quantity}` lines of the cart, in cart order. */
  function RequestLines(items: seq<CartItem>): (r: seq<RequestLine>)
    ensures |r| == |items|
    ensures forall i :: 0 <= i < |items| ==> r[i] == RequestLine(items[i].item.id, items[i].quantity)
  {
    if items == [] then []
    else RequestLines(items[..|items| - 1]) + [RequestLine(items[|items| - 1].item.id, items[|items| - 1].quantity)]
  }

  /** `getCartData`. */
  function GetCartData(items: seq<CartItem>, paymentMethod: PayMethod): CartData {
    CartData(RequestLines(items), paymentMethod, TotalPrice(items))
  }

  /** Replacing one entry changes both totals by the difference between the two entries. */
  lemma {:induction false} TotalsUpdate(items: seq<CartItem>, i: int, ci: CartItem)
    requires 0 <= i < |items|
    ensures TotalItems(items[i := ci]) == TotalItems(items) - items[i].quantity + ci.quantity
    ensures TotalPrice(items[i := ci]) == TotalPrice(items) - items[i].item.price * items[i].quantity + ci.item.price * ci.quantity
  {
    var n := |items| - 1;
    if i == n {
      assert items[i := ci][..n] == items[..n];
    } else {
      TotalsUpdate(items[..n], i, ci);
      assert items[i := ci][..n] == items[..n][i := ci];
    }
  }

  lemma TotalsAppend(items: seq<CartItem>, ci: CartItem)
    ensures TotalItems(items + [ci]) == TotalItems(items) + ci.quantity
    ensures TotalPrice(items + [ci]) == TotalPrice(items) + ci.item.price * ci.quantity
  {
    assert (items + [ci])[..|items|] == items;
  }

  /**
   * Adding keeps ids unique and the order of the entries: an existing entry
   * is raised in place, otherwise the new entry goes last; nothing else changes.
   */
  lemma AddItemSpec(items: seq<CartItem>, item: Item, quantity: int)
    requires UniqueIds(items)
    ensures var r := AddItem(items, item, quantity);
            && UniqueIds(r)
            && |r| == (if IndexOf(items, item.id) >= 0 then |items| else |items| + 1)
            && (forall j :: 0 <= j < |items| ==> r[j].item == items[j].item)
            && (forall j :: 0 <= j < |items| && items[j].item.id != item.id ==> r[j] == items[j])
            && (IndexOf(items, item.id) < 0 ==> r[|items|] == CartItem(item, quantity))
            && (IndexOf(items, item.id) >= 0 ==>
                  r[IndexOf(items, item.id)].quantity == items[IndexOf(items, item.id)].quantity + quantity)
  {
  }

  /**
   * Adding raises the unit count by the quantity added and the total by that
   * quantity at the price of the entry that receives it (the stored item's
   * price when the item was already in the cart).
   */
  lemma AddItemTotals(items: seq<CartItem>, item: Item, quantity: int)
    ensures TotalItems(AddItem(items, item, quantity)) == TotalItems(items) + quantity
    ensures var i := IndexOf(items, item.id);
            i >= 0 ==> TotalPrice(AddItem(items, item, quantity)) == TotalPrice(items) + items[i].item.price * quantity
    ensures IndexOf(items, item.id) < 0 ==> TotalPrice(AddItem(items, item, quantity)) == TotalPrice(items) + item.price * quantity
  {
    var i := IndexOf(items, item.id);
    if i >= 0 {
      var p := items[i].item.price;
      var q := items[i].quantity;
      var ci := CartItem(items[i].item, q + quantity);
      assert AddItem(items, item, quantity) == items[i := ci];
      TotalsUpdate(items, i, ci);
      assert p * (q + quantity) == p * q + p * quantity;
    } else {
      assert AddItem(items, item, quantity) == items + [CartItem(item, quantity)];
      TotalsAppend(items, CartItem(item, quantity));
    }
  }

  /** Removing an item the cart does not hold leaves it as it is. */
  lemma {:induction false} RemoveItemAbsent(items: seq<CartItem>, id: string)
    requires IndexOf(items, id) < 0
    ensures RemoveItem(items, id) == items
  {
    if items != [] {
      var n := |items| - 1;
      assert IndexOf(items[..n], id) < 0;
      RemoveItemAbsent(items[..n], id);
      assert items[..n] + [items[n]] == items;
    }
  }

  /** In a cart with unique ids, removing an item cuts out its one entry and keeps the rest in order. */
  lemma {:induction false} RemoveItemSplices(items: seq<CartItem>, id: string, i: int)
    requires UniqueIds(items) && 0 <= i < |items| && items[i].item.id == id
    ensures RemoveItem(items, id) == items[..i] + items[i + 1..]
  {
    var n := |items| - 1;
    if i == n {
      RemoveItemAbsent(items[..n], id);
    } else {
      RemoveItemSplices(items[..n], id, i);
      assert items[..n][..i] + items[..n][i + 1..] + [items[n]] == items[..i] + items[i + 1..];
    }
  }

  /** Removing keeps ids unique and drops exactly the removed entry's units from the count. */
  lemma RemoveItemSpec(items: seq<CartItem>, id: string)
    requires UniqueIds(items)
    ensures UniqueIds(RemoveItem(items, id))
    ensures var i := IndexOf(items, id);
            TotalItems(RemoveItem(items, id)) == TotalItems(items) - (if i >= 0 then items[i].quantity else 0)
  {
    RemoveItemUnique(items, id);
    RemoveItemTotal(items, id);
  }

  /** Removing an item keeps the ids unique. */
  lemma RemoveItemUnique(items: seq<CartItem>, id: string)
    requires UniqueIds(items)
    ensures UniqueIds(RemoveItem(items, id))
  {
    var i := IndexOf(items, id);
    if i < 0 {
      RemoveItemAbsent(items, id);
    } else {
      RemoveItemSplices(items, id, i);
      var r := items[..i] + items[i + 1..];
      assert forall a :: 0 <= a < i ==> r[a] == items[a];
      assert forall a :: i <= a < |r| ==> r[a] == items[a + 1];
    }
  }

  /** Removing an item takes away exactly its units. */
  lemma RemoveItemTotal(items: seq<CartItem>, id: string)
    requires UniqueIds(items)
    ensures var i := IndexOf(items, id);
            TotalItems(RemoveItem(items, id)) == TotalItems(items) - (if i >= 0 then items[i].quantity else 0)
  {
    var i := IndexOf(items, id);
    if i < 0 {
      RemoveItemAbsent(items, id);
    } else {
      RemoveItemSplices(items, id, i);
      TotalsSplice(items, i);
    }
  }

  lemma {:induction false} TotalsSplice(items: seq<CartItem>, i: int)
    requires 0 <= i < |items|
    ensures TotalItems(items[..i] + items[i + 1..]) == TotalItems(items) - items[i].quantity
  {
    var n := |items| - 1;
    if i == n {
      assert items[..i] + items[i + 1..] == items[..n];
    } else {
      TotalsSplice(items[..n], i);
      assert items[..n][..i] == items[..i];
      assert items[i + 1..] == items[..n][i + 1..] + [items[n]];
      assert items[..i] + items[i + 1..] == (items[..n][..i] + items[..n][i + 1..]) + [items[n]];
      TotalsAppend(items[..n][..i] + items[..n][i + 1..], items[n]);
    }
  }

  /** A quantity of zero or less is the same as removing the item. */
  lemma UpdateQuantityNonPositive(items: seq<CartItem>, id: string, quantity: int)
    requires quantity <= 0
    ensures UpdateQuantity(items, id, quantity) == RemoveItem(items, id)
  {
  }

  /**
   * A positive quantity is set on the matching entry only: no entry is
   * added, ids stay unique, an absent id changes nothing, and the unit count
   * moves from the old quantity to the new one.
   */
  lemma UpdateQuantityPositive(items: seq<CartItem>, id: string, quantity: int)
    requires UniqueIds(items) && quantity > 0
    ensures var r := UpdateQuantity(items, id, quantity);
            && |r| == |items|
            && UniqueIds(r)
            && (forall j :: 0 <= j < |items| ==> r[j].item == items[j].item)
            && (forall j :: 0 <= j < |items| && items[j].item.id != id ==> r[j] == items[j])
            && (IndexOf(items, id) < 0 ==> r == items)
    ensures var i := IndexOf(items, id);
            i >= 0 ==> UpdateQuantity(items, id, quantity) == items[i := CartItem(items[i].item, quantity)]
                       && TotalItems(UpdateQuantity(items, id, quantity)) == TotalItems(items) - items[i].quantity + quantity
  {
    var r := UpdateQuantity(items, id, quantity);
    var i := IndexOf(items, id);
    if i >= 0 {
      assert r == items[i := CartItem(items[i].item, quantity)];
      TotalsUpdate(items, i, CartItem(items[i].item, quantity));
    } else {
      assert r == items;
    }
  }

  /** The request lists every entry once, in cart order, with the same units and the cart's total. */
  lemma {:induction false} GetCartDataSpec(items: seq<CartItem>, m: PayMethod)
    ensures var d := GetCartData(items, m);
            && |d.items| == |items|
            && (forall i :: 0 <= i < |items| ==> d.items[i].itemId == items[i].item.id && d.items[i].quantity == items[i].quantity)
            && d.paymentMethod == m
            && d.totalPrice == TotalPrice(items)
            && RequestUnits(d.items) == TotalItems(items)
  {
    RequestUnitsMatch(items);
  }

  /** The number of units a request asks for. */
  function RequestUnits(lines: seq<RequestLine>): int {
    if lines == [] then 0 else RequestUnits(lines[..|lines| - 1]) + lines[|lines| - 1].quantity
  }

  lemma {:induction false} RequestUnitsMatch(items: seq<CartItem>)
    ensures RequestUnits(RequestLines(items)) == TotalItems(items)
  {
    if items != [] {
      var n := |items| - 1;
      RequestUnitsMatch(items[..n]);
      assert RequestLines(items)[..n] == RequestLines(items[..n]);
    }
  }

  /** The demo burger at 25: two of them cost 50 and count 2 units. */
  lemma BurgerCart()
    ensures var c := AddItem(AddItem([], Item("burger", "Burger", 25, "food"), 1), Item("burger", "Burger", 25, "food"), 1);
            c == [CartItem(Item("burger", "Burger", 25, "food"), 2)] && TotalPrice(c) == 50 && TotalItems(c) == 2
  {
    var b := Item("burger", "Burger", 25, "food");
    assert AddItem([], b, 1) == [CartItem(b, 1)];
    assert IndexOf([CartItem(b, 1)], "burger") == 0;
    assert [CartItem(b, 2)][..0] == [];
  }
}
