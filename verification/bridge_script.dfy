/**
 * The host bridge script (fivem-market/html/script.js): free-standing market
 * data, balance and cart, modelled as one session object. Its cart entries are
 * a catalog item together with a quantity, the same shape as the React cart's,
 * so the cart operations are stated with that cart's functions. Every request
 * goes to the host; the host's reply is an input.
 */
module BridgeScript {
  import opened Base
  import opened Catalog
  import opened Economy
  import opened HostBridge
  import opened ReactCart

  /** The `data` of an `openMarket` message, as far as this script reads it. */
  datatype MarketData = MarketData(
    items: seq<Item>,
    ownerId: Option<string>,
    ownerName: Option<string>,
    balance: BalanceUpdate)

  /** A purchase request: `{items: [{itemId, quantity}], paymentMethod}`. */
  datatype PurchaseRequest = PurchaseRequest(items: seq<RequestLine>, paymentMethod: PayMethod)

  class BridgeSession {
    var marketData: Option<MarketData>
    var balance: BalanceUpdate
    var cart: seq<CartItem>
    var shown: bool

    /** The cart never holds two entries for one item. */
    ghost predicate Valid()
      reads this
    {
      UniqueIds(cart)
    }

    /** The script's initial globals. */
    constructor ()
      ensures Valid()
      ensures marketData == None && cart == [] && !shown
      ensures balance == BalanceUpdate(Some(0), Some(0), Some(0), None)
    {
      marketData := None;
      balance := BalanceUpdate(Some(0), Some(0), Some(0), None);
      cart := [];
      shown := false;
    }

    /** `getCartTotal`: the sum of price times quantity over the cart. */
    function CartTotal(): int
      reads this
    {
      TotalPrice(cart)
    }

    /** The host's `openMarket`: the market data and its balance replace the old ones; the cart is kept. */
    method OpenMarket(data: MarketData)
      requires Valid()
      modifies this
      ensures Valid()
      ensures marketData == Some(data) && balance == data.balance && shown
      ensures cart == old(cart)
    {
      marketData := Some(data);
      balance := data.balance;
      shown := true;
    }

    /** The host's `updateBalance`: the balance is replaced as sent, not merged; a missing field stays missing. */
    method UpdateBalance(sent: BalanceUpdate)
      requires Valid()
      modifies this`balance
      ensures Valid() && balance == sent
    {
      balance := sent;
    }

    /** The host's `updateOwner`: both owner fields take the values sent; without market data nothing changes. */
    method UpdateOwner(ownerId: Option<string>, ownerName: Option<string>)
      requires Valid()
      modifies this`marketData
      ensures Valid()
      ensures old(marketData).None? ==> marketData == old(marketData)
      ensures old(marketData).Some? ==>
                marketData == Some(old(marketData).value.(ownerId := ownerId, ownerName := ownerName))
    {
      if marketData.Some? {
        marketData := Some(marketData.value.(ownerId := ownerId, ownerName := ownerName));
      }
    }

    /** `hideMarket` (also the host's `closeMarket` and the page's close): the cart is always emptied. */
    method HideMarket()
      requires Valid()
      modifies this`shown, this`cart
      ensures Valid() && !shown && cart == []
    {
      shown := false;
      cart := [];
    }

    /** `closeMarket`: tell the host, then `hideMarket`; the host call is not modelled. */
    method CloseMarket()
      requires Valid()
      modifies this`shown, this`cart
      ensures Valid() && !shown && cart == []
    {
      HideMarket();
    }

    /**
     * `addToCart(itemId, quantity)`: an id that is not in the market's items is
     * refused; otherwise the existing entry gains `quantity`, or a copy of the
     * catalog item is appended with `quantity`. The quantity defaults to one and is not checked.
     */
    method AddToCart(id: string, quantity: int := 1)
      requires Valid()
      modifies this`cart
      ensures Valid()
      ensures (old(marketData).None? || FindItem(old(marketData).value.items, id).None?) ==> cart == old(cart)
      ensures old(marketData).Some? && FindItem(old(marketData).value.items, id).Some? ==>
                var item := FindItem(old(marketData).value.items, id).value;
                && cart == AddItem(old(cart), item, quantity)
                && TotalItems(cart) == TotalItems(old(cart)) + quantity
    {
      if marketData.None? {
        return;
      }
      var found := FindItem(marketData.value.items, id);
      if found.None? {
        return;
      }
      var item := found.value;
      AddItemSpec(cart, item, quantity);
      AddItemTotals(cart, item, quantity);
      var i := IndexOf(cart, id);
      if i >= 0 {
        cart := cart[i := CartItem(cart[i].item, cart[i].quantity + quantity)];
      } else {
        cart := cart + [CartItem(item, quantity)];
      }
    }

    /** `removeFromCart`: exactly the entries whose id differs remain. */
    method RemoveFromCart(id: string)
      requires Valid()
      modifies this`cart
      ensures Valid()
      ensures cart == RemoveItem(old(cart), id)
    {
      RemoveItemSpec(cart, id);
      cart := RemoveItem(cart, id);
    }

    /**
     * `updateCartQuantity`: an absent id changes nothing; a quantity of zero or
     * less cuts out that one entry; any other quantity is set on it. On a cart
     * without duplicates this is the React cart's `updateQuantity`.
     */
    method UpdateCartQuantity(id: string, quantity: int)
      requires Valid()
      modifies this`cart
      ensures Valid()
      ensures var i := IndexOf(old(cart), id);
              if i < 0 then cart == old(cart)
              else if quantity <= 0 then cart == old(cart)[..i] + old(cart)[i + 1..]
              else cart == old(cart)[i := CartItem(old(cart)[i].item, quantity)]
      ensures cart == UpdateQuantity(old(cart), id, quantity)
    {
      var i := IndexOf(cart, id);
      if quantity <= 0 {
        RemoveItemSpec(cart, id);
        if i >= 0 {
          RemoveItemSplices(cart, id, i);
        } else {
          RemoveItemAbsent(cart, id);
        }
      } else {
        UpdateQuantityPositive(cart, id, quantity);
      }
      if i >= 0 {
        if quantity <= 0 {
          cart := cart[..i] + cart[i + 1..];
        } else {
          cart := cart[i := CartItem(cart[i].item, quantity)];
        }
      }
    }

    /**
     * `purchaseItems`: an empty cart sends nothing and changes nothing;
     * otherwise the cart's lines are sent and the cart is emptied only when
     * the host reports success.
     */
    method PurchaseItems(m: PayMethod, reply: HostReply) returns (sent: Option<PurchaseRequest>)
      requires Valid()
      modifies this`cart
      ensures Valid()
      ensures old(cart) == [] ==> sent == None && cart == old(cart)
      ensures old(cart) != [] ==> sent == Some(PurchaseRequest(RequestLines(old(cart)), m))
      ensures old(cart) != [] ==> cart == (if reply.success then [] else old(cart))
    {
      if cart == [] {
        return None;
      }
      sent := Some(PurchaseRequest(RequestLines(cart), m));
      if reply.success {
        cart := [];
      }
    }
  }
}
