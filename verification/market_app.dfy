/**
 * The standalone storefront page (fivem-market/html/market-app.js): one
 * session object whose fields the page's handlers update in place. Rendering,
 * notifications and timers are not modelled; the host's answers are inputs.
 */
module VanillaMarket {
  import opened Base
  import opened Catalog
  import opened Pricing
  import opened Economy
  import opened HostBridge
  import opened VanillaCart

  datatype PurchaseOutcome =
    | NothingToBuy
    | Bought(total: int, pointsEarned: int)
    | PurchaseRefused(message: string)

  datatype WithdrawOutcome =
    | InvalidAmount
    | Withdrawn(amount: int)
    | WithdrawRefused(message: string)

  /** `parseInt(value) || 0`: an unreadable input (None) and 0 both read as 0. */
  function ParsedAmount(input: Option<int>): int {
    input.GetOr(0)
  }

  /** The withdraw guard: below the minimum or above the points balance is refused. */
  predicate WithdrawRejected(b: Balance, amount: int) {
    amount < b.minPointWithdraw || amount > b.points
  }

  /** `config.ownerName || null`: an empty owner name counts as no owner. */
  function OwnerShown(ownerName: Option<string>): (r: Option<string>)
    ensures r.Some? ==> r == ownerName && r.value != ""
    ensures r.None? ==> ownerName.None? || ownerName.value == ""
  {
    if ownerName.Some? && ownerName.value != "" then ownerName else None
  }

  class MarketApp {
    var isOpen: bool
    var config: Option<MarketConfig>
    var balance: Balance
    var cart: seq<CartLine>
    var paymentMethod: PayMethod
    var selectedCategory: Option<string>
    var searchQuery: string
    var dailyDiscountItemId: Option<string>
    var marketOwner: Option<string>

    /**
     * The cart has lines only once a market is open, never two lines for one
     * item, and never a line with fewer than one unit.
     */
    ghost predicate Valid()
      reads this
    {
      (cart != [] ==> config.Some?) && DistinctIds(cart) && PositiveQuantities(cart)
    }

    /** The page's initial state. */
    constructor ()
      ensures Valid()
      ensures !isOpen && config == None && cart == [] && paymentMethod == Cash
      ensures balance == Balance(0, 0, 0, 500)
      ensures selectedCategory == None && searchQuery == "" && dailyDiscountItemId == None && marketOwner == None
    {
      isOpen := false;
      config := None;
      balance := Balance(0, 0, 0, 500);
      cart := [];
      paymentMethod := Cash;
      selectedCategory := None;
      searchQuery := "";
      dailyDiscountItemId := None;
      marketOwner := None;
    }

    /** The items of the open market. */
    function Items(): seq<Item>
      reads this
    {
      if config.Some? then config.value.items else []
    }

    /** The total of the cart at effective prices. */
    function Total(): int
      reads this
    {
      CartTotal(Items(), dailyDiscountItemId, cart)
    }

    /** The purchase button is enabled: the cart is not empty and the chosen method covers the total. */
    predicate PurchaseEnabled()
      reads this
    {
      cart != [] && CanAfford(balance, Total(), paymentMethod)
    }

    /** Add one unit of `id`: increment its line, or append a line with one unit. */
    method AddToCart(id: string)
      requires Valid() && config.Some?
      modifies this`cart
      ensures Valid()
      ensures var i := LineIndex(old(cart), id);
              if i >= 0 then cart == old(cart)[i := CartLine(id, old(cart)[i].quantity + 1)]
              else cart == old(cart) + [CartLine(id, 1)]
      ensures |cart| == |old(cart)| || |cart| == |old(cart)| + 1
      ensures TotalItems(cart) == TotalItems(old(cart)) + 1
    {
      var i := LineIndex(cart, id);
      if i >= 0 {
        TotalItemsUpdate(cart, i, CartLine(id, cart[i].quantity + 1));
        cart := cart[i := CartLine(id, cart[i].quantity + 1)];
      } else {
        TotalItemsAppend(cart, CartLine(id, 1));
        cart := cart + [CartLine(id, 1)];
      }
    }

    /** Drop every line of `id`, keeping the other lines in order. */
    method RemoveFromCart(id: string)
      requires Valid()
      modifies this`cart
      ensures Valid()
      ensures cart == Without(old(cart), id)
      ensures LineIndex(old(cart), id) < 0 ==> cart == old(cart)
      ensures var i := LineIndex(old(cart), id); i >= 0 ==> cart == old(cart)[..i] + old(cart)[i + 1..]
    {
      var i := LineIndex(cart, id);
      if i < 0 { WithoutAbsent(cart, id); } else { WithoutSplices(cart, id, i); }
      WithoutKeepsInvariants(cart, id);
      cart := Without(cart, id);
    }

    /**
     * Add `delta` units to the line of `id`; a line left with no units is
     * removed; an item not in the cart is ignored.
     */
    method UpdateQuantity(id: string, delta: int)
      requires Valid()
      modifies this`cart
      ensures Valid()
      ensures var i := LineIndex(old(cart), id);
              if i < 0 then cart == old(cart)
              else if old(cart)[i].quantity + delta <= 0 then cart == old(cart)[..i] + old(cart)[i + 1..]
              else cart == old(cart)[i := CartLine(id, old(cart)[i].quantity + delta)]
      ensures LineIndex(old(cart), id) >= 0 ==>
                TotalItems(cart) == TotalItems(old(cart)) + (if old(cart)[LineIndex(old(cart), id)].quantity + delta <= 0
                                                             then -old(cart)[LineIndex(old(cart), id)].quantity else delta)
    {
      var i := LineIndex(cart, id);
      if i < 0 {
        return;
      }
      var q := cart[i].quantity + delta;
      ghost var before := cart;
      TotalItemsUpdate(cart, i, CartLine(id, q));
      cart := cart[i := CartLine(id, q)];
      if q <= 0 {
        WithoutIgnoresQuantity(before, id, i, q);
        WithoutSplices(before, id, i);
        SpliceKeepsInvariants(before, i);
        TotalItemsSplice(before, i);
        cart := Without(cart, id);
      } else {
        SetKeepsInvariants(before, i, q);
      }
    }

    /** Empty the cart. */
    method ClearCart()
      requires Valid()
      modifies this`cart
      ensures Valid() && cart == []
    {
      cart := [];
    }

    /** Choose the payment method (the cash and bank buttons). */
    method SelectPayment(m: PayMethod)
      requires Valid()
      modifies this`paymentMethod
      ensures Valid() && paymentMethod == m
    {
      paymentMethod := m;
    }

    /**
     * Buy the cart. An empty cart does nothing. Inside the host the cart is
     * emptied only on a successful reply and the local balance is left to the
     * host's next update. Standalone, the total is taken from the chosen method,
     * 5% of it is credited as points and the cart is emptied; this path does
     * not re-check affordability, it relies on the purchase button being
     * disabled, and from an enabled button no balance goes negative.
     */
    method HandlePurchase(host: Host) returns (outcome: PurchaseOutcome)
      requires Valid()
      modifies this`balance, this`cart
      ensures Valid()
      ensures old(cart) == [] ==> outcome == NothingToBuy && cart == old(cart) && balance == old(balance)
      ensures old(cart) != [] && host.Standalone? ==>
                && outcome == Bought(old(Total()), PointsEarned(old(Total())))
                && cart == []
                && balance == Debit(old(balance), paymentMethod, old(Total())).(points := old(balance).points + PointsEarned(old(Total())))
      ensures old(cart) != [] && host.Hosted? && host.reply.success ==>
                outcome == Bought(old(Total()), PointsEarned(old(Total()))) && cart == [] && balance == old(balance)
      ensures old(cart) != [] && host.Hosted? && !host.reply.success ==>
                outcome == PurchaseRefused(FailureText(host.reply, "Satın alma başarısız!"))
                && cart == old(cart) && balance == old(balance)
      ensures old(PurchaseEnabled()) && NonNegative(old(balance)) && PricesNonNegative(Items()) ==> NonNegative(balance)
    {
      if cart == [] {
        return NothingToBuy;
      }
      var totalPrice := CartTotal(config.value.items, dailyDiscountItemId, cart);
      if PricesNonNegative(config.value.items) {
        CartTotalBounds(config.value.items, dailyDiscountItemId, cart);
      }
      var pointsEarned := PointsEarned(totalPrice);
      match host {
        case Hosted(reply) =>
          if reply.success {
            cart := [];
            outcome := Bought(totalPrice, pointsEarned);
          } else {
            outcome := PurchaseRefused(FailureText(reply, "Satın alma başarısız!"));
          }
        case Standalone =>
          if paymentMethod == Cash {
            balance := balance.(cash := balance.cash - totalPrice);
          } else {
            balance := balance.(bank := balance.bank - totalPrice);
          }
          balance := balance.(points := balance.points + pointsEarned);
          cart := [];
          outcome := Bought(totalPrice, pointsEarned);
      }
    }

    /**
     * Withdraw points to the bank. An amount below the minimum or above the
     * points balance is refused and nothing changes. Inside the host the move
     * is the host's; standalone, points and bank change together, so their
     * sum is kept and points stay non-negative.
     */
    method HandleWithdraw(input: Option<int>, host: Host) returns (outcome: WithdrawOutcome)
      requires Valid()
      modifies this`balance
      ensures Valid()
      ensures var amount := ParsedAmount(input);
              WithdrawRejected(old(balance), amount) ==> outcome == InvalidAmount && balance == old(balance)
      ensures var amount := ParsedAmount(input);
              !WithdrawRejected(old(balance), amount) && host.Hosted? ==>
                balance == old(balance)
                && outcome == (if host.reply.success then Withdrawn(amount)
                               else WithdrawRefused(FailureText(host.reply, "İşlem başarısız!")))
      ensures var amount := ParsedAmount(input);
              !WithdrawRejected(old(balance), amount) && host.Standalone? ==>
                && outcome == Withdrawn(amount)
                && balance == old(balance).(points := old(balance).points - amount, bank := old(balance).bank + amount)
      ensures balance.points + balance.bank == old(balance).points + old(balance).bank
      ensures balance.cash == old(balance).cash && balance.minPointWithdraw == old(balance).minPointWithdraw
      ensures old(balance).points >= 0 ==> balance.points >= 0
      ensures old(balance).minPointWithdraw >= 0 && NonNegative(old(balance)) ==> NonNegative(balance)
    {
      var amount := ParsedAmount(input);
      if amount < balance.minPointWithdraw || amount > balance.points {
        return InvalidAmount;
      }
      match host {
        case Hosted(reply) =>
          outcome := if reply.success then Withdrawn(amount) else WithdrawRefused(FailureText(reply, "İşlem başarısız!"));
        case Standalone =>
          balance := balance.(points := balance.points - amount);
          balance := balance.(bank := balance.bank + amount);
          outcome := Withdrawn(amount);
      }
    }

    /**
     * Open a market sent by the host. The balance is replaced, the cart
     * emptied, cash selected, the search cleared; the first category becomes
     * the selected one and the item at the drawn index `pick` becomes the
     * discounted item. With no categories, or no items, the previous selection,
     * or discount, is kept.
     */
    method OpenMarket(data: MarketConfig, newBalance: Balance, pick: nat)
      requires |data.items| == 0 || pick < |data.items|
      modifies this
      ensures Valid()
      ensures isOpen && config == Some(data) && balance == newBalance
      ensures marketOwner == OwnerShown(data.ownerName)
      ensures cart == [] && paymentMethod == Cash && searchQuery == ""
      ensures selectedCategory == if |data.categories| > 0 then Some(data.categories[0].id) else old(selectedCategory)
      ensures dailyDiscountItemId == if |data.items| > 0 then Some(data.items[pick].id) else old(dailyDiscountItemId)
      ensures |data.items| > 0 ==> exists i :: 0 <= i < |data.items| && dailyDiscountItemId == Some(data.items[i].id)
    {
      isOpen := true;
      config := Some(data);
      balance := newBalance;
      marketOwner := OwnerShown(data.ownerName);
      cart := [];
      paymentMethod := Cash;
      searchQuery := "";
      if |data.categories| > 0 {
        selectedCategory := Some(data.categories[0].id);
      }
      if |data.items| > 0 {
        dailyDiscountItemId := Some(data.items[pick].id);
      }
    }

    /** Hide the page (the host is told separately). */
    method CloseMarket()
      requires Valid()
      modifies this`isOpen
      ensures Valid() && !isOpen
    {
      isOpen := false;
    }

    /** The host's `updateBalance` message: `{ ...balance, ...update }`. */
    method UpdateBalance(update: BalanceUpdate)
      requires Valid()
      modifies this`balance
      ensures Valid() && balance == Overlay(old(balance), update)
    {
      balance := Overlay(balance, update);
    }

    /** The host's `updateOwner` message: the shown owner becomes the one sent, even when absent. */
    method UpdateOwner(ownerName: Option<string>)
      requires Valid()
      modifies this`marketOwner
      ensures Valid() && marketOwner == ownerName
    {
      marketOwner := ownerName;
    }
  }
}
