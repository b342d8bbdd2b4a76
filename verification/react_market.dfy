/**
 * The market hook of the React storefront (src/hooks/useMarket.ts): the open
 * market, the balance, the selected category and the shown owner, updated by
 * host messages and by the standalone ("demo") purchase and transfer paths.
 * Each transition is a function from the previous state to the next.
 */
module ReactMarket {
  import opened Base
  import opened Catalog
  import opened Economy
  import opened HostBridge

  datatype MarketState = MarketState(
    isOpen: bool,
    config: MarketConfig,
    balance: Balance,
    selectedCategory: string,
    marketOwner: Option<string>)

  /** The `data` of an `openMarket` message; a list field that is not an array is None. */
  datatype OpenMarketData = OpenMarketData(
    marketId: string,
    name: string,
    ownerId: Option<string>,
    ownerName: Option<string>,
    categories: Option<seq<Category>>,
    items: Option<seq<Item>>,
    balance: BalanceUpdate)

  /** The host's messages; `Ignored` stands for any action this hook does not handle. */
  datatype HostMessage =
    | OpenMarketMsg(data: OpenMarketData)
    | UpdateBalanceMsg(update: BalanceUpdate)
    | UpdateOwnerMsg(ownerId: Option<string>, ownerName: Option<string>)
    | CloseMarketMsg
    | Ignored

  /**
   * `incoming.x ?? prev.x` for cash, bank and points; the minimum withdraw
   * is never taken from the host.
   */
  function MergeBalance(prev: Balance, incoming: BalanceUpdate): (r: Balance)
    ensures r.minPointWithdraw == prev.minPointWithdraw
    ensures r == Overlay(prev, incoming.(minPointWithdraw := None))
  {
    prev.(cash := incoming.cash.GetOr(prev.cash),
          bank := incoming.bank.GetOr(prev.bank),
          points := incoming.points.GetOr(prev.points))
  }

  /** The message handler, before React's effect runs. */
  function OnMessage(s: MarketState, msg: HostMessage): MarketState {
    match msg
    case OpenMarketMsg(d) =>
      var config := MarketConfig(d.marketId, d.name, d.categories.GetOr([]), d.items.GetOr([]), d.ownerId, d.ownerName);
      MarketState(true, config, MergeBalance(s.balance, d.balance), FirstCategoryId(config.categories), config.ownerName)
    case UpdateBalanceMsg(u) =>
      s.(balance := MergeBalance(s.balance, u))
    case UpdateOwnerMsg(ownerId, ownerName) =>
      s.(config := s.config.(ownerId := if ownerId.Some? then ownerId else s.config.ownerId,
                             ownerName := if ownerName.Some? then ownerName else s.config.ownerName),
         marketOwner := ownerName)
    case CloseMarketMsg =>
      s.(isOpen := false)
    case Ignored =>
      s
  }

  /**
   * The effect that follows a change of configuration (useMarket.ts lines 85-90): pick
   * the first category when none is selected, and show the configured owner.
   */
  function Settle(s: MarketState): MarketState {
    s.(selectedCategory := if |s.config.categories| > 0 && s.selectedCategory == "" then s.config.categories[0].id
                           else s.selectedCategory,
       marketOwner := s.config.ownerName)
  }

  /** A state the effect no longer changes. */
  predicate Settled(s: MarketState) {
    Settle(s) == s
  }

  /** A host message as the page ends up with it: the effect runs when the configuration was replaced. */
  function Dispatch(s: MarketState, msg: HostMessage): MarketState {
    var next := OnMessage(s, msg);
    if msg.OpenMarketMsg? || msg.UpdateOwnerMsg? then Settle(next) else next
  }

  /** The effect reaches a settled state in one step. */
  lemma SettleSettles(s: MarketState)
    ensures Settled(Settle(s))
    ensures Settle(s).marketOwner == s.config.ownerName
    ensures Settle(s).config == s.config && Settle(s).balance == s.balance && Settle(s).isOpen == s.isOpen
  {
  }

  /**
   * `openMarket`: non-array lists become empty, the first category (or '') is
   * selected, the owner comes from the message, the market is open, and
   * cash, bank and points take the values sent, keeping the previous value
   * for each one that is missing.
   */
  lemma OpenMarketSpec(s: MarketState, d: OpenMarketData)
    ensures var r := Dispatch(s, OpenMarketMsg(d));
            && r.isOpen
            && r.config.categories == (if d.categories.Some? then d.categories.value else [])
            && r.config.items == (if d.items.Some? then d.items.value else [])
            && r.config.ownerId == d.ownerId && r.config.ownerName == d.ownerName
            && r.selectedCategory == (if r.config.categories == [] then "" else r.config.categories[0].id)
            && r.marketOwner == d.ownerName
            && r.balance.cash == (if d.balance.cash.Some? then d.balance.cash.value else s.balance.cash)
            && r.balance.bank == (if d.balance.bank.Some? then d.balance.bank.value else s.balance.bank)
            && r.balance.points == (if d.balance.points.Some? then d.balance.points.value else s.balance.points)
            && r.balance.minPointWithdraw == s.balance.minPointWithdraw
            && Settled(r)
  {
  }

  /** `updateBalance` merges the sent fields and touches nothing but the balance. */
  lemma UpdateBalanceSpec(s: MarketState, u: BalanceUpdate)
    ensures var r := Dispatch(s, UpdateBalanceMsg(u));
            && r == s.(balance := r.balance)
            && r.balance.cash == (if u.cash.Some? then u.cash.value else s.balance.cash)
            && r.balance.bank == (if u.bank.Some? then u.bank.value else s.balance.bank)
            && r.balance.points == (if u.points.Some? then u.points.value else s.balance.points)
            && r.balance.minPointWithdraw == s.balance.minPointWithdraw
  {
  }

  /**
   * `updateOwner` keeps the previous id and name for a missing field. The
   * handler shows the name sent, even a missing one, but the effect that
   * follows shows the configured owner again, so a missing name leaves the
   * shown owner as it was in a settled state.
   */
  lemma UpdateOwnerSpec(s: MarketState, ownerId: Option<string>, ownerName: Option<string>)
    requires Settled(s)
    ensures var r := Dispatch(s, UpdateOwnerMsg(ownerId, ownerName));
            && r.config == s.config.(ownerId := r.config.ownerId, ownerName := r.config.ownerName)
            && r.config.ownerId == (if ownerId.Some? then ownerId else s.config.ownerId)
            && r.config.ownerName == (if ownerName.Some? then ownerName else s.config.ownerName)
            && r.marketOwner == r.config.ownerName
            && (ownerName.None? ==> r.marketOwner == s.marketOwner)
            && r.balance == s.balance && r.isOpen == s.isOpen && r.selectedCategory == s.selectedCategory
  {
  }

  /** Every message leads from a settled state to a settled state. */
  lemma DispatchKeepsSettled(s: MarketState, msg: HostMessage)
    requires Settled(s)
    ensures Settled(Dispatch(s, msg))
  {
    match msg
    case OpenMarketMsg(_) => SettleSettles(OnMessage(s, msg));
    case UpdateOwnerMsg(_, _) => SettleSettles(OnMessage(s, msg));
    case UpdateBalanceMsg(_) =>
    case CloseMarketMsg =>
    case Ignored =>
  }

  /**
   * `openMarket(marketId)` in the web preview: a known market becomes the
   * open one with its first category selected; an unknown id changes nothing.
   */
  function OpenDemoMarket(s: MarketState, markets: map<string, MarketConfig>, marketId: string): (r: MarketState)
    ensures marketId !in markets ==> r == s
    ensures marketId in markets ==>
              && r.isOpen && r.config == markets[marketId]
              && r.selectedCategory == FirstCategoryId(markets[marketId].categories)
              && r.marketOwner == markets[marketId].ownerName
              && r.balance == s.balance
              && Settled(r)
  {
    if marketId in markets then
      var c := markets[marketId];
      Settle(s.(config := c, selectedCategory := FirstCategoryId(c.categories), isOpen := true))
    else s
  }

  datatype PurchaseResult = PurchaseResult(ok: bool, state: MarketState)

  /**
   * `handlePurchase`. Inside the host the answer is the host's and nothing
   * changes here. Standalone, a total the chosen method cannot cover is
   * refused; otherwise it is taken from that method only.
   */
  function HandlePurchase(s: MarketState, host: Host, m: PayMethod, totalPrice: int): PurchaseResult {
    match host
    case Hosted(reply) => PurchaseResult(reply.success, s)
    case Standalone =>
      if !CanAfford(s.balance, totalPrice, m) then PurchaseResult(false, s)
      else PurchaseResult(true, s.(balance := Debit(s.balance, m, totalPrice)))
  }

  /**
   * A refused standalone purchase leaves the state as it was; an accepted one
   * changes only the chosen method's funds, by exactly the total, and leaves
   * them non-negative.
   */
  lemma DemoPurchaseSpec(s: MarketState, m: PayMethod, totalPrice: int)
    ensures var r := HandlePurchase(s, Standalone, m, totalPrice);
            && (r.ok <==> Funds(s.balance, m) >= totalPrice)
            && (!r.ok ==> r.state == s)
            && (r.ok ==> && r.state == s.(balance := r.state.balance)
                         && Funds(r.state.balance, m) == Funds(s.balance, m) - totalPrice
                         && Funds(r.state.balance, m) >= 0
                         && (forall other: PayMethod :: other != m ==> Funds(r.state.balance, other) == Funds(s.balance, other))
                         && r.state.balance.points == s.balance.points)
            && (NonNegative(s.balance) ==> NonNegative(r.state.balance))
  {
    if NonNegative(s.balance) && CanAfford(s.balance, totalPrice, m) {
      AffordableDebitKeepsNonNegative(s.balance, m, totalPrice);
    }
  }

  /**
   * The `closeMarket` callback: after the host has been told (not modelled),
   * the market closes. Its effect on the state is the `closeMarket` message's.
   */
  function CloseMarket(s: MarketState): (r: MarketState)
    ensures !r.isOpen
    ensures r.(isOpen := s.isOpen) == s
    ensures r == OnMessage(s, CloseMarketMsg)
  {
    s.(isOpen := false)
  }

  /**
   * `transferMarket`. Standalone, the owner id and name become the ones given
   * and nothing else in the configuration changes; inside the host the
   * change arrives later as an `updateOwner` message.
   */
  function TransferMarket(s: MarketState, host: Host, newOwnerId: string, newOwnerName: string): (r: MarketState)
    ensures host.Hosted? ==> r == s
    ensures host.Standalone? ==>
              && r.config == s.config.(ownerId := Some(newOwnerId), ownerName := Some(newOwnerName))
              && r.marketOwner == Some(newOwnerName)
              && r.balance == s.balance && r.selectedCategory == s.selectedCategory && r.isOpen == s.isOpen
  {
    match host
    case Hosted(_) => s
    case Standalone =>
      s.(config := s.config.(ownerId := Some(newOwnerId), ownerName := Some(newOwnerName)),
         marketOwner := Some(newOwnerName))
  }

  /** `config.items.filter(item => item.category === selectedCategory)`. */
  function FilteredItems(items: seq<Item>, category: string): (r: seq<Item>)
    ensures |r| <= |items|
  {
    if items == [] then []
    else
      var last := items[|items| - 1];
      FilteredItems(items[..|items| - 1], category) + (if last.category == category then [last] else [])
  }

  /** The filter keeps exactly the items of the category. */
  lemma {:induction false} FilteredItemsMembers(items: seq<Item>, category: string)
    ensures forall x :: x in FilteredItems(items, category) <==> x in items && x.category == category
  {
    if items != [] {
      var n := |items| - 1;
      FilteredItemsMembers(items[..n], category);
      assert items == items[..n] + [items[n]];
    }
  }

  /**
   * Filtering distributes over concatenation: the kept items appear in the
   * order they have in the catalog.
   */
  lemma {:induction false} FilteredItemsAppend(a: seq<Item>, b: seq<Item>, category: string)
    ensures FilteredItems(a + b, category) == FilteredItems(a, category) + FilteredItems(b, category)
  {
    if b == [] {
      assert a + b == a;
    } else {
      var n := |b| - 1;
      var ab := a + b;
      var tail := if b[n].category == category then [b[n]] else [];
      FilteredItemsAppend(a, b[..n], category);
      assert ab[..|ab| - 1] == a + b[..n];
      assert ab[|ab| - 1] == b[n];
      calc {
        FilteredItems(ab, category);
        FilteredItems(a + b[..n], category) + tail;
        FilteredItems(a, category) + FilteredItems(b[..n], category) + tail;
        FilteredItems(a, category) + (FilteredItems(b[..n], category) + tail);
        FilteredItems(a, category) + FilteredItems(b, category);
      }
    }
  }
}
