/**
 * The player's wallet: cash and bank balances, loyalty points and the
 * minimum number of points that may be withdrawn to the bank at once.
 */
module Economy {
  import opened Base

  datatype PayMethod = Cash | Bank

  datatype Balance = Balance(cash: int, bank: int, points: int, minPointWithdraw: int)

  /** A balance as the host sends it: any field may be missing. */
  datatype BalanceUpdate = BalanceUpdate(
    cash: Option<int>,
    bank: Option<int>,
    points: Option<int>,
    minPointWithdraw: Option<int>)

  /** The money available to method `m`: `balance[m]`. */
  function Funds(b: Balance, m: PayMethod): int {
    match m
    case Cash => b.cash
    case Bank => b.bank
  }

  /** `paymentMethod === 'cash' ? balance.cash >= amount : balance.bank >= amount`. */
  predicate CanAfford(b: Balance, amount: int, m: PayMethod)
    ensures CanAfford(b, amount, m) <==> Funds(b, m) >= amount
  {
    if m == Cash then b.cash >= amount else b.bank >= amount
  }

  /** `balance[m] -= amount`: only the chosen method's field changes. */
  function Debit(b: Balance, m: PayMethod, amount: int): (r: Balance)
    ensures Funds(r, m) == Funds(b, m) - amount
    ensures forall other: PayMethod :: other != m ==> Funds(r, other) == Funds(b, other)
    ensures r.points == b.points && r.minPointWithdraw == b.minPointWithdraw
  {
    match m
    case Cash => b.(cash := b.cash - amount)
    case Bank => b.(bank := b.bank - amount)
  }

  predicate NonNegative(b: Balance) {
    b.cash >= 0 && b.bank >= 0 && b.points >= 0
  }

  /** A debit that passed the affordability check leaves every field non-negative. */
  lemma AffordableDebitKeepsNonNegative(b: Balance, m: PayMethod, amount: int)
    requires NonNegative(b) && CanAfford(b, amount, m)
    ensures NonNegative(Debit(b, m, amount))
    ensures Funds(Debit(b, m, amount), m) >= 0
  {
  }

  /**
   * `{ ...b, ...u }`: every field the update carries replaces the current one,
   * every missing field keeps its current value.
   */
  function Overlay(b: Balance, u: BalanceUpdate): (r: Balance)
    ensures r.cash == (if u.cash.Some? then u.cash.value else b.cash)
    ensures r.bank == (if u.bank.Some? then u.bank.value else b.bank)
    ensures r.points == (if u.points.Some? then u.points.value else b.points)
    ensures r.minPointWithdraw == (if u.minPointWithdraw.Some? then u.minPointWithdraw.value else b.minPointWithdraw)
  {
    Balance(u.cash.GetOr(b.cash), u.bank.GetOr(b.bank), u.points.GetOr(b.points),
            u.minPointWithdraw.GetOr(b.minPointWithdraw))
  }

  /** An update that carries every field replaces the balance outright. */
  lemma OverlayComplete(b: Balance, u: BalanceUpdate)
    requires u.cash.Some? && u.bank.Some? && u.points.Some? && u.minPointWithdraw.Some?
    ensures Overlay(b, u) == Balance(u.cash.value, u.bank.value, u.points.value, u.minPointWithdraw.value)
  {
  }

  /** Overlaying the same update twice is the same as overlaying it once. */
  lemma OverlayIdempotent(b: Balance, u: BalanceUpdate)
    ensures Overlay(Overlay(b, u), u) == Overlay(b, u)
  {
  }
}
