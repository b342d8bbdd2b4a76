/**
 * The points withdrawal panel (src/components/market/PointsPanel.tsx): the
 * amount the player picks or types, the rule that enables the withdraw
 * button, and the preset amounts offered.
 */
module PointsPanel {
  import opened Base
  import opened Economy
  import VanillaMarket

  /** `canWithdraw`: the amount lies between the minimum and the points held. */
  predicate CanWithdraw(points: int, minWithdraw: int, amount: int) {
    points >= minWithdraw && amount >= minWithdraw && amount <= points
  }

  /**
   * The first conjunct is implied by the other two: the button is enabled
   * exactly when the amount is in the range min..points, which is exactly when
   * the vanilla app's guard lets the same amount through.
   */
  lemma CanWithdrawRange(b: Balance, amount: int)
    ensures CanWithdraw(b.points, b.minPointWithdraw, amount) <==> b.minPointWithdraw <= amount <= b.points
    ensures CanWithdraw(b.points, b.minPointWithdraw, amount) <==> !VanillaMarket.WithdrawRejected(b, amount)
  {
  }

  /** `handleWithdraw`: the amount handed to `onWithdraw`, if the button's rule allows it. */
  function HandleWithdraw(points: int, minWithdraw: int, amount: int): (r: Option<int>)
    ensures r.Some? <==> CanWithdraw(points, minWithdraw, amount)
    ensures r.Some? ==> r.value == amount && minWithdraw <= r.value <= points
  {
    if CanWithdraw(points, minWithdraw, amount) then Some(amount) else None
  }

  /** Every amount the panel hands on is one the vanilla app's withdraw guard accepts. */
  lemma HandleWithdrawAccepted(b: Balance, amount: int)
    requires HandleWithdraw(b.points, b.minPointWithdraw, amount).Some?
    ensures !VanillaMarket.WithdrawRejected(b, HandleWithdraw(b.points, b.minPointWithdraw, amount).value)
  {
  }

  const Presets: seq<int> := [100, 250, 500, 1000]

  /** The values of `s` that are at most `points`, in order. */
  function AtMost(s: seq<int>, points: int): (r: seq<int>)
    ensures |r| <= |s|
  {
    if s == [] then []
    else AtMost(s[..|s| - 1], points) + (if s[|s| - 1] <= points then [s[|s| - 1]] else [])
  }

  /** `presetAmounts`: the presets the player can afford. */
  function PresetAmounts(points: int): seq<int> {
    AtMost(Presets, points)
  }

  /** The filter keeps exactly the values at most `points`. */
  lemma {:induction false} AtMostMembers(s: seq<int>, points: int)
    ensures forall x :: x in AtMost(s, points) <==> x in s && x <= points
  {
    if s != [] {
      var n := |s| - 1;
      AtMostMembers(s[..n], points);
      assert s == s[..n] + [s[n]];
    }
  }

  /** Filtering an ascending list keeps a prefix of it. */
  lemma {:induction false} AtMostPrefix(s: seq<int>, points: int)
    requires forall i, j :: 0 <= i < j < |s| ==> s[i] < s[j]
    ensures AtMost(s, points) == s[..|AtMost(s, points)|]
    ensures |AtMost(s, points)| < |s| ==> s[|AtMost(s, points)|] > points
  {
    if s != [] {
      var n := |s| - 1;
      AtMostPrefix(s[..n], points);
      var k := |AtMost(s[..n], points)|;
      if s[n] <= points {
        assert s[..n][..k] + [s[n]] == s[..n + 1];
      } else {
        assert s[..n][..k] == s[..k];
      }
    }
  }

  /**
   * The preset buttons are the affordable presets, smallest first: a prefix of
   * 100, 250, 500, 1000 that stops before the first preset above the points.
   */
  lemma PresetAmountsSpec(points: int)
    ensures forall x :: x in PresetAmounts(points) <==> x in Presets && x <= points
    ensures PresetAmounts(points) == Presets[..|PresetAmounts(points)|]
    ensures |PresetAmounts(points)| < |Presets| ==> Presets[|PresetAmounts(points)|] > points
  {
    AtMostMembers(Presets, points);
    AtMostPrefix(Presets, points);
  }

  /** The amount input: `Math.max(0, parseInt(value) || 0)`, where an unparsable value is `None`. */
  function ClampedInput(parsed: Option<int>): (r: int)
    ensures r >= 0
    ensures parsed.Some? && parsed.value >= 0 ==> r == parsed.value
    ensures parsed.None? || parsed.value <= 0 ==> r == 0
  {
    var v := parsed.GetOr(0);
    if v > 0 then v else 0
  }

  /** What the player can do to the amount. */
  datatype AmountAction = PickPreset(amount: int) | PickAll | Typed(parsed: Option<int>)

  /** The panel's amount after an action; it starts at the minimum. */
  function NextAmount(points: int, action: AmountAction): int {
    match action
    case PickPreset(a) => a
    case PickAll => points
    case Typed(p) => ClampedInput(p)
  }

  /**
   * Starting at the minimum, picking "Tümü" (all points) or picking a preset
   * button: each enables the button exactly when the points reach the minimum
   * (for a preset, when it also reaches the minimum).
   */
  lemma AmountActionsSpec(points: int, minWithdraw: int, a: int)
    ensures CanWithdraw(points, minWithdraw, minWithdraw) <==> points >= minWithdraw
    ensures CanWithdraw(points, minWithdraw, NextAmount(points, PickAll)) <==> points >= minWithdraw
    ensures a in PresetAmounts(points) ==>
              (CanWithdraw(points, minWithdraw, NextAmount(points, PickPreset(a))) <==> a >= minWithdraw)
  {
    AtMostMembers(Presets, points);
  }
}
