/** One asset-class ledger entry: its amount, its monthly SIP and its fixed allocation ratio. */
module Assets {
  import opened Results
  import opened AssetTypes

  /** Allocation ratios are never negative (checked by the constructor). */
  type Ratio = r: real | r >= 0.0

  /** `PortfolioConstants.MIN_ROI`: an ROI below -100% is refused. */
  const MinRoi: real := -1.0

  const NegativeAmountMessage := "Initial amount cannot be negative"
  const NegativeRatioMessage := "Allocation ratio cannot be negative"
  const NegativeSipMessage := "SIP amount cannot be negative"
  const RoiTooLowMessage := "ROI < -100% not allowed"
  const NegativeUpdateMessage := "Asset amount cannot be negative"

  /** The value of an Asset object: the amount only ever holds whole, non-negative
      numbers (ints, int SIPs added to it, floored products clamped at 0), and so
      does the SIP (set only from a non-negative int). */
  datatype Holding = Holding(kind: AssetType, amount: nat, sip: nat, ratio: Ratio)

  /** The checks of the constructor, in the order it makes them. */
  function CheckNew(amount: int, ratio: real): (r: Outcome)
    ensures r.Pass? <==> amount >= 0 && ratio >= 0.0
    ensures amount < 0 ==> r == Fail(IllegalArgument(NegativeAmountMessage))
    ensures amount >= 0 && ratio < 0.0 ==> r == Fail(IllegalArgument(NegativeRatioMessage))
  {
    if amount < 0 then Fail(IllegalArgument(NegativeAmountMessage))
    else if ratio < 0.0 then Fail(IllegalArgument(NegativeRatioMessage))
    else Pass
  }

  /** The amount after one month's ROI: `floor(amount * (1 + roi))`, clamped at 0.
      The clamp never fires under exact arithmetic, since roi >= -1. */
  function RoiAmount(amount: nat, roi: real): nat
    requires roi >= MinRoi
  {
    var raw := (amount as real * (1.0 + roi)).Floor;
    if raw < 0 then 0 else raw
  }

  /** The new amount is the exact product rounded down; a zero ROI keeps the
      amount, a gain never lowers it and a loss never raises it. */
  lemma RoiAmountBounds(amount: nat, roi: real)
    requires roi >= MinRoi
    ensures var r := RoiAmount(amount, roi);
      && r as real <= amount as real * (1.0 + roi) < r as real + 1.0
      && (roi == 0.0 ==> r == amount)
      && (roi >= 0.0 ==> r >= amount)
      && (roi <= 0.0 ==> r <= amount)
  {
    var a := amount as real;
    var x := a * (1.0 + roi);
    ScaleSign(a, 1.0 + roi);
    assert x == a + a * roi;
    ScaleSign(a, roi);
    ScaleSign(a, -roi);
    assert a * -roi == -(a * roi);
  }

  /** Multiplying by a non-negative amount keeps the sign of the factor. */
  lemma ScaleSign(a: real, x: real)
    requires a >= 0.0
    ensures x >= 0.0 ==> a * x >= 0.0
  {
  }

  /** `investSip()` on the value: the SIP is added to the amount. */
  function Invest(h: Holding): (r: Holding)
    ensures r.amount == h.amount + h.sip
    ensures r.(amount := h.amount) == h
  {
    h.(amount := h.amount + h.sip)
  }

  /** `applyMonthlyROI(roi)` on the value, for an accepted roi. */
  function WithRoi(h: Holding, roi: real): (r: Holding)
    requires roi >= MinRoi
    ensures r.(amount := h.amount) == h
  {
    h.(amount := RoiAmount(h.amount, roi))
  }

  /** k consecutive `investSip()` calls. */
  function InvestTimes(h: Holding, k: nat): Holding {
    if k == 0 then h else Invest(InvestTimes(h, k - 1))
  }

  /** k SIP investments add k times the SIP and change nothing else. */
  lemma {:induction false} InvestTimesAddsMultiple(h: Holding, k: nat)
    ensures InvestTimes(h, k).amount == h.amount + k * h.sip
    ensures InvestTimes(h, k).(amount := h.amount) == h
  {
    if k > 0 {
      InvestTimesAddsMultiple(h, k - 1);
    }
  }

  class Asset {
    const assetType: AssetType
    var amount: nat
    var sipAmount: nat
    const allocationRatio: Ratio

    /** The object's current value. */
    function View(): Holding
      reads this
    {
      Holding(assetType, amount, sipAmount, allocationRatio)
    }

    /** The constructor once its checks have passed; the SIP starts at 0. */
    constructor (t: AssetType, initialAmount: nat, ratio: Ratio)
      ensures View() == Holding(t, initialAmount, 0, ratio)
    {
      assetType := t;
      amount := initialAmount;
      sipAmount := 0;
      allocationRatio := ratio;
    }

    /** `new Asset(type, amount, allocationRatio)`, which throws on a negative amount
        or ratio. */
    static method Create(t: AssetType, initialAmount: int, ratio: real) returns (r: Result<Asset>)
      ensures r.Failure? <==> CheckNew(initialAmount, ratio).Fail?
      ensures r.Failure? ==> Fail(r.error) == CheckNew(initialAmount, ratio)
      ensures r.Success? ==> fresh(r.value) && initialAmount >= 0 && ratio >= 0.0
                             && r.value.View() == Holding(t, initialAmount, 0, ratio)
    {
      var check := CheckNew(initialAmount, ratio);
      if check.Fail? {
        return Failure(check.error);
      }
      var a := new Asset(t, initialAmount, ratio);
      return Success(a);
    }

    /** `setSipAmount(sip)`: refuses a negative SIP, otherwise sets it exactly. */
    method SetSipAmount(sip: int) returns (r: Outcome)
      modifies this
      ensures sip < 0 ==> r == Fail(IllegalArgument(NegativeSipMessage)) && View() == old(View())
      ensures sip >= 0 ==> r == Pass && View() == old(View()).(sip := sip)
    {
      if sip < 0 {
        return Fail(IllegalArgument(NegativeSipMessage));
      }
      sipAmount := sip;
      return Pass;
    }

    /** `investSip()`: adds the SIP to the amount. */
    method InvestSip()
      modifies this
      ensures View() == Invest(old(View()))
    {
      amount := amount + sipAmount;
    }

    /** `applyMonthlyROI(roi)`: refuses roi < -1 before changing anything. */
    method ApplyMonthlyRoi(roi: real) returns (r: Outcome)
      modifies this
      ensures roi < MinRoi ==> r == Fail(IllegalArgument(RoiTooLowMessage)) && View() == old(View())
      ensures roi >= MinRoi ==> r == Pass && View() == WithRoi(old(View()), roi)
    {
      if roi < MinRoi {
        return Fail(IllegalArgument(RoiTooLowMessage));
      }
      var raw := (amount as real * (1.0 + roi)).Floor;
      if raw < 0 {
        raw := 0;
      }
      amount := raw;
      return Pass;
    }

    /** `updateAmount(amount)`, used by rebalancing: refuses a negative amount,
        otherwise sets it exactly. */
    method UpdateAmount(newAmount: int) returns (r: Outcome)
      modifies this
      ensures newAmount < 0 ==> r == Fail(IllegalArgument(NegativeUpdateMessage)) && View() == old(View())
      ensures newAmount >= 0 ==> r == Pass && View() == old(View()).(amount := newAmount)
    {
      if newAmount < 0 {
        return Fail(IllegalArgument(NegativeUpdateMessage));
      }
      amount := newAmount;
      return Pass;
    }
  }
}
