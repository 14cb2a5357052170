/** The application service: allocation, SIP timing, the monthly CHANGE and the
    BALANCE / REBALANCE queries, over the portfolio held by the repository. */
module Services {
  import opened Results
  import opened AssetTypes
  import opened Months
  import opened Assets
  import opened Portfolios
  import opened Repositories

  /** `Config.REBALANCE_MONTHS` */
  const RebalanceMonths: set<Month> := {JUNE, DECEMBER}

  const NotAllocatedMessage := "Portfolio not allocated"
  const NonPositiveTotalMessage := "Total allocation must be positive"

  // ---------------------------------------------------------------------------
  // Value model
  // ---------------------------------------------------------------------------

  /** What the service and its repository hold between two commands. */
  datatype ServiceState = ServiceState(
    portfolio: Option<PortfolioState>,
    pendingSip: map<AssetType, int>,
    sipActivated: bool)

  /** `allocations.getOrDefault(type, DEFAULT_ALLOCATION_AMOUNT)` */
  function AmountFor(allocations: map<AssetType, int>, t: AssetType): int {
    if t in allocations then allocations[t] else 0
  }

  /** Sum of the allocated amounts of `types`. */
  function SumOver(types: seq<AssetType>, allocations: map<AssetType, int>): int {
    if types == [] then 0 else AmountFor(allocations, types[0]) + SumOver(types[1..], allocations)
  }

  /** The sum of the allocation map's values (its keys are asset classes, so
      this is the sum over all three classes with missing ones counting 0). */
  function AllocationTotal(allocations: map<AssetType, int>): int {
    SumOver(AssetTypeValues, allocations)
  }

  predicate NoNegativeAmount(allocations: map<AssetType, int>) {
    forall i :: 0 <= i < |AssetTypeValues| ==> AmountFor(allocations, AssetTypeValues[i]) >= 0
  }

  /** The asset `allocate` builds for one class: its amount, no SIP, and the
      ratio amount / total. */
  function AllocatedHolding(allocations: map<AssetType, int>, t: AssetType): (h: Holding)
    requires AllocationTotal(allocations) > 0 && AmountFor(allocations, t) >= 0
    ensures h.kind == t && h.amount == AmountFor(allocations, t) && h.sip == 0
  {
    var amount := AmountFor(allocations, t);
    Holding(t, amount, 0, amount as real / AllocationTotal(allocations) as real)
  }

  /** The ratio of an allocated asset is its share of the total. */
  lemma AllocatedShare(allocations: map<AssetType, int>, t: AssetType)
    requires AllocationTotal(allocations) > 0 && AmountFor(allocations, t) >= 0
    ensures AllocatedHolding(allocations, t).ratio * AllocationTotal(allocations) as real
            == AmountFor(allocations, t) as real
  {
  }

  /** One asset per class, in declaration order. */
  function AllocatedHoldings(allocations: map<AssetType, int>): (hs: seq<Holding>)
    requires AllocationTotal(allocations) > 0 && NoNegativeAmount(allocations)
    ensures |hs| == |AssetTypeValues|
    ensures forall i :: 0 <= i < |hs| ==> hs[i] == AllocatedHolding(allocations, AssetTypeValues[i])
  {
    seq(|AssetTypeValues|, i requires 0 <= i < |AssetTypeValues| =>
      AllocatedHolding(allocations, AssetTypeValues[i]))
  }

  /** `allocate(allocations)` on the state. A failure leaves everything as it was;
      a success replaces the portfolio and resets the SIP state. */
  function AllocateSpec(ss: ServiceState, allocations: map<AssetType, int>): (r: (ServiceState, Outcome))
    ensures r.1.Pass? <==> AllocationTotal(allocations) > 0 && NoNegativeAmount(allocations)
    ensures r.1.Fail? ==> r.0 == ss
    ensures AllocationTotal(allocations) <= 0 ==> r.1 == Fail(IllegalArgument(NonPositiveTotalMessage))
    ensures AllocationTotal(allocations) > 0 && !NoNegativeAmount(allocations) ==>
      r.1 == Fail(IllegalArgument(NegativeAmountMessage))
    ensures r.1.Pass? ==>
      r.0 == ServiceState(Some(PortfolioState(AllocatedHoldings(allocations), map[], None)), map[], false)
  {
    var total := AllocationTotal(allocations);
    if total <= 0 then (ss, Fail(IllegalArgument(NonPositiveTotalMessage)))
    else if !NoNegativeAmount(allocations) then (ss, Fail(IllegalArgument(NegativeAmountMessage)))
    else
      var ps := PortfolioState(AllocatedHoldings(allocations), map[], None);
      (ServiceState(Some(ps), map[], false), Pass)
  }

  /** The ratios of a successful allocation add up to 1 (exact arithmetic), and
      each is that class's share of the total. */
  lemma AllocatedRatiosSumToOne(allocations: map<AssetType, int>)
    requires AllocationTotal(allocations) > 0 && NoNegativeAmount(allocations)
    ensures SumRatios(AllocatedHoldings(allocations)) == 1.0
    ensures Total(AllocatedHoldings(allocations)) == AllocationTotal(allocations)
  {
    var hs := AllocatedHoldings(allocations);
    var e, d, g := hs[0].amount, hs[1].amount, hs[2].amount;
    assert AssetTypeValues[1..] == [DEBT, GOLD] && [DEBT, GOLD][1..] == [GOLD];
    assert SumOver([GOLD], allocations) == g;
    assert SumOver([DEBT, GOLD], allocations) == d + g;
    assert AllocationTotal(allocations) == e + d + g;
    assert hs[1..] == [hs[1], hs[2]] && [hs[1], hs[2]][1..] == [hs[2]];
    assert Total([hs[2]]) == g && SumRatios([hs[2]]) == hs[2].ratio;
    assert SumRatios(hs) == hs[0].ratio + hs[1].ratio + hs[2].ratio;
    AllocatedShare(allocations, EQUITY);
    AllocatedShare(allocations, DEBT);
    AllocatedShare(allocations, GOLD);
    SharesOfWhole(e, d, g, hs[0].ratio, hs[1].ratio, hs[2].ratio);
  }

  /** Three shares a/t, b/t, c/t of t = a + b + c add up to 1. */
  lemma SharesOfWhole(a: nat, b: nat, c: nat, ra: real, rb: real, rc: real)
    requires a + b + c > 0
    requires ra * (a + b + c) as real == a as real
    requires rb * (a + b + c) as real == b as real
    requires rc * (a + b + c) as real == c as real
    ensures ra + rb + rc == 1.0
  {
    var t := (a + b + c) as real;
    assert (ra + rb + rc) * t == ra * t + rb * t + rc * t;
    assert (ra + rb + rc - 1.0) * t == 0.0;
  }

  /** Position of the holding of class `t` (|hs| when there is none). */
  function KindIndex(hs: seq<Holding>, t: AssetType): (k: nat)
    ensures k <= |hs|
    ensures k < |hs| ==> hs[k].kind == t
    ensures forall i :: 0 <= i < k ==> hs[i].kind != t
  {
    if hs == [] || hs[0].kind == t then 0 else 1 + KindIndex(hs[1..], t)
  }

  /** `pendingSip` holds a negative SIP for class `t` and the portfolio has an
      asset of that class, so `setSipAmount` throws there. */
  predicate RefusesSip(pending: map<AssetType, int>, hs: seq<Holding>, t: AssetType) {
    t in pending && pending[t] < 0 && KindIndex(hs, t) < |hs|
  }

  /** Position in `AssetTypes` (from `from` on) of the first class whose SIP is refused. */
  function FirstRefusedSip(pending: map<AssetType, int>, hs: seq<Holding>, from: nat): (k: nat)
    requires from <= |AssetTypeValues|
    decreases |AssetTypeValues| - from
    ensures from <= k <= |AssetTypeValues|
    ensures forall j :: from <= j < k ==> !RefusesSip(pending, hs, AssetTypeValues[j])
    ensures k < |AssetTypeValues| ==> RefusesSip(pending, hs, AssetTypeValues[k])
  {
    if from == |AssetTypeValues| || RefusesSip(pending, hs, AssetTypeValues[from]) then from
    else FirstRefusedSip(pending, hs, from + 1)
  }

  /** A holding once the pending SIPs of the classes before position `n` of
      `AssetTypes` have been pushed (a negative one is never pushed). */
  function SipAt(h: Holding, pending: map<AssetType, int>, n: nat): Holding {
    if h.kind in pending && AssetOrdinal(h.kind) < n && pending[h.kind] >= 0
    then h.(sip := pending[h.kind]) else h
  }

  function SipsUpTo(hs: seq<Holding>, pending: map<AssetType, int>, n: nat): (r: seq<Holding>)
    ensures |r| == |hs| && forall i :: 0 <= i < |hs| ==> r[i] == SipAt(hs[i], pending, n)
  {
    seq(|hs|, i requires 0 <= i < |hs| => SipAt(hs[i], pending, n))
  }

  /** The loop of `applySipToAssets` on the holdings: pending SIPs are pushed in
      class order onto the asset of that class, until the first negative one. */
  function SipsApplied(hs: seq<Holding>, pending: map<AssetType, int>): (r: (seq<Holding>, Outcome))
    ensures |r.0| == |hs|
  {
    var k := FirstRefusedSip(pending, hs, 0);
    (SipsUpTo(hs, pending, k),
     if k < |AssetTypeValues| then Fail(IllegalArgument(NegativeSipMessage)) else Pass)
  }

  /** Pushing the pending SIPs changes only SIPs, and only of classes that have a
      pending SIP; it succeeds exactly when no asset's class has a negative
      pending SIP, and then every such asset carries its pending SIP; otherwise
      it reports the negative SIP. */
  lemma SipsAppliedMeaning(hs: seq<Holding>, pending: map<AssetType, int>)
    ensures var r := SipsApplied(hs, pending);
      && (forall i :: 0 <= i < |hs| ==> r.0[i].(sip := hs[i].sip) == hs[i])
      && (forall i :: 0 <= i < |hs| && hs[i].kind !in pending ==> r.0[i] == hs[i])
      && (r.1.Pass? <==> forall i :: 0 <= i < |hs| && hs[i].kind in pending ==> pending[hs[i].kind] >= 0)
      && (r.1.Pass? ==> forall i :: 0 <= i < |hs| && hs[i].kind in pending ==> r.0[i].sip == pending[hs[i].kind])
      && (r.1.Fail? ==> r.1 == Fail(IllegalArgument(NegativeSipMessage)))
  {
    var k := FirstRefusedSip(pending, hs, 0);
    if k < |AssetTypeValues| {
      var t := AssetTypeValues[k];
      var j := KindIndex(hs, t);
      assert hs[j].kind in pending && pending[hs[j].kind] < 0;
    } else {
      forall i | 0 <= i < |hs| && hs[i].kind in pending
        ensures pending[hs[i].kind] >= 0
      {
        var t := hs[i].kind;
        assert !RefusesSip(pending, hs, AssetTypeValues[AssetOrdinal(t)]);
      }
    }
  }

  /** The holdings of a sequence of assets are found where the assets are. */
  lemma KindIndexOfAssets(s: seq<Asset>, hs: seq<Holding>, t: AssetType)
    requires |hs| == |s| && forall j :: 0 <= j < |s| ==> hs[j].kind == s[j].assetType
    ensures KindIndex(hs, t) == Find(s, t)
  {
  }

  /** Where the loop of `applySipToAssets` stops, the holdings are those of
      `SipsApplied`. */
  lemma SipsUpToStop(hs: seq<Holding>, pending: map<AssetType, int>, i: nat, now: seq<Holding>, r: Outcome)
    requires i <= FirstRefusedSip(pending, hs, 0)
    requires i < |AssetTypeValues| ==> RefusesSip(pending, hs, AssetTypeValues[i])
    requires r == if i < |AssetTypeValues| then Fail(IllegalArgument(NegativeSipMessage)) else Pass
    requires |now| == |hs| && forall j :: 0 <= j < |hs| ==> now[j] == SipAt(hs[j], pending, i)
    ensures (now, r) == SipsApplied(hs, pending)
  {
    assert i == FirstRefusedSip(pending, hs, 0);
    assert now == SipsUpTo(hs, pending, i);
  }

  /** One more round of the loop changes only the SIP of the holding of class `i`. */
  lemma SipAtStep(h: Holding, pending: map<AssetType, int>, i: nat)
    requires i < |AssetTypeValues|
    ensures var t := AssetTypeValues[i];
      SipAt(h, pending, i + 1) ==
        if h.kind == t && t in pending && pending[t] >= 0
        then SipAt(h, pending, i).(sip := pending[t]) else SipAt(h, pending, i)
  {
  }

  /** A round that is not refused keeps the loop within the first refusal. */
  lemma SipsBeforeStop(hs: seq<Holding>, pending: map<AssetType, int>, i: nat)
    requires i < |AssetTypeValues| && i <= FirstRefusedSip(pending, hs, 0)
    requires !RefusesSip(pending, hs, AssetTypeValues[i])
    ensures i + 1 <= FirstRefusedSip(pending, hs, 0)
  {
  }

  /** `applySipToAssets()` on the state. */
  function ApplySipSpec(ss: ServiceState): (r: (ServiceState, Outcome))
    ensures ss.portfolio.None? ==> r == (ss, Fail(IllegalState(NotAllocatedMessage)))
    ensures r.0.pendingSip == ss.pendingSip && r.0.sipActivated == ss.sipActivated
    ensures ss.portfolio.Some? ==>
      var applied := SipsApplied(ss.portfolio.value.holdings, ss.pendingSip);
      r.0.portfolio == Some(ss.portfolio.value.(holdings := applied.0)) && r.1 == applied.1
  {
    match ss.portfolio
    case None => (ss, Fail(IllegalState(NotAllocatedMessage)))
    case Some(ps) =>
      var applied := SipsApplied(ps.holdings, ss.pendingSip);
      (ss.(portfolio := Some(ps.(holdings := applied.0))), applied.1)
  }

  /** `setSip(sipValues)` on the state: the pending SIPs are replaced wholesale and
      pushed to the assets only once SIP is active. */
  function SetSipSpec(ss: ServiceState, sipValues: map<AssetType, int>): (r: (ServiceState, Outcome))
    ensures r.0.pendingSip == sipValues && r.0.sipActivated == ss.sipActivated
    ensures !ss.sipActivated ==> r == (ss.(pendingSip := sipValues), Pass)
  {
    var recorded := ss.(pendingSip := sipValues);
    if ss.sipActivated then ApplySipSpec(recorded) else (recorded, Pass)
  }

  /** `setSip(sipValues)` once SIP is active: the new values are pushed onto the
      assets at once; classes missing from the map keep their SIP, amounts and
      ratios never change, and on success each present class carries its new SIP. */
  lemma SetSipWhenActive(ss: ServiceState, sipValues: map<AssetType, int>)
    requires ss.portfolio.Some? && ss.sipActivated
    ensures var r := SetSipSpec(ss, sipValues);
      var before := HoldingsOfState(ss);
      var after := HoldingsOfState(r.0);
      && r.0.portfolio.Some?
      && r.0.portfolio.value.monthlySnapshots == ss.portfolio.value.monthlySnapshots
      && r.0.portfolio.value.lastRebalanced == ss.portfolio.value.lastRebalanced
      && |after| == |before|
      && (forall i :: 0 <= i < |before| ==> after[i].(sip := before[i].sip) == before[i])
      && (forall i :: 0 <= i < |before| && before[i].kind !in sipValues ==> after[i] == before[i])
      && (r.1.Pass? <==> forall i :: 0 <= i < |before| && before[i].kind in sipValues ==> sipValues[before[i].kind] >= 0)
      && (r.1.Pass? ==> forall i :: 0 <= i < |before| && before[i].kind in sipValues ==> after[i].sip == sipValues[before[i].kind])
      && (r.1.Fail? ==> r.1 == Fail(IllegalArgument(NegativeSipMessage)))
  {
    SipsAppliedMeaning(ss.portfolio.value.holdings, sipValues);
  }

  /** `change(month, roiMap)` on the state, in the source's order: monthly update,
      snapshot, rebalance in a rebalance month, then SIP activation. */
  function ChangeSpec(ss: ServiceState, month: Month, roiMap: map<AssetType, real>): (r: (ServiceState, Outcome))
    ensures ss.portfolio.None? ==> r == (ss, Fail(IllegalState(NotAllocatedMessage)))
    ensures r.0.pendingSip == ss.pendingSip
    ensures ss.portfolio.Some? ==> r.0.portfolio.Some?
  {
    match ss.portfolio
    case None => (ss, Fail(IllegalState(NotAllocatedMessage)))
    case Some(ps) =>
      var monthly := AfterMonthly(ps, roiMap);
      if monthly.1.Fail? then (ss.(portfolio := Some(monthly.0)), monthly.1)
      else
        var saved := Saved(monthly.0, Name(month));
        var balanced := if month in RebalanceMonths then AfterRebalance(saved) else saved;
        var changed := ss.(portfolio := Some(balanced));
        if ss.sipActivated then (changed, Pass)
        else ApplySipSpec(changed.(sipActivated := true))
  }

  /** `ChangeSpec` as the portfolio's own steps followed by SIP activation. */
  lemma ChangeSpecSteps(ss: ServiceState, month: Month, roiMap: map<AssetType, real>,
                        balanced: PortfolioState, r: Outcome)
    requires ss.portfolio.Some?
    requires r == AfterMonthly(ss.portfolio.value, roiMap).1
    requires r.Fail? ==> balanced == AfterMonthly(ss.portfolio.value, roiMap).0
    requires r.Pass? ==>
      var saved := Saved(AfterMonthly(ss.portfolio.value, roiMap).0, Name(month));
      balanced == if month in RebalanceMonths then AfterRebalance(saved) else saved
    ensures var changed := ss.(portfolio := Some(balanced));
      ChangeSpec(ss, month, roiMap) ==
        if r.Fail? then (changed, r)
        else if ss.sipActivated then (changed, Pass)
        else ApplySipSpec(changed.(sipActivated := true))
  {
  }

  /** `getBalance(month)` on the state. */
  function BalanceSpec(ss: ServiceState, month: Month): (r: Result<Snapshot>)
    ensures r.Failure? <==> ss.portfolio.None?
    ensures r.Failure? ==> r.error == IllegalState(NotAllocatedMessage)
  {
    match ss.portfolio
    case None => Failure(IllegalState(NotAllocatedMessage))
    case Some(ps) => Success(MonthlySnapshot(ps, Name(month)))
  }

  /** `getRebalance()` on the state. */
  function RebalanceSpec(ss: ServiceState): (r: Result<Snapshot>)
    ensures r.Failure? <==> ss.portfolio.None?
    ensures r.Failure? ==> r.error == IllegalState(NotAllocatedMessage)
  {
    match ss.portfolio
    case None => Failure(IllegalState(NotAllocatedMessage))
    case Some(ps) => Success(LastRebalancedSnapshot(ps))
  }

  // ---------------------------------------------------------------------------
  // SIP timing and the effect of CHANGE
  // ---------------------------------------------------------------------------

  function HoldingsOfState(ss: ServiceState): seq<Holding> {
    if ss.portfolio.Some? then ss.portfolio.value.holdings else []
  }

  /** A CHANGE whose ROIs are all accepted records, under its month, each asset's
      amount after adding its current SIP and then applying its ROI. */
  lemma ChangeRecordsMonth(ss: ServiceState, month: Month, roiMap: map<AssetType, real>, i: nat)
    requires ss.portfolio.Some?
    requires forall j :: 0 <= j < |HoldingsOfState(ss)| ==>
      RateFor(roiMap, HoldingsOfState(ss)[j].kind) >= MinRoi
    requires i < |HoldingsOfState(ss)|
    ensures var h := HoldingsOfState(ss)[i];
      var balance := BalanceSpec(ChangeSpec(ss, month, roiMap).0, month);
      balance.Success? && i < |balance.value|
      && balance.value[i] == (h.kind, RoiAmount(h.amount + h.sip, RateFor(roiMap, h.kind)))
  {
    var hs := HoldingsOfState(ss);
    MonthlyChangesAccepted(hs, roiMap, i);
    var monthly := AfterMonthly(ss.portfolio.value, roiMap);
    var saved := Saved(monthly.0, Name(month));
    var balanced := if month in RebalanceMonths then AfterRebalance(saved) else saved;
    assert MonthlySnapshot(saved, Name(month)) == SnapshotOf(monthly.0.holdings);
    assert balanced.monthlySnapshots == saved.monthlySnapshots;
    ChangeSpecSteps(ss, month, roiMap, balanced, Pass);
    var changed := ChangeSpec(ss, month, roiMap).0;
    assert changed.portfolio.value.monthlySnapshots == saved.monthlySnapshots;
  }

  /** The first CHANGE after `allocate` adds no SIP, even with SIPs already set:
      the allocated assets have SIP 0, so the month records the ROI alone. This
      holds whatever state the service was in before `allocate`. */
  lemma FirstChangeAddsNoSip(ss: ServiceState, allocations: map<AssetType, int>, sips: map<AssetType, int>,
                             month: Month, roiMap: map<AssetType, real>, i: nat)
    requires AllocationTotal(allocations) > 0 && NoNegativeAmount(allocations)
    requires forall j :: 0 <= j < |AssetTypeValues| ==> RateFor(roiMap, AssetTypeValues[j]) >= MinRoi
    requires i < |AssetTypeValues|
    ensures var s1 := AllocateSpec(ss, allocations).0;
      var changed := ChangeSpec(SetSipSpec(s1, sips).0, month, roiMap).0;
      var balance := BalanceSpec(changed, month);
      var t := AssetTypeValues[i];
      balance.Success? && i < |balance.value|
      && balance.value[i] == (t, RoiAmount(AmountFor(allocations, t), RateFor(roiMap, t)))
  {
    var s1 := AllocateSpec(ss, allocations).0;
    assert s1 == ServiceState(Some(PortfolioState(AllocatedHoldings(allocations), map[], None)), map[], false);
    var s2 := SetSipSpec(s1, sips).0;
    assert HoldingsOfState(s2) == AllocatedHoldings(allocations);
    ChangeRecordsMonth(s2, month, roiMap, i);
  }

  /** The first CHANGE activates SIP: when it succeeds, every asset of a class
      with a pending SIP now carries that SIP, ready for the next month. */
  lemma FirstChangeActivatesSip(ss: ServiceState, month: Month, roiMap: map<AssetType, real>)
    requires ss.portfolio.Some? && !ss.sipActivated
    requires ChangeSpec(ss, month, roiMap).1 == Pass
    ensures var r := ChangeSpec(ss, month, roiMap).0;
      && r.sipActivated
      && |HoldingsOfState(r)| == |HoldingsOfState(ss)|
      && forall i :: 0 <= i < |HoldingsOfState(r)| && HoldingsOfState(r)[i].kind in ss.pendingSip ==>
           HoldingsOfState(r)[i].sip == ss.pendingSip[HoldingsOfState(r)[i].kind]
  {
    var monthly := AfterMonthly(ss.portfolio.value, roiMap);
    var saved := Saved(monthly.0, Name(month));
    var balanced := if month in RebalanceMonths then AfterRebalance(saved) else saved;
    SipsAppliedMeaning(balanced.holdings, ss.pendingSip);
  }

  /** Once SIP is active, CHANGE keeps every asset's SIP and the pending SIPs as
      they are, so the SIP is invested again every later month. */
  lemma LaterChangeKeepsSip(ss: ServiceState, month: Month, roiMap: map<AssetType, real>)
    requires ss.portfolio.Some? && ss.sipActivated
    ensures var r := ChangeSpec(ss, month, roiMap).0;
      && r.sipActivated && r.pendingSip == ss.pendingSip
      && |HoldingsOfState(r)| == |HoldingsOfState(ss)|
      && forall i :: 0 <= i < |HoldingsOfState(ss)| ==>
           HoldingsOfState(r)[i].sip == HoldingsOfState(ss)[i].sip
  {
  }

  /** In a rebalance month a successful CHANGE leaves each asset at its share of
      the month's total, and REBALANCE reports exactly those amounts; in any other
      month REBALANCE reports what it reported before. */
  lemma ChangeRebalances(ss: ServiceState, month: Month, roiMap: map<AssetType, real>)
    requires ss.portfolio.Some?
    requires MonthlyChanges(HoldingsOfState(ss), roiMap).1 == Pass
    ensures var r := ChangeSpec(ss, month, roiMap).0;
      var monthly := MonthlyChanges(HoldingsOfState(ss), roiMap).0;
      RebalanceSpec(r) == Success(
        if month in RebalanceMonths then SnapshotOf(Rebalanced(monthly))
        else LastRebalancedSnapshot(ss.portfolio.value))
  {
  }

  /** A CHANGE with a refused ROI fails with that error after the partial monthly
      update: no snapshot is saved, nothing is rebalanced and SIP is not activated. */
  lemma ChangeStopsOnRefusedRoi(ss: ServiceState, month: Month, roiMap: map<AssetType, real>)
    requires ss.portfolio.Some?
    requires MonthlyChanges(HoldingsOfState(ss), roiMap).1.Fail?
    ensures var r := ChangeSpec(ss, month, roiMap);
      && r.1 == Fail(IllegalArgument(RoiTooLowMessage))
      && r.0.sipActivated == ss.sipActivated
      && r.0.portfolio == Some(ss.portfolio.value.(holdings := MonthlyChanges(HoldingsOfState(ss), roiMap).0))
  {
  }

  // ---------------------------------------------------------------------------
  // The PortfolioService object
  // ---------------------------------------------------------------------------

  class PortfolioService {
    const repository: InMemoryPortfolioRepository
    /** SIPs recorded by `setSip`, held back until the first CHANGE. */
    var pendingSip: map<AssetType, int>
    /** Becomes true right after the first CHANGE. */
    var sipActivated: bool

    constructor (repo: InMemoryPortfolioRepository)
      ensures repository == repo && pendingSip == map[] && !sipActivated
    {
      repository := repo;
      pendingSip := map[];
      sipActivated := false;
    }

    /** The stored portfolio, if any, keeps one asset per type. */
    ghost predicate Valid()
      reads this, repository, repository.portfolio
    {
      repository.portfolio != null ==> repository.portfolio.Valid()
    }

    /** The assets of the stored portfolio (none when nothing is stored). */
    function StoredAssets(): seq<Asset>
      reads this, repository, repository.portfolio
    {
      if repository.portfolio == null then [] else repository.portfolio.assets
    }

    function Abstract(): ServiceState
      reads this, repository, repository.portfolio, StoredAssets()
    {
      ServiceState(
        if repository.portfolio == null then None else Some(repository.portfolio.State()),
        pendingSip, sipActivated)
    }

    /** `ensurePortfolio()`: the stored portfolio, or "Portfolio not allocated". */
    function EnsurePortfolio(): (r: Result<Portfolio>)
      reads this, repository
      ensures r.Success? <==> repository.portfolio != null
      ensures r.Success? ==> r.value == repository.portfolio
      ensures r.Failure? ==> r.error == IllegalState(NotAllocatedMessage)
    {
      var p := repository.Get();
      if p == null then Failure(IllegalState(NotAllocatedMessage)) else Success(p)
    }

    /** `allocate(allocations)`: validates the total, builds the new portfolio,
        then stores it and resets the SIP state. */
    method Allocate(allocations: map<AssetType, int>) returns (r: Outcome)
      requires Valid()
      modifies this, repository
      ensures Valid()
      ensures (Abstract(), r) == AllocateSpec(old(Abstract()), allocations)
      ensures r.Pass? ==> fresh(repository.portfolio)
      ensures r.Pass? ==> forall i :: 0 <= i < |StoredAssets()| ==> fresh(StoredAssets()[i])
    {
      var total := AllocationTotal(allocations);
      if total <= 0 {
        return Fail(IllegalArgument(NonPositiveTotalMessage));
      }
      var built := BuildPortfolio(allocations, total);
      if built.Failure? {
        return Fail(built.error);
      }
      repository.Save(built.value);
      pendingSip := map[];
      sipActivated := false;
      return Pass;
    }

    /** `setSip(sipValues)` */
    method SetSip(sipValues: map<AssetType, int>) returns (r: Outcome)
      requires Valid()
      modifies this, StoredAssets()
      ensures Valid()
      ensures (Abstract(), r) == SetSipSpec(old(Abstract()), sipValues)
    {
      pendingSip := sipValues;
      if sipActivated {
        r := ApplySipToAssets();
      } else {
        r := Pass;
      }
    }

    /** `change(month, roiMap)` */
    method Change(month: Month, roiMap: map<AssetType, real>) returns (r: Outcome)
      requires Valid()
      modifies this, repository.portfolio, StoredAssets()
      ensures Valid()
      ensures StoredAssets() == old(StoredAssets())
      ensures (Abstract(), r) == ChangeSpec(old(Abstract()), month, roiMap)
    {
      var ensured := EnsurePortfolio();
      if ensured.Failure? {
        return Fail(ensured.error);
      }
      var portfolio := ensured.value;
      ghost var ss := Abstract();
      r := ChangePortfolio(portfolio, month, roiMap);
      ghost var changed := ss.(portfolio := Some(portfolio.State()));
      ChangeSpecSteps(ss, month, roiMap, changed.portfolio.value, r);
      assert Abstract() == changed;
      if r.Pass? && !sipActivated {
        ghost var current := Abstract();
        r := ActivateSip();
        assert (Abstract(), r) == ApplySipSpec(current.(sipActivated := true));
      }
    }

    /** The end of `change`: the first CHANGE activates SIP and pushes the
        pending SIPs onto the assets. */
    method ActivateSip() returns (r: Outcome)
      requires Valid() && !sipActivated
      modifies this, StoredAssets()
      ensures Valid() && StoredAssets() == old(StoredAssets())
      ensures (Abstract(), r) == ApplySipSpec(old(Abstract()).(sipActivated := true))
    {
      sipActivated := true;
      r := ApplySipToAssets();
    }

    /** `getBalance(month)` */
    function GetBalance(month: Month): (r: Result<Snapshot>)
      reads this, repository, repository.portfolio, StoredAssets()
      ensures r == BalanceSpec(Abstract(), month)
    {
      match EnsurePortfolio()
      case Failure(e) => Failure(e)
      case Success(p) => Success(p.GetMonthlySnapshot(Name(month)))
    }

    /** `getRebalance()` */
    function GetRebalance(): (r: Result<Snapshot>)
      reads this, repository, repository.portfolio, StoredAssets()
      ensures r == RebalanceSpec(Abstract())
    {
      match EnsurePortfolio()
      case Failure(e) => Failure(e)
      case Success(p) => Success(p.GetLastRebalancedSnapshot())
    }

    /** `applySipToAssets()`: the stored portfolio, or "Portfolio not allocated";
        then the pending SIPs are pushed onto its assets. */
    method ApplySipToAssets() returns (r: Outcome)
      requires Valid()
      modifies StoredAssets()
      ensures (Abstract(), r) == ApplySipSpec(old(Abstract()))
    {
      var ensured := EnsurePortfolio();
      if ensured.Failure? {
        return Fail(ensured.error);
      }
      r := PushSips(ensured.value, pendingSip);
    }
  }

  /** The loop of `allocate(allocations)`: one new asset per class, in
      declaration order, with the amount allocated to it (0 when missing) and the
      ratio amount / total; a negative amount stops the loop. */
  method BuildPortfolio(allocations: map<AssetType, int>, total: int) returns (r: Result<Portfolio>)
    requires total == AllocationTotal(allocations) > 0
    ensures r.Failure? <==> !NoNegativeAmount(allocations)
    ensures r.Failure? ==> r.error == IllegalArgument(NegativeAmountMessage)
    ensures r.Success? ==> fresh(r.value) && r.value.Valid()
    ensures r.Success? ==> forall i :: 0 <= i < |r.value.assets| ==> fresh(r.value.assets[i])
    ensures r.Success? ==> r.value.State() == PortfolioState(AllocatedHoldings(allocations), map[], None)
  {
    var portfolio := new Portfolio();
    for i := 0 to |AssetTypeValues|
      invariant fresh(portfolio) && portfolio.Valid()
      invariant |portfolio.assets| == i
      invariant forall k :: 0 <= k < i ==> fresh(portfolio.assets[k])
      invariant forall k :: 0 <= k < i ==> AmountFor(allocations, AssetTypeValues[k]) >= 0
      invariant forall k :: 0 <= k < i ==>
        portfolio.assets[k].View() == AllocatedHolding(allocations, AssetTypeValues[k])
      invariant portfolio.monthlySnapshots == map[] && portfolio.lastRebalancedSnapshot == None
    {
      var t := AssetTypeValues[i];
      var amount := AmountFor(allocations, t);
      var ratio := amount as real / total as real;
      var created := Asset.Create(t, amount, ratio);
      if created.Failure? {
        return Failure(created.error);
      }
      assert forall k :: 0 <= k < i ==> portfolio.assets[k].assetType == AssetTypeValues[k] != t;
      ghost var previous := portfolio.assets;
      assert Find(previous, t) == |previous|;
      portfolio.AddAsset(created.value);
      assert portfolio.assets == previous + [created.value];
    }
    assert portfolio.Holdings() == AllocatedHoldings(allocations);
    return Success(portfolio);
  }

  /** The steps of `change(month, roiMap)` on the portfolio itself: the monthly
      update, the month's snapshot, and the rebalance in a rebalance month. */
  method ChangePortfolio(portfolio: Portfolio, month: Month, roiMap: map<AssetType, real>) returns (r: Outcome)
    requires portfolio.Valid()
    modifies portfolio, portfolio.assets
    ensures portfolio.Valid() && portfolio.assets == old(portfolio.assets)
    ensures r == AfterMonthly(old(portfolio.State()), roiMap).1
    ensures r.Fail? ==> portfolio.State() == AfterMonthly(old(portfolio.State()), roiMap).0
    ensures r.Pass? ==>
      var saved := Saved(AfterMonthly(old(portfolio.State()), roiMap).0, Name(month));
      portfolio.State() == if month in RebalanceMonths then AfterRebalance(saved) else saved
  {
    r := portfolio.ApplyMonthlyChanges(roiMap);
    if r.Fail? {
      return;
    }
    portfolio.SaveMonthlySnapshot(Name(month));
    if month in RebalanceMonths {
      portfolio.RebalanceToOriginalRatios();
    }
  }

  /** The loop of `applySipToAssets()`: for each class in declaration order,
      one round of `PushSip`; the first refusal ends the loop. */
  method PushSips(portfolio: Portfolio, pending: map<AssetType, int>) returns (r: Outcome)
    requires portfolio.Valid()
    modifies portfolio.assets
    ensures (portfolio.Holdings(), r) == SipsApplied(old(portfolio.Holdings()), pending)
  {
    var assets := portfolio.assets;
    ghost var before := HoldingsOf(assets);
    ghost var stop := FirstRefusedSip(pending, before, 0);
    var i := 0;
    r := Pass;
    while i < |AssetTypeValues|
      invariant i <= stop && r == Pass
      invariant forall j :: 0 <= j < |assets| ==> assets[j].View() == SipAt(before[j], pending, i)
    {
      var t := AssetTypeValues[i];
      r := PushSip(portfolio, pending, t);
      KindIndexOfAssets(assets, before, t);
      if r.Fail? {
        break;
      }
      SipsBeforeStop(before, pending, i);
      forall j | 0 <= j < |assets|
        ensures assets[j].View() == SipAt(before[j], pending, i + 1)
      {
        SipAtStep(before[j], pending, i);
      }
      i := i + 1;
    }
    SipsUpToStop(before, pending, i, HoldingsOf(assets), r);
  }

  /** The body of that loop for class `t`: when `t` has a pending SIP and the
      portfolio an asset of class `t`, that asset's SIP is set, or refused when
      negative; every other asset is left alone. */
  method PushSip(portfolio: Portfolio, pending: map<AssetType, int>, t: AssetType) returns (r: Outcome)
    requires portfolio.Valid()
    modifies portfolio.assets
    ensures r.Fail? <==> t in pending && pending[t] < 0 && Find(portfolio.assets, t) < |portfolio.assets|
    ensures r.Fail? ==> r == Fail(IllegalArgument(NegativeSipMessage))
    ensures forall j :: 0 <= j < |portfolio.assets| ==>
      portfolio.assets[j].View() ==
        if portfolio.assets[j].assetType == t && t in pending && pending[t] >= 0
        then old(portfolio.assets[j].View()).(sip := pending[t])
        else old(portfolio.assets[j].View())
  {
    r := Pass;
    if t in pending {
      var asset := portfolio.GetAsset(t);
      if asset != null {
        r := asset.SetSipAmount(pending[t]);
      }
    }
  }
}
