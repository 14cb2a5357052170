/** A portfolio: its assets in insertion order, the snapshot taken each month, and
    the result of the last rebalance. */
module Portfolios {
  import opened Results
  import opened AssetTypes
  import opened JavaText
  import opened Assets

  /** An ordered map from asset class to floored amount (a LinkedHashMap copy).
      Being a value, a snapshot can never change once taken. */
  type Snapshot = seq<(AssetType, int)>

  /** `EntityConstants.DEFAULT_ROI`: the ROI of an asset class missing from the ROI map. */
  const DefaultRoi: real := 0.0

  // ---------------------------------------------------------------------------
  // Value model
  // ---------------------------------------------------------------------------

  /** `normalizeMonth(month)`: snapshot keys are trimmed and upper-cased. */
  function NormalizeMonth(month: string): string {
    ToUpperCase(Trim(month))
  }

  /** Padding and letter case do not matter: "january", " January " and "JANUARY"
      are one key. */
  lemma NormalizeMonthLenient(pre: string, body: string, post: string)
    requires AllBlank(pre) && AllBlank(post) && IsTrimmed(body)
    ensures NormalizeMonth(pre + body + post) == ToUpperCase(body)
    ensures NormalizeMonth(pre + ToUpperCase(body) + post) == ToUpperCase(body)
  {
    TrimPadded(pre, body, post);
    UpperKeepsTrimmed(body);
    TrimPadded(pre, ToUpperCase(body), post);
    UpperOfUpper(ToUpperCase(body));
  }

  /** `roiMap.getOrDefault(type, DEFAULT_ROI)` */
  function RateFor(roiMap: map<AssetType, real>, t: AssetType): real {
    if t in roiMap then roiMap[t] else DefaultRoi
  }

  /** One asset's month: SIP first, then the ROI. */
  function MonthStep(h: Holding, rate: real): (r: Holding)
    requires rate >= MinRoi
    ensures r.amount == RoiAmount(h.amount + h.sip, rate)
    ensures r.(amount := h.amount) == h
  {
    WithRoi(Invest(h), rate)
  }

  /** Position of the first holding whose ROI is refused (|hs| when none is). */
  function FirstRejected(hs: seq<Holding>, roiMap: map<AssetType, real>): (k: nat)
    ensures k <= |hs|
    ensures forall i :: 0 <= i < k ==> RateFor(roiMap, hs[i].kind) >= MinRoi
    ensures k < |hs| ==> RateFor(roiMap, hs[k].kind) < MinRoi
  {
    if hs == [] || RateFor(roiMap, hs[0].kind) < MinRoi then 0
    else 1 + FirstRejected(hs[1..], roiMap)
  }

  /** `applyMonthlyChanges(roiMap)` on the values. Assets are visited in order; the
      first refused ROI stops the visit after that asset's SIP was already added,
      and earlier assets keep their update: the update is not atomic. */
  function MonthlyChanges(hs: seq<Holding>, roiMap: map<AssetType, real>): (r: (seq<Holding>, Outcome))
    ensures |r.0| == |hs|
    ensures forall i :: 0 <= i < |hs| ==> r.0[i].(amount := hs[i].amount) == hs[i]
    ensures r.1.Pass? <==> forall i :: 0 <= i < |hs| ==> RateFor(roiMap, hs[i].kind) >= MinRoi
    ensures r.1.Fail? ==> r.1 == Fail(IllegalArgument(RoiTooLowMessage))
  {
    var k := FirstRejected(hs, roiMap);
    (seq(|hs|, i requires 0 <= i < |hs| =>
       if i < k then MonthStep(hs[i], RateFor(roiMap, hs[i].kind))
       else if i == k then Invest(hs[i])
       else hs[i]),
     if k < |hs| then Fail(IllegalArgument(RoiTooLowMessage)) else Pass)
  }

  /** Holding `k` once the visit of `applyMonthlyChanges` has gone through the
      first `i` holdings: those got their SIP and ROI, the rest are untouched. */
  function MonthlyAt(hs: seq<Holding>, roiMap: map<AssetType, real>, i: nat, k: nat): Holding
    requires i <= FirstRejected(hs, roiMap) && k < |hs|
  {
    if k < i then MonthStep(hs[k], RateFor(roiMap, hs[k].kind)) else hs[k]
  }

  /** The visit stops at holding `i` once its ROI is refused; holding `i` keeps
      the SIP it already got and the result is that of `MonthlyChanges`. */
  lemma MonthlyChangesStop(hs: seq<Holding>, roiMap: map<AssetType, real>, i: nat, now: seq<Holding>)
    requires i <= FirstRejected(hs, roiMap) && i < |hs|
    requires RateFor(roiMap, hs[i].kind) < MinRoi
    requires |now| == |hs|
    requires forall k :: 0 <= k < |hs| ==> now[k] == if k == i then Invest(hs[k]) else MonthlyAt(hs, roiMap, i, k)
    ensures (now, Fail(IllegalArgument(RoiTooLowMessage))) == MonthlyChanges(hs, roiMap)
  {
    var m := MonthlyChanges(hs, roiMap);
    assert i == FirstRejected(hs, roiMap);
    forall k | 0 <= k < |hs|
      ensures now[k] == m.0[k]
    {
    }
    assert now == m.0;
  }

  /** The visit that went through every holding gives the result of `MonthlyChanges`. */
  lemma MonthlyChangesDone(hs: seq<Holding>, roiMap: map<AssetType, real>, now: seq<Holding>)
    requires |hs| <= FirstRejected(hs, roiMap)
    requires |now| == |hs|
    requires forall k :: 0 <= k < |hs| ==> now[k] == MonthlyAt(hs, roiMap, |hs|, k)
    ensures (now, Pass) == MonthlyChanges(hs, roiMap)
  {
    var m := MonthlyChanges(hs, roiMap);
    forall k | 0 <= k < |hs|
      ensures now[k] == m.0[k]
    {
    }
    assert now == m.0;
  }

  /** When every ROI is accepted, each asset gets its SIP and then its ROI. */
  lemma MonthlyChangesAccepted(hs: seq<Holding>, roiMap: map<AssetType, real>, i: nat)
    requires forall j :: 0 <= j < |hs| ==> RateFor(roiMap, hs[j].kind) >= MinRoi
    requires i < |hs|
    ensures MonthlyChanges(hs, roiMap).1 == Pass
    ensures MonthlyChanges(hs, roiMap).0[i].amount
            == RoiAmount(hs[i].amount + hs[i].sip, RateFor(roiMap, hs[i].kind))
  {
  }

  /** `createSnapshot()` on the values: {type -> amount} in asset order. */
  function SnapshotOf(hs: seq<Holding>): Snapshot {
    seq(|hs|, i requires 0 <= i < |hs| => (hs[i].kind, hs[i].amount as int))
  }

  /** `totalValue()`: the sum of all amounts. */
  function Total(hs: seq<Holding>): nat {
    if hs == [] then 0 else hs[0].amount + Total(hs[1..])
  }

  function SumRatios(hs: seq<Holding>): real {
    if hs == [] then 0.0 else hs[0].ratio + SumRatios(hs[1..])
  }

  /** `calculateTargetAmount(total, ratio)`: floor(total * ratio). */
  function TargetAmount(total: int, ratio: real): (r: int)
    ensures r as real <= total as real * ratio < r as real + 1.0
    ensures total >= 0 && ratio >= 0.0 ==> r >= 0
  {
    (total as real * ratio).Floor
  }

  /** Every holding set to its share of `total`. */
  function RebalancedTo(total: nat, hs: seq<Holding>): (r: seq<Holding>)
    ensures |r| == |hs|
    ensures forall i :: 0 <= i < |hs| ==> r[i].(amount := hs[i].amount) == hs[i]
    ensures forall i :: 0 <= i < |hs| ==> r[i].amount == TargetAmount(total, hs[i].ratio)
  {
    seq(|hs|, i requires 0 <= i < |hs| => hs[i].(amount := TargetAmount(total, hs[i].ratio)))
  }

  /** `rebalanceToOriginalRatios()` on the values: each amount becomes
      floor(T * ratio), where T is the total before the rebalance. */
  function Rebalanced(hs: seq<Holding>): seq<Holding> {
    RebalancedTo(Total(hs), hs)
  }

  /** Flooring each share independently loses less than one unit per asset. */
  lemma {:induction false} RebalancedToBounds(total: nat, hs: seq<Holding>)
    ensures Total(RebalancedTo(total, hs)) as real <= total as real * SumRatios(hs)
    ensures total as real * SumRatios(hs) - |hs| as real < Total(RebalancedTo(total, hs)) as real
            || hs == []
  {
    if hs != [] {
      var r := RebalancedTo(total, hs);
      assert r[1..] == RebalancedTo(total, hs[1..]);
      RebalancedToBounds(total, hs[1..]);
      assert total as real * SumRatios(hs)
             == total as real * hs[0].ratio + total as real * SumRatios(hs[1..]);
    }
  }

  /** With ratios summing to at most 1 the rebalanced total never exceeds the
      total before; no remainder is redistributed. */
  lemma RebalanceNeverGrows(hs: seq<Holding>)
    requires SumRatios(hs) <= 1.0
    ensures Total(Rebalanced(hs)) <= Total(hs)
  {
    RebalancedToBounds(Total(hs), hs);
    ScaledAtMost(Total(Rebalanced(hs)), Total(hs), SumRatios(hs));
  }

  lemma ScaledAtMost(x: nat, t: nat, s: real)
    requires x as real <= t as real * s && s <= 1.0
    ensures x <= t
  {
    var c := 1.0 - s;
    assert t as real * c >= 0.0;
    assert t as real * s == t as real - t as real * c;
  }

  /** With ratios summing to exactly 1 the rebalanced total falls short of the
      total before by less than the number of assets. */
  lemma RebalanceShortfall(hs: seq<Holding>)
    requires SumRatios(hs) == 1.0
    ensures Total(hs) - |hs| < Total(Rebalanced(hs)) <= Total(hs)
  {
    RebalancedToBounds(Total(hs), hs);
  }

  /** The observable state of a portfolio. */
  datatype PortfolioState = PortfolioState(
    holdings: seq<Holding>,
    monthlySnapshots: map<string, Snapshot>,
    lastRebalanced: Option<Snapshot>)

  /** `new Portfolio()` */
  const EmptyPortfolio := PortfolioState([], map[], None)

  /** `getMonthlySnapshot(month)`: the stored copy, or the empty map. */
  function MonthlySnapshot(ps: PortfolioState, month: string): Snapshot {
    var key := NormalizeMonth(month);
    if key in ps.monthlySnapshots then ps.monthlySnapshots[key] else []
  }

  /** `getLastRebalancedSnapshot()`: the stored copy, or the empty map. */
  function LastRebalancedSnapshot(ps: PortfolioState): Snapshot {
    if ps.lastRebalanced.Some? then ps.lastRebalanced.value else []
  }

  /** `applyMonthlyChanges(roiMap)` on the state. */
  function AfterMonthly(ps: PortfolioState, roiMap: map<AssetType, real>): (r: (PortfolioState, Outcome))
    ensures r.0 == ps.(holdings := r.0.holdings)
    ensures (r.0.holdings, r.1) == MonthlyChanges(ps.holdings, roiMap)
  {
    var changed := MonthlyChanges(ps.holdings, roiMap);
    (ps.(holdings := changed.0), changed.1)
  }

  /** `saveMonthlySnapshot(month)` on the state: the current amounts are stored
      under the normalised month, replacing an earlier entry for that key only. */
  function Saved(ps: PortfolioState, month: string): (r: PortfolioState)
    ensures r.holdings == ps.holdings && r.lastRebalanced == ps.lastRebalanced
    ensures forall m :: NormalizeMonth(m) == NormalizeMonth(month) ==>
      MonthlySnapshot(r, m) == SnapshotOf(ps.holdings)
    ensures forall m :: NormalizeMonth(m) != NormalizeMonth(month) ==>
      MonthlySnapshot(r, m) == MonthlySnapshot(ps, m)
  {
    ps.(monthlySnapshots := ps.monthlySnapshots[NormalizeMonth(month) := SnapshotOf(ps.holdings)])
  }

  /** `rebalanceToOriginalRatios()` on the state: the snapshots by month are kept,
      the last-rebalance snapshot records the new amounts. */
  function AfterRebalance(ps: PortfolioState): (r: PortfolioState)
    ensures r.holdings == Rebalanced(ps.holdings)
    ensures r.monthlySnapshots == ps.monthlySnapshots
    ensures LastRebalancedSnapshot(r) == SnapshotOf(r.holdings)
  {
    var hs := Rebalanced(ps.holdings);
    ps.(holdings := hs, lastRebalanced := Some(SnapshotOf(hs)))
  }

  /** A new portfolio has no snapshot for any month and no rebalance snapshot;
      rebalancing a portfolio without assets records an empty snapshot. */
  lemma EmptySnapshots(ps: PortfolioState, month: string)
    requires ps.holdings == []
    ensures MonthlySnapshot(EmptyPortfolio, month) == []
    ensures LastRebalancedSnapshot(EmptyPortfolio) == []
    ensures LastRebalancedSnapshot(AfterRebalance(ps)) == []
  {
  }

  // ---------------------------------------------------------------------------
  // Asset lookup by type, in an insertion-ordered sequence
  // ---------------------------------------------------------------------------

  predicate DistinctAssets(s: seq<Asset>) {
    forall i, j :: 0 <= i < j < |s| ==> s[i].assetType != s[j].assetType
  }

  /** Position of the asset of type `t` (|s| when there is none). */
  function Find(s: seq<Asset>, t: AssetType): (k: nat)
    ensures k <= |s|
    ensures k < |s| ==> s[k].assetType == t
    ensures forall i :: 0 <= i < k ==> s[i].assetType != t
  {
    if s == [] || s[0].assetType == t then 0 else 1 + Find(s[1..], t)
  }

  /** `LinkedHashMap.put(type, asset)`: a known type keeps its position, a new
      type goes to the end. */
  function Put(s: seq<Asset>, a: Asset): seq<Asset> {
    var k := Find(s, a.assetType);
    if k < |s| then s[k := a] else s + [a]
  }

  /** Insertion or replacement by type keeps the types distinct; replacing keeps
      the count and every other entry in place, inserting appends. */
  lemma PutShape(s: seq<Asset>, a: Asset)
    requires DistinctAssets(s)
    ensures DistinctAssets(Put(s, a))
    ensures Find(Put(s, a), a.assetType) < |Put(s, a)| && Put(s, a)[Find(Put(s, a), a.assetType)] == a
    ensures Find(s, a.assetType) < |s| ==>
      |Put(s, a)| == |s| && forall i :: 0 <= i < |s| && s[i].assetType != a.assetType ==> Put(s, a)[i] == s[i]
    ensures Find(s, a.assetType) == |s| ==> Put(s, a) == s + [a]
  {
  }

  /** Lookup after `Put`: the inserted asset is found under its type; every
      other type finds what it found before, or nothing as before. */
  lemma FindAfterPut(s: seq<Asset>, a: Asset, t: AssetType)
    requires DistinctAssets(s)
    ensures var s' := Put(s, a);
      && (t == a.assetType ==> Find(s', t) < |s'| && s'[Find(s', t)] == a)
      && (t != a.assetType ==> (Find(s', t) < |s'| <==> Find(s, t) < |s|))
      && (t != a.assetType && Find(s, t) < |s| ==> s'[Find(s', t)] == s[Find(s, t)])
  {
    PutShape(s, a);
    var s' := Put(s, a);
    if t != a.assetType && Find(s, t) < |s| {
      assert s'[Find(s, t)] == s[Find(s, t)];
    }
  }

  function HoldingsOf(s: seq<Asset>): seq<Holding>
    reads s
  {
    seq(|s|, i requires 0 <= i < |s| reads s => s[i].View())
  }

  // ---------------------------------------------------------------------------
  // The Portfolio object
  // ---------------------------------------------------------------------------

  class Portfolio {
    var assets: seq<Asset>
    var monthlySnapshots: map<string, Snapshot>
    var lastRebalancedSnapshot: Option<Snapshot>

    /** One asset per type (the map is keyed by type). */
    ghost predicate Valid()
      reads this
    {
      DistinctAssets(assets)
    }

    function Holdings(): seq<Holding>
      reads this, assets
    {
      HoldingsOf(assets)
    }

    function State(): PortfolioState
      reads this, assets
    {
      PortfolioState(Holdings(), monthlySnapshots, lastRebalancedSnapshot)
    }

    constructor ()
      ensures Valid() && assets == [] && State() == EmptyPortfolio
    {
      assets := [];
      monthlySnapshots := map[];
      lastRebalancedSnapshot := None;
    }

    /** `addAsset(asset)`: inserts, or replaces the asset of the same type in place. */
    method AddAsset(asset: Asset)
      requires Valid()
      modifies this
      ensures Valid()
      ensures assets == Put(old(assets), asset)
      ensures monthlySnapshots == old(monthlySnapshots)
      ensures lastRebalancedSnapshot == old(lastRebalancedSnapshot)
    {
      PutShape(assets, asset);
      assets := Put(assets, asset);
    }

    /** `getAsset(type)`: the asset of that type, or null. */
    function GetAsset(t: AssetType): (r: Asset?)
      reads this
      ensures r == null <==> forall i :: 0 <= i < |assets| ==> assets[i].assetType != t
      ensures r != null ==> r.assetType == t && r in assets
    {
      var k := Find(assets, t);
      if k < |assets| then assets[k] else null
    }

    /** `applyMonthlyChanges(roiMap)` */
    method ApplyMonthlyChanges(roiMap: map<AssetType, real>) returns (r: Outcome)
      requires Valid()
      modifies assets
      ensures (State(), r) == AfterMonthly(old(State()), roiMap)
    {
      var items := assets;
      ghost var before := HoldingsOf(items);
      ghost var start := old(State());
      var i := 0;
      while i < |items|
        invariant i <= FirstRejected(before, roiMap)
        invariant forall k :: 0 <= k < |items| ==> items[k].View() == MonthlyAt(before, roiMap, i, k)
      {
        var asset := items[i];
        asset.InvestSip();
        var roi := RateFor(roiMap, asset.assetType);
        r := asset.ApplyMonthlyRoi(roi);
        if r.Fail? {
          MonthlyChangesStop(before, roiMap, i, HoldingsOf(items));
          assert State() == start.(holdings := HoldingsOf(items));
          return;
        }
        i := i + 1;
      }
      r := Pass;
      MonthlyChangesDone(before, roiMap, HoldingsOf(items));
      assert State() == start.(holdings := HoldingsOf(items));
    }

    /** `saveMonthlySnapshot(month)` */
    method SaveMonthlySnapshot(month: string)
      modifies this
      ensures assets == old(assets)
      ensures State() == Saved(old(State()), month)
    {
      var snapshot := CreateSnapshot();
      assert snapshot == SnapshotOf(Holdings());
      monthlySnapshots := monthlySnapshots[NormalizeMonth(month) := snapshot];
    }

    /** `getMonthlySnapshot(month)` */
    function GetMonthlySnapshot(month: string): Snapshot
      reads this, assets
    {
      MonthlySnapshot(State(), month)
    }

    /** `rebalanceToOriginalRatios()` */
    method RebalanceToOriginalRatios()
      requires Valid()
      modifies this, assets
      ensures assets == old(assets)
      ensures State() == AfterRebalance(old(State()))
    {
      var total := TotalValue();
      ghost var before := Holdings();
      var i := 0;
      while i < |assets|
        invariant 0 <= i <= |assets| && assets == old(assets)
        invariant monthlySnapshots == old(monthlySnapshots)
        invariant forall k :: 0 <= k < i ==> assets[k].View() == Rebalanced(before)[k]
        invariant forall k :: i <= k < |assets| ==> assets[k].View() == before[k]
      {
        var target := TargetAmount(total, assets[i].allocationRatio);
        var updated := assets[i].UpdateAmount(target);
        i := i + 1;
      }
      assert Holdings() == Rebalanced(before);
      var snapshot := CreateSnapshot();
      assert snapshot == SnapshotOf(Holdings());
      lastRebalancedSnapshot := Some(snapshot);
    }

    /** `getLastRebalancedSnapshot()` */
    function GetLastRebalancedSnapshot(): Snapshot
      reads this, assets
    {
      LastRebalancedSnapshot(State())
    }

    /** `createSnapshot()`: copies {type -> amount} in asset order. */
    method CreateSnapshot() returns (snapshot: Snapshot)
      ensures |snapshot| == |assets|
      ensures forall i :: 0 <= i < |assets| ==>
        snapshot[i] == (assets[i].assetType, assets[i].amount as int)
    {
      snapshot := [];
      for i := 0 to |assets|
        invariant |snapshot| == i
        invariant forall k :: 0 <= k < i ==> snapshot[k] == (assets[k].assetType, assets[k].amount as int)
      {
        snapshot := snapshot + [(assets[i].assetType, assets[i].amount as int)];
      }
    }

    /** `totalValue()` */
    function TotalValue(): nat
      reads this, assets
    {
      Total(Holdings())
    }
  }
}
