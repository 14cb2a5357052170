/** The asset classes, in declaration order; every EnumMap and every loop over
    `AssetType.values()` iterates in this order. */
module AssetTypes {

  datatype AssetType = EQUITY | DEBT | GOLD

  /** `AssetType.values()` */
  const AssetTypeValues: seq<AssetType> := [EQUITY, DEBT, GOLD]

  /** Position of `t` in the declaration order (`t.ordinal()`). */
  function AssetOrdinal(t: AssetType): (r: nat)
    ensures r < |AssetTypeValues| && AssetTypeValues[r] == t
  {
    match t
    case EQUITY => 0
    case DEBT => 1
    case GOLD => 2
  }

  /** Every asset class occurs exactly once in `AssetTypes`. */
  lemma OrdinalOfValues(i: nat)
    requires i < |AssetTypeValues|
    ensures AssetOrdinal(AssetTypeValues[i]) == i
  {
  }
}
