/**
 * The figures of the dashboard (app/kontrol-paneli/page.tsx): total value, the split of value
 * between the groom's and the bride's side, the per-type groups sorted by value, and the three
 * most recent assets.
 */
module Dashboard {
  import opened Wrappers
  import opened Types
  import opened Sums
  import opened Sorting

  /** An asset as the dashboard lists it (newest first, as the API orders them). */
  datatype DashboardAsset = DashboardAsset(
    id: string,
    assetType: AssetType,
    initialValue: real,
    donorId: string,
    donorName: string,
    dateReceived: int)

  /** The side of the wedding an asset's value is booked to. */
  datatype Side = Groom | Bride | Both

  /** One row of the per-type summary. */
  datatype TypeGroup = TypeGroup(assetType: AssetType, count: nat, totalValue: real)

  /** One line of the "recent assets" list. */
  datatype RecentAsset = RecentAsset(
    id: string,
    assetType: AssetType,
    initialValue: real,
    donorName: string,
    date: int)

  function InitialValueOf(asset: DashboardAsset): real {
    asset.initialValue
  }

  function TypeOf(asset: DashboardAsset): AssetType {
    asset.assetType
  }

  /** `assets.reduce((sum, asset) => sum + asset.initialValue, 0)`. */
  function TotalValue(assets: seq<DashboardAsset>): real {
    FoldLeft(0.0, assets, InitialValueOf)
  }

  // ---------------------------------------------------------------------------------------
  // Side distribution

  /** `donors.find(d => d.id === id)`: the first donor with that id. */
  function FindDonor(donors: seq<Donor>, id: string): (r: Option<Donor>)
    ensures r.None? <==> forall k :: 0 <= k < |donors| ==> donors[k].id != id
    ensures r.Some? ==> exists k :: (0 <= k < |donors| && donors[k] == r.value && r.value.id == id
      && forall j :: 0 <= j < k ==> donors[j].id != id)
    decreases |donors|
  {
    if donors == [] then None
    else if donors[0].id == id then Some(donors[0])
    else
      var r := FindDonor(donors[1..], id);
      if r.Some? then
        ghost var k :| 0 <= k < |donors[1..]| && donors[1..][k] == r.value && r.value.id == id
          && forall j :: 0 <= j < k ==> donors[1..][j].id != id;
        assert donors[k + 1] == r.value;
        r
      else
        r
  }

  /** The bucket an asset's value goes to: both flags, else the groom's, else the bride's;
      none when the donor has neither flag or is not in the list. */
  function SideOf(asset: DashboardAsset, donors: seq<Donor>): Option<Side> {
    match FindDonor(donors, asset.donorId)
    case None => None
    case Some(donor) =>
      if donor.isGroomSide && donor.isBrideSide then Some(Both)
      else if donor.isGroomSide then Some(Groom)
      else if donor.isBrideSide then Some(Bride)
      else None
  }

  /** The initial value booked to `side` over `assets`. */
  function SideTotal(assets: seq<DashboardAsset>, donors: seq<Donor>, side: Side): real
    decreases |assets|
  {
    if assets == [] then 0.0
    else
      var last := assets[|assets| - 1];
      SideTotal(assets[..|assets| - 1], donors, side)
        + (if SideOf(last, donors) == Some(side) then last.initialValue else 0.0)
  }

  /** The initial value of the assets whose donor falls in no bucket. */
  function UnbookedTotal(assets: seq<DashboardAsset>, donors: seq<Donor>): real
    decreases |assets|
  {
    if assets == [] then 0.0
    else
      var last := assets[|assets| - 1];
      UnbookedTotal(assets[..|assets| - 1], donors)
        + (if SideOf(last, donors).None? then last.initialValue else 0.0)
  }

  /** The loop that adds each asset's initial value into its side's bucket. */
  method SideDistribution(assets: seq<DashboardAsset>, donors: seq<Donor>)
    returns (groom: real, bride: real, both: real)
    ensures groom == SideTotal(assets, donors, Groom)
    ensures bride == SideTotal(assets, donors, Bride)
    ensures both == SideTotal(assets, donors, Both)
  {
    groom, bride, both := 0.0, 0.0, 0.0;
    for i := 0 to |assets|
      invariant groom == SideTotal(assets[..i], donors, Groom)
      invariant bride == SideTotal(assets[..i], donors, Bride)
      invariant both == SideTotal(assets[..i], donors, Both)
    {
      assert assets[..i + 1][..i] == assets[..i];
      var asset := assets[i];
      var donor := FindDonor(donors, asset.donorId);
      if donor.Some? {
        if donor.value.isGroomSide && donor.value.isBrideSide {
          both := both + asset.initialValue;
        } else if donor.value.isGroomSide {
          groom := groom + asset.initialValue;
        } else if donor.value.isBrideSide {
          bride := bride + asset.initialValue;
        }
      }
    }
    assert assets[..|assets|] == assets;
  }

  /** Every asset's value is booked to exactly one bucket or to none: the three buckets and the
      unbooked rest add up to the total value. */
  lemma {:induction false} SideBucketsPartitionTotal(assets: seq<DashboardAsset>, donors: seq<Donor>)
    ensures SideTotal(assets, donors, Groom) + SideTotal(assets, donors, Bride)
      + SideTotal(assets, donors, Both) + UnbookedTotal(assets, donors) == TotalValue(assets)
    decreases |assets|
  {
    FoldLeftIsSum(0.0, assets, InitialValueOf);
    if assets != [] {
      var init := assets[..|assets| - 1];
      SideBucketsPartitionTotal(init, donors);
      FoldLeftIsSum(0.0, init, InitialValueOf);
    }
  }

  /** Half of the "both" bucket is shown on each side. */
  function DisplaySideValues(groom: real, bride: real, both: real): (r: (real, real))
    ensures r.0 + r.1 == groom + bride + both
    ensures r.0 - r.1 == groom - bride
  {
    (groom + both / 2.0, bride + both / 2.0)
  }

  // ---------------------------------------------------------------------------------------
  // Per-type groups

  function GroupTotal(group: TypeGroup): real {
    group.totalValue
  }

  /** The sort key of `b.totalValue - a.totalValue`: descending total value. */
  function DescendingTotal(group: TypeGroup): real {
    -group.totalValue
  }

  /** The types of the rows, in order. */
  function GroupTypes(groups: seq<TypeGroup>): (ts: seq<AssetType>)
    ensures |ts| == |groups|
    ensures forall i :: 0 <= i < |groups| ==> ts[i] == groups[i].assetType
    decreases |groups|
  {
    if groups == [] then [] else GroupTypes(groups[..|groups| - 1]) + [groups[|groups| - 1].assetType]
  }

  /** `groups` has one row per asset type present, holding that type's asset count and value. */
  ghost predicate IsTypeSummary(assets: seq<DashboardAsset>, groups: seq<TypeGroup>) {
    && Distinct(GroupTypes(groups))
    && (forall k :: 0 <= k < |assets| ==> assets[k].assetType in GroupTypes(groups))
    && (forall g :: g in groups ==>
          && 0 < g.count
          && g.count == CountIf(assets, TypeOf, g.assetType)
          && g.totalValue == SumIf(assets, TypeOf, g.assetType, InitialValueOf))
  }

  /** Every asset has a type, which is its key in the grouping map. */
  function SomeType(asset: DashboardAsset): Option<AssetType> {
    Some(asset.assetType)
  }

  /** The entry of `typeMap` for type `t` after the loop over `assets`. */
  ghost predicate GroupsOf(assets: seq<DashboardAsset>, typeMap: map<AssetType, TypeGroup>, order: seq<AssetType>) {
    && Distinct(order)
    && (forall t :: t in typeMap <==> t in order)
    && (forall k :: 0 <= k < |assets| ==> assets[k].assetType in typeMap)
    && (forall t :: t in typeMap ==>
          && typeMap[t].assetType == t
          && 0 < typeMap[t].count
          && typeMap[t].count == CountIf(assets, TypeOf, t)
          && typeMap[t].totalValue == SumIf(assets, TypeOf, t, InitialValueOf))
    && (forall t :: t !in typeMap ==>
          CountIf(assets, TypeOf, t) == 0 && SumIf(assets, TypeOf, t, InitialValueOf) == 0.0)
  }

  /** The grouping loop: a `Map` keyed by type, which remembers the order in which the types are
      first met. */
  method GroupByType(assets: seq<DashboardAsset>)
    returns (typeMap: map<AssetType, TypeGroup>, order: seq<AssetType>)
    ensures GroupsOf(assets, typeMap, order)
    ensures order == FirstKeys(assets, SomeType)
  {
    typeMap, order := map[], [];
    for i := 0 to |assets|
      invariant GroupsOf(assets[..i], typeMap, order)
      invariant order == FirstKeys(assets[..i], SomeType)
    {
      var t := assets[i].assetType;
      ghost var before, orderBefore := typeMap, order;
      if t !in typeMap {
        typeMap := typeMap[t := TypeGroup(t, 0, 0.0)];
        order := order + [t];
      }
      var typeData := typeMap[t];
      typeMap := typeMap[t := typeData.(count := typeData.count + 1,
                                        totalValue := typeData.totalValue + assets[i].initialValue)];
      AbsorbAsset(assets, i, before, orderBefore);
      AbsorbOrder(assets, i, before, orderBefore);
    }
    assert assets[..|assets|] == assets;
  }

  /** The grouping loop followed by `Array.from(typeMap.values())`: the rows come in the order
      their types were first met. */
  method CollectTypeGroups(assets: seq<DashboardAsset>) returns (values: seq<TypeGroup>)
    ensures IsTypeSummary(assets, values)
    ensures GroupTypes(values) == FirstKeys(assets, SomeType)
  {
    var typeMap, order := GroupByType(assets);
    values := [];
    for k := 0 to |order|
      invariant |values| == k
      invariant forall m :: 0 <= m < k ==> values[m] == typeMap[order[m]]
    {
      values := values + [typeMap[order[k]]];
    }
    assert GroupTypes(values) == order;
  }

  /** The map after the loop body for `assets[i]`: its type's row, opened if missing, absorbs it. */
  function AbsorbedGroups(assets: seq<DashboardAsset>, i: int, typeMap: map<AssetType, TypeGroup>)
    : map<AssetType, TypeGroup>
    requires 0 <= i < |assets|
  {
    var t := assets[i].assetType;
    var typeData := if t in typeMap then typeMap[t] else TypeGroup(t, 0, 0.0);
    typeMap[t := typeData.(count := typeData.count + 1, totalValue := typeData.totalValue + assets[i].initialValue)]
  }

  /** A type is appended to the order on its first asset, so the order stays the first-met one. */
  lemma AbsorbOrder(assets: seq<DashboardAsset>, i: int, typeMap: map<AssetType, TypeGroup>, order: seq<AssetType>)
    requires 0 <= i < |assets|
    requires GroupsOf(assets[..i], typeMap, order)
    requires order == FirstKeys(assets[..i], SomeType)
    ensures (if assets[i].assetType in typeMap then order else order + [assets[i].assetType])
            == FirstKeys(assets[..i + 1], SomeType)
  {
    FirstKeysStep(assets, i, SomeType);
  }

  /** The loop body keeps `GroupsOf`, and appends the type to the order exactly on its first asset. */
  lemma AbsorbAsset(assets: seq<DashboardAsset>, i: int, typeMap: map<AssetType, TypeGroup>, order: seq<AssetType>)
    requires 0 <= i < |assets|
    requires GroupsOf(assets[..i], typeMap, order)
    ensures GroupsOf(assets[..i + 1], AbsorbedGroups(assets, i, typeMap),
                     if assets[i].assetType in typeMap then order else order + [assets[i].assetType])
  {
    forall t: AssetType
      ensures CountIf(assets[..i + 1], TypeOf, t)
        == CountIf(assets[..i], TypeOf, t) + (if assets[i].assetType == t then 1 else 0)
      ensures SumIf(assets[..i + 1], TypeOf, t, InitialValueOf)
        == SumIf(assets[..i], TypeOf, t, InitialValueOf)
           + (if assets[i].assetType == t then assets[i].initialValue else 0.0)
    {
      GroupStep(assets, i, t);
    }
  }

  lemma GroupStep(assets: seq<DashboardAsset>, i: int, t: AssetType)
    requires 0 <= i < |assets|
    ensures CountIf(assets[..i + 1], TypeOf, t)
      == CountIf(assets[..i], TypeOf, t) + (if assets[i].assetType == t then 1 else 0)
    ensures SumIf(assets[..i + 1], TypeOf, t, InitialValueOf)
      == SumIf(assets[..i], TypeOf, t, InitialValueOf)
         + (if assets[i].assetType == t then assets[i].initialValue else 0.0)
  {
    assert assets[..i + 1] == assets[..i] + [assets[i]];
    CountIfLast(assets[..i], assets[i], TypeOf, t);
    SumIfLast(assets[..i], assets[i], TypeOf, t, InitialValueOf);
  }

  /** Any reordering of a type summary is one too. */
  lemma SummaryReordered(assets: seq<DashboardAsset>, values: seq<TypeGroup>, groups: seq<TypeGroup>)
    requires IsTypeSummary(assets, values)
    requires multiset(groups) == multiset(values)
    ensures IsTypeSummary(assets, groups)
  {
    forall i, j | 0 <= i < j < |groups| ensures GroupTypes(groups)[i] != GroupTypes(groups)[j] {
      if groups[i].assetType == groups[j].assetType {
        assert groups[i] in multiset(values) && groups[j] in multiset(values);
        assert groups[i] == groups[j];
        MultisetHasRepeat(groups, i, j);
        DistinctElementsOccurOnce(values, groups[i]);
      }
    }
    forall k | 0 <= k < |assets| ensures assets[k].assetType in GroupTypes(groups) {
      var i :| 0 <= i < |values| && GroupTypes(values)[i] == assets[k].assetType;
      assert values[i] in multiset(groups);
      var j :| 0 <= j < |groups| && groups[j] == values[i];
      assert GroupTypes(groups)[j] == assets[k].assetType;
    }
    forall g | g in groups
      ensures 0 < g.count
      ensures g.count == CountIf(assets, TypeOf, g.assetType)
      ensures g.totalValue == SumIf(assets, TypeOf, g.assetType, InitialValueOf)
    {
      assert g in multiset(groups);
    }
  }

  /** The per-type rows, sorted by total value, largest first. */
  method AssetTypeGroups(assets: seq<DashboardAsset>) returns (groups: seq<TypeGroup>)
    ensures IsTypeSummary(assets, groups)
    ensures forall i, j :: 0 <= i < j < |groups| ==> groups[i].totalValue >= groups[j].totalValue
  {
    var values := CollectTypeGroups(assets);
    groups := SortBy(values, DescendingTotal);
    SummaryReordered(assets, values, groups);
    forall i, j | 0 <= i < j < |groups| ensures groups[i].totalValue >= groups[j].totalValue {
      assert DescendingTotal(groups[i]) <= DescendingTotal(groups[j]);
    }
  }

  /** The number of assets over all rows. */
  function TotalCount(groups: seq<TypeGroup>): nat
    decreases |groups|
  {
    if groups == [] then 0 else TotalCount(groups[..|groups| - 1]) + groups[|groups| - 1].count
  }

  /** Each row holds the count and value of its own type, so the rows add up per key. */
  lemma {:induction false} RowsAreKeySums(assets: seq<DashboardAsset>, groups: seq<TypeGroup>)
    requires forall g :: g in groups ==>
      g.count == CountIf(assets, TypeOf, g.assetType)
      && g.totalValue == SumIf(assets, TypeOf, g.assetType, InitialValueOf)
    ensures TotalCount(groups) == CountByKeys(GroupTypes(groups), assets, TypeOf)
    ensures Sum(groups, GroupTotal) == SumByKeys(GroupTypes(groups), assets, TypeOf, InitialValueOf)
    decreases |groups|
  {
    if groups != [] {
      var init := groups[..|groups| - 1];
      assert forall g :: g in init ==> g in groups;
      RowsAreKeySums(assets, init);
      assert GroupTypes(groups)[..|groups| - 1] == GroupTypes(init);
      assert groups[|groups| - 1] in groups;
    }
  }

  /** The rows of a type summary account for every asset once: their counts add up to the number
      of assets and their values to the dashboard's total value. */
  lemma TypeGroupsAddUp(assets: seq<DashboardAsset>, groups: seq<TypeGroup>)
    requires IsTypeSummary(assets, groups)
    ensures TotalCount(groups) == |assets|
    ensures Sum(groups, GroupTotal) == TotalValue(assets)
  {
    RowsAreKeySums(assets, groups);
    CountByKeysCovers(GroupTypes(groups), assets, TypeOf);
    SumByKeysCovers(GroupTypes(groups), assets, TypeOf, InitialValueOf);
    FoldLeftIsSum(0.0, assets, InitialValueOf);
  }

  // ---------------------------------------------------------------------------------------
  // Recent assets

  function ToRecent(asset: DashboardAsset): RecentAsset {
    RecentAsset(asset.id, asset.assetType, asset.initialValue, asset.donorName, asset.dateReceived)
  }

  /** `assets.slice(0, 3)` mapped to list lines: the newest three, in the order given. */
  function RecentAssets(assets: seq<DashboardAsset>): (r: seq<RecentAsset>)
    ensures |r| <= 3 && |r| <= |assets|
    ensures |r| == 3 || |r| == |assets|
    ensures forall i :: 0 <= i < |r| ==> r[i] == ToRecent(assets[i])
    decreases |assets|
  {
    if assets == [] then []
    else if |assets| > 3 then RecentAssets(assets[..3])
    else RecentAssets(assets[..|assets| - 1]) + [ToRecent(assets[|assets| - 1])]
  }
}
