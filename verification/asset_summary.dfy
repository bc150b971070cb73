/**
 * The per-type summary table of the assets page (components/asset/asset-summary.tsx): one row per
 * asset type with its count, initial and current value and change, sorted by current value, and
 * a totals row.
 */
module AssetSummary {
  import opened Wrappers
  import opened Types
  import opened Sums
  import opened Sorting
  import Portfolio

  /** The type record joined to an asset: its enum value and current unit price. */
  datatype TypeInfo = TypeInfo(assetType: AssetType, currentValue: Option<real>)

  /** An asset as the summary reads it; the joined type record may be missing. */
  datatype SummaryAsset = SummaryAsset(
    typeInfo: Option<TypeInfo>,
    quantity: Option<real>,
    grams: Option<real>,
    initialValue: real)

  /** One row of the table. */
  datatype TypeStats = TypeStats(
    assetType: AssetType,
    displayName: string,
    count: real,
    initialValue: real,
    currentValue: real,
    change: Portfolio.ValueChange)

  /** The totals row. */
  datatype TotalStats = TotalStats(initialValue: real, currentValue: real, change: Portfolio.ValueChange)

  // ---------------------------------------------------------------------------------------
  // Display names

  /** The component's own name table, keyed by enum string. Its "RESAT" key is not an enum value. */
  const SummaryNames: map<string, string> := map[
    "CEYREK_ALTIN" := "Çeyrek Altın",
    "TAM_ALTIN" := "Tam Altın",
    "RESAT" := "Reşat",
    "BESI_BIR_YERDE" := "Beşi Bir Yerde",
    "BILEZIK" := "Bilezik",
    "GRAM_GOLD" := "Gram Altın",
    "TURKISH_LIRA" := "Türk Lirası",
    "DOLLAR" := "Dolar",
    "EURO" := "Euro"]

  /** `assetTypeNames[type] || type`. */
  function DisplayName(t: AssetType): string {
    if Key(t) in SummaryNames && SummaryNames[Key(t)] != "" then SummaryNames[Key(t)] else Key(t)
  }

  /** Eight types get a Turkish name; the half, Reşat, Republic and 22-karat gram coins are shown
      by their raw enum string, because the table has no entry for their keys. */
  lemma DisplayNames()
    ensures forall t :: t in {YarimAltin, ResatAltin, CumhuriyetAltin, GramAltin22K} <==> DisplayName(t) == Key(t)
    ensures DisplayName(CeyrekAltin) == "Çeyrek Altın" && DisplayName(GramGold) == "Gram Altın"
    ensures DisplayName(ResatAltin) == "RESAT_ALTIN"
    ensures forall t :: Key(t) != "RESAT"
  {
    forall t ensures t in {YarimAltin, ResatAltin, CumhuriyetAltin, GramAltin22K} <==> DisplayName(t) == Key(t) {
      match t
      case CeyrekAltin =>
      case YarimAltin =>
      case TamAltin =>
      case ResatAltin =>
      case CumhuriyetAltin =>
      case GramAltin22K =>
      case BesiBirYerde =>
      case Bilezik =>
      case GramGold =>
      case TurkishLira =>
      case Dollar =>
      case Euro =>
    }
  }

  // ---------------------------------------------------------------------------------------
  // Per-asset terms

  /** The grouping key: the asset's type, or none when the type record is missing (skipped). */
  function KeyOf(asset: SummaryAsset): Option<AssetType> {
    if asset.typeInfo.Some? then Some(asset.typeInfo.value.assetType) else None
  }

  /** `asset.quantity || 1`, for assets that are not skipped. */
  function TypedCount(asset: SummaryAsset): real {
    if asset.typeInfo.Some? then Portfolio.QuantityOrOne(asset.quantity) else 0.0
  }

  function TypedInitial(asset: SummaryAsset): real {
    if asset.typeInfo.Some? then asset.initialValue else 0.0
  }

  /** The unit price (`|| 0`) times the weight (`grams || 0`) for bracelets and gram gold, and
      times `quantity || 1` for currencies and every other type. */
  function CurrentOf(asset: SummaryAsset): real {
    match asset.typeInfo
    case None => 0.0
    case Some(info) =>
      var unit := info.currentValue.GetOr(0.0);
      if info.assetType == Bilezik || info.assetType == GramGold then
        unit * asset.grams.GetOr(0.0)
      else if info.assetType == TurkishLira || info.assetType == Dollar || info.assetType == Euro then
        unit * Portfolio.QuantityOrOne(asset.quantity)
      else
        unit * Portfolio.QuantityOrOne(asset.quantity)
  }

  /** The summary and the portfolio total value an asset alike, except for a bracelet or gram
      gold without a weight: the summary counts it as 0, the portfolio by its quantity. */
  lemma CurrentValueAgainstPortfolio(asset: SummaryAsset, info: TypeInfo)
    requires asset.typeInfo == Some(info)
    ensures var p := Portfolio.PortfolioAsset(asset.initialValue, asset.quantity, asset.grams,
                                              info.assetType, info.currentValue);
      && (IsWeighedGold(info.assetType) && (asset.grams.None? || asset.grams.value == 0.0)
          ==> CurrentOf(asset) == 0.0
              && Portfolio.Contribution(p) == info.currentValue.GetOr(0.0) * Portfolio.QuantityOrOne(asset.quantity))
      && (!(IsWeighedGold(info.assetType) && (asset.grams.None? || asset.grams.value == 0.0))
          ==> CurrentOf(asset) == Portfolio.Contribution(p))
  {
  }

  // ---------------------------------------------------------------------------------------
  // Rows

  /** The row `s` after the second loop has filled in its change fields. */
  function WithChange(s: TypeStats): TypeStats {
    s.(change := Portfolio.ChangeMetrics(s.initialValue, s.currentValue))
  }

  /** The row opened for type `t` on its first asset. */
  function NewRow(t: AssetType): TypeStats {
    TypeStats(t, DisplayName(t), 0.0, 0.0, 0.0, Portfolio.ValueChange(0.0, 0.0, false))
  }

  /** The keys of the rows, in order. */
  function RowKeys(stats: seq<TypeStats>): (ks: seq<Option<AssetType>>)
    ensures |ks| == |stats|
    ensures forall i :: 0 <= i < |stats| ==> ks[i] == Some(stats[i].assetType)
    decreases |stats|
  {
    if stats == [] then [] else RowKeys(stats[..|stats| - 1]) + [Some(stats[|stats| - 1].assetType)]
  }

  /** A row holds the name, sums and change of the assets of its type. */
  ghost predicate IsRowOf(assets: seq<SummaryAsset>, s: TypeStats) {
    && s.displayName == DisplayName(s.assetType)
    && 0 < CountIf(assets, KeyOf, Some(s.assetType))
    && s.count == SumIf(assets, KeyOf, Some(s.assetType), TypedCount)
    && s.initialValue == SumIf(assets, KeyOf, Some(s.assetType), TypedInitial)
    && s.currentValue == SumIf(assets, KeyOf, Some(s.assetType), CurrentOf)
    && s.change == Portfolio.ChangeMetrics(s.initialValue, s.currentValue)
  }

  /** `stats` has one row per type present among the assets that have a type record. */
  ghost predicate IsStatsSummary(assets: seq<SummaryAsset>, stats: seq<TypeStats>) {
    && Distinct(RowKeys(stats))
    && (forall k :: 0 <= k < |assets| && assets[k].typeInfo.Some? ==> KeyOf(assets[k]) in RowKeys(stats))
    && (forall s :: s in stats ==> IsRowOf(assets, s))
  }

  /** The state of the first loop after the assets `assets`: rows without their change fields. */
  ghost predicate PartialRows(assets: seq<SummaryAsset>, statsByType: map<AssetType, TypeStats>,
                              order: seq<AssetType>) {
    RowShape(assets, statsByType, order) && RowSums(assets, statsByType)
  }

  /** One row per type met so far, in the order first met. */
  ghost predicate RowShape(assets: seq<SummaryAsset>, statsByType: map<AssetType, TypeStats>,
                           order: seq<AssetType>) {
    && OrderListsKeys(statsByType, order)
    && CoversTyped(assets, statsByType)
    && RowsLabelled(statsByType)
  }

  ghost predicate OrderListsKeys(statsByType: map<AssetType, TypeStats>, order: seq<AssetType>) {
    Distinct(order) && forall t :: t in statsByType <==> t in order
  }

  ghost predicate CoversTyped(assets: seq<SummaryAsset>, statsByType: map<AssetType, TypeStats>) {
    forall k :: 0 <= k < |assets| && assets[k].typeInfo.Some? ==>
      assets[k].typeInfo.value.assetType in statsByType
  }

  ghost predicate RowsLabelled(statsByType: map<AssetType, TypeStats>) {
    forall t :: t in statsByType ==>
      statsByType[t].assetType == t && statsByType[t].displayName == DisplayName(t)
  }

  /** Each row holds its type's sums so far; a type without a row has none. */
  ghost predicate RowSums(assets: seq<SummaryAsset>, statsByType: map<AssetType, TypeStats>) {
    && (forall t :: t in statsByType ==>
          && 0 < CountIf(assets, KeyOf, Some(t))
          && statsByType[t].count == SumIf(assets, KeyOf, Some(t), TypedCount)
          && statsByType[t].initialValue == SumIf(assets, KeyOf, Some(t), TypedInitial)
          && statsByType[t].currentValue == SumIf(assets, KeyOf, Some(t), CurrentOf))
    && (forall t :: t !in statsByType ==>
          && CountIf(assets, KeyOf, Some(t)) == 0
          && SumIf(assets, KeyOf, Some(t), TypedCount) == 0.0
          && SumIf(assets, KeyOf, Some(t), TypedInitial) == 0.0
          && SumIf(assets, KeyOf, Some(t), CurrentOf) == 0.0)
  }

  lemma RowStep(assets: seq<SummaryAsset>, i: int, t: AssetType)
    requires 0 <= i < |assets|
    ensures var hit := KeyOf(assets[i]) == Some(t);
      && CountIf(assets[..i + 1], KeyOf, Some(t)) == CountIf(assets[..i], KeyOf, Some(t)) + (if hit then 1 else 0)
      && SumIf(assets[..i + 1], KeyOf, Some(t), TypedCount)
         == SumIf(assets[..i], KeyOf, Some(t), TypedCount) + (if hit then TypedCount(assets[i]) else 0.0)
      && SumIf(assets[..i + 1], KeyOf, Some(t), TypedInitial)
         == SumIf(assets[..i], KeyOf, Some(t), TypedInitial) + (if hit then TypedInitial(assets[i]) else 0.0)
      && SumIf(assets[..i + 1], KeyOf, Some(t), CurrentOf)
         == SumIf(assets[..i], KeyOf, Some(t), CurrentOf) + (if hit then CurrentOf(assets[i]) else 0.0)
  {
    assert assets[..i + 1] == assets[..i] + [assets[i]];
    CountIfLast(assets[..i], assets[i], KeyOf, Some(t));
    SumIfLast(assets[..i], assets[i], KeyOf, Some(t), TypedCount);
    SumIfLast(assets[..i], assets[i], KeyOf, Some(t), TypedInitial);
    SumIfLast(assets[..i], assets[i], KeyOf, Some(t), CurrentOf);
  }

  /** An asset without a type record leaves the rows as they are. */
  lemma AbsorbUntyped(assets: seq<SummaryAsset>, i: int, statsByType: map<AssetType, TypeStats>,
                      order: seq<AssetType>)
    requires 0 <= i < |assets| && assets[i].typeInfo.None?
    requires PartialRows(assets[..i], statsByType, order)
    ensures PartialRows(assets[..i + 1], statsByType, order)
  {
    UntypedKeepsShape(assets, i, statsByType, order);
    UntypedKeepsSums(assets, i, statsByType);
  }

  lemma UntypedKeepsShape(assets: seq<SummaryAsset>, i: int, statsByType: map<AssetType, TypeStats>,
                          order: seq<AssetType>)
    requires 0 <= i < |assets| && assets[i].typeInfo.None?
    requires RowShape(assets[..i], statsByType, order)
    ensures RowShape(assets[..i + 1], statsByType, order)
  {
    var prefix := assets[..i + 1];
    forall k | 0 <= k < |prefix| && prefix[k].typeInfo.Some?
      ensures prefix[k].typeInfo.value.assetType in statsByType
    {
      assert prefix[k] == assets[..i][k];
    }
  }

  lemma UntypedKeepsSums(assets: seq<SummaryAsset>, i: int, statsByType: map<AssetType, TypeStats>)
    requires 0 <= i < |assets| && assets[i].typeInfo.None?
    requires RowSums(assets[..i], statsByType)
    ensures RowSums(assets[..i + 1], statsByType)
  {
    var prefix := assets[..i + 1];
    forall u | u in statsByType
      ensures 0 < CountIf(prefix, KeyOf, Some(u))
      ensures statsByType[u].count == SumIf(prefix, KeyOf, Some(u), TypedCount)
      ensures statsByType[u].initialValue == SumIf(prefix, KeyOf, Some(u), TypedInitial)
      ensures statsByType[u].currentValue == SumIf(prefix, KeyOf, Some(u), CurrentOf)
    {
      RowStep(assets, i, u);
    }
    forall u | u !in statsByType
      ensures CountIf(prefix, KeyOf, Some(u)) == 0
      ensures SumIf(prefix, KeyOf, Some(u), TypedCount) == 0.0
      ensures SumIf(prefix, KeyOf, Some(u), TypedInitial) == 0.0
      ensures SumIf(prefix, KeyOf, Some(u), CurrentOf) == 0.0
    {
      RowStep(assets, i, u);
    }
  }

  /** The row of `t` after adding asset `i` to it, opened first if needed. */
  function Absorbed(assets: seq<SummaryAsset>, i: int, t: AssetType, withRow: map<AssetType, TypeStats>)
    : map<AssetType, TypeStats>
    requires 0 <= i < |assets| && t in withRow
  {
    withRow[t := withRow[t].(count := withRow[t].count + TypedCount(assets[i]),
                             initialValue := withRow[t].initialValue + TypedInitial(assets[i]),
                             currentValue := withRow[t].currentValue + CurrentOf(assets[i]))]
  }

  /** An asset of type `t` is added to the row of `t`, opened first if needed. */
  lemma AbsorbTyped(assets: seq<SummaryAsset>, i: int, statsByType: map<AssetType, TypeStats>,
                    order: seq<AssetType>, t: AssetType, withRow: map<AssetType, TypeStats>,
                    order': seq<AssetType>)
    requires 0 <= i < |assets| && KeyOf(assets[i]) == Some(t)
    requires PartialRows(assets[..i], statsByType, order)
    requires withRow == if t in statsByType then statsByType else statsByType[t := NewRow(t)]
    requires order' == if t in statsByType then order else order + [t]
    ensures t in withRow
    ensures PartialRows(assets[..i + 1], Absorbed(assets, i, t, withRow), order')
  {
    AbsorbTypedShape(assets, i, statsByType, order, t, withRow, order');
    AbsorbTypedSums(assets, i, statsByType, t, withRow);
  }

  lemma AbsorbTypedShape(assets: seq<SummaryAsset>, i: int, statsByType: map<AssetType, TypeStats>,
                         order: seq<AssetType>, t: AssetType, withRow: map<AssetType, TypeStats>,
                         order': seq<AssetType>)
    requires 0 <= i < |assets| && KeyOf(assets[i]) == Some(t)
    requires RowShape(assets[..i], statsByType, order)
    requires withRow == if t in statsByType then statsByType else statsByType[t := NewRow(t)]
    requires order' == if t in statsByType then order else order + [t]
    ensures t in withRow
    ensures RowShape(assets[..i + 1], Absorbed(assets, i, t, withRow), order')
  {
    var after := Absorbed(assets, i, t, withRow);
    assert after.Keys == withRow.Keys;
    AbsorbKeepsOrder(statsByType, order, t, withRow, order', after);
    AbsorbKeepsCover(assets, i, statsByType, t, after);
    AbsorbKeepsLabels(statsByType, t, withRow, after);
  }

  lemma AbsorbKeepsOrder(statsByType: map<AssetType, TypeStats>, order: seq<AssetType>, t: AssetType,
                         withRow: map<AssetType, TypeStats>, order': seq<AssetType>,
                         after: map<AssetType, TypeStats>)
    requires OrderListsKeys(statsByType, order)
    requires withRow == if t in statsByType then statsByType else statsByType[t := NewRow(t)]
    requires order' == if t in statsByType then order else order + [t]
    requires after.Keys == withRow.Keys
    ensures OrderListsKeys(after, order')
  {
    if t !in statsByType {
      assert t !in order;
    }
  }

  lemma AbsorbKeepsCover(assets: seq<SummaryAsset>, i: int, statsByType: map<AssetType, TypeStats>,
                         t: AssetType, after: map<AssetType, TypeStats>)
    requires 0 <= i < |assets| && KeyOf(assets[i]) == Some(t)
    requires CoversTyped(assets[..i], statsByType)
    requires statsByType.Keys + {t} <= after.Keys
    ensures CoversTyped(assets[..i + 1], after)
  {
    var prefix := assets[..i + 1];
    forall k | 0 <= k < |prefix| && prefix[k].typeInfo.Some?
      ensures prefix[k].typeInfo.value.assetType in after
    {
      if k < i {
        assert prefix[k] == assets[..i][k];
      }
    }
  }

  lemma AbsorbKeepsLabels(statsByType: map<AssetType, TypeStats>, t: AssetType,
                          withRow: map<AssetType, TypeStats>, after: map<AssetType, TypeStats>)
    requires RowsLabelled(statsByType)
    requires withRow == if t in statsByType then statsByType else statsByType[t := NewRow(t)]
    requires after.Keys == withRow.Keys
    requires t in after && after[t].assetType == withRow[t].assetType
    requires after[t].displayName == withRow[t].displayName
    requires forall u :: u in after && u != t ==> after[u] == withRow[u]
    ensures RowsLabelled(after)
  {
  }

  lemma AbsorbTypedSums(assets: seq<SummaryAsset>, i: int, statsByType: map<AssetType, TypeStats>,
                        t: AssetType, withRow: map<AssetType, TypeStats>)
    requires 0 <= i < |assets| && KeyOf(assets[i]) == Some(t)
    requires RowSums(assets[..i], statsByType)
    requires withRow == if t in statsByType then statsByType else statsByType[t := NewRow(t)]
    ensures t in withRow
    ensures RowSums(assets[..i + 1], Absorbed(assets, i, t, withRow))
  {
    var after := Absorbed(assets, i, t, withRow);
    var prefix := assets[..i + 1];
    forall u | u in after
      ensures 0 < CountIf(prefix, KeyOf, Some(u))
      ensures after[u].count == SumIf(prefix, KeyOf, Some(u), TypedCount)
      ensures after[u].initialValue == SumIf(prefix, KeyOf, Some(u), TypedInitial)
      ensures after[u].currentValue == SumIf(prefix, KeyOf, Some(u), CurrentOf)
    {
      RowStep(assets, i, u);
      if u != t {
        assert after[u] == statsByType[u];
      }
    }
    forall u | u !in after
      ensures CountIf(prefix, KeyOf, Some(u)) == 0
      ensures SumIf(prefix, KeyOf, Some(u), TypedCount) == 0.0
      ensures SumIf(prefix, KeyOf, Some(u), TypedInitial) == 0.0
      ensures SumIf(prefix, KeyOf, Some(u), CurrentOf) == 0.0
    {
      RowStep(assets, i, u);
    }
  }

  /** Adds one asset of the row's type to the row: its count, its initial value and its current
      value (unit price times weight for weighed gold, times quantity otherwise). */
  method AddAsset(stats: TypeStats, asset: SummaryAsset) returns (updated: TypeStats)
    requires asset.typeInfo.Some?
    ensures updated == stats.(count := stats.count + TypedCount(asset),
                              initialValue := stats.initialValue + TypedInitial(asset),
                              currentValue := stats.currentValue + CurrentOf(asset))
  {
    var t := asset.typeInfo.value.assetType;
    var currentUnitValue := asset.typeInfo.value.currentValue.GetOr(0.0);
    var currentAssetValue := 0.0;
    if t == Bilezik || t == GramGold {
      currentAssetValue := currentUnitValue * asset.grams.GetOr(0.0);
    } else if t == TurkishLira || t == Dollar || t == Euro {
      currentAssetValue := currentUnitValue * Portfolio.QuantityOrOne(asset.quantity);
    } else {
      currentAssetValue := currentUnitValue * Portfolio.QuantityOrOne(asset.quantity);
    }
    updated := stats.(count := stats.count + Portfolio.QuantityOrOne(asset.quantity),
                      initialValue := stats.initialValue + asset.initialValue,
                      currentValue := stats.currentValue + currentAssetValue);
  }

  /** The rows and the first-seen type order after the first loop has read `assets`. */
  function RowsAfter(assets: seq<SummaryAsset>): (map<AssetType, TypeStats>, seq<AssetType>)
    decreases |assets|
  {
    if assets == [] then (map[], [])
    else
      var i := |assets| - 1;
      var (statsByType, order) := RowsAfter(assets[..i]);
      if assets[i].typeInfo.None? then (statsByType, order)
      else
        var t := assets[i].typeInfo.value.assetType;
        var withRow := if t in statsByType then statsByType else statsByType[t := NewRow(t)];
        (Absorbed(assets, i, t, withRow), if t in statsByType then order else order + [t])
  }

  /** The rows after the first loop hold, per type met, the count, initial value and current
      value of its assets, in the order the types were first met. */
  lemma {:induction false} RowsAfterSpec(assets: seq<SummaryAsset>)
    ensures PartialRows(assets, RowsAfter(assets).0, RowsAfter(assets).1)
    ensures RowsAfter(assets).1 == FirstKeys(assets, KeyOf)
    decreases |assets|
  {
    if assets != [] {
      var i := |assets| - 1;
      RowsAfterSpec(assets[..i]);
      var (statsByType, order) := RowsAfter(assets[..i]);
      assert assets[..i + 1] == assets;
      assert OrderListsKeys(statsByType, order);
      if assets[i].typeInfo.None? {
        AbsorbUntyped(assets, i, statsByType, order);
      } else {
        var t := assets[i].typeInfo.value.assetType;
        var withRow := if t in statsByType then statsByType else statsByType[t := NewRow(t)];
        AbsorbTyped(assets, i, statsByType, order, t, withRow, if t in statsByType then order else order + [t]);
      }
    }
  }

  /** The first loop: skip assets without a type record, open a row on a type's first asset, and
      add the asset's count, initial value and current value to its row. */
  method GroupByType(assets: seq<SummaryAsset>)
    returns (statsByType: map<AssetType, TypeStats>, order: seq<AssetType>)
    ensures (statsByType, order) == RowsAfter(assets)
  {
    statsByType, order := map[], [];
    for i := 0 to |assets|
      invariant (statsByType, order) == RowsAfter(assets[..i])
    {
      assert assets[..i + 1][..i] == assets[..i];
      var asset := assets[i];
      if asset.typeInfo.None? {
        continue;
      }
      var t := asset.typeInfo.value.assetType;
      if t !in statsByType {
        statsByType := statsByType[t := NewRow(t)];
        order := order + [t];
      }
      var stats := statsByType[t];
      var updated := AddAsset(stats, asset);
      statsByType := statsByType[t := updated];
    }
    assert assets[..|assets|] == assets;
  }

  /** The second loop: fill in the change fields of every row. */
  method ApplyChangeMetrics(statsByType: map<AssetType, TypeStats>, order: seq<AssetType>)
    returns (updated: map<AssetType, TypeStats>)
    requires forall t :: t in order ==> t in statsByType
    ensures updated.Keys == statsByType.Keys
    ensures forall t :: t in updated ==>
      updated[t] == if t in order then WithChange(statsByType[t]) else statsByType[t]
  {
    updated := statsByType;
    for k := 0 to |order|
      invariant updated.Keys == statsByType.Keys
      invariant forall t :: t in updated ==>
        updated[t] == if t in order[..k] then WithChange(statsByType[t]) else statsByType[t]
    {
      assert order[..k + 1] == order[..k] + [order[k]];
      var stats := updated[order[k]];
      updated := updated[order[k] := WithChange(stats)];
    }
    assert order[..|order|] == order;
  }

  /** The two loops followed by `Array.from(statsByType.values())`. */
  method CollectStats(assets: seq<SummaryAsset>) returns (values: seq<TypeStats>)
    ensures IsStatsSummary(assets, values)
    ensures |values| == |FirstKeys(assets, KeyOf)|
    ensures forall m :: 0 <= m < |values| ==> values[m].assetType == FirstKeys(assets, KeyOf)[m]
  {
    var partial, order := GroupByType(assets);
    RowsAfterSpec(assets);
    assert order == FirstKeys(assets, KeyOf);
    var statsByType := ApplyChangeMetrics(partial, order);
    values := [];
    for k := 0 to |order|
      invariant |values| == k
      invariant forall m :: 0 <= m < k ==> values[m] == statsByType[order[m]]
    {
      values := values + [statsByType[order[k]]];
    }
    RowsFromPartial(assets, partial, order, statsByType, values);
  }

  /** The rows taken from the map in the types' first-seen order, change fields filled in, make
      a summary. */
  lemma RowsFromPartial(assets: seq<SummaryAsset>, partial: map<AssetType, TypeStats>,
                        order: seq<AssetType>, statsByType: map<AssetType, TypeStats>,
                        values: seq<TypeStats>)
    requires PartialRows(assets, partial, order)
    requires forall t :: t in order ==> t in statsByType && statsByType[t] == WithChange(partial[t])
    requires |values| == |order|
    requires forall m :: 0 <= m < |order| ==> values[m] == statsByType[order[m]]
    ensures IsStatsSummary(assets, values)
    ensures forall m :: 0 <= m < |values| ==> values[m].assetType == order[m]
  {
    assert forall m :: 0 <= m < |order| ==> RowKeys(values)[m] == Some(order[m]);
    forall s | s in values ensures IsRowOf(assets, s) {
      var m :| 0 <= m < |values| && values[m] == s;
      assert s == WithChange(partial[order[m]]);
    }
    forall k | 0 <= k < |assets| && assets[k].typeInfo.Some?
      ensures KeyOf(assets[k]) in RowKeys(values)
    {
      var t := assets[k].typeInfo.value.assetType;
      assert t in order;
      var m :| 0 <= m < |order| && order[m] == t;
      assert RowKeys(values)[m] == KeyOf(assets[k]);
    }
  }

  /** Any reordering of a summary is one too. */
  lemma StatsReordered(assets: seq<SummaryAsset>, values: seq<TypeStats>, stats: seq<TypeStats>)
    requires IsStatsSummary(assets, values)
    requires multiset(stats) == multiset(values)
    ensures IsStatsSummary(assets, stats)
  {
    forall i, j | 0 <= i < j < |stats| ensures RowKeys(stats)[i] != RowKeys(stats)[j] {
      if stats[i].assetType == stats[j].assetType {
        assert stats[i] in multiset(values) && stats[j] in multiset(values);
        assert stats[i] == stats[j];
        MultisetHasRepeat(stats, i, j);
        DistinctElementsOccurOnce(values, stats[i]);
      }
    }
    forall k | 0 <= k < |assets| && assets[k].typeInfo.Some? ensures KeyOf(assets[k]) in RowKeys(stats) {
      var i :| 0 <= i < |values| && RowKeys(values)[i] == KeyOf(assets[k]);
      assert values[i] in multiset(stats);
      var j :| 0 <= j < |stats| && stats[j] == values[i];
      assert RowKeys(stats)[j] == KeyOf(assets[k]);
    }
    forall s | s in stats ensures IsRowOf(assets, s) {
      assert s in multiset(stats);
    }
  }

  /** The sort key of `b.currentValue - a.currentValue`: descending current value. */
  function DescendingCurrent(s: TypeStats): real {
    -s.currentValue
  }

  /** `assetStats`: the rows, sorted by current value, largest first. */
  method AssetStats(assets: seq<SummaryAsset>) returns (stats: seq<TypeStats>)
    ensures IsStatsSummary(assets, stats)
    ensures forall i, j :: 0 <= i < j < |stats| ==> stats[i].currentValue >= stats[j].currentValue
  {
    var values := CollectStats(assets);
    stats := SortBy(values, DescendingCurrent);
    StatsReordered(assets, values, stats);
    forall i, j | 0 <= i < j < |stats| ensures stats[i].currentValue >= stats[j].currentValue {
      assert DescendingCurrent(stats[i]) <= DescendingCurrent(stats[j]);
    }
  }

  // ---------------------------------------------------------------------------------------
  // Totals

  function RowCount(s: TypeStats): real {
    s.count
  }

  function RowInitial(s: TypeStats): real {
    s.initialValue
  }

  function RowCurrent(s: TypeStats): real {
    s.currentValue
  }

  /** `totalStats`: the rows' initial and current values reduced from 0, and their change. */
  function TotalStatsOf(stats: seq<TypeStats>): TotalStats {
    var initialValue := FoldLeft(0.0, stats, RowInitial);
    var currentValue := FoldLeft(0.0, stats, RowCurrent);
    TotalStats(initialValue, currentValue, Portfolio.ChangeMetrics(initialValue, currentValue))
  }

  /** A row field holding, per row, the sum of a per-asset term over the row's type adds up, over
      the rows, to the per-key sums of that term. */
  lemma {:induction false} RowsAreKeySums(assets: seq<SummaryAsset>, stats: seq<TypeStats>,
                                          field: TypeStats -> real, term: SummaryAsset -> real)
    requires forall s :: s in stats ==> field(s) == SumIf(assets, KeyOf, Some(s.assetType), term)
    ensures Sum(stats, field) == SumByKeys(RowKeys(stats), assets, KeyOf, term)
    decreases |stats|
  {
    if stats != [] {
      var init := stats[..|stats| - 1];
      assert forall s :: s in init ==> s in stats;
      RowsAreKeySums(assets, init, field, term);
      assert RowKeys(stats)[..|stats| - 1] == RowKeys(init);
      assert stats[|stats| - 1] in stats;
    }
  }

  /** The totals row accounts for every asset that has a type record, once: its values are the
      sums over those assets, and the rows' counts add up to their counts. */
  lemma TotalsCoverTypedAssets(assets: seq<SummaryAsset>, stats: seq<TypeStats>)
    requires IsStatsSummary(assets, stats)
    ensures TotalStatsOf(stats).initialValue == Sum(assets, TypedInitial)
    ensures TotalStatsOf(stats).currentValue == Sum(assets, CurrentOf)
    ensures TotalStatsOf(stats).change
      == Portfolio.ChangeMetrics(Sum(assets, TypedInitial), Sum(assets, CurrentOf))
    ensures Sum(stats, RowCount) == Sum(assets, TypedCount)
  {
    assert forall s :: s in stats ==> IsRowOf(assets, s);
    RowsAreKeySums(assets, stats, RowCount, TypedCount);
    RowsAreKeySums(assets, stats, RowInitial, TypedInitial);
    RowsAreKeySums(assets, stats, RowCurrent, CurrentOf);
    SumByKeysCovers(RowKeys(stats), assets, KeyOf, TypedCount);
    SumByKeysCovers(RowKeys(stats), assets, KeyOf, TypedInitial);
    SumByKeysCovers(RowKeys(stats), assets, KeyOf, CurrentOf);
    FoldLeftIsSum(0.0, stats, RowInitial);
    FoldLeftIsSum(0.0, stats, RowCurrent);
  }
}
