/** Display names and category lists for the asset types (lib/constants.ts). */
module Constants {
  import opened Types
  import opened Sums

  /** The Turkish display name of each asset type. */
  function AssetTypeName(t: AssetType): (name: string)
    ensures name != []
  {
    match t
    case CeyrekAltin => "Çeyrek Altın"
    case YarimAltin => "Yarım Altın"
    case TamAltin => "Tam Altın"
    case ResatAltin => "Reşat Altın"
    case CumhuriyetAltin => "Cumhuriyet Altını"
    case GramAltin22K => "22 Ayar Gram Altın"
    case BesiBirYerde => "Beşi Bir Yerde"
    case Bilezik => "Bilezik"
    case GramGold => "Gram Altın"
    case TurkishLira => "Türk Lirası"
    case Dollar => "Dolar"
    case Euro => "Euro"
  }

  /** Types whose value is entered by weight. */
  const GramRequiredAssets: seq<AssetType> := [Bilezik, GramGold, GramAltin22K]

  /** Types that are money. */
  const CurrencyAssets: seq<AssetType> := [TurkishLira, Dollar, Euro]

  /** Types that are counted coins. */
  const GoldCoinAssets: seq<AssetType> :=
    [CeyrekAltin, YarimAltin, TamAltin, ResatAltin, CumhuriyetAltin, BesiBirYerde]

  /** No two asset types share a display name. */
  lemma DisplayNamesDistinct()
    ensures forall a: AssetType, b: AssetType :: AssetTypeName(a) == AssetTypeName(b) ==> a == b
  {
  }

  /** The three lists partition the enum: every type lies in exactly one of them. */
  lemma CategoriesPartitionAssetTypes()
    ensures forall t: AssetType ::
      (t in GramRequiredAssets || t in CurrencyAssets || t in GoldCoinAssets)
    ensures forall t: AssetType ::
      !(t in GramRequiredAssets && t in CurrencyAssets)
      && !(t in GramRequiredAssets && t in GoldCoinAssets)
      && !(t in CurrencyAssets && t in GoldCoinAssets)
    ensures |GramRequiredAssets| == 3 && |CurrencyAssets| == 3 && |GoldCoinAssets| == 6
    ensures Distinct(GramRequiredAssets) && Distinct(CurrencyAssets) && Distinct(GoldCoinAssets)
    ensures |GramRequiredAssets| + |CurrencyAssets| + |GoldCoinAssets| == |AllAssetTypes|
  {
    forall t: AssetType ensures t in GramRequiredAssets || t in CurrencyAssets || t in GoldCoinAssets {
      match t
      case Bilezik | GramGold | GramAltin22K => assert t in GramRequiredAssets;
      case TurkishLira | Dollar | Euro => assert t in CurrencyAssets;
      case _ => assert t in GoldCoinAssets;
    }
  }

  /** The memberships the forms and the valuation rely on. */
  lemma KnownCategoryMembers()
    ensures Bilezik in GramRequiredAssets && GramGold in GramRequiredAssets
    ensures TurkishLira in CurrencyAssets && Dollar in CurrencyAssets && Euro in CurrencyAssets
  {
  }
}
