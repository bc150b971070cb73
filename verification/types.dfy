/** The entities shared by the whole application (types/index.ts). */
module Types {

  /** The closed set of gift kinds. */
  datatype AssetType =
    | CeyrekAltin
    | YarimAltin
    | TamAltin
    | ResatAltin
    | CumhuriyetAltin
    | GramAltin22K
    | BesiBirYerde
    | Bilezik
    | GramGold
    | TurkishLira
    | Dollar
    | Euro

  /** The string value each enum member carries (and the key stored in the database). */
  function Key(t: AssetType): string {
    match t
    case CeyrekAltin => "CEYREK_ALTIN"
    case YarimAltin => "YARIM_ALTIN"
    case TamAltin => "TAM_ALTIN"
    case ResatAltin => "RESAT_ALTIN"
    case CumhuriyetAltin => "CUMHURIYET_ALTIN"
    case GramAltin22K => "GRAM_ALTIN_22K"
    case BesiBirYerde => "BESI_BIR_YERDE"
    case Bilezik => "BILEZIK"
    case GramGold => "GRAM_GOLD"
    case TurkishLira => "TURKISH_LIRA"
    case Dollar => "DOLLAR"
    case Euro => "EURO"
  }

  /** Bracelets and gram gold are entered, and valued, by weight and karat. */
  predicate IsWeighedGold(t: AssetType) {
    t == Bilezik || t == GramGold
  }

  /** Lira, dollar and euro gifts are entered as an amount of money. */
  predicate IsCurrency(t: AssetType) {
    t == TurkishLira || t == Dollar || t == Euro
  }

  /** Every member of the enum, in declaration order. */
  const AllAssetTypes: seq<AssetType> :=
    [CeyrekAltin, YarimAltin, TamAltin, ResatAltin, CumhuriyetAltin, GramAltin22K,
     BesiBirYerde, Bilezik, GramGold, TurkishLira, Dollar, Euro]

  /** The position of each member in the declaration order. */
  function Ordinal(t: AssetType): (i: nat)
    ensures i < |AllAssetTypes| && AllAssetTypes[i] == t
  {
    match t
    case CeyrekAltin => 0
    case YarimAltin => 1
    case TamAltin => 2
    case ResatAltin => 3
    case CumhuriyetAltin => 4
    case GramAltin22K => 5
    case BesiBirYerde => 6
    case Bilezik => 7
    case GramGold => 8
    case TurkishLira => 9
    case Dollar => 10
    case Euro => 11
  }

  /** A gift giver; a donor may belong to the groom's side, the bride's side, both or neither. */
  datatype Donor = Donor(id: string, name: string, isGroomSide: bool, isBrideSide: bool)

  /** The enum lists twelve members, each once, and its string values are pairwise distinct. */
  lemma EnumIsClosed()
    ensures |AllAssetTypes| == 12
    ensures forall t: AssetType :: t in AllAssetTypes
    ensures forall i, j :: 0 <= i < j < |AllAssetTypes| ==> AllAssetTypes[i] != AllAssetTypes[j]
    ensures forall a: AssetType, b: AssetType :: Key(a) == Key(b) ==> a == b
  {
    forall t: AssetType ensures t in AllAssetTypes {
      assert AllAssetTypes[Ordinal(t)] == t;
    }
  }
}
