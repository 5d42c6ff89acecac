/** The record shapes and the two string enumerations of the application.

    The enumerations are datatypes with the string each member stands for. The records hold
    category and season values as plain strings: items and analyses are built from service
    replies and local storage by unchecked casts, so nothing guarantees that a stored string is
    one of the enumeration's values. `ParseCategory` and `ParseSeason` say when it is. */
module Types {
  import opened Wrappers

  datatype ClothingCategory = Top | Bottom | Shoes | Outerwear | Accessory | OnePiece | Unknown
  {
    /** The enum member's string value. */
    function Value(): string {
      match this
      case Top => "Top"
      case Bottom => "Bottom"
      case Shoes => "Shoes"
      case Outerwear => "Outerwear"
      case Accessory => "Accessory"
      case OnePiece => "One-Piece"
      case Unknown => "Unknown"
    }
  }

  /** `Object.values(ClothingCategory)`: the members in declaration order. */
  const AllCategories: seq<ClothingCategory> :=
    [Top, Bottom, Shoes, Outerwear, Accessory, OnePiece, Unknown]

  /** The member whose value is `s`, if any. */
  function ParseCategory(s: string): (r: Option<ClothingCategory>)
    ensures r.Some? ==> r.value.Value() == s
  {
    if s == "Top" then Some(Top)
    else if s == "Bottom" then Some(Bottom)
    else if s == "Shoes" then Some(Shoes)
    else if s == "Outerwear" then Some(Outerwear)
    else if s == "Accessory" then Some(Accessory)
    else if s == "One-Piece" then Some(OnePiece)
    else if s == "Unknown" then Some(Unknown)
    else None
  }

  /** Every member is listed once, and distinct members have distinct values, so a value
      names exactly one member. */
  lemma CategoryValues()
    ensures |AllCategories| == 7
    ensures forall c: ClothingCategory :: c in AllCategories
    ensures forall i, j :: 0 <= i < j < |AllCategories| ==> AllCategories[i].Value() != AllCategories[j].Value()
    ensures forall c: ClothingCategory :: ParseCategory(c.Value()) == Some(c)
  {
    forall c: ClothingCategory ensures c in AllCategories {
      match c
      case Top => assert AllCategories[0] == c;
      case Bottom => assert AllCategories[1] == c;
      case Shoes => assert AllCategories[2] == c;
      case Outerwear => assert AllCategories[3] == c;
      case Accessory => assert AllCategories[4] == c;
      case OnePiece => assert AllCategories[5] == c;
      case Unknown => assert AllCategories[6] == c;
    }
  }

  datatype Season = Summer | Winter | Spring | Fall | AllSeason
  {
    /** The enum member's string value. */
    function Value(): string {
      match this
      case Summer => "Summer"
      case Winter => "Winter"
      case Spring => "Spring"
      case Fall => "Fall"
      case AllSeason => "All Season"
    }
  }

  /** `Object.values(Season)`: the members in declaration order. */
  const AllSeasons: seq<Season> := [Summer, Winter, Spring, Fall, AllSeason]

  /** The member whose value is `s`, if any. */
  function ParseSeason(s: string): (r: Option<Season>)
    ensures r.Some? ==> r.value.Value() == s
  {
    if s == "Summer" then Some(Summer)
    else if s == "Winter" then Some(Winter)
    else if s == "Spring" then Some(Spring)
    else if s == "Fall" then Some(Fall)
    else if s == "All Season" then Some(AllSeason)
    else None
  }

  /** Five members with distinct values; the all-season value is spelt with a space. */
  lemma SeasonValues()
    ensures |AllSeasons| == 5
    ensures forall s: Season :: s in AllSeasons
    ensures forall i, j :: 0 <= i < j < |AllSeasons| ==> AllSeasons[i].Value() != AllSeasons[j].Value()
    ensures forall s: Season :: ParseSeason(s.Value()) == Some(s)
    ensures AllSeason.Value() == "All Season" && ParseSeason("All-Season") == None
  {
    forall s: Season ensures s in AllSeasons {
      match s
      case Summer => assert AllSeasons[0] == s;
      case Winter => assert AllSeasons[1] == s;
      case Spring => assert AllSeasons[2] == s;
      case Fall => assert AllSeasons[3] == s;
      case AllSeason => assert AllSeasons[4] == s;
    }
  }

  /** A catalogued garment. `itemType` is the source's `type` field (a keyword in Dafny);
      `imageUrl` is a data URL or a URL; `createdAt` is epoch milliseconds. */
  datatype ClothingItem = ClothingItem(
    id: string,
    imageUrl: string,
    itemType: string,
    category: string,
    color: string,
    season: seq<string>,
    tags: seq<string>,
    description: string,
    createdAt: int)

  /** A saved look. It names its garments by id only and never embeds them. */
  datatype Outfit = Outfit(
    id: string,
    name: string,
    itemIds: seq<string>,
    occasion: string,
    reasoning: string,
    createdAt: int)

  /** What the classifier returns for one photograph. The season list is `seasons` here and
      `season` on ClothingItem; neither is required to be non-empty. */
  datatype AnalysisResult = AnalysisResult(
    itemType: string,
    category: string,
    color: string,
    seasons: seq<string>,
    tags: seq<string>,
    description: string)

  /** What the outfit recommender returns. */
  datatype Recommendation = Recommendation(name: string, itemIds: seq<string>, reasoning: string)
}
