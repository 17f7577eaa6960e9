/** The closed set of activity categories and the `categoryInfo` table that
    gives each of them a display label and a point value. */
module Categories {
  import opened Wrappers

  /** The seven tags of the string-literal union `Category`. */
  datatype Category =
    | Recycling
    | Afforestation
    | EnergySaving
    | EcoTransportation
    | SustainableFood
    | WaterConservation
    | Other

  /** One row of `categoryInfo`: the label shown to the user and the point
      value (the emoji glyph is not modelled). */
  datatype CategoryInfo = CategoryInfo(displayName: string, points: int)

  /** Every category, in the order the table declares them; this is also the
      order in which the category menu lists its options. */
  const AllCategories: seq<Category> :=
    [Recycling, Afforestation, EnergySaving, EcoTransportation,
     SustainableFood, WaterConservation, Other]

  /** The `categoryInfo` table. Every tag has a row, every point value lies
      between the cheapest category (5) and the most valuable one (25). */
  function Info(c: Category): (info: CategoryInfo)
    ensures 5 <= info.points <= 25
    ensures info.displayName != ""
  {
    match c
    case Recycling => CategoryInfo("Recycling", 10)
    case Afforestation => CategoryInfo("Afforestation", 25)
    case EnergySaving => CategoryInfo("Energy Saving", 15)
    case EcoTransportation => CategoryInfo("Eco Transportation", 20)
    case SustainableFood => CategoryInfo("Sustainable Food", 12)
    case WaterConservation => CategoryInfo("Water Conservation", 18)
    case Other => CategoryInfo("Other", 5)
  }

  function Points(c: Category): int {
    Info(c).points
  }

  /** A lower-case letter or an underscore. */
  predicate IdentifierChar(ch: char) {
    'a' <= ch <= 'z' || ch == '_'
  }

  /** The string literal that stands for a category on the wire and in the
      stored record: a non-empty snake_case identifier. */
  function Tag(c: Category): (t: string)
    ensures t != ""
    ensures forall ch :: ch in t ==> IdentifierChar(ch)
  {
    match c
    case Recycling => "recycling"
    case Afforestation => "afforestation"
    case EnergySaving => "energy_saving"
    case EcoTransportation => "eco_transportation"
    case SustainableFood => "sustainable_food"
    case WaterConservation => "water_conservation"
    case Other => "other"
  }

  /** Reads a string back as a category; any string that is not one of the
      seven literals (the empty "nothing selected" value among them) is
      rejected. */
  function ParseTag(s: string): (r: Option<Category>)
    ensures r.Some? ==> Tag(r.value) == s
  {
    if s == "recycling" then Some(Recycling)
    else if s == "afforestation" then Some(Afforestation)
    else if s == "energy_saving" then Some(EnergySaving)
    else if s == "eco_transportation" then Some(EcoTransportation)
    else if s == "sustainable_food" then Some(SustainableFood)
    else if s == "water_conservation" then Some(WaterConservation)
    else if s == "other" then Some(Other)
    else None
  }

  /** The table covers exactly the seven tags: the list of categories has
      seven distinct entries and no tag is missing from it. */
  lemma AllCategoriesExact()
    ensures |AllCategories| == 7
    ensures forall c: Category :: c in AllCategories
    ensures forall i, j :: 0 <= i < j < |AllCategories| ==> AllCategories[i] != AllCategories[j]
  {
    forall c: Category ensures c in AllCategories {
      match c
      case Recycling => assert AllCategories[0] == c;
      case Afforestation => assert AllCategories[1] == c;
      case EnergySaving => assert AllCategories[2] == c;
      case EcoTransportation => assert AllCategories[3] == c;
      case SustainableFood => assert AllCategories[4] == c;
      case WaterConservation => assert AllCategories[5] == c;
      case Other => assert AllCategories[6] == c;
    }
  }

  /** The seven point values of the table. */
  lemma PointTable()
    ensures Points(Recycling) == 10
    ensures Points(Afforestation) == 25
    ensures Points(EnergySaving) == 15
    ensures Points(EcoTransportation) == 20
    ensures Points(SustainableFood) == 12
    ensures Points(WaterConservation) == 18
    ensures Points(Other) == 5
  {
  }

  /** Every category is worth something; `other` is the cheapest and
      `afforestation` the most valuable. */
  lemma PointsExtremes(c: Category)
    ensures 0 < Points(c)
    ensures Points(Other) <= Points(c) <= Points(Afforestation)
  {
  }

  /** No two categories share a point value, so the points announced after
      a submission identify the category that was chosen. */
  lemma PointsInjective(c1: Category, c2: Category)
    ensures Points(c1) == Points(c2) ==> c1 == c2
  {
  }

  /** Tags round-trip through the parser. */
  lemma TagRoundTrip(c: Category)
    ensures ParseTag(Tag(c)) == Some(c)
  {
  }

  /** Distinct categories have distinct tags, and the parser accepts a string
      exactly when it is some category's tag. */
  lemma ParseTagExact(s: string)
    ensures ParseTag(s).None? <==> forall c: Category :: Tag(c) != s
    ensures forall c1: Category, c2: Category :: Tag(c1) == Tag(c2) ==> c1 == c2
  {
    forall c1: Category, c2: Category | Tag(c1) == Tag(c2) ensures c1 == c2 {
      TagRoundTrip(c1);
      TagRoundTrip(c2);
    }
    if ParseTag(s).None? {
      forall c: Category ensures Tag(c) != s {
        TagRoundTrip(c);
      }
    }
  }

  lemma EmptyTagIsNotACategory()
    ensures ParseTag("") == None
  {
  }
}
