/** The news sections of `Models/Section.swift`: seven cases with a display
    title and the path component of the feed they are fetched from. */
module SectionModel {
  import opened Options

  datatype Section = Home | Arts | Science | UnitedStates | World | Technology | Business

  /** `Section.allCases`, in declaration order. */
  function AllCases(): (all: seq<Section>)
    ensures |all| == 7
    ensures forall s: Section :: all[Ordinal(s)] == s
    ensures forall i, j :: 0 <= i < j < |all| ==> all[i] != all[j]
  {
    [Home, Arts, Science, UnitedStates, World, Technology, Business]
  }

  /** The position of a case in declaration order. */
  function Ordinal(s: Section): (n: nat)
    ensures n < 7
  {
    match s
    case Home => 0
    case Arts => 1
    case Science => 2
    case UnitedStates => 3
    case World => 4
    case Technology => 5
    case Business => 6
  }

  /** The title shown on the section's pill and in the navigation bar. */
  function Title(s: Section): string
  {
    match s
    case Home => "Home"
    case Arts => "Arts"
    case Science => "Science"
    case UnitedStates => "United States"
    case World => "World"
    case Technology => "Technology"
    case Business => "Business"
  }

  /** The section's name in the feed's path. */
  function Json(s: Section): string
  {
    match s
    case Home => "home"
    case Arts => "arts"
    case Science => "science"
    case UnitedStates => "us"
    case World => "world"
    case Technology => "technology"
    case Business => "business"
  }

  /** The section a title belongs to, if any. */
  function FromTitle(t: string): (r: Option<Section>)
    ensures r.Some? ==> Title(r.value) == t
  {
    if t == "Home" then Some(Home)
    else if t == "Arts" then Some(Arts)
    else if t == "Science" then Some(Science)
    else if t == "United States" then Some(UnitedStates)
    else if t == "World" then Some(World)
    else if t == "Technology" then Some(Technology)
    else if t == "Business" then Some(Business)
    else None
  }

  /** The section a feed name belongs to, if any. */
  function FromJson(j: string): (r: Option<Section>)
    ensures r.Some? ==> Json(r.value) == j
  {
    if j == "home" then Some(Home)
    else if j == "arts" then Some(Arts)
    else if j == "science" then Some(Science)
    else if j == "us" then Some(UnitedStates)
    else if j == "world" then Some(World)
    else if j == "technology" then Some(Technology)
    else if j == "business" then Some(Business)
    else None
  }

  /** `FromTitle` inverts `Title`, so no two sections share a title. */
  lemma TitleRoundTrip(s: Section)
    ensures FromTitle(Title(s)) == Some(s)
  {
  }

  /** Comparing titles, as the section picker does to mark the selected pill,
      decides selection exactly as comparing sections would. */
  lemma SelectedByTitle(s: Section, selected: Section)
    ensures Title(s) == Title(selected) <==> s == selected
  {
    TitleRoundTrip(s);
    TitleRoundTrip(selected);
  }

  /** `FromJson` inverts `Json`, so no two sections share a feed name. */
  lemma JsonRoundTrip(s: Section)
    ensures FromJson(Json(s)) == Some(s)
  {
  }

  lemma JsonInjective(s: Section, t: Section)
    ensures Json(s) == Json(t) <==> s == t
  {
    JsonRoundTrip(s);
    JsonRoundTrip(t);
  }

  predicate IsLowerAscii(str: string)
  {
    forall i :: 0 <= i < |str| ==> 'a' <= str[i] <= 'z'
  }

  /** Every feed name is a non-empty run of lower-case ASCII letters; the
      United States section uses the abbreviation "us". */
  lemma JsonIsLowercaseWord(s: Section)
    ensures |Json(s)| > 0 && IsLowerAscii(Json(s))
    ensures Json(UnitedStates) == "us"
  {
  }
}
