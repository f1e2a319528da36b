/**
  The planner directory filter: the criteria the page keeps in its state, the
  seven checks a planner must pass, and the stable filter over the list.
 */
module PlannerFilter {
  import opened Planner
  import opened Text

  /** The top-bar price drop-down: "Any" or one exact tier. */
  datatype PriceOption = AnyPrice | OnlyTier(tier: PriceTier)

  /**
    The seven pieces of filter state. `eventType`, `location` and `search` are
    free strings (the empty string means "not set"); `checkedTypes` is the
    sidebar's record of check boxes; `minRating` and `maxPrice` are the two
    sliders' numbers.
   */
  datatype Criteria = Criteria(
    eventType: string,
    location: string,
    priceTier: PriceOption,
    checkedTypes: map<string, bool>,
    minRating: real,
    maxPrice: real,
    search: string)

  /** The values `clearAll` restores, which are also the page's initial state. */
  function ClearAll(): Criteria {
    Criteria("", "", AnyPrice, map[], 0.0, 3.0, "")
  }

  /** `types.includes(name)`: a scan for a tag written as `name`. */
  function HasType(ts: seq<EventType>, name: string): (r: bool)
    ensures r <==> exists i :: 0 <= i < |ts| && TypeName(ts[i]) == name
  {
    if ts == [] then false
    else if TypeName(ts[0]) == name then true
    else
      var rest := HasType(ts[1..], name);
      assert forall i :: 1 <= i < |ts| ==> ts[1..][i - 1] == ts[i];
      rest
  }

  /** The tags as strings, in the planner's own order. */
  function TypeNames(ts: seq<EventType>): (r: seq<string>)
    ensures |r| == |ts|
    ensures forall i :: 0 <= i < |ts| ==> r[i] == TypeName(ts[i])
  {
    if ts == [] then [] else [TypeName(ts[0])] + TypeNames(ts[1..])
  }

  /** The text the search box is matched against: name, location and tags, separated by spaces. */
  function Haystack(p: Planner): string {
    p.name + " " + p.location + " " + Join(TypeNames(p.types), " ")
  }

  /** The keys of the sidebar record whose value is `true`; a `false` entry selects nothing. */
  function SelectedTypes(checked: map<string, bool>): set<string> {
    set k | k in checked && checked[k]
  }

  /** The seven checks, in the order the filter tries them. */
  datatype Check =
    | EventTypeCheck
    | LocationCheck
    | PriceTierCheck
    | CheckedTypesCheck
    | RatingCheck
    | MaxPriceCheck
    | SearchCheck

  /** Top-bar event type: unset, or the planner carries that tag. */
  predicate EventTypeOk(p: Planner, eventType: string) {
    eventType == "" || HasType(p.types, eventType)
  }

  /** Location: unset, or exactly the planner's location (no prefix or case folding). */
  predicate LocationOk(p: Planner, location: string) {
    location == "" || p.location == location
  }

  /** Top-bar price: "Any", or exactly the planner's tier. */
  predicate PriceTierOk(p: Planner, option: PriceOption) {
    option == AnyPrice || option == OnlyTier(p.priceTier)
  }

  /** Sidebar check boxes: nothing selected, or some selected tag is one of the planner's. */
  predicate CheckedTypesOk(p: Planner, checked: map<string, bool>) {
    var selected := SelectedTypes(checked);
    |selected| == 0 || exists t :: t in selected && HasType(p.types, t)
  }

  /** Minimum rating: the planner is not below the floor (a tie passes). */
  predicate RatingOk(p: Planner, minRating: real) {
    !(p.rating < minRating)
  }

  /** Sidebar price ceiling: the tier's ordinal does not exceed the slider value. */
  predicate MaxPriceOk(p: Planner, maxPrice: real) {
    !(TierOrder(p.priceTier) as real > maxPrice)
  }

  /** Search: unset, or the lower-cased query occurs in the lower-cased haystack. */
  predicate SearchOk(p: Planner, search: string) {
    search == "" || Contains(Lower(Haystack(p)), Lower(search))
  }

  /** Whether check `k` of criteria `c` accepts planner `p`. */
  predicate Holds(k: Check, p: Planner, c: Criteria) {
    match k
    case EventTypeCheck => EventTypeOk(p, c.eventType)
    case LocationCheck => LocationOk(p, c.location)
    case PriceTierCheck => PriceTierOk(p, c.priceTier)
    case CheckedTypesCheck => CheckedTypesOk(p, c.checkedTypes)
    case RatingCheck => RatingOk(p, c.minRating)
    case MaxPriceCheck => MaxPriceOk(p, c.maxPrice)
    case SearchCheck => SearchOk(p, c.search)
  }

  /**
    The `.filter` callback: each guard returns `false` as soon as its check
    fails, and the planner is kept only if it gets past all seven.
   */
  function Passes(p: Planner, c: Criteria): (r: bool)
    ensures r <==> forall k: Check :: Holds(k, p, c)
  {
    if !EventTypeOk(p, c.eventType) then assert !Holds(EventTypeCheck, p, c); false
    else if !LocationOk(p, c.location) then assert !Holds(LocationCheck, p, c); false
    else if !PriceTierOk(p, c.priceTier) then assert !Holds(PriceTierCheck, p, c); false
    else if !CheckedTypesOk(p, c.checkedTypes) then assert !Holds(CheckedTypesCheck, p, c); false
    else if !RatingOk(p, c.minRating) then assert !Holds(RatingCheck, p, c); false
    else if !MaxPriceOk(p, c.maxPrice) then assert !Holds(MaxPriceCheck, p, c); false
    else if !SearchOk(p, c.search) then assert !Holds(SearchCheck, p, c); false
    else true
  }

  /** `planners.filter(p => Passes(p, c))`: keeps the passing planners in list order. */
  function Filter(ps: seq<Planner>, c: Criteria): (r: seq<Planner>)
    ensures |r| <= |ps|
    ensures forall i :: 0 <= i < |r| ==> Passes(r[i], c)
  {
    if ps == [] then []
    else (if Passes(ps[0], c) then [ps[0]] else []) + Filter(ps[1..], c)
  }
}
