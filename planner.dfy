/**
  The planner record of the directory page: its event-type tags, its price
  tier and the ordinal map the sidebar price slider uses.
 */
module Planner {

  datatype Option<T> = None | Some(value: T)

  /** The four event-type tags a planner can carry. */
  datatype EventType = Conference | Wedding | Party | Other

  /** The three price tiers, cheapest first. */
  datatype PriceTier = Budget | Standard | Premium

  /**
    One directory entry. `rating` is a number documented as lying in 0..5; it is
    only ever compared, so it is an exact `real`. `verified` is optional.
   */
  datatype Planner = Planner(
    id: string,
    name: string,
    location: string,
    rating: real,
    types: seq<EventType>,
    priceTier: PriceTier,
    verified: Option<bool>)

  /** The string each tag is written as (the tags are string literals in the source). */
  function TypeName(t: EventType): string {
    match t
    case Conference => "Conference"
    case Wedding => "Wedding"
    case Party => "Party"
    case Other => "Other"
  }

  lemma TypeNameInjective(s: EventType, t: EventType)
    ensures TypeName(s) == TypeName(t) <==> s == t
  {
    if s != t {
      assert TypeName(s)[0] != TypeName(t)[0] || |TypeName(s)| != |TypeName(t)|;
    }
  }

  /** The tags in the order the top-bar drop-down and the sidebar list them. */
  const EventTypes: seq<EventType> := [Conference, Wedding, Party, Other]

  /** The sidebar slider's ordinal for each tier. */
  function TierOrder(t: PriceTier): (r: int)
    ensures 1 <= r <= 3
  {
    match t
    case Budget => 1
    case Standard => 2
    case Premium => 3
  }

  /**
    The slider ordinal tells the tiers apart and ranks them Budget < Standard <
    Premium; with the 1..3 bound of `TierOrder` it leaves no gaps.
   */
  lemma TierOrderRespectsTiers(s: PriceTier, t: PriceTier)
    ensures TierOrder(s) == TierOrder(t) <==> s == t
    ensures TierOrder(Budget) < TierOrder(Standard) < TierOrder(Premium)
    ensures s == Budget ==> TierOrder(s) <= TierOrder(t)
    ensures t == Premium ==> TierOrder(s) <= TierOrder(t)
  {
  }

  /**
    `priceToTier`: the label shown under the slider ("Up to: ...").
    Anything at most 1 is Budget, exactly 2 is Standard, and every other value
    (including 1.5 and 2.5) is Premium.
   */
  function PriceToTier(value: real): (r: PriceTier)
    ensures value <= 3.0 ==> value <= TierOrder(r) as real
    ensures r == Standard ==> value == 2.0
  {
    if value <= 1.0 then Budget
    else if value == 2.0 then Standard
    else Premium
  }

  /**
    The slider label and the ordinal map are inverse on the slider's three
    positions, and every tier is the label of its own ordinal.
   */
  lemma PriceToTierRoundTrip(t: PriceTier, v: real)
    ensures PriceToTier(TierOrder(t) as real) == t
    ensures v == 1.0 || v == 2.0 || v == 3.0 ==> TierOrder(PriceToTier(v)) as real == v
  {
  }

  /**
    Off the slider's integer positions the label is not monotone: 1.5 is shown
    as Premium although 2 is shown as Standard.
   */
  lemma PriceToTierBetweenPositions()
    ensures PriceToTier(1.5) == Premium && PriceToTier(2.0) == Standard
    ensures PriceToTier(0.0) == Budget && PriceToTier(2.5) == Premium
  {
  }
}
