# Planner directory filter

This project models the planner directory page of the event-planner
marketplace (`app/planners/page.tsx`). The page holds a list of planner
records and seven pieces of filter state. It shows the planners that pass
every active filter, in list order. The seven filters are:

- a top-bar event type, the empty string when unset;
- a location, either picked from a drop-down or typed into a sidebar box
  (both write the same state);
- a top-bar price tier, `"Any"` or one exact tier;
- sidebar check boxes for event types, combined with OR;
- a minimum-rating slider;
- a maximum-price slider, compared through the ordinal map
  Budget = 1, Standard = 2, Premium = 3;
- a case-insensitive free-text search over "name location tags".

The model also covers `priceToTier`, which names the slider position
("Up to: …"), and `clearAll`, which restores the defaults.

Everything here is pure: datatypes, recursive functions and lemmas.

- `planner.dfy` (module `Planner`): the record, its tags and tiers, the
  tier ordinal and `priceToTier`.
- `text.dfy` (module `Text`): ASCII lower-casing, `includes` as a
  left-to-right scan, and `join`.
- `filter.dfy` (module `PlannerFilter`): the criteria, the seven checks, the
  callback `Passes` with its early returns, and `Filter`.
- `filter_properties.dfy` (module `FilterProperties`): what each check
  accepts, and the list properties: stability, multiplicity, idempotence,
  monotonicity, and identity under the defaults.
- `examples.dfy` (module `Examples`): the page's nine seed planners and
  concrete results on them.

The top bar's single event type and the sidebar's check boxes are two
separate criteria, and so are the top bar's exact tier and the sidebar's
price ceiling; a planner must pass all seven. A planner passes the rating
check when `!(p.rating < minRating)` (line 158), which on exact reals is
`rating >= minRating`: a tie passes.

Ratings and both slider values are exact `real`s. They are only compared.

## Model

| member | source | states |
|---|---|---|
| `Planner.TierOrder` | app/planners/page.tsx:163-167 | every tier's ordinal lies in 1..3, so a ceiling of 3 admits every tier |
| `Planner.TierOrderRespectsTiers` | app/planners/page.tsx:163-167 | the ordinal is injective and ranks Budget < Standard < Premium |
| `Planner.TypeName` | app/planners/page.tsx:25 | the string literal each tag is written as; distinct tags have distinct names (`TypeNameInjective`) |
| `Planner.PriceToTier` | app/planners/page.tsx:132-136 | the slider label: at most 1 is Budget, exactly 2 is Standard, anything else Premium; on the slider's range the labelled tier's ordinal is never below the slider value, and Standard is shown only at 2 |
| `Planner.PriceToTierRoundTrip` | app/planners/page.tsx:132-136 | the slider label of a tier's ordinal is that tier; on positions 1, 2 and 3 the ordinal of the label is the position |
| `Planner.PriceToTierBetweenPositions` | app/planners/page.tsx:132-136 | off the integer positions the label is not monotone: 1.5 reads Premium while 2 reads Standard; 0 reads Budget |
| `PlannerFilter.ClearAll` | app/planners/page.tsx:182-190 | the defaults: no event type, no location, price "Any", no boxes, rating floor 0, price ceiling 3, empty search; `ClearAllPasses` states what they accept |
| `PlannerFilter.SelectedTypes` | app/planners/page.tsx:151-153 | the keys of the check-box record whose value is `true` |
| `PlannerFilter.Haystack` | app/planners/page.tsx:174 | the searched text: name, a space, location, a space, and the tags joined by spaces |
| `PlannerFilter.EventTypeOk` | app/planners/page.tsx:140-142 | an unset event type, or one the planner's tags include; `EventTypeByTag` states what a tag selects |
| `PlannerFilter.LocationOk` | app/planners/page.tsx:143-145 | an unset location, or exactly the planner's; `LocationFilterIsExact` states the consequence for the list |
| `PlannerFilter.PriceTierOk` | app/planners/page.tsx:146-148 | "Any", or exactly the planner's tier; `PriceTierExact` states both cases |
| `PlannerFilter.CheckedTypesOk` | app/planners/page.tsx:151-156 | no selected box, or some selected tag among the planner's; `CheckedTypesMeaning` states it on the record itself |
| `PlannerFilter.RatingOk` | app/planners/page.tsx:158-160 | the rating is not below the floor, a tie included |
| `PlannerFilter.MaxPriceOk` | app/planners/page.tsx:162-170 | the tier's ordinal is not above the ceiling; `MaxPriceMatchesSliderLabel` relates it to the label |
| `PlannerFilter.SearchOk` | app/planners/page.tsx:172-176 | an empty search, or the lower-cased query occurs in the lower-cased searched text; the `Search*` lemmas state what it finds |
| `Text.Contains` | app/planners/page.tsx:175 | the scan answers true exactly when the query occurs at some position of the text |
| `Text.Lower` | app/planners/page.tsx:173-174 | lower-casing keeps the length and maps each character through the ASCII lower-case map |
| `Text.Join` | app/planners/page.tsx:174 | `join`: no items give the empty string and one item gives that item |
| `Text.JoinSnoc` | app/planners/page.tsx:174 | appending an item to a non-empty list appends the separator and the item, so the items appear in order with one separator between neighbours |
| `Text.ItemOccursInJoin` | app/planners/page.tsx:174 | every item occurs somewhere in the joined string |
| `Text.LowerIdempotent` | app/planners/page.tsx:173-174 | lower-casing twice is lower-casing once |
| `PlannerFilter.HasType` | app/planners/page.tsx:140 | `types.includes(name)` is true exactly when some tag of the list is written as `name` |
| `PlannerFilter.TypeNames` | app/planners/page.tsx:174 | the tags become their names one for one, in the same order |
| `PlannerFilter.Passes` | app/planners/page.tsx:139-179 | the early-return callback accepts a planner exactly when all seven checks hold |
| `PlannerFilter.Filter` | app/planners/page.tsx:138-180 | the result is no longer than the input and every planner in it passes |
| `FilterProperties.FailingCheckRejects` | app/planners/page.tsx:140-176 | any one failing check rejects the planner, whatever the others say |
| `FilterProperties.EventTypeByTag` | app/planners/page.tsx:140-142 | choosing a tag in the top bar accepts exactly the planners that carry that tag |
| `FilterProperties.UnknownEventTypeMatchesNothing` | app/planners/page.tsx:107 | a non-empty event type that is none of the drop-down's four entries rejects every planner at lines 140-142 |
| `FilterProperties.CheckedTypesMeaning` | app/planners/page.tsx:151-156 | with no `true` entry the check boxes impose nothing; otherwise some tag of the planner must be a `true` key |
| `FilterProperties.CheckingAnotherTypeWidens` | app/planners/page.tsx:151-156 | once a box is checked, checking another never rejects a planner that passed (OR semantics) |
| `FilterProperties.UncheckedBoxesImposeNothing` | app/planners/page.tsx:151-153 | entries set to `false` select nothing, so a record of only `false` entries accepts every planner |
| `FilterProperties.PriceTierExact` | app/planners/page.tsx:146-148 | the top-bar tier accepts exactly its own tier; `"Any"` accepts every planner |
| `FilterProperties.MaxPriceMatchesSliderLabel` | app/planners/page.tsx:163-170 | on slider positions 1..3 the ceiling accepts exactly the tiers up to the one the label names |
| `FilterProperties.SearchIgnoresQueryCase` | app/planners/page.tsx:172-176 | a query and its lower-cased form accept the same planners |
| `FilterProperties.SearchCaseInsensitive` | app/planners/page.tsx:172-176 | two queries that lower-case to the same string accept the same planners |
| `FilterProperties.SearchFindsSegment` | app/planners/page.tsx:172-176 | a non-empty query that is a segment of the searched text passes, even across the spaces between fields |
| `FilterProperties.SearchFindsPart` | app/planners/page.tsx:172-176 | a non-empty query found, ignoring case, inside any segment of the searched text passes the search |
| `FilterProperties.SearchFindsName` | app/planners/page.tsx:172-176 | a non-empty query found, ignoring case, in the planner's name passes the search |
| `FilterProperties.SearchFindsLocation` | app/planners/page.tsx:172-176 | a non-empty query found, ignoring case, in the planner's location passes the search |
| `FilterProperties.SearchFindsTag` | app/planners/page.tsx:172-176 | a non-empty query found, ignoring case, in one of the planner's tags passes the search |
| `FilterProperties.FilterMembership` | app/planners/page.tsx:139 | a planner is in the result exactly when it is in the input and passes |
| `FilterProperties.FailingCheckExcludes` | app/planners/page.tsx:139-178 | a planner failing any one check is not in the result |
| `FilterProperties.FilterMultiplicity` | app/planners/page.tsx:139 | a passing planner occurs in the result as often as in the input, a failing one never |
| `FilterProperties.FilterSubMultiset` | app/planners/page.tsx:139 | the result is a sub-multiset of the input: nothing is duplicated or invented |
| `FilterProperties.Decisions` | app/planners/page.tsx:139 | one keep-or-drop decision per input position, each the callback's answer for that planner |
| `FilterProperties.TrueIndicesFrom` | app/planners/page.tsx:139 | lists, in strictly increasing order, exactly the positions from `start` where the decision is keep |
| `FilterProperties.PassingIndicesFrom` | app/planners/page.tsx:139 | lists, in strictly increasing order, exactly the positions from `start` whose planner passes |
| `FilterProperties.PassingIndices` | app/planners/page.tsx:139 | lists, in strictly increasing order, exactly the positions whose planner passes |
| `FilterProperties.FilterAtIndicesFrom` | app/planners/page.tsx:139 | the filter of a suffix is that suffix read at its passing positions |
| `FilterProperties.FilterIsStable` | app/planners/page.tsx:139 | the result is the input read at the passing positions in increasing order: original relative order, no re-sorting |
| `FilterProperties.FilterConcat` | app/planners/page.tsx:139 | filtering a concatenation is concatenating the filtered parts |
| `FilterProperties.FilterIsIdentityIff` | app/planners/page.tsx:139-179 | the result is the whole input exactly when every planner passes |
| `FilterProperties.FilterNarrowing` | app/planners/page.tsx:139-179 | with criteria that accept no more of the input, filtering the old result gives the new result |
| `FilterProperties.FilterIdempotent` | app/planners/page.tsx:139-179 | filtering the result again with the same criteria returns the same list |
| `FilterProperties.ClearAllPasses` | app/planners/page.tsx:182-190 | under the `clearAll` defaults every planner with a non-negative rating passes all seven checks |
| `FilterProperties.ClearAllIsIdentity` | app/planners/page.tsx:182-190 | under the `clearAll` defaults the filter returns every planner with a non-negative rating, so every planner of the documented 0..5 range |
| `FilterProperties.RaisingMinRatingNarrows` | app/planners/page.tsx:158-160 | raising the minimum rating gives the old result filtered again: never longer, never a new planner |
| `FilterProperties.LoweringMaxPriceNarrows` | app/planners/page.tsx:168-170 | lowering the price ceiling gives the old result filtered again: never longer, never a new planner |
| `FilterProperties.LocationFilterIsExact` | app/planners/page.tsx:143-145 | a non-empty location keeps only planners at exactly that location and drops every other |
| `Examples.FilterSeed` | app/planners/page.tsx:30-105 | the filter of the seed list is the filter of its three thirds, concatenated |
| `Examples.SeedUnfiltered` | app/planners/page.tsx:30-105 | with the defaults the page lists all nine seed planners |
| `Examples.ConferenceOnly` | app/planners/page.tsx:140-142 | with only "Conference" set, a planner with a valid rating passes exactly when it carries that tag |
| `Examples.SeedConference` | app/planners/page.tsx:140-142 | top-bar "Conference" with price "Any" keeps planners 1, 2, 5 and 7, of every tier |
| `Examples.MinRatingExample` | app/planners/page.tsx:158-160 | a floor of 4.0 keeps the 4.8 planner and drops the 3.8 one |
| `Examples.PartialLocationOnly` | app/planners/page.tsx:143-145 | with only the location "New" set, every planner located elsewhere is rejected |
| `Examples.SeedPartialLocation` | app/planners/page.tsx:343-344 | a half-typed city "New" in the sidebar box leaves no planner, not even "New York, NY" |
| `Examples.BudgetCeilingOnly` | app/planners/page.tsx:168-170 | with only the ceiling at 1 set, a planner with a valid rating passes exactly when it is Budget |
| `Examples.SeedBudgetCeiling` | app/planners/page.tsx:163-170 | the ceiling at Budget leaves only the one Budget planner |
| `Examples.WeddingOrPartyBoxes` | app/planners/page.tsx:151-156 | with Wedding and Party checked and Other unchecked, a planner passes exactly when it has one of those two tags |
| `Examples.SearchUpperCaseName` | app/planners/page.tsx:172-176 | the query "WEDD" finds any planner named "Coastal Weddings" |
| `Examples.SearchAcrossFields` | app/planners/page.tsx:174-175 | a query may straddle two fields: "Events New" finds "Aurora Events" of "New York, NY" |

## Left out

- Rendering, layout, styling, star icons and the `toFixed` rating label (lines 192-436): presentation only.
- React state and `useMemo` recomputation: the criteria are a plain value and `clearAll` is the function `ClearAll` returning the defaults.
- `setCheckedTypes` and the other setters: each replaces one field of the criteria; in the model that is the record update `c.(field := v)`.
- Unicode case mapping: `toLowerCase` is modelled on ASCII letters only, because the real function belongs to the JavaScript runtime.
- Floating-point ratings and slider values: they are exact reals. `NaN` and the conversion `Number(e.target.value)` are not modelled.
- The order of `Object.entries` over the check-box record: `.some` does not depend on it, so the selected tags are a set.
- The optional `verified` flag is carried in the record but no check reads it, as in the source.
- The other pages (home, login, event creation, dashboards): HTTP calls, redirects, form setters and mock data, outside this filter.
