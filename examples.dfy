/**
  The directory's seed list and a few concrete filter results on it.
 */
module Examples {
  import opened Planner
  import opened Text
  import opened PlannerFilter
  import opened FilterProperties

  const Aurora := Planner("1", "Aurora Events", "New York, NY", 4.8, [Wedding, Conference], Premium, Some(true))
  const Summit := Planner("2", "Summit Planners", "San Francisco, CA", 4.5, [Conference], Premium, None)
  const Festivo := Planner("3", "Festivo Studio", "Austin, TX", 4.2, [Party, Other], Standard, None)
  const EverAfter := Planner("4", "EverAfter Co.", "Chicago, IL", 4.9, [Wedding], Premium, Some(true))
  const Metro := Planner("5", "Metro Events", "Seattle, WA", 4.0, [Conference, Party], Standard, None)
  const Sunset := Planner("6", "Sunset Gatherings", "Miami, FL", 3.8, [Party], Budget, None)
  const Northstar := Planner("7", "Northstar Events", "Boston, MA", 4.3, [Conference, Other], Standard, None)
  const Coastal := Planner("8", "Coastal Weddings", "San Diego, CA", 4.7, [Wedding], Premium, None)
  const CityLights := Planner("9", "City Lights Events", "Los Angeles, CA", 4.1, [Party, Wedding], Standard, None)

  /** The nine planners the page lists. */
  const Seed: seq<Planner> := [Aurora, Summit, Festivo, EverAfter, Metro, Sunset, Northstar, Coastal, CityLights]

  /** The filter on a list of three, unrolled into its three decisions. */
  lemma FilterThree(x: Planner, y: Planner, z: Planner, c: Criteria)
    ensures Filter([x, y, z], c) ==
      (if Passes(x, c) then [x] else []) + (if Passes(y, c) then [y] else []) + (if Passes(z, c) then [z] else [])
  {
    assert [x, y, z][1..] == [y, z];
    assert [y, z][1..] == [z];
    assert [z][1..] == [];
    assert Filter([z], c) == (if Passes(z, c) then [z] else []);
    assert Filter([y, z], c) == (if Passes(y, c) then [y] else []) + Filter([z], c);
  }

  /** Three decisions, given as booleans, fix the filter on a list of three. */
  lemma ThreeDecisions(x: Planner, y: Planner, z: Planner, c: Criteria, kx: bool, ky: bool, kz: bool)
    requires Passes(x, c) == kx && Passes(y, c) == ky && Passes(z, c) == kz
    ensures Filter([x, y, z], c) == (if kx then [x] else []) + (if ky then [y] else []) + (if kz then [z] else [])
  {
    FilterThree(x, y, z, c);
  }

  /** The filter on the seed list, taken three planners at a time. */
  lemma FilterSeed(c: Criteria)
    ensures Filter(Seed, c) ==
      Filter([Aurora, Summit, Festivo], c) + Filter([EverAfter, Metro, Sunset], c) + Filter([Northstar, Coastal, CityLights], c)
  {
    var first, second, third := [Aurora, Summit, Festivo], [EverAfter, Metro, Sunset], [Northstar, Coastal, CityLights];
    assert Seed == first + (second + third);
    FilterConcat(first, second + third, c);
    FilterConcat(second, third, c);
  }

  /** With nothing set, the page shows the whole seed list. */
  lemma SeedUnfiltered()
    ensures Filter(Seed, ClearAll()) == Seed
  {
    ClearAllIsIdentity(Seed);
  }

  /** Top-bar "Conference" alone: a planner with a valid rating passes iff it carries the tag. */
  lemma ConferenceOnly(p: Planner)
    requires 0.0 <= p.rating
    ensures Passes(p, ClearAll().(eventType := "Conference")) <==> Conference in p.types
  {
    EventTypeByTag(p, Conference);
    assert SelectedTypes(map[]) == {};
  }

  /** Choosing "Conference" in the top bar with price "Any" keeps the four conference planners of every tier. */
  lemma SeedConference()
    ensures Filter(Seed, ClearAll().(eventType := "Conference")) == [Aurora, Summit, Metro, Northstar]
  {
    var c := ClearAll().(eventType := "Conference");
    assert Filter([Aurora, Summit, Festivo], c) == [Aurora, Summit] by {
      ConferenceOnly(Aurora);
      ConferenceOnly(Summit);
      ConferenceOnly(Festivo);
      ThreeDecisions(Aurora, Summit, Festivo, c, true, true, false);
    }
    assert Filter([EverAfter, Metro, Sunset], c) == [Metro] by {
      ConferenceOnly(EverAfter);
      ConferenceOnly(Metro);
      ConferenceOnly(Sunset);
      ThreeDecisions(EverAfter, Metro, Sunset, c, false, true, false);
    }
    assert Filter([Northstar, Coastal, CityLights], c) == [Northstar] by {
      ConferenceOnly(Northstar);
      ConferenceOnly(Coastal);
      ConferenceOnly(CityLights);
      ThreeDecisions(Northstar, Coastal, CityLights, c, true, false, false);
    }
    FilterSeed(c);
  }

  /** A minimum rating of 4.0 keeps the 4.8 planner and drops the 3.8 one. */
  lemma MinRatingExample()
    ensures Filter([Aurora, Sunset], ClearAll().(minRating := 4.0)) == [Aurora]
  {
    assert SelectedTypes(map[]) == {};
  }

  /** The location "New" rejects every planner not located at exactly "New". */
  lemma PartialLocationOnly(p: Planner)
    requires p.location != "New"
    ensures !Passes(p, ClearAll().(location := "New"))
  {
    FailingCheckRejects(LocationCheck, p, ClearAll().(location := "New"));
  }

  /** A half-typed city in the sidebar box excludes every planner. */
  lemma SeedPartialLocation()
    ensures Filter(Seed, ClearAll().(location := "New")) == []
  {
    var c := ClearAll().(location := "New");
    PartialLocationOnly(Aurora);
    PartialLocationOnly(Summit);
    PartialLocationOnly(Festivo);
    PartialLocationOnly(EverAfter);
    PartialLocationOnly(Metro);
    PartialLocationOnly(Sunset);
    PartialLocationOnly(Northstar);
    PartialLocationOnly(Coastal);
    PartialLocationOnly(CityLights);
    ThreeDecisions(Aurora, Summit, Festivo, c, false, false, false);
    ThreeDecisions(EverAfter, Metro, Sunset, c, false, false, false);
    ThreeDecisions(Northstar, Coastal, CityLights, c, false, false, false);
    FilterSeed(c);
  }

  /** The price ceiling at 1 alone: a planner with a valid rating passes iff it is Budget. */
  lemma BudgetCeilingOnly(p: Planner)
    requires 0.0 <= p.rating
    ensures Passes(p, ClearAll().(maxPrice := 1.0)) <==> p.priceTier == Budget
  {
    assert SelectedTypes(map[]) == {};
  }

  /** Sliding the price ceiling to Budget leaves only the one Budget planner. */
  lemma SeedBudgetCeiling()
    ensures Filter(Seed, ClearAll().(maxPrice := 1.0)) == [Sunset]
  {
    var c := ClearAll().(maxPrice := 1.0);
    BudgetCeilingOnly(Aurora);
    BudgetCeilingOnly(Summit);
    BudgetCeilingOnly(Festivo);
    BudgetCeilingOnly(EverAfter);
    BudgetCeilingOnly(Metro);
    BudgetCeilingOnly(Sunset);
    BudgetCeilingOnly(Northstar);
    BudgetCeilingOnly(Coastal);
    BudgetCeilingOnly(CityLights);
    ThreeDecisions(Aurora, Summit, Festivo, c, false, false, false);
    ThreeDecisions(EverAfter, Metro, Sunset, c, false, false, true);
    ThreeDecisions(Northstar, Coastal, CityLights, c, false, false, false);
    FilterSeed(c);
  }

  /** With Wedding and Party checked and Other unchecked, a planner passes the boxes iff it has one of the two tags. */
  lemma WeddingOrPartyBoxes(p: Planner)
    requires 0.0 <= p.rating
    ensures Passes(p, ClearAll().(checkedTypes := map["Wedding" := true, "Party" := true, "Other" := false])) <==>
      Wedding in p.types || Party in p.types
  {
    var checked := map["Wedding" := true, "Party" := true, "Other" := false];
    CheckedTypesMeaning(p, checked);
    assert "Wedding" in checked && checked["Wedding"];
    if Wedding in p.types || Party in p.types {
      var i :| 0 <= i < |p.types| && (p.types[i] == Wedding || p.types[i] == Party);
      assert TypeName(p.types[i]) in checked && checked[TypeName(p.types[i])];
    }
  }

  /** An upper-case fragment of a name finds the planner: "WEDD" finds "Coastal Weddings". */
  lemma SearchUpperCaseName(p: Planner)
    requires p.name == "Coastal Weddings"
    ensures SearchOk(p, "WEDD")
  {
    var rest := "ings " + p.location + " " + Join(TypeNames(p.types), " ");
    assert Haystack(p) == "Coastal " + "Wedd" + rest;
    SearchFindsSegment(p, "Wedd", "Coastal ", rest);
    assert Lower("WEDD") == Lower("Wedd");
    SearchCaseInsensitive(p, "WEDD", "Wedd");
  }

  /**
    The query may straddle two fields, since they are searched as one spaced
    string: "Events New" finds "Aurora Events" of "New York, NY".
   */
  lemma SearchAcrossFields(p: Planner)
    requires p.name == "Aurora Events" && p.location == "New York, NY"
    ensures SearchOk(p, "Events New")
  {
    var rest := " York, NY " + Join(TypeNames(p.types), " ");
    assert Haystack(p) == "Aurora " + "Events New" + rest;
    SearchFindsSegment(p, "Events New", "Aurora ", rest);
  }
}
