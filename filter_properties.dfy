/**
  What the planner filter promises: each check accepts exactly what it
  describes, and the list filter is a stable, idempotent, monotone selection
  that is the identity under the `clearAll` defaults.
 */
module FilterProperties {
  import opened Planner
  import opened Text
  import opened PlannerFilter

  // ---------------------------------------------------------------------
  // The individual checks
  // ---------------------------------------------------------------------

  /** A check that fails rejects the planner on its own, whatever the other six say. */
  lemma FailingCheckRejects(k: Check, p: Planner, c: Criteria)
    requires !Holds(k, p, c)
    ensures !Passes(p, c)
  {
  }

  /** Choosing a tag in the top bar keeps exactly the planners that carry it. */
  lemma EventTypeByTag(p: Planner, t: EventType)
    ensures EventTypeOk(p, TypeName(t)) <==> t in p.types
  {
    if t in p.types {
      var i :| 0 <= i < |p.types| && p.types[i] == t;
      assert TypeName(p.types[i]) == TypeName(t);
    } else if EventTypeOk(p, TypeName(t)) {
      var i :| 0 <= i < |p.types| && TypeName(p.types[i]) == TypeName(t);
      TypeNameInjective(p.types[i], t);
      assert false;
    }
  }

  /** A non-empty event type that is not one of the drop-down's entries matches no planner. */
  lemma UnknownEventTypeMatchesNothing(p: Planner, eventType: string)
    requires eventType != ""
    requires forall i :: 0 <= i < |EventTypes| ==> TypeName(EventTypes[i]) != eventType
    ensures !EventTypeOk(p, eventType)
  {
    forall t: EventType ensures TypeName(t) != eventType {
      match t
      case Conference => assert EventTypes[0] == t;
      case Wedding => assert EventTypes[1] == t;
      case Party => assert EventTypes[2] == t;
      case Other => assert EventTypes[3] == t;
    }
  }

  /**
    The sidebar check boxes: no `true` entry means no constraint; otherwise some
    tag of the planner must be a `true` key (OR over the selected tags).
   */
  lemma CheckedTypesMeaning(p: Planner, checked: map<string, bool>)
    ensures CheckedTypesOk(p, checked) <==>
      (forall k :: k in checked ==> !checked[k]) ||
      (exists i :: 0 <= i < |p.types| && TypeName(p.types[i]) in checked && checked[TypeName(p.types[i])])
  {
    var selected := SelectedTypes(checked);
    if forall k :: k in checked ==> !checked[k] {
      assert selected == {};
    } else {
      var k :| k in checked && checked[k];
      assert k in selected;
      assert |selected| != 0;
      if CheckedTypesOk(p, checked) {
        var t :| t in selected && HasType(p.types, t);
        var i :| 0 <= i < |p.types| && TypeName(p.types[i]) == t;
        assert TypeName(p.types[i]) in checked && checked[TypeName(p.types[i])];
      }
      if exists i :: 0 <= i < |p.types| && TypeName(p.types[i]) in checked && checked[TypeName(p.types[i])] {
        var i :| 0 <= i < |p.types| && TypeName(p.types[i]) in checked && checked[TypeName(p.types[i])];
        assert TypeName(p.types[i]) in selected && HasType(p.types, TypeName(p.types[i]));
      }
    }
  }

  /** Checking one more box never removes a planner once some box is already checked. */
  lemma CheckingAnotherTypeWidens(p: Planner, checked: map<string, bool>, name: string)
    requires SelectedTypes(checked) != {}
    requires CheckedTypesOk(p, checked)
    ensures CheckedTypesOk(p, checked[name := true])
  {
    var t :| t in SelectedTypes(checked) && HasType(p.types, t);
    assert t in SelectedTypes(checked[name := true]);
  }

  /** Setting every box to `false` (instead of removing it) also imposes no constraint. */
  lemma UncheckedBoxesImposeNothing(p: Planner, checked: map<string, bool>)
    requires forall k :: k in checked ==> !checked[k]
    ensures CheckedTypesOk(p, checked)
  {
    assert SelectedTypes(checked) == {};
  }

  /** The top-bar tier is an exact match. */
  lemma PriceTierExact(p: Planner, t: PriceTier)
    ensures PriceTierOk(p, OnlyTier(t)) <==> p.priceTier == t
    ensures PriceTierOk(p, AnyPrice)
  {
  }

  /**
    On the slider's three positions the ceiling admits exactly the tiers up to
    the one the slider label names.
   */
  lemma MaxPriceMatchesSliderLabel(p: Planner, v: real)
    requires v == 1.0 || v == 2.0 || v == 3.0
    ensures MaxPriceOk(p, v) <==> TierOrder(p.priceTier) <= TierOrder(PriceToTier(v))
  {
    PriceToTierRoundTrip(p.priceTier, v);
  }

  /** Searching is case-insensitive: a query and its lower-cased form select the same planners. */
  lemma SearchIgnoresQueryCase(p: Planner, q: string)
    ensures SearchOk(p, Lower(q)) == SearchOk(p, q)
  {
    LowerIdempotent(q);
  }

  /** Two queries that lower-case to the same string accept the same planners. */
  lemma SearchCaseInsensitive(p: Planner, q1: string, q2: string)
    requires Lower(q1) == Lower(q2)
    ensures SearchOk(p, q1) == SearchOk(p, q2)
  {
    assert |q1| == |Lower(q1)| == |q2|;
  }

  /**
    A non-empty query that is literally a segment of the searched text passes,
    even when the segment runs across the spaces between fields.
   */
  lemma SearchFindsSegment(p: Planner, q: string, a: string, c: string)
    requires q != ""
    requires Haystack(p) == a + q + c
    ensures SearchOk(p, q)
  {
    assert OccursAt(Lower(q), Lower(q), 0);
    SearchFindsPart(p, q, a, q, c);
  }

  /** The searched text split around the name. */
  lemma HaystackAroundName(p: Planner)
    ensures Haystack(p) == [] + p.name + (" " + p.location + " " + Join(TypeNames(p.types), " "))
  {
    var rest := " " + p.location + " " + Join(TypeNames(p.types), " ");
    assert Haystack(p) == p.name + rest;
  }

  /** The searched text split around the location. */
  lemma HaystackAroundLocation(p: Planner)
    ensures Haystack(p) == (p.name + " ") + p.location + (" " + Join(TypeNames(p.types), " "))
  {
    var tags := Join(TypeNames(p.types), " ");
    assert Haystack(p) == (p.name + " " + p.location) + (" " + tags);
  }

  /** The searched text split around the joined tags. */
  lemma HaystackAroundTags(p: Planner)
    ensures Haystack(p) == (p.name + " " + p.location + " ") + Join(TypeNames(p.types), " ") + []
  {
  }

  /** A query found (ignoring case) inside part `b` of `a + b + c` passes the search. */
  lemma SearchFindsPart(p: Planner, q: string, a: string, b: string, c: string)
    requires q != ""
    requires Haystack(p) == a + b + c
    requires Contains(Lower(b), Lower(q))
    ensures SearchOk(p, q)
  {
    var i :| OccursAt(Lower(q), Lower(b), i);
    LowerConcat(a + b, c);
    LowerConcat(a, b);
    OccursInConcat(Lower(q), Lower(a), Lower(b), Lower(c), i);
  }

  /** A non-empty query found, ignoring case, in the planner's name passes the search. */
  lemma SearchFindsName(p: Planner, q: string)
    requires q != ""
    requires Contains(Lower(p.name), Lower(q))
    ensures SearchOk(p, q)
  {
    HaystackAroundName(p);
    SearchFindsPart(p, q, [], p.name, " " + p.location + " " + Join(TypeNames(p.types), " "));
  }

  /** A non-empty query found, ignoring case, in the planner's location passes the search. */
  lemma SearchFindsLocation(p: Planner, q: string)
    requires q != ""
    requires Contains(Lower(p.location), Lower(q))
    ensures SearchOk(p, q)
  {
    HaystackAroundLocation(p);
    SearchFindsPart(p, q, p.name + " ", p.location, " " + Join(TypeNames(p.types), " "));
  }

  /** A non-empty query found, ignoring case, in one of the planner's tags passes the search. */
  lemma SearchFindsTag(p: Planner, q: string, k: int)
    requires 0 <= k < |p.types|
    requires q != ""
    requires Contains(Lower(TypeName(p.types[k])), Lower(q))
    ensures SearchOk(p, q)
  {
    var names := TypeNames(p.types);
    var joined := Join(names, " ");
    ItemOccursInJoin(names, " ", k);
    var off :| OccursAt(names[k], joined, off);
    var i :| OccursAt(Lower(q), Lower(TypeName(p.types[k])), i);
    OccursAtLower(names[k], joined, off);
    OccursTransitive(Lower(q), Lower(names[k]), Lower(joined), i, off);
    assert Contains(Lower(joined), Lower(q));
    HaystackAroundTags(p);
    SearchFindsPart(p, q, p.name + " " + p.location + " ", joined, []);
  }

  // ---------------------------------------------------------------------
  // The list filter
  // ---------------------------------------------------------------------

  /** A planner is in the result exactly when it is in the input and passes. */
  lemma {:induction false} FilterMembership(ps: seq<Planner>, c: Criteria, x: Planner)
    ensures x in Filter(ps, c) <==> x in ps && Passes(x, c)
  {
    if ps != [] {
      FilterMembership(ps[1..], c, x);
      assert ps == [ps[0]] + ps[1..];
    }
  }

  /** A planner that fails any one check is not in the result. */
  lemma FailingCheckExcludes(ps: seq<Planner>, c: Criteria, k: Check, x: Planner)
    requires !Holds(k, x, c)
    ensures x !in Filter(ps, c)
  {
    FilterMembership(ps, c, x);
  }

  /**
    The filter never duplicates: each passing planner occurs as often as in the
    input, each failing one not at all.
   */
  lemma {:induction false} FilterMultiplicity(ps: seq<Planner>, c: Criteria, x: Planner)
    ensures multiset(Filter(ps, c))[x] == if Passes(x, c) then multiset(ps)[x] else 0
  {
    if ps != [] {
      FilterMultiplicity(ps[1..], c, x);
      assert ps == [ps[0]] + ps[1..];
    }
  }

  /** Hence the result is a sub-multiset of the input. */
  lemma FilterSubMultiset(ps: seq<Planner>, c: Criteria)
    ensures multiset(Filter(ps, c)) <= multiset(ps)
  {
    forall x ensures multiset(Filter(ps, c))[x] <= multiset(ps)[x] {
      FilterMultiplicity(ps, c, x);
    }
  }

  /** The keep-or-drop decision for each position of the input. */
  function Decisions(ps: seq<Planner>, c: Criteria): (d: seq<bool>)
    ensures |d| == |ps|
    ensures forall i :: 0 <= i < |ps| ==> d[i] == Passes(ps[i], c)
  {
    if ps == [] then [] else [Passes(ps[0], c)] + Decisions(ps[1..], c)
  }

  /** The positions `i >= start` where `d` is true, in increasing order. */
  function TrueIndicesFrom(d: seq<bool>, start: nat): (r: seq<int>)
    requires start <= |d|
    ensures forall k :: 0 <= k < |r| ==> start <= r[k] < |d| && d[r[k]]
    ensures forall j, k :: 0 <= j < k < |r| ==> r[j] < r[k]
    ensures forall i :: start <= i < |d| && d[i] ==> i in r
    decreases |d| - start
  {
    if start == |d| then []
    else (if d[start] then [start] else []) + TrueIndicesFrom(d, start + 1)
  }

  /**
    The positions `i >= start` whose planner passes, in increasing order: an
    independent description of what a stable filter keeps.
   */
  function PassingIndicesFrom(ps: seq<Planner>, c: Criteria, start: nat): (r: seq<int>)
    requires start <= |ps|
    ensures forall k :: 0 <= k < |r| ==> start <= r[k] < |ps| && Passes(ps[r[k]], c)
    ensures forall j, k :: 0 <= j < k < |r| ==> r[j] < r[k]
    ensures forall i :: start <= i < |ps| && Passes(ps[i], c) ==> i in r
  {
    TrueIndicesFrom(Decisions(ps, c), start)
  }

  /** The positions of the input whose planner passes, in increasing order. */
  function PassingIndices(ps: seq<Planner>, c: Criteria): (r: seq<int>)
    ensures forall k :: 0 <= k < |r| ==> 0 <= r[k] < |ps| && Passes(ps[r[k]], c)
    ensures forall j, k :: 0 <= j < k < |r| ==> r[j] < r[k]
    ensures forall i :: 0 <= i < |ps| && Passes(ps[i], c) ==> i in r
  {
    PassingIndicesFrom(ps, c, 0)
  }

  /** Reading `ps` at `[j] + js` prepends `ps[j]` to reading it at `js`. */
  lemma IndexedCons(ps: seq<Planner>, j: int, xs: seq<Planner>, js: seq<int>)
    requires 0 <= j < |ps|
    requires |xs| == |js|
    requires forall k :: 0 <= k < |js| ==> 0 <= js[k] < |ps| && xs[k] == ps[js[k]]
    ensures forall k :: 0 <= k < |js| + 1 ==> ([ps[j]] + xs)[k] == ps[([j] + js)[k]]
  {
  }

  lemma {:induction false} FilterAtIndicesFrom(ps: seq<Planner>, c: Criteria, start: nat)
    requires start <= |ps|
    ensures |Filter(ps[start..], c)| == |PassingIndicesFrom(ps, c, start)|
    ensures forall k :: 0 <= k < |Filter(ps[start..], c)| ==>
      Filter(ps[start..], c)[k] == ps[PassingIndicesFrom(ps, c, start)[k]]
    decreases |ps| - start
  {
    var d := Decisions(ps, c);
    var idx := TrueIndicesFrom(d, start);
    var kept := Filter(ps[start..], c);
    assert PassingIndicesFrom(ps, c, start) == idx;
    if start < |ps| {
      FilterAtIndicesFrom(ps, c, start + 1);
      var tailKept := Filter(ps[start + 1..], c);
      var tailIdx := TrueIndicesFrom(d, start + 1);
      assert PassingIndicesFrom(ps, c, start + 1) == tailIdx;
      assert ps[start..][0] == ps[start];
      assert ps[start..][1..] == ps[start + 1..];
      if d[start] {
        assert kept == [ps[start]] + tailKept;
        assert idx == [start] + tailIdx;
        IndexedCons(ps, start, tailKept, tailIdx);
      } else {
        assert kept == tailKept;
        assert idx == tailIdx;
      }
    } else {
      assert ps[start..] == [];
    }
  }

  /**
    Stability: the result is the input read at the passing positions, in
    increasing order, so it keeps the input's relative order and nothing else.
   */
  lemma FilterIsStable(ps: seq<Planner>, c: Criteria)
    ensures |Filter(ps, c)| == |PassingIndices(ps, c)|
    ensures forall k :: 0 <= k < |Filter(ps, c)| ==> Filter(ps, c)[k] == ps[PassingIndices(ps, c)[k]]
  {
    FilterAtIndicesFrom(ps, c, 0);
    assert ps[0..] == ps;
  }

  /** Filtering a concatenation filters each part. */
  lemma {:induction false} FilterConcat(a: seq<Planner>, b: seq<Planner>, c: Criteria)
    ensures Filter(a + b, c) == Filter(a, c) + Filter(b, c)
  {
    if a != [] {
      FilterConcat(a[1..], b, c);
      var head := if Passes(a[0], c) then [a[0]] else [];
      assert (a + b)[0] == a[0];
      assert (a + b)[1..] == a[1..] + b;
      assert Filter(a + b, c) == head + Filter(a[1..] + b, c);
      assert Filter(a, c) == head + Filter(a[1..], c);
    } else {
      assert a + b == b;
    }
  }

  /** The result is the whole input exactly when every planner passes. */
  lemma {:induction false} FilterIsIdentityIff(ps: seq<Planner>, c: Criteria)
    ensures Filter(ps, c) == ps <==> forall i :: 0 <= i < |ps| ==> Passes(ps[i], c)
  {
    if ps != [] {
      FilterIsIdentityIff(ps[1..], c);
      if !Passes(ps[0], c) {
        assert |Filter(ps, c)| < |ps|;
      }
      assert forall i :: 1 <= i < |ps| ==> ps[1..][i - 1] == ps[i];
    }
  }

  /**
    Filtering a result again with criteria that accept no more of the input
    gives the same list as filtering the input directly.
   */
  lemma {:induction false} FilterNarrowing(ps: seq<Planner>, weak: Criteria, strong: Criteria)
    requires forall i :: 0 <= i < |ps| && Passes(ps[i], strong) ==> Passes(ps[i], weak)
    ensures Filter(Filter(ps, weak), strong) == Filter(ps, strong)
  {
    if ps != [] {
      assert forall i :: 1 <= i < |ps| ==> ps[1..][i - 1] == ps[i];
      FilterNarrowing(ps[1..], weak, strong);
      var head := if Passes(ps[0], weak) then [ps[0]] else [];
      FilterConcat(head, Filter(ps[1..], weak), strong);
    }
  }

  /** Idempotence: filtering the result again with the same criteria changes nothing. */
  lemma FilterIdempotent(ps: seq<Planner>, c: Criteria)
    ensures Filter(Filter(ps, c), c) == Filter(ps, c)
  {
    FilterNarrowing(ps, c, c);
  }

  /** Under the `clearAll` defaults every planner whose rating is not negative passes all seven checks. */
  lemma ClearAllPasses(p: Planner)
    requires 0.0 <= p.rating
    ensures Passes(p, ClearAll())
  {
    assert SelectedTypes(map[]) == {};
  }

  /** Under the `clearAll` defaults the filter is the identity on planners with non-negative ratings (all of the documented 0..5 range). */
  lemma ClearAllIsIdentity(ps: seq<Planner>)
    requires forall i :: 0 <= i < |ps| ==> 0.0 <= ps[i].rating
    ensures Filter(ps, ClearAll()) == ps
  {
    forall i | 0 <= i < |ps| ensures Passes(ps[i], ClearAll()) {
      ClearAllPasses(ps[i]);
    }
    FilterIsIdentityIff(ps, ClearAll());
  }

  /**
    Raising the minimum rating never adds a planner: the new result is the old
    result filtered again, so it is no longer and in the same order.
   */
  lemma RaisingMinRatingNarrows(ps: seq<Planner>, c: Criteria, r: real)
    requires c.minRating <= r
    ensures Filter(ps, c.(minRating := r)) == Filter(Filter(ps, c), c.(minRating := r))
    ensures |Filter(ps, c.(minRating := r))| <= |Filter(ps, c)|
    ensures forall x :: x in Filter(ps, c.(minRating := r)) ==> x in Filter(ps, c)
  {
    var strong := c.(minRating := r);
    FilterNarrowing(ps, c, strong);
    forall x | x in Filter(ps, strong) ensures x in Filter(ps, c) {
      FilterMembership(ps, strong, x);
      FilterMembership(ps, c, x);
    }
  }

  /**
    Lowering the price ceiling never adds a planner: the new result is the old
    result filtered again, so it is no longer and in the same order.
   */
  lemma LoweringMaxPriceNarrows(ps: seq<Planner>, c: Criteria, m: real)
    requires m <= c.maxPrice
    ensures Filter(ps, c.(maxPrice := m)) == Filter(Filter(ps, c), c.(maxPrice := m))
    ensures |Filter(ps, c.(maxPrice := m))| <= |Filter(ps, c)|
    ensures forall x :: x in Filter(ps, c.(maxPrice := m)) ==> x in Filter(ps, c)
  {
    var strong := c.(maxPrice := m);
    FilterNarrowing(ps, c, strong);
    forall x | x in Filter(ps, strong) ensures x in Filter(ps, c) {
      FilterMembership(ps, strong, x);
      FilterMembership(ps, c, x);
    }
  }

  /** A non-empty location keeps only planners at exactly that location. */
  lemma LocationFilterIsExact(ps: seq<Planner>, c: Criteria)
    requires c.location != ""
    ensures forall i :: 0 <= i < |Filter(ps, c)| ==> Filter(ps, c)[i].location == c.location
    ensures forall i :: 0 <= i < |ps| && ps[i].location != c.location ==> ps[i] !in Filter(ps, c)
  {
    forall i | 0 <= i < |ps| && ps[i].location != c.location ensures ps[i] !in Filter(ps, c) {
      FailingCheckExcludes(ps, c, LocationCheck, ps[i]);
    }
  }
}
