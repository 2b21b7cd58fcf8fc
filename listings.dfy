/** The filter sidebar shared by the farmland and estate listings: a price slider,
    a list of feature toggles, and the filtered list of listing cards.
    FarmlandsSection and EstatesSection carry identical copies of this logic. */
module Listings {
  import opened Common

  /** A listing card as the filter sees it: its id, its price (in lakhs) and
      its feature tags. */
  datatype Listing = Listing(id: int, price: int, features: seq<string>)

  /** The sidebar state: the slider's two thumbs [lo, hi] and the selected
      features, in the order they were switched on. */
  datatype FilterState = FilterState(lo: int, hi: int, selected: seq<string>)

  /** The slider's fixed bounds. */
  const SliderMin: int := 50
  const SliderMax: int := 500

  /** The state the sidebar starts in. */
  function InitialFilters(): FilterState
  {
    FilterState(SliderMin, SliderMax, [])
  }

  /** A state the slider can produce: both thumbs inside the slider's bounds. */
  predicate SliderReachable(st: FilterState)
  {
    SliderMin <= st.lo <= SliderMax && SliderMin <= st.hi <= SliderMax
  }

  /** The "Clear Filters" button: the whole sidebar goes back to its starting
      state, whatever it was before. */
  function ClearFilters(st: FilterState): (r: FilterState)
    ensures r == InitialFilters()
    ensures SliderReachable(r) && r.selected == []
  {
    st.(lo := SliderMin, hi := SliderMax, selected := [])
  }

  /** toggleFeature: remove every occurrence of a selected feature, or append
      an unselected one at the end. */
  function ToggleFeature(prev: seq<string>, feature: string): (r: seq<string>)
    ensures feature in r <==> feature !in prev
    ensures forall g :: g != feature ==> (g in r <==> g in prev)
    ensures feature !in prev ==> |r| == |prev| + 1 && r[..|prev|] == prev && r[|prev|] == feature
    ensures feature in prev ==> SubSeq(r, prev) && |r| < |prev|
  {
    if feature in prev then
      FilterIsSubSeq(prev, Other(feature));
      var k :| 0 <= k < |prev| && prev[k] == feature;
      FilterDropsFailing(prev, Other(feature), k);
      Filter(prev, Other(feature))
    else prev + [feature]
  }

  /** The predicate `f => f !== feature`. */
  function Other(feature: string): string -> bool
  {
    f => f != feature
  }

  /** The card predicate of filteredFarmlands / filteredProperties: price
      inside the slider range AND (no feature selected OR the card carries at
      least one selected feature). */
  predicate Matches(item: Listing, st: FilterState)
  {
    && st.lo <= item.price <= st.hi
    && (|st.selected| == 0 || Any(st.selected, HasFeature(item)))
  }

  /** The predicate `feature => item.features.includes(feature)`. */
  function HasFeature(item: Listing): string -> bool
  {
    f => f in item.features
  }

  /** The predicate handed to `filter`. */
  function Kept(st: FilterState): Listing -> bool
  {
    item => Matches(item, st)
  }

  /** filteredFarmlands / filteredProperties. */
  function Filtered(items: seq<Listing>, st: FilterState): (r: seq<Listing>)
    ensures |r| <= |items|
    ensures forall x :: x in r ==> x in items && Matches(x, st)
    ensures forall x :: x in items ==> (x in r <==> Matches(x, st))
  {
    Filter(items, Kept(st))
  }

  /** Toggling a feature that is not selected, and then toggling it again,
      gives back the original selection. */
  lemma {:induction false} ToggleAbsentTwice(prev: seq<string>, feature: string)
    requires feature !in prev
    ensures ToggleFeature(ToggleFeature(prev, feature), feature) == prev
  {
    var once := ToggleFeature(prev, feature);
    assert once == prev + [feature];
    FilterAppend(prev, [feature], Other(feature));
    FilterKeepsAll(prev, Other(feature));
    assert Filter([feature], Other(feature)) == [];
  }

  /** Feature matching is an OR over the selection; an empty selection accepts
      every card whose price is in range. */
  lemma MatchesIsOr(item: Listing, st: FilterState)
    ensures Matches(item, st) <==>
              && st.lo <= item.price <= st.hi
              && (st.selected == [] ||
                  exists i :: 0 <= i < |st.selected| && st.selected[i] in item.features)
  {
    AnyIffExists(st.selected, HasFeature(item));
  }

  /** The filtered list is an order-preserving sub-list of the listings, and a
      listing is in it exactly when it matches. */
  lemma FilteredIsMatchingSubList(items: seq<Listing>, st: FilterState)
    ensures SubSeq(Filtered(items, st), items)
    ensures forall x :: x in Filtered(items, st) ==> st.lo <= x.price <= st.hi
    ensures forall x :: x in items ==> (x in Filtered(items, st) <==> Matches(x, st))
  {
    FilterIsSubSeq(items, Kept(st));
  }

  /** The "no match" message shows exactly when no listing satisfies the filter. */
  lemma {:induction false} EmptyIffNoneMatch(items: seq<Listing>, st: FilterState)
    ensures Filtered(items, st) == [] <==> forall i :: 0 <= i < |items| ==> !Matches(items[i], st)
  {
    if Filtered(items, st) != [] {
      var x := Filtered(items, st)[0];
      assert x in Filtered(items, st);
      var i :| 0 <= i < |items| && items[i] == x;
    } else {
      forall i | 0 <= i < |items| ensures !Matches(items[i], st) {
        assert items[i] in items;
        assert Kept(st)(items[i]) == Matches(items[i], st);
      }
    }
  }

  /** Listings all priced below the lower thumb are all filtered out. */
  lemma AllBelowRangeFilteredOut(items: seq<Listing>, st: FilterState)
    requires forall i :: 0 <= i < |items| ==> items[i].price < st.lo
    ensures Filtered(items, st) == []
  {
    EmptyIffNoneMatch(items, st);
  }
}
