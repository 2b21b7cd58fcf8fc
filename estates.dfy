/** The estate listing: three shipped properties and the shared filter sidebar. */
module Estates {
  import opened Common
  import opened Listings

  /** The shipped properties, as the filter sees them (id, price in lakhs, features). */
  function Properties(): seq<Listing>
  {
    [ Listing(1, 250, ["Riverfront", "Organic Certified", "Solar Ready"]),
      Listing(2, 180, ["Orchard Ready", "Mountain View", "Well Water"]),
      Listing(3, 320, ["Farmhouse Included", "Irrigation System", "Road Access"]) ]
  }

  /** The feature checkboxes of the sidebar, in display order. */
  function FilterFeatures(): seq<string>
  {
    ["Riverfront", "Organic Certified", "Solar Ready", "Orchard Ready", "Mountain View",
     "Well Water", "Farmhouse Included", "Irrigation System", "Road Access"]
  }

  /** With the starting sidebar every property is listed, in order. */
  lemma InitialListsAll()
    ensures Filtered(Properties(), InitialFilters()) == Properties()
  {
    FilterKeepsAll(Properties(), Kept(InitialFilters()));
  }

  /** Clear Filters lists every property again, whatever the sidebar held. */
  lemma ClearListsAll(st: FilterState)
    ensures Filtered(Properties(), ClearFilters(st)) == Properties()
  {
    InitialListsAll();
  }

  /** The k-th checkbox names a feature of property k / 3 and of no other. */
  lemma FeatureOwnedByOne(k: nat, i: nat)
    requires k < |FilterFeatures()| && i < |Properties()|
    ensures FilterFeatures()[k] in Properties()[i].features <==> i == k / 3
  {
    assert Properties()[i].features == FilterFeatures()[3 * i..3 * i + 3];
    if FilterFeatures()[k] in Properties()[i].features {
      var j :| 0 <= j < 3 && Properties()[i].features[j] == FilterFeatures()[k];
      assert FilterFeatures()[3 * i + j] == FilterFeatures()[k];
    }
  }

  /** Ticking a single checkbox with the full price range lists exactly the
      one property carrying that feature. */
  lemma SingleFeatureListsOne(k: nat)
    requires k < |FilterFeatures()|
    ensures Filtered(Properties(), FilterState(SliderMin, SliderMax, [FilterFeatures()[k]]))
            == [Properties()[k / 3]]
  {
    var st := FilterState(SliderMin, SliderMax, [FilterFeatures()[k]]);
    var ps := Properties();
    forall i | 0 <= i < 3 ensures Kept(st)(ps[i]) <==> i == k / 3 {
      FeatureOwnedByOne(k, i);
      MatchesIsOr(ps[i], st);
    }
    FilterUnique(ps, Kept(st), k / 3);
  }
}
