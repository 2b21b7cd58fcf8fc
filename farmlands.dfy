/** The farmland listing: four shipped farmlands, the shared filter sidebar,
    and the map cards that select an active property. */
module Farmlands {
  import opened Common
  import opened Listings

  /** The shipped farmlands, as the filter sees them (id, price in lakhs, features). */
  function ShippedFarmlands(): seq<Listing>
  {
    [ Listing(1, 45, ["Managed Farmland", "Organic Certified", "Expert Supervision", "Long-term Returns"]),
      Listing(2, 32, ["Drip Irrigation", "Agroforestry Model", "Market Linkage", "Professional Management"]),
      Listing(3, 28, ["Fast Growing Trees", "Sustainable Forestry", "Carbon Sequestration", "Water Management"]),
      Listing(4, 38, ["Diversified Plantation", "Organic Farming", "Expert Management", "Insurance Coverage"]) ]
  }

  /** Every shipped price lies below the slider's minimum, so whatever the
      user does with the sidebar, no farmland is listed and the "No farmlands
      match" message is shown. */
  lemma NoFarmlandEverListed(st: FilterState)
    requires st.lo >= SliderMin
    ensures Filtered(ShippedFarmlands(), st) == []
  {
    AllBelowRangeFilteredOut(ShippedFarmlands(), st);
  }

  /** A map card click: close the card that is open, or open the clicked one. */
  function SelectCard(active: Option<int>, id: int): (r: Option<int>)
    ensures r == Some(id) <==> active != Some(id)
    ensures r == None <==> active == Some(id)
  {
    if active == Some(id) then None else Some(id)
  }

  /** The section's state: the open map card and the sidebar. */
  datatype FarmlandsState = FarmlandsState(activeProperty: Option<int>, filters: FilterState)

  function InitialState(): FarmlandsState
  {
    FarmlandsState(None, InitialFilters())
  }

  /** What the user can do: move the slider, toggle a feature, press
      Clear Filters, click a map card. */
  datatype Event = Slide(lo: int, hi: int) | Toggle(feature: string) | Clear | ClickCard(id: int)

  /** The slider only reports values between its bounds. */
  predicate Possible(e: Event)
  {
    e.Slide? ==> SliderMin <= e.lo <= SliderMax && SliderMin <= e.hi <= SliderMax
  }

  /** A card is on screen only when a filtered farmland carries its id. */
  predicate CardShown(s: FarmlandsState, id: int)
  {
    exists i :: 0 <= i < |Filtered(ShippedFarmlands(), s.filters)| && Filtered(ShippedFarmlands(), s.filters)[i].id == id
  }

  /** One user action. A click on a card that is not on screen cannot happen
      and changes nothing. */
  function Apply(s: FarmlandsState, e: Event): (r: FarmlandsState)
    ensures Possible(e) && SliderReachable(s.filters) ==> SliderReachable(r.filters)
    ensures !e.ClickCard? ==> r.activeProperty == s.activeProperty
    ensures e.ClickCard? ==> r.filters == s.filters
    ensures e.ClickCard? && !CardShown(s, e.id) ==> r == s
    ensures e.Slide? ==> r.filters == s.filters.(lo := e.lo, hi := e.hi)
    ensures e.Toggle? ==> r.filters == s.filters.(selected := ToggleFeature(s.filters.selected, e.feature))
    ensures e.Clear? ==> r.filters == InitialFilters()
    ensures e.ClickCard? && CardShown(s, e.id) ==> r.activeProperty == SelectCard(s.activeProperty, e.id)
  {
    match e
    case Slide(lo, hi) => s.(filters := s.filters.(lo := lo, hi := hi))
    case Toggle(f) => s.(filters := s.filters.(selected := ToggleFeature(s.filters.selected, f)))
    case Clear => s.(filters := ClearFilters(s.filters))
    case ClickCard(id) => if CardShown(s, id) then s.(activeProperty := SelectCard(s.activeProperty, id)) else s
  }

  function Run(s: FarmlandsState, es: seq<Event>): (r: FarmlandsState)
    requires forall i :: 0 <= i < |es| ==> Possible(es[i])
    ensures SliderReachable(s.filters) ==> SliderReachable(r.filters)
    ensures (forall i :: 0 <= i < |es| ==> !es[i].ClickCard?) ==> r.activeProperty == s.activeProperty
    decreases |es|
  {
    if es == [] then s else Run(Apply(s, es[0]), es[1..])
  }

  /** Because no farmland is ever listed, no map card can be clicked, and
      activeProperty stays null for good after any sequence of actions. */
  lemma {:induction false} ActivePropertyStaysNull(s: FarmlandsState, es: seq<Event>)
    requires forall i :: 0 <= i < |es| ==> Possible(es[i])
    requires s.activeProperty == None && SliderReachable(s.filters)
    ensures Run(s, es).activeProperty == None && SliderReachable(Run(s, es).filters)
    decreases |es|
  {
    if es != [] {
      var next := Apply(s, es[0]);
      NoFarmlandEverListed(s.filters);
      assert next.activeProperty == None;
      ActivePropertyStaysNull(next, es[1..]);
    }
  }
}
