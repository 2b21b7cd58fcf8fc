# Darvi Farm site — verified model of its interactive core

The site is a single-page React marketing site for managed farmland. This
project models the parts of it that hold behaviour rather than markup:

- **Canvas3D**, the animated particle background. It builds a pool of particles from
  random draws when the canvas mounts and again on every resize. On every animation
  frame it moves each particle in place by the rule of one of five variants:
  - seed drift;
  - growing fields;
  - harvest dust;
  - organic flow;
  - geometric crops, which bounces particles and collects the connection lines
    between particles closer than 120px.
- **The listing filters** of FarmlandsSection and EstatesSection:
  - a price slider;
  - feature toggles;
  - the filtered card list;
  - Clear Filters;
  - the farmland map card selection.
- **JournalSection**: the category filter, the featured article and the grid of
  regular articles.
- **Navigation**:
  - the scroll handler that sets `isScrolled` and picks the active section;
  - the menu highlight;
  - the nav click;
  - the mobile menu toggles.
- **HeroSection**:
  - the slide carousel (a timer tick and the indicator clicks);
  - the slide visibility;
  - the audio toggle.

Files:

- `common.dfy`: `Option`, together with models of `Array.prototype.filter`, `find` and
  `some`, and their facts (sub-list, first witness, and so on).
- `particle_rules.dfy`: the per-particle rules as pure functions, with their bounds.
- `canvas3d.dfy`: the `Animator` class. It owns the particle `array` and steps it in
  place, and each step method is proved against the per-particle function.
- `listings.dfy`: the filter sidebar that both listing sections share.
- `farmlands.dfy` and `estates.dfy`: the shipped listings, and what the filter does
  with them.
- `journal.dfy`: the journal's derived lists, as functions of the chosen category.
- `navigation.dfy` and `hero.dfy`: the navigation bar and the carousel. Their mutable
  state is a class.

Modelling conventions:

- Every `Math.random()` result is an input in [0,1). Every `Math.sin` or `Math.cos`
  value is an input in [-1,1].
- Particle coordinates, velocities and alphas are reals. Listing prices and slider
  thumbs are integers, and slide indices are natural numbers.
- The Euclidean distance of a connection is handled through its square.

The palette choice nests a second draw, so green, earth and growth come out at 0.6,
0.32 and 0.08 (`PaletteOf`). The type choice likewise gives seed, leaf and flower
0.3, 0.42 and 0.28 (`KindOf`).

Behaviours of the source that the proofs make explicit:

- **Divide by zero in seed drift.** A seed-drift particle whose `z` wraps to exactly
  1000 makes the perspective `1000 / (1000 - z)` divide by zero (`Perspective` is
  `None` there).
- **Harvest dust can leave for good.** A harvest particle with `vy < -0.3` rises every
  frame and is never brought back. Only the bottom edge wraps (`HarvestRisesForever`,
  `SpawnCanRiseForever`).
- **Negative organic-flow alpha.** The organic-flow alpha goes negative when its sine
  is below -2/3 (`OrganicAlphaCanBeNegative`). A canvas ignores a negative
  `globalAlpha`. Each particle is drawn between `save()` and `restore()`, so that blob
  is drawn at the default alpha of 1: fully opaque.
- **No farmland can ever be listed.** All four shipped farmlands cost less than the
  slider's minimum of 50. The farmland list is therefore always empty, and
  `activeProperty` stays null (`NoFarmlandEverListed`, `ActivePropertyStaysNull`).
- **Sustainability shows nothing.** Choosing the "Sustainability" journal category
  shows no article at all (`SustainabilityShowsNothing`).

## Model

| member | source | states |
|---|---|---|
| Common.Filter | src/components/FarmlandsSection.tsx:116 | the result is no longer than the input, holds exactly the input's elements that pass the predicate |
| Common.AnyIffExists | src/components/FarmlandsSection.tsx:124 | `some` is true iff some element satisfies the predicate |
| Common.Find | src/components/JournalSection.tsx:85 | a found element is in the list and passes; the full characterisation is FindIsFirst |
| Common.Any | src/components/FarmlandsSection.tsx:123-124 | `some` true implies a passing element exists; the converse is AnyIffExists |
| Common.FilterMultiset | src/components/FarmlandsSection.tsx:121 | `filter` keeps each passing element exactly as often as it occurs and drops every failing one |
| Common.FindIsFirst | src/components/JournalSection.tsx:85 | `find` is None iff no element passes; otherwise it returns a passing element with no passing element before it |
| Common.FilterIsSubSeq | src/components/FarmlandsSection.tsx:121-126 | the filtered list keeps the original relative order (an order-preserving sub-list) |
| Common.FilterUnique | src/components/EstatesSection.tsx:66-71 | when exactly one position passes, the filtered list is that one element |
| Listings.ToggleFeature | src/components/FarmlandsSection.tsx:113-119 | toggling flips the feature's membership and leaves every other feature's membership unchanged; an absent feature is appended at the end; a present one is removed, leaving a strictly shorter sub-list |
| Listings.ToggleAbsentTwice | src/components/EstatesSection.tsx:58-64 | toggling an unselected feature twice restores the original selection |
| Listings.ClearFilters | src/components/FarmlandsSection.tsx:449-452 | Clear Filters returns to the initial state [50, 500] with no features, from any state |
| Listings.Filtered | src/components/FarmlandsSection.tsx:121-126 | filteredFarmlands / filteredProperties holds exactly the listings that match, and no more than there are; the order is FilteredIsMatchingSubList |
| Listings.MatchesIsOr | src/components/FarmlandsSection.tsx:121-126 | a card matches iff its price is in [lo, hi] and either no feature is selected or it carries at least one selected feature (OR semantics) |
| Listings.FilteredIsMatchingSubList | src/components/EstatesSection.tsx:66-71 | the filtered list is an order-preserving sub-list of the listings, every listed price is in range, and a listing is in it iff it matches |
| Listings.EmptyIffNoneMatch | src/components/FarmlandsSection.tsx:441 | the "no match" message shows iff no listing matches |
| Listings.AllBelowRangeFilteredOut | src/components/FarmlandsSection.tsx:122 | listings priced below the lower thumb are all filtered out |
| Farmlands.NoFarmlandEverListed | src/components/FarmlandsSection.tsx:16-126 | with the shipped prices (45, 32, 28, 38) no slider position at or above 50 lists any farmland |
| Farmlands.SelectCard | src/components/FarmlandsSection.tsx:147 | clicking the open card closes it; clicking any other card opens that one |
| Farmlands.Apply | src/components/FarmlandsSection.tsx:113-147 | one setter call: a slide sets the two thumbs, a toggle applies ToggleFeature to the selection, Clear resets to the initial filters, and a click on a shown card applies SelectCard; slider, toggle and clear leave activeProperty alone and keep the slider in bounds; a card click leaves the filters alone and is a no-op on a card not shown |
| Farmlands.Run | src/components/FarmlandsSection.tsx:11-14 | a sequence of possible events keeps the slider in bounds, and without card clicks keeps activeProperty |
| Farmlands.ActivePropertyStaysNull | src/components/FarmlandsSection.tsx:11-14 | from a null activeProperty and a reachable slider, every sequence of slider, toggle, clear and card events keeps activeProperty null and the slider reachable |
| Estates.InitialListsAll | src/components/EstatesSection.tsx:11-12 | with the initial sidebar all three properties are listed, in order |
| Estates.ClearListsAll | src/components/EstatesSection.tsx:292-295 | after Clear Filters all properties are listed, whatever the sidebar held |
| Estates.FeatureOwnedByOne | src/components/EstatesSection.tsx:14-56 | checkbox k names a feature of property k/3 and of no other property |
| Estates.SingleFeatureListsOne | src/components/EstatesSection.tsx:66-71 | one ticked checkbox with the full price range lists exactly the one property carrying it |
| Journal.FilteredArticles | src/components/JournalSection.tsx:81-83 | under "All" every article; otherwise an order-preserving sub-list holding an article iff it is in the chosen category |
| Journal.RegularArticles | src/components/JournalSection.tsx:86 | an order-preserving sub-list of the filtered articles that contains no featured article and every non-featured one |
| Journal.FeaturedArticle | src/components/JournalSection.tsx:85 | featuredArticle is a featured shipped article, and is absent iff none is featured |
| Journal.ShowsFeaturedCard | src/components/JournalSection.tsx:130 | the featured card shows iff the category is "All" and some article is featured |
| Journal.FeaturedIsFirstFeatured | src/components/JournalSection.tsx:85 | featuredArticle is absent iff no article is featured, and otherwise is the first featured one |
| Journal.ShippedFeatured | src/components/JournalSection.tsx:9-76 | with the shipped articles the featured article is article 1 |
| Journal.EachCategoryListsOne | src/components/JournalSection.tsx:78-83 | each category other than "All" lists exactly the one article of that category |
| Journal.SustainabilityShowsNothing | src/components/JournalSection.tsx:130 | "Sustainability" shows neither a featured card nor any grid article |
| Navigation.ScanSections | src/components/Navigation.tsx:14-27 | a hit is a scanned section id whose element exists and contains scrollY + 100; the full first-hit statement is ScrollPicksFirstContaining |
| Navigation.ActiveAfterScroll | src/components/Navigation.tsx:17-27 | the active section after a scroll is the previous one or a section containing the probe point |
| Navigation.Highlighted | src/components/Navigation.tsx:144 | for an href starting with '#', the item is highlighted iff the href is "#" followed by activeSection |
| Navigation.ScrollPicksFirstContaining | src/components/Navigation.tsx:14-27 | the active section after a scroll is the first id, in scan order, whose existing element contains scrollY + 100; missing elements are skipped; with no hit the old value stays |
| Navigation.FirstHit | src/components/Navigation.tsx:17-27 | the scan loop with its early break returns the first section hit by the probe, or None |
| Navigation.HrefsFollowSections | src/components/Navigation.tsx:34-42 | the k-th menu href is "#" followed by the k-th scanned section id |
| Navigation.HighlightIsOneToOne | src/components/Navigation.tsx:144 | when a scanned section is active exactly its own menu item is highlighted; with the initial "" none is |
| Navigation.NavBar.constructor | src/components/Navigation.tsx:5-7 | starts transparent, with no active section and the mobile menu closed |
| Navigation.NavBar.HandleScroll | src/components/Navigation.tsx:10-27 | isScrolled iff scrollY > 50; activeSection becomes the scan's hit, else stays; the menu state is untouched |
| Navigation.NavBar.NavClick | src/components/Navigation.tsx:95-99 | a nav click closes the mobile menu and changes nothing else |
| Navigation.NavBar.ToggleMenu | src/components/Navigation.tsx:200 | the menu button flips the mobile menu and changes nothing else |
| Navigation.NavBar.CloseFromBackdrop | src/components/Navigation.tsx:244 | a backdrop click closes the mobile menu and changes nothing else |
| Hero.NextSlide | src/components/HeroSection.tsx:30 | the successor is a valid index: the next slide, or the first after the last |
| Hero.Ticks | src/components/HeroSection.tsx:28-33 | any number of ticks from a valid slide leaves a valid slide |
| Hero.TicksAdvance | src/components/HeroSection.tsx:28-33 | within one lap, k ticks move the carousel k places forward, wrapping past the last slide |
| Hero.FullCycleReturns | src/components/HeroSection.tsx:29-31 | three ticks return to the starting slide and no fewer do |
| Hero.SlideStyle | src/components/HeroSection.tsx:43-46 | a slide has opacity 1 iff it is the current one, scale 1 iff it is the current one, and opacity 0 otherwise |
| Hero.IndicatorActive | src/components/HeroSection.tsx:113-116 | an indicator is drawn active iff its slide has the visible style |
| Hero.ExactlyOneSlideVisible | src/components/HeroSection.tsx:43-46 | only the current slide has opacity 1 and scale 1, the others opacity 0 and scale 1.1; an indicator is active iff its slide is the visible one |
| Hero.Carousel.CurrentTitle | src/components/HeroSection.tsx:138 | under the carousel invariant the headline lookup is defined, and it is the title of the current slide and of no other |
| Hero.Carousel.constructor | src/components/HeroSection.tsx:7-8 | starts at slide 0 with audio off |
| Hero.Carousel.Tick | src/components/HeroSection.tsx:30 | the interval callback moves to the successor slide and keeps a valid index |
| Hero.Carousel.SelectSlide | src/components/HeroSection.tsx:112 | an indicator click shows that slide |
| Hero.Carousel.ToggleAudio | src/components/HeroSection.tsx:84 | the audio button flips audioEnabled and leaves the slide alone |
| ParticleRules.PaletteOf | src/components/Canvas3D.tsx:50 | green iff the first draw is below 0.6; earth iff not and the second draw is below 0.8; growth otherwise |
| ParticleRules.KindOf | src/components/Canvas3D.tsx:63 | seed iff the first draw is below 0.3; leaf iff not and the second draw is below 0.6; flower otherwise |
| ParticleRules.ShadeIndex | src/components/Canvas3D.tsx:60 | `Math.floor(r * n)` is a valid index and the floor of r * n |
| ParticleRules.ColorOf | src/components/Canvas3D.tsx:39-43 | the picked colour lies in the chosen palette and in no other |
| ParticleRules.Spawn | src/components/Canvas3D.tsx:51-64 | a new particle lies on the canvas, z in [0,1000), vx and vy in [-0.4,0.4), vz in [-1.5,1.5), size in [2,6), opacity in [0.2,0.9), growth in [1,3), angle in [0,2π), colour from the chosen palette and type from the type choice |
| ParticleRules.Wrap | src/components/Canvas3D.tsx:76-81 | the two sequential wrap tests leave a value in range untouched, send one below the range to the top and one above it to the bottom |
| ParticleRules.SeedStep | src/components/Canvas3D.tsx:71-81 | after a seed-drift frame x and y are the moved coordinates wrapped (by `Wrap`) to the opposite side of the 50px margin, so they lie within it, and z in [0,1000]; a z falling below 0 lands on exactly 1000 and one rising above 1000 on 0; no other field changes |
| ParticleRules.SeedReentersOppositeEdge | src/components/Canvas3D.tsx:76-77 | on an 800px canvas a seed at x = -60 moving by -0.5 re-enters at x = 850 |
| ParticleRules.Perspective | src/components/Canvas3D.tsx:83 | the perspective factor is undefined exactly at z = 1000 and at least 1 elsewhere |
| ParticleRules.SeedAlpha | src/components/Canvas3D.tsx:89 | the seed alpha lies between a sixth of the opacity and the opacity |
| ParticleRules.PulseAlpha | src/components/Canvas3D.tsx:138 | the pulsing alpha never exceeds the opacity, reaches it at sine 1, and is non-negative for base at least 0.5 |
| ParticleRules.OrganicAlphaCanBeNegative | src/components/Canvas3D.tsx:219 | with base 0.4 a sine of -1 gives a negative alpha for every opacity a particle can have |
| ParticleRules.GrowStep | src/components/Canvas3D.tsx:126-135 | after a growing-fields frame x (moved by vx) and y (moved by vy/2) are wrapped to the opposite edge of the canvas, so x in [0,w] and y in [0,h]; growth is 1 + s/2, in [0.5,1.5]; no other field changes |
| ParticleRules.StalkHeight | src/components/Canvas3D.tsx:143 | the stalk height is in [8,72) |
| ParticleRules.HarvestStep | src/components/Canvas3D.tsx:173-181 | after a harvest frame x is the swirled x wrapped to the opposite edge, in [0,w]; the angle advanced by 0.02; y is the moved y when that is at most h and -10 exactly when it passed the bottom edge; a particle with vy < -0.3 rises by at least -(vy+0.3) |
| ParticleRules.HarvestRisesForever | src/components/Canvas3D.tsx:177-181 | over k frames a particle with vy < -0.3 ends at least k·-(vy+0.3) higher: it is never wrapped back |
| ParticleRules.SpawnCanRiseForever | src/components/Canvas3D.tsx:56 | a vy draw below 0.125 creates such a particle |
| ParticleRules.OrganicStep | src/components/Canvas3D.tsx:207-216 | after an organic-flow frame x and y are the drifted coordinates wrapped to the opposite side of the 100px margin, so they lie within it; no other field changes |
| ParticleRules.BounceStep | src/components/Canvas3D.tsx:257-262 | the position moves by the velocity, unclamped; a velocity component is negated iff the new coordinate is outside the canvas on that axis; speeds are kept |
| ParticleRules.BounceStepStaysNear | src/components/Canvas3D.tsx:258-262 | the bounce keeps every particle within one step of the canvas, outside it only while heading back in |
| ParticleRules.DistanceTest | src/components/Canvas3D.tsx:270-275 | `distance < 120` is equivalent to squared distance < 14400 |
| ParticleRules.LinkAlpha | src/components/Canvas3D.tsx:276 | a drawn line's alpha is in (0, 0.3], 0.05 at 100px |
| Canvas3D.Snapshot | src/components/Canvas3D.tsx:257-268 | while particle i draws its connections, particles 0..i have moved and the later ones have not |
| Canvas3D.Row | src/components/Canvas3D.tsx:268-285 | the connections of particle i: one to every other particle closer than 120px, and no others |
| Canvas3D.Seen | src/components/Canvas3D.tsx:257-268 | particle j as particle i sees it is the matching element of i's snapshot: moved if j <= i, not yet moved otherwise |
| Canvas3D.RowOfSnapshot | src/components/Canvas3D.tsx:268-285 | particle i's row links i to exactly the other particles it sees closer than 120px, at the squared distance it sees them |
| Canvas3D.FrameLinks | src/components/Canvas3D.tsx:257-285 | a frame's connections are exactly the pairs (i, j), i != j, where particle i sees j closer than 120px on the partly moved pool, each carrying that squared distance; sound and complete (via AppendRowSound and AppendRowComplete) |
| Canvas3D.InitParticles | src/components/Canvas3D.tsx:45-66 | a fresh pool of 80 (seed drift) or 60 particles, particle i built from draw i |
| Canvas3D.LeafSizes | src/components/Canvas3D.tsx:151-163 | the leaf loop runs while i < height/15, at most four times, with leaf sizes size·(1 - i/10), all positive and below the particle size |
| Canvas3D.SpawnInBounds | src/components/Canvas3D.tsx:45-66 | a new particle satisfies every variant's bounds and keeps its palette colour |
| Canvas3D.Animator.constructor | src/components/Canvas3D.tsx:330-331 | mounting sizes the canvas and builds the pool from the draws; the pool invariant holds |
| Canvas3D.Animator.Resize | src/components/Canvas3D.tsx:334-337 | a resize takes the new size and rebuilds the whole pool for it |
| Canvas3D.Animator.StepSeeds | src/components/Canvas3D.tsx:71-81 | every particle takes its seed-drift step in place; the pool invariant is kept |
| Canvas3D.Animator.StepGrowing | src/components/Canvas3D.tsx:126-135 | every particle takes its growing-fields step with its own sine; the pool invariant is kept |
| Canvas3D.Animator.StepHarvest | src/components/Canvas3D.tsx:173-181 | every particle takes its harvest step; the pool invariant is kept |
| Canvas3D.Animator.StepOrganic | src/components/Canvas3D.tsx:207-216 | every particle takes its organic-flow step; the pool invariant is kept |
| Canvas3D.Animator.StepGeometric | src/components/Canvas3D.tsx:257-285 | every particle bounces in place, and the returned connections are those of the frame with each row computed on the partially moved pool |
| Canvas3D.Animator.Connections | src/components/Canvas3D.tsx:268-285 | the inner loop returns exactly the row of particle i over the current pool |
| Canvas3D.Animator.Animate | src/components/Canvas3D.tsx:309-328 | one frame applies the selected variant's step to every particle, keeps the pool invariant, and only geometric crops yields connections |

## Left out

- Drawing: every `ctx` call (arcs, ellipses, gradients, hexagons, strokes) is left out, and so is `clearRect`. No pixels are modelled.
  - Kept are the numbers the drawing derives: perspective, alpha, stalk height, leaf sizes and connection alpha.
- Randomness: `Math.random()` results are inputs to the model.
  - The order in which the source consumes them is fixed by the `Draws` record, one field per call site.
  - The second palette draw is made only when the first is at least 0.6, and the second type draw only when the first is at least 0.3. The record always carries both second draws and the model ignores the unused one; since every draw is an unconstrained input, no behaviour is lost.
- Timing and trigonometry: `Date.now()`, `Math.sin` and `Math.cos` are inputs to the model.
  - The sine or cosine values of a frame are given in `FrameInput`; only their range [-1,1] is assumed.
  - The harvest step therefore does not tie its cosine and sine to the particle's own angle.
- Floating point: IEEE-754 rounding is not modelled (numbers are reals).
  - `Math.sqrt` is replaced by comparing squared distances (see `DistanceTest`).
- Browser lifecycle: `requestAnimationFrame`, the resize listener, cleanup on unmount and the 6-second `setInterval` are reduced to method calls.
  - The calls are `Animate`, `Resize` and `Tick`; their scheduling and cancellation are left out.
- Canvas3D.Animator.constructor: the early return when there is no canvas element or no 2D context (src/components/Canvas3D.tsx:12-15) is not modelled; a canvas with a context is assumed.
- Canvas3D.Animator.Animate: an unknown `variant` string, which makes the source's switch draw nothing, cannot occur because `Variant` is a closed datatype.
- Navigation: the DOM lookups are reduced to a map from section id to measured box.
  - `document.getElementById` and `offsetTop`/`offsetHeight` become that map.
  - The smooth scroll in `handleNavClick` (`scrollIntoView`) is the browser's and is left out.
  - `getIcon` only returns markup and is left out.
- Navigation.NavBar.HandleScroll: the scan loop is in `FirstHit`, which it calls, rather than inline.
- FarmlandsSection: `viewMode` (grid or map) only switches markup and is left out. The map and grid cards render the same filtered list.
- EstatesSection: `activeProperty` is declared but never set by any handler, so it is not modelled.
- Listings.FilterState: the slider's step of 10 is not modelled. `Possible` only bounds slider values to [50, 500].
- Listings and Journal: the fields of listings and articles that no operation reads are left out (names, images, descriptions, acreage, authors and so on).
- The remaining components are markup with no state worth a proof and are not part of this model. These are:
  - ContactSection, ElysianDifferenceSection, ExperienceSection, OurCropsSection, PhilosophySection and SustainabilitySection;
  - App.tsx, which only composes the sections;
  - the UI library components under `ui/` and `figma/`.
- HeroSection: a slide's subtitle is shown by the same lookup as its title and is not modelled.
