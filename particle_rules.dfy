/** The per-particle rules of the Canvas3D background animator: how one particle
    is created from random draws, how each of the five variants moves and wraps
    (or bounces) it in one frame, and the numbers the drawing code derives from it
    (perspective, alpha, stalk height, connection alpha).

    Math.random() results are inputs in [0,1); Math.sin / Math.cos values are
    inputs in [-1,1]; a connection's Euclidean distance is compared through its
    square. Positions and velocities are reals. */
module ParticleRules {
  import opened Common

  /** The `variant` prop. */
  datatype Variant = FarmlandSeeds | GrowingFields | HarvestParticles | OrganicFlow | GeometricCrops

  /** The three colour palettes. */
  datatype Palette = Green | Earth | Growth

  /** The `type` field of a seed-drift particle. */
  datatype Kind = Seed | Leaf | Flower

  datatype Particle = Particle(
    x: real, y: real, z: real,
    vx: real, vy: real, vz: real,
    size: real, opacity: real, color: string,
    growth: real, angle: real, kind: Kind)

  /** The Math.random() results one particle's creation uses, one per call site.
      `paletteAgain` and `kindAgain` are the nested second draws of the palette
      and type choices. */
  datatype Draws = Draws(
    palette: real, paletteAgain: real,
    x: real, y: real, z: real,
    vx: real, vy: real, vz: real,
    size: real, opacity: real, shade: real,
    growth: real, angle: real,
    kind: real, kindAgain: real)

  /** A value Math.random() can return. */
  predicate Unit(r: real)
  {
    0.0 <= r < 1.0
  }

  /** A value Math.sin / Math.cos can return. */
  predicate Trig(s: real)
  {
    -1.0 <= s <= 1.0
  }

  predicate ValidDraws(d: Draws)
  {
    && Unit(d.palette) && Unit(d.paletteAgain)
    && Unit(d.x) && Unit(d.y) && Unit(d.z)
    && Unit(d.vx) && Unit(d.vy) && Unit(d.vz)
    && Unit(d.size) && Unit(d.opacity) && Unit(d.shade)
    && Unit(d.growth) && Unit(d.angle)
    && Unit(d.kind) && Unit(d.kindAgain)
  }

  /** Math.PI * 2 as the double the source multiplies by. */
  const TwoPi: real := 6.283185307179586

  /** The depth of the seed-drift variant runs over [0, Depth]. */
  const Depth: real := 1000.0

  /** Connection lines are drawn between geometric-crops particles closer than this. */
  const LinkRadius: real := 120.0

  /** The pool size chosen by initParticles. */
  function PoolSize(v: Variant): nat
  {
    if v == FarmlandSeeds then 80 else 60
  }

  function Colors(p: Palette): seq<string>
  {
    match p
    case Green => ["#22c55e", "#16a34a", "#15803d", "#166534"]
    case Earth => ["#92400e", "#a16207", "#ca8a04", "#eab308"]
    case Growth => ["#84cc16", "#65a30d", "#4d7c0f", "#365314"]
  }

  /** A colour some palette holds. */
  predicate PaletteColor(c: string)
  {
    c in Colors(Green) || c in Colors(Earth) || c in Colors(Growth)
  }

  /** The palette choice: green on a first draw below 0.6; otherwise a second,
      independent draw picks earth below 0.8 and growth above. Over uniform
      draws the green, earth and growth regions of the unit square have areas
      0.6, 0.4 * 0.8 = 0.32 and 0.4 * 0.2 = 0.08. */
  function PaletteOf(first: real, second: real): (p: Palette)
    ensures p == Green <==> first < 0.6
    ensures p == Earth <==> !(first < 0.6) && second < 0.8
    ensures p == Growth <==> !(first < 0.6) && !(second < 0.8)
  {
    if first < 0.6 then Green else if second < 0.8 then Earth else Growth
  }

  /** The type choice: seed on a first draw below 0.3; otherwise a second draw
      picks leaf below 0.6 and flower above (shares 0.3, 0.42 and 0.28). */
  function KindOf(first: real, second: real): (k: Kind)
    ensures k == Seed <==> first < 0.3
    ensures k == Leaf <==> !(first < 0.3) && second < 0.6
    ensures k == Flower <==> !(first < 0.3) && !(second < 0.6)
  {
    if first < 0.3 then Seed else if second < 0.6 then Leaf else Flower
  }

  /** `Math.floor(r * n)` for a draw r: always a valid index into n entries. */
  function ShadeIndex(r: real, n: nat): (i: nat)
    requires Unit(r) && n > 0
    ensures i < n
    ensures i as real <= r * n as real < i as real + 1.0
  {
    FractionBelow(r, n as real);
    (r * n as real).Floor
  }

  /** A fraction in [0,1) of a positive amount is below that amount, and
      positive when the fraction is. */
  lemma FractionBelow(f: real, m: real)
    requires 0.0 <= f < 1.0 && m > 0.0
    ensures 0.0 <= f * m < m && f * m == m * f
    ensures f > 0.0 ==> f * m > 0.0
  {
    assert m - f * m == (1.0 - f) * m;
    NonNegativeProduct(f, m);
    assert (1.0 - f) * m > 0.0;
  }

  /** `colorPalette[Math.floor(Math.random() * colorPalette.length)]`: the
      colour lies in the chosen palette and in no other one. */
  function ColorOf(p: Palette, r: real): (c: string)
    requires Unit(r)
    ensures c in Colors(p)
    ensures forall q :: q != p ==> c !in Colors(q)
  {
    Colors(p)[ShadeIndex(r, |Colors(p)|)]
  }

  /** One particle pushed by initParticles on a width x height canvas. */
  function Spawn(d: Draws, w: real, h: real): (p: Particle)
    requires ValidDraws(d) && w >= 0.0 && h >= 0.0
    ensures 0.0 <= p.x <= w && (w > 0.0 ==> p.x < w)
    ensures 0.0 <= p.y <= h && (h > 0.0 ==> p.y < h)
    ensures 0.0 <= p.z < Depth
    ensures -0.4 <= p.vx < 0.4 && -0.4 <= p.vy < 0.4 && -1.5 <= p.vz < 1.5
    ensures 2.0 <= p.size < 6.0 && 0.2 <= p.opacity < 0.9 && 1.0 <= p.growth < 3.0
    ensures 0.0 <= p.angle < TwoPi
    ensures p.color in Colors(PaletteOf(d.palette, d.paletteAgain))
    ensures p.kind == KindOf(d.kind, d.kindAgain)
  {
    var color := ColorOf(PaletteOf(d.palette, d.paletteAgain), d.shade);
    Particle(
      Scaled(d.x, w), Scaled(d.y, h), Scaled(d.z, Depth),
      Centered(d.vx, 0.8), Centered(d.vy, 0.8), Centered(d.vz, 3.0),
      d.size * 4.0 + 2.0, d.opacity * 0.7 + 0.2, color,
      d.growth * 2.0 + 1.0, Scaled(d.angle, TwoPi), KindOf(d.kind, d.kindAgain))
  }

  /** `Math.random() * extent`: in [0, extent), or 0 on an empty extent. */
  function Scaled(r: real, extent: real): (v: real)
    requires Unit(r) && extent >= 0.0
    ensures 0.0 <= v <= extent
    ensures extent > 0.0 ==> v < extent
  {
    assert extent > 0.0 ==> r * extent < 1.0 * extent;
    r * extent
  }

  /** `(Math.random() - 0.5) * span`: in [-span/2, span/2). */
  function Centered(r: real, span: real): (v: real)
    requires Unit(r) && span > 0.0
    ensures -span / 2.0 <= v < span / 2.0
  {
    assert (r - 0.5) * span < 0.5 * span;
    assert (r - 0.5) * span >= -0.5 * span;
    (r - 0.5) * span
  }

  /** The wrap of the source: `if (v < lo) v = hi; if (v > hi) v = lo;`, the two
      tests made one after the other. */
  function Wrap(v: real, lo: real, hi: real): (r: real)
    requires lo <= hi
    ensures lo <= r <= hi
    ensures lo <= v <= hi ==> r == v
    ensures v < lo ==> r == hi
    ensures v > hi ==> r == lo
  {
    var once := if v < lo then hi else v;
    if once > hi then lo else once
  }

  // ---------------------------------------------------------------- seed drift

  /** One frame of drawFarmlandSeeds for one particle: move by the velocity,
      wrap x and y with a 50px margin and z over [0, 1000]. */
  function SeedStep(p: Particle, w: real, h: real): (q: Particle)
    requires w >= 0.0 && h >= 0.0
    ensures -50.0 <= q.x <= w + 50.0 && -50.0 <= q.y <= h + 50.0
    ensures q.x == Wrap(p.x + p.vx, -50.0, w + 50.0)
    ensures q.y == Wrap(p.y + p.vy, -50.0, h + 50.0)
    ensures 0.0 <= q.z <= Depth
    ensures p.z + p.vz < 0.0 ==> q.z == Depth
    ensures p.z + p.vz > Depth ==> q.z == 0.0
    ensures q == p.(x := q.x, y := q.y, z := q.z)
  {
    p.(x := Wrap(p.x + p.vx, -50.0, w + 50.0),
       y := Wrap(p.y + p.vy, -50.0, h + 50.0),
       z := Wrap(p.z + p.vz, 0.0, Depth))
  }

  /** A seed that drifts out past the left margin re-enters at the right one:
      on an 800px canvas, x = -60 moving by -0.5 lands on 850. */
  lemma SeedReentersOppositeEdge(p: Particle, h: real)
    requires p.x == -60.0 && p.vx == -0.5 && h >= 0.0
    ensures SeedStep(p, 800.0, h).x == 850.0
  {
  }

  /** `1000 / (1000 - z)`; at z == 1000 the source divides by zero (the
      result is Infinity), modelled as None. */
  function Perspective(z: real): (r: Option<real>)
    requires 0.0 <= z <= Depth
    ensures r.None? <==> z == Depth
    ensures r.Some? ==> r.value >= 1.0
  {
    if z == Depth then None
    else
      QuotientAtLeastOne(Depth, Depth - z);
      Some(Depth / (Depth - z))
  }

  lemma QuotientAtLeastOne(a: real, b: real)
    requires 0.0 < b <= a
    ensures a / b >= 1.0
  {
    assert (a / b) * b == a;
  }

  /** `opacity * (1 - z / 1200)`: between a sixth of the opacity and the
      opacity itself over the whole depth range. */
  function SeedAlpha(p: Particle): (a: real)
    requires 0.0 <= p.z <= Depth && p.opacity >= 0.0
    ensures p.opacity / 6.0 <= a <= p.opacity
  {
    var fade := 1.0 - p.z / 1200.0;
    assert 1.0 / 6.0 <= fade <= 1.0;
    p.opacity * fade
  }

  // ------------------------------------------------------------ growing fields

  /** The pulsing alpha `opacity * (base + (1 - base) * sin(...))` of the
      growing-fields (base 0.5), harvest (base 0.6) and organic-flow (base 0.4)
      frames: never above the particle's opacity, and never negative when the
      base is at least one half. */
  function PulseAlpha(opacity: real, base: real, s: real): (a: real)
    requires opacity >= 0.0 && 0.0 <= base <= 1.0 && Trig(s)
    ensures a <= opacity
    ensures base >= 0.5 ==> a >= 0.0
    ensures s == 1.0 ==> a == opacity
  {
    var pulse := base + (1.0 - base) * s;
    NonNegativeProduct(1.0 - base, 1.0 - s);
    NonNegativeProduct(1.0 - base, s + 1.0);
    NonNegativeProduct(opacity, 1.0 - pulse);
    assert base >= 0.5 ==> opacity * pulse >= 0.0 by {
      if base >= 0.5 {
        NonNegativeProduct(opacity, pulse);
      }
    }
    opacity * pulse
  }

  lemma NonNegativeProduct(a: real, b: real)
    requires a >= 0.0 && b >= 0.0
    ensures a * b >= 0.0
  {
  }

  /** With base 0.4 the organic-flow alpha goes below zero whenever the sine
      is below -2/3. A canvas ignores a negative globalAlpha, and each particle
      is drawn between save() and restore(), so that blob is drawn at the
      context's default alpha of 1: fully opaque, brighter than any opacity a
      particle is given. */
  lemma OrganicAlphaCanBeNegative(opacity: real)
    requires 0.2 <= opacity < 0.9
    ensures PulseAlpha(opacity, 0.4, -1.0) < 0.0
  {
  }


  /** One frame of drawGrowingFields for one particle; `s` is
      Math.sin(time + index * 0.1). */
  function GrowStep(p: Particle, s: real, w: real, h: real): (q: Particle)
    requires Trig(s) && w >= 0.0 && h >= 0.0
    ensures 0.0 <= q.x <= w && 0.0 <= q.y <= h
    ensures q.x == Wrap(p.x + p.vx, 0.0, w)
    ensures q.y == Wrap(p.y + p.vy * 0.5, 0.0, h)
    ensures q.growth == 1.0 + s * 0.5 && 0.5 <= q.growth <= 1.5
    ensures q == p.(x := q.x, y := q.y, growth := q.growth)
  {
    p.(growth := 1.0 + s * 0.5,
       x := Wrap(p.x + p.vx, 0.0, w),
       y := Wrap(p.y + p.vy * 0.5, 0.0, h))
  }

  /** The stalk height `size * growth * 8`: below 72 for every size a particle
      can have and every growth a frame can set. */
  function StalkHeight(p: Particle): (height: real)
    requires 2.0 <= p.size < 6.0 && 0.5 <= p.growth <= 1.5
    ensures 8.0 <= height < 72.0
  {
    var g := p.size * p.growth;
    assert g < 9.0 by {
      assert p.size * p.growth <= p.size * 1.5;
    }
    assert g >= 1.0 by {
      assert p.size * p.growth >= 2.0 * p.growth;
    }
    g * 8.0
  }

  // --------------------------------------------------------- harvest particles

  /** One frame of drawHarvestParticles for one particle; `c` and `s` are the
      cosine and sine of the advanced angle. x wraps at the edges; a particle
      below the bottom edge re-enters at y = -10; nothing handles the top edge. */
  function HarvestStep(p: Particle, c: real, s: real, w: real, h: real): (q: Particle)
    requires Trig(c) && Trig(s) && w >= 0.0 && h >= 0.0
    ensures 0.0 <= q.x <= w && q.y <= h
    ensures q.x == Wrap(p.x + c * 0.5, 0.0, w)
    ensures q.angle == p.angle + 0.02
    ensures p.y + s * 0.3 + p.vy > h ==> q.y == -10.0
    ensures p.y + s * 0.3 + p.vy <= h ==> q.y == p.y + s * 0.3 + p.vy
    ensures p.y <= h && p.vy < -0.3 ==> q.y <= p.y + 0.3 + p.vy
    ensures q == p.(x := q.x, y := q.y, angle := q.angle)
  {
    var y := p.y + s * 0.3 + p.vy;
    p.(angle := p.angle + 0.02,
       x := Wrap(p.x + c * 0.5, 0.0, w),
       y := if y > h then -10.0 else y)
  }

  /** A sequence of harvest frames over the given cosine / sine inputs. */
  function HarvestRun(p: Particle, cs: seq<real>, ss: seq<real>, w: real, h: real): Particle
    requires |cs| == |ss| && w >= 0.0 && h >= 0.0
    requires forall i :: 0 <= i < |cs| ==> Trig(cs[i]) && Trig(ss[i])
    decreases |cs|
  {
    if cs == [] then p
    else HarvestRun(HarvestStep(p, cs[0], ss[0], w, h), cs[1..], ss[1..], w, h)
  }

  /** A harvest particle whose own upward speed beats the largest downward
      swirl (vy < -0.3) rises by at least -(vy + 0.3) every frame and is never
      wrapped back: after k frames it is at least k * -(vy + 0.3) higher. */
  lemma {:induction false} HarvestRisesForever(p: Particle, cs: seq<real>, ss: seq<real>, w: real, h: real)
    requires |cs| == |ss| && w >= 0.0 && h >= 0.0
    requires forall i :: 0 <= i < |cs| ==> Trig(cs[i]) && Trig(ss[i])
    requires p.y <= h && p.vy < -0.3
    ensures HarvestRun(p, cs, ss, w, h).y <= p.y - (|cs| as real) * -(p.vy + 0.3)
    ensures HarvestRun(p, cs, ss, w, h).vy == p.vy
    decreases |cs|
  {
    if cs != [] {
      var q := HarvestStep(p, cs[0], ss[0], w, h);
      HarvestRisesForever(q, cs[1..], ss[1..], w, h);
      var k := |cs| as real;
      assert (k - 1.0) * -(p.vy + 0.3) + -(p.vy + 0.3) == k * -(p.vy + 0.3);
    }
  }

  /** initParticles can create such a particle: vy draws below 0.125 give vy < -0.3. */
  lemma SpawnCanRiseForever(d: Draws, w: real, h: real)
    requires ValidDraws(d) && w >= 0.0 && h >= 0.0 && d.vy < 0.125
    ensures Spawn(d, w, h).vy < -0.3 && Spawn(d, w, h).y <= h
  {
  }

  // -------------------------------------------------------------- organic flow

  /** One frame of drawOrganicFlow for one particle; `drift` is
      Math.sin(time + index * 0.1) and `wave` is Math.sin(time + index * 0.3).
      Both axes wrap with a 100px margin. */
  function OrganicStep(p: Particle, drift: real, wave: real, w: real, h: real): (q: Particle)
    requires Trig(drift) && Trig(wave) && w >= 0.0 && h >= 0.0
    ensures -100.0 <= q.x <= w + 100.0 && -100.0 <= q.y <= h + 100.0
    ensures q.x == Wrap(p.x + p.vx + drift * 0.3, -100.0, w + 100.0)
    ensures q.y == Wrap(p.y + p.vy + (wave * 30.0) * 0.01, -100.0, h + 100.0)
    ensures q == p.(x := q.x, y := q.y)
  {
    p.(x := Wrap(p.x + p.vx + drift * 0.3, -100.0, w + 100.0),
       y := Wrap(p.y + p.vy + (wave * 30.0) * 0.01, -100.0, h + 100.0))
  }

  // ----------------------------------------------------------- geometric crops

  function Abs(v: real): real
  {
    if v < 0.0 then -v else v
  }

  /** One frame of drawGeometricCrops for one particle: move, then negate a
      velocity component whose axis ended up outside the canvas. The position
      itself is not clamped. */
  function BounceStep(p: Particle, w: real, h: real): (q: Particle)
    ensures q.x == p.x + p.vx && q.y == p.y + p.vy
    ensures (q.x < 0.0 || q.x > w) ==> q.vx == -p.vx
    ensures !(q.x < 0.0 || q.x > w) ==> q.vx == p.vx
    ensures (q.y < 0.0 || q.y > h) ==> q.vy == -p.vy
    ensures !(q.y < 0.0 || q.y > h) ==> q.vy == p.vy
    ensures Abs(q.vx) == Abs(p.vx) && Abs(q.vy) == Abs(p.vy)
    ensures q == p.(x := q.x, y := q.y, vx := q.vx, vy := q.vy)
  {
    var x := p.x + p.vx;
    var y := p.y + p.vy;
    p.(x := x, y := y,
       vx := if x < 0.0 || x > w then -p.vx else p.vx,
       vy := if y < 0.0 || y > h then -p.vy else p.vy)
  }

  /** One axis of a bouncing particle: within one step of the edges, and
      outside the edges only while heading back in. */
  predicate BounceAxis(v: real, dv: real, extent: real)
  {
    && -Abs(dv) <= v <= extent + Abs(dv)
    && (v < 0.0 ==> dv > 0.0)
    && (v > extent ==> dv < 0.0)
  }

  predicate BounceBounded(p: Particle, w: real, h: real)
  {
    BounceAxis(p.x, p.vx, w) && BounceAxis(p.y, p.vy, h)
  }

  /** The bounce keeps a particle within one step of the canvas: no particle
      drifts away for good. */
  lemma BounceStepStaysNear(p: Particle, w: real, h: real)
    requires w >= 0.0 && h >= 0.0 && BounceBounded(p, w, h)
    ensures BounceBounded(BounceStep(p, w, h), w, h)
  {
    var q := BounceStep(p, w, h);
    AxisStep(p.x, p.vx, w, q.x, q.vx);
    AxisStep(p.y, p.vy, h, q.y, q.vy);
  }

  lemma AxisStep(v: real, dv: real, extent: real, v': real, dv': real)
    requires extent >= 0.0 && BounceAxis(v, dv, extent)
    requires v' == v + dv
    requires dv' == if v' < 0.0 || v' > extent then -dv else dv
    ensures BounceAxis(v', dv', extent)
  {
  }

  /** The squared distance between two particles. */
  function Dist2(a: Particle, b: Particle): real
  {
    (a.x - b.x) * (a.x - b.x) + (a.y - b.y) * (a.y - b.y)
  }

  /** `distance < 120` for the Euclidean distance d is the same test as
      comparing the squared distance with 120 * 120. */
  lemma DistanceTest(d: real, dist2: real)
    requires d >= 0.0 && d * d == dist2
    ensures d < LinkRadius <==> dist2 < LinkRadius * LinkRadius
  {
    if d < LinkRadius {
      assert d * d <= d * LinkRadius < LinkRadius * LinkRadius;
    } else {
      assert d * d >= d * LinkRadius >= LinkRadius * LinkRadius;
    }
  }

  /** The alpha of a connection line, `(120 - distance) / 120 * 0.3`: positive
      and at most 0.3 for every drawn line, fading linearly to 0 at 120px. */
  function LinkAlpha(d: real): (a: real)
    requires 0.0 <= d < LinkRadius
    ensures 0.0 < a <= 0.3
    ensures d == 100.0 ==> a == 0.05
  {
    (LinkRadius - d) / LinkRadius * 0.3
  }
}
