/** The Canvas3D animator: a pool of particles owned by one mounted canvas,
    rebuilt on mount and on every resize, and advanced in place once per
    animation frame by the rule of the selected variant. */
module Canvas3D {
  import opened ParticleRules

  /** The Math.sin / Math.cos values one frame reads, one entry per particle
      index (only the sequences of the running variant are consulted). */
  datatype FrameInput = FrameInput(
    growthSines: seq<real>,                   // growing-fields: sin(time + index * 0.1)
    swirlCos: seq<real>, swirlSin: seq<real>, // harvest: cos / sin of the advanced angle
    driftSines: seq<real>,                    // organic-flow: sin(time + index * 0.1)
    waveSines: seq<real>)                     // organic-flow: sin(time + index * 0.3)

  predicate TrigSeq(s: seq<real>, n: nat)
  {
    |s| == n && forall i :: 0 <= i < n ==> Trig(s[i])
  }

  predicate ValidFrame(f: FrameInput, n: nat)
  {
    && TrigSeq(f.growthSines, n)
    && TrigSeq(f.swirlCos, n) && TrigSeq(f.swirlSin, n)
    && TrigSeq(f.driftSines, n) && TrigSeq(f.waveSines, n)
  }

  /** Enough valid draws to build the pool of a variant. */
  predicate EnoughDraws(draws: seq<Draws>, v: Variant)
  {
    |draws| >= PoolSize(v) && forall i :: 0 <= i < |draws| ==> ValidDraws(draws[i])
  }

  /** What no frame changes: the size, opacity and colour of a particle, and the
      speed bounds it was created with (a bounce only flips a sign). */
  predicate Wellformed(p: Particle)
  {
    && 2.0 <= p.size < 6.0
    && 0.2 <= p.opacity < 0.9
    && PaletteColor(p.color)
    && Abs(p.vx) <= 0.4 && Abs(p.vy) <= 0.4
    && -1.5 <= p.vz < 1.5
  }

  /** Where a particle of each variant is once its frame has run: inside the
      canvas plus the variant's margin. The harvest variant bounds y only from
      below the canvas: nothing brings back a particle that leaves at the top. */
  predicate InBounds(v: Variant, p: Particle, w: real, h: real)
  {
    match v
    case FarmlandSeeds =>
      -50.0 <= p.x <= w + 50.0 && -50.0 <= p.y <= h + 50.0 && 0.0 <= p.z <= Depth
    case GrowingFields => 0.0 <= p.x <= w && 0.0 <= p.y <= h
    case HarvestParticles => 0.0 <= p.x <= w && p.y <= h
    case OrganicFlow => -100.0 <= p.x <= w + 100.0 && -100.0 <= p.y <= h + 100.0
    case GeometricCrops => BounceBounded(p, w, h)
  }

  /** A connection line of the geometric-crops frame, from particle `from` to
      particle `to`, with the squared distance it was drawn at. */
  datatype Link = Link(from: nat, to: nat, dist2: real)

  /** Every particle after its own bounce step. */
  function Stepped(olds: seq<Particle>, w: real, h: real): (r: seq<Particle>)
    ensures |r| == |olds|
    ensures forall i :: 0 <= i < |olds| ==> r[i] == BounceStep(olds[i], w, h)
  {
    seq(|olds|, i requires 0 <= i < |olds| => BounceStep(olds[i], w, h))
  }

  /** The pool as particle `i` sees it while drawing its connections: the
      forEach has already moved particles 0..i, and not yet the later ones. */
  function Snapshot(olds: seq<Particle>, w: real, h: real, i: nat): (r: seq<Particle>)
    requires i < |olds|
    ensures |r| == |olds|
    ensures forall j :: 0 <= j <= i ==> r[j] == BounceStep(olds[j], w, h)
    ensures forall j :: i < j < |olds| ==> r[j] == olds[j]
  {
    Stepped(olds, w, h)[..i + 1] + olds[i + 1..]
  }

  /** The connections from particle `i` to particles 0..k-1 of `snap`: one for
      every other particle closer than 120px, and no other. */
  function Row(snap: seq<Particle>, i: nat, k: nat): (r: seq<Link>)
    requires i < |snap| && k <= |snap|
    ensures forall l :: l in r ==>
              && l.from == i && l.to < k && l.to != i
              && l.dist2 == Dist2(snap[i], snap[l.to])
              && l.dist2 < LinkRadius * LinkRadius
    ensures forall j :: 0 <= j < k && j != i && Dist2(snap[i], snap[j]) < LinkRadius * LinkRadius ==>
              Link(i, j, Dist2(snap[i], snap[j])) in r
  {
    if k == 0 then []
    else
      var d2 := Dist2(snap[i], snap[k - 1]);
      Row(snap, i, k - 1) + (if k - 1 != i && d2 < LinkRadius * LinkRadius then [Link(i, k - 1, d2)] else [])
  }

  /** Particle j as particle i sees it while drawing its connections: the
      forEach has already moved particles 0..i, and not yet the later ones. */
  function Seen(olds: seq<Particle>, w: real, h: real, i: nat, j: nat): (p: Particle)
    requires j < |olds|
    ensures i < |olds| ==> p == Snapshot(olds, w, h, i)[j]
  {
    if j <= i then BounceStep(olds[j], w, h) else olds[j]
  }

  /** The squared distance at which particle i sees particle j. */
  function SeenDist2(olds: seq<Particle>, w: real, h: real, i: nat, j: nat): real
    requires i < |olds| && j < |olds|
  {
    Dist2(Seen(olds, w, h, i, i), Seen(olds, w, h, i, j))
  }

  /** Every link of `row` is one particle i draws: to another particle it sees
      closer than 120px, at the squared distance it sees it at. */
  predicate RowSound(olds: seq<Particle>, w: real, h: real, i: nat, row: seq<Link>)
    requires i < |olds|
  {
    forall l :: l in row ==>
      && l.from == i && l.to < |olds| && l.to != i
      && l.dist2 == SeenDist2(olds, w, h, i, l.to)
      && l.dist2 < LinkRadius * LinkRadius
  }

  /** Every particle that i sees closer than 120px is linked from i in `row`. */
  predicate RowComplete(olds: seq<Particle>, w: real, h: real, i: nat, row: seq<Link>)
    requires i < |olds|
  {
    forall j :: 0 <= j < |olds| && j != i && SeenDist2(olds, w, h, i, j) < LinkRadius * LinkRadius
      ==> Link(i, j, SeenDist2(olds, w, h, i, j)) in row
  }

  /** Particle i's row, computed on the pool as i sees it, links i to exactly
      the particles it sees closer than 120px. */
  lemma RowOfSnapshot(olds: seq<Particle>, w: real, h: real, i: nat)
    requires i < |olds|
    ensures RowSound(olds, w, h, i, Row(Snapshot(olds, w, h, i), i, |olds|))
    ensures RowComplete(olds, w, h, i, Row(Snapshot(olds, w, h, i), i, |olds|))
  {
    var snap := Snapshot(olds, w, h, i);
    var row := Row(snap, i, |olds|);
    forall j | 0 <= j < |olds| ensures SeenDist2(olds, w, h, i, j) == Dist2(snap[i], snap[j]) {
      assert Seen(olds, w, h, i, i) == snap[i] && Seen(olds, w, h, i, j) == snap[j];
    }
  }

  /** Every link is one that particle `from` draws: to another particle it
      sees closer than 120px, at the squared distance it sees it at. */
  predicate LinksSound(olds: seq<Particle>, w: real, h: real, m: nat, r: seq<Link>)
    requires m <= |olds|
  {
    forall l :: l in r ==>
      && l.from < m && l.to < |olds| && l.from != l.to
      && l.dist2 == SeenDist2(olds, w, h, l.from, l.to)
      && l.dist2 < LinkRadius * LinkRadius
  }

  /** Every pair that one of the first m particles sees closer than 120px is linked. */
  predicate LinksComplete(olds: seq<Particle>, w: real, h: real, m: nat, r: seq<Link>)
    requires m <= |olds|
  {
    forall i, j ::
      (0 <= i < m && 0 <= j < |olds| && i != j && SeenDist2(olds, w, h, i, j) < LinkRadius * LinkRadius)
      ==> Link(i, j, SeenDist2(olds, w, h, i, j)) in r
  }

  /** The connections drawn by the first m particles of a geometric-crops
      frame: a line from i to j exactly when j is another particle that i
      sees closer than 120px, with the squared distance i sees it at. */
  function FrameLinks(olds: seq<Particle>, w: real, h: real, m: nat): (r: seq<Link>)
    requires m <= |olds|
    ensures LinksSound(olds, w, h, m, r) && LinksComplete(olds, w, h, m, r)
  {
    if m == 0 then []
    else
      var prev := FrameLinks(olds, w, h, m - 1);
      var row := Row(Snapshot(olds, w, h, m - 1), m - 1, |olds|);
      RowOfSnapshot(olds, w, h, m - 1);
      AppendRowSound(olds, w, h, m, prev, row);
      AppendRowComplete(olds, w, h, m, prev, row);
      prev + row
  }

  /** Adding particle m-1's row to the links of the first m-1 particles keeps
      every link sound. */
  lemma AppendRowSound(olds: seq<Particle>, w: real, h: real, m: nat, prev: seq<Link>, row: seq<Link>)
    requires 0 < m <= |olds|
    requires LinksSound(olds, w, h, m - 1, prev) && RowSound(olds, w, h, m - 1, row)
    ensures LinksSound(olds, w, h, m, prev + row)
  {
    forall l | l in prev + row
      ensures l.from < m && l.to < |olds| && l.from != l.to
      ensures l.dist2 == SeenDist2(olds, w, h, l.from, l.to)
      ensures l.dist2 < LinkRadius * LinkRadius
    {
      if l !in prev {
        assert l in row;
      }
    }
  }

  /** Adding particle m-1's row to the links of the first m-1 particles
      covers every close pair seen by the first m particles. */
  lemma AppendRowComplete(olds: seq<Particle>, w: real, h: real, m: nat, prev: seq<Link>, row: seq<Link>)
    requires 0 < m <= |olds|
    requires LinksComplete(olds, w, h, m - 1, prev) && RowComplete(olds, w, h, m - 1, row)
    ensures LinksComplete(olds, w, h, m, prev + row)
  {
    forall i, j |
      0 <= i < m && 0 <= j < |olds| && i != j && SeenDist2(olds, w, h, i, j) < LinkRadius * LinkRadius
      ensures Link(i, j, SeenDist2(olds, w, h, i, j)) in prev + row
    {
      if i < m - 1 {
        assert Link(i, j, SeenDist2(olds, w, h, i, j)) in prev;
      } else {
        assert Link(i, j, SeenDist2(olds, w, h, i, j)) in row;
      }
    }
  }

  /** initParticles: a fresh pool of the variant's size, particle i built from
      draws[i]. */
  method InitParticles(v: Variant, w: real, h: real, draws: seq<Draws>) returns (pool: array<Particle>)
    requires w >= 0.0 && h >= 0.0 && EnoughDraws(draws, v)
    ensures fresh(pool) && pool.Length == PoolSize(v)
    ensures forall i :: 0 <= i < pool.Length ==> pool[i] == Spawn(draws[i], w, h)
  {
    var count := PoolSize(v);
    pool := new Particle[count];
    var i := 0;
    while i < count
      invariant 0 <= i <= count
      invariant forall k :: 0 <= k < i ==> pool[k] == Spawn(draws[k], w, h)
    {
      pool[i] := Spawn(draws[i], w, h);
      i := i + 1;
    }
  }

  /** The leaf loop of drawGrowingFields: for i = 1, 2, ... while i < height / 15,
      a pair of leaves of size `size * (1 - i / 10)`. With the stalk below 72px
      the loop runs at most four times and every leaf has a positive size. */
  method LeafSizes(p: Particle) returns (sizes: seq<real>)
    requires 2.0 <= p.size < 6.0 && 0.5 <= p.growth <= 1.5
    ensures |sizes| <= 4
    ensures |sizes| > 0 ==> (|sizes| as real) < StalkHeight(p) / 15.0
    ensures ((|sizes| + 1) as real) >= StalkHeight(p) / 15.0
    ensures forall k :: 0 <= k < |sizes| ==>
              sizes[k] == p.size * (1.0 - ((k + 1) as real) / 10.0) && 0.0 < sizes[k] < p.size
  {
    var height := StalkHeight(p);
    sizes := [];
    var i: nat := 1;
    while (i as real) < height / 15.0
      invariant 1 <= i <= 5
      invariant |sizes| == i - 1
      invariant i > 1 ==> ((i - 1) as real) < height / 15.0
      invariant forall k :: 0 <= k < |sizes| ==>
                  sizes[k] == p.size * (1.0 - ((k + 1) as real) / 10.0) && 0.0 < sizes[k] < p.size
    {
      var leafSize := p.size * (1.0 - (i as real) / 10.0);
      FractionBelow(1.0 - (i as real) / 10.0, p.size);
      sizes := sizes + [leafSize];
      i := i + 1;
    }
  }

  /** A freshly spawned particle satisfies every variant's bounds. */
  lemma SpawnInBounds(v: Variant, d: Draws, w: real, h: real)
    requires ValidDraws(d) && w >= 0.0 && h >= 0.0
    ensures Wellformed(Spawn(d, w, h)) && InBounds(v, Spawn(d, w, h), w, h)
  {
    var p := Spawn(d, w, h);
    var palette := PaletteOf(d.palette, d.paletteAgain);
    assert p.color in Colors(palette);
  }

  class Animator {
    const variant: Variant
    var width: real
    var height: real
    var particles: array<Particle>

    ghost predicate Valid()
      reads this, particles
    {
      && width >= 0.0 && height >= 0.0
      && particles.Length == PoolSize(variant)
      && forall i :: 0 <= i < particles.Length ==>
           Wellformed(particles[i]) && InBounds(variant, particles[i], width, height)
    }

    /** Mounting: size the canvas to the viewport and build the pool. */
    constructor (variant: Variant, w: real, h: real, draws: seq<Draws>)
      requires w >= 0.0 && h >= 0.0 && EnoughDraws(draws, variant)
      ensures Valid() && fresh(particles)
      ensures this.variant == variant && width == w && height == h
      ensures forall i :: 0 <= i < particles.Length ==> particles[i] == Spawn(draws[i], w, h)
    {
      this.variant := variant;
      width, height := w, h;
      var pool := InitParticles(variant, w, h, draws);
      particles := pool;
      new;
      forall i | 0 <= i < particles.Length
        ensures Wellformed(particles[i]) && InBounds(variant, particles[i], width, height)
      {
        SpawnInBounds(variant, draws[i], w, h);
      }
    }

    /** handleResize: the canvas takes the new size and the whole pool is
        thrown away and rebuilt for it. */
    method Resize(w: real, h: real, draws: seq<Draws>)
      requires w >= 0.0 && h >= 0.0 && EnoughDraws(draws, variant)
      modifies this
      ensures Valid() && fresh(particles)
      ensures width == w && height == h
      ensures forall i :: 0 <= i < particles.Length ==> particles[i] == Spawn(draws[i], w, h)
    {
      width, height := w, h;
      particles := InitParticles(variant, w, h, draws);
      forall i | 0 <= i < particles.Length
        ensures Wellformed(particles[i]) && InBounds(variant, particles[i], width, height)
      {
        SpawnInBounds(variant, draws[i], w, h);
      }
    }

    /** drawFarmlandSeeds, without the drawing calls. */
    method StepSeeds()
      requires Valid() && variant == FarmlandSeeds
      modifies particles
      ensures Valid()
      ensures forall i :: 0 <= i < particles.Length ==>
                particles[i] == SeedStep(old(particles[i]), width, height)
    {
      var i := 0;
      while i < particles.Length
        invariant 0 <= i <= particles.Length
        invariant forall k :: 0 <= k < i ==> particles[k] == SeedStep(old(particles[k]), width, height)
        invariant forall k :: i <= k < particles.Length ==> particles[k] == old(particles[k])
      {
        particles[i] := SeedStep(particles[i], width, height);
        i := i + 1;
      }
    }

    /** drawGrowingFields, without the drawing calls. */
    method StepGrowing(sines: seq<real>)
      requires Valid() && variant == GrowingFields && TrigSeq(sines, particles.Length)
      modifies particles
      ensures Valid()
      ensures forall i :: 0 <= i < particles.Length ==>
                particles[i] == GrowStep(old(particles[i]), sines[i], width, height)
    {
      var i := 0;
      while i < particles.Length
        invariant 0 <= i <= particles.Length
        invariant forall k :: 0 <= k < i ==>
                    particles[k] == GrowStep(old(particles[k]), sines[k], width, height)
        invariant forall k :: i <= k < particles.Length ==> particles[k] == old(particles[k])
      {
        particles[i] := GrowStep(particles[i], sines[i], width, height);
        i := i + 1;
      }
    }

    /** drawHarvestParticles, without the drawing calls. */
    method StepHarvest(cs: seq<real>, ss: seq<real>)
      requires Valid() && variant == HarvestParticles
      requires TrigSeq(cs, particles.Length) && TrigSeq(ss, particles.Length)
      modifies particles
      ensures Valid()
      ensures forall i :: 0 <= i < particles.Length ==>
                particles[i] == HarvestStep(old(particles[i]), cs[i], ss[i], width, height)
    {
      var i := 0;
      while i < particles.Length
        invariant 0 <= i <= particles.Length
        invariant forall k :: 0 <= k < i ==>
                    particles[k] == HarvestStep(old(particles[k]), cs[k], ss[k], width, height)
        invariant forall k :: i <= k < particles.Length ==> particles[k] == old(particles[k])
      {
        particles[i] := HarvestStep(particles[i], cs[i], ss[i], width, height);
        i := i + 1;
      }
    }

    /** drawOrganicFlow, without the drawing calls. */
    method StepOrganic(drifts: seq<real>, waves: seq<real>)
      requires Valid() && variant == OrganicFlow
      requires TrigSeq(drifts, particles.Length) && TrigSeq(waves, particles.Length)
      modifies particles
      ensures Valid()
      ensures forall i :: 0 <= i < particles.Length ==>
                particles[i] == OrganicStep(old(particles[i]), drifts[i], waves[i], width, height)
    {
      var i := 0;
      while i < particles.Length
        invariant 0 <= i <= particles.Length
        invariant forall k :: 0 <= k < i ==>
                    particles[k] == OrganicStep(old(particles[k]), drifts[k], waves[k], width, height)
        invariant forall k :: i <= k < particles.Length ==> particles[k] == old(particles[k])
      {
        particles[i] := OrganicStep(particles[i], drifts[i], waves[i], width, height);
        i := i + 1;
      }
    }

    /** drawGeometricCrops, without the drawing calls: each particle bounces,
        then its connections to every other particle within 120px are
        collected, as the pool stands at that moment. */
    method StepGeometric() returns (links: seq<Link>)
      requires Valid() && variant == GeometricCrops
      modifies particles
      ensures Valid()
      ensures forall i :: 0 <= i < particles.Length ==>
                particles[i] == BounceStep(old(particles[i]), width, height)
      ensures links == FrameLinks(old(particles[..]), width, height, particles.Length)
    {
      ghost var olds := particles[..];
      var n := particles.Length;
      links := [];
      var i := 0;
      while i < n
        invariant 0 <= i <= n
        invariant forall k :: 0 <= k < i ==> particles[k] == BounceStep(olds[k], width, height)
        invariant forall k :: i <= k < n ==> particles[k] == olds[k]
        invariant forall k :: 0 <= k < n ==>
                    Wellformed(particles[k]) && BounceBounded(particles[k], width, height)
        invariant links == FrameLinks(olds, width, height, i)
      {
        BounceStepStaysNear(particles[i], width, height);
        particles[i] := BounceStep(particles[i], width, height);
        assert particles[..] == Snapshot(olds, width, height, i);
        var row := Connections(i);
        links := links + row;
        i := i + 1;
      }
    }

    /** The inner forEach of drawGeometricCrops: the connections from
        particle i to every other particle of the pool as it stands now. */
    method Connections(i: nat) returns (row: seq<Link>)
      requires i < particles.Length
      ensures row == Row(particles[..], i, particles.Length)
    {
      row := [];
      var j := 0;
      while j < particles.Length
        invariant 0 <= j <= particles.Length
        invariant row == Row(particles[..], i, j)
      {
        var d2 := Dist2(particles[i], particles[j]);
        if j != i && d2 < LinkRadius * LinkRadius {
          row := row + [Link(i, j, d2)];
        }
        j := j + 1;
      }
    }

    /** One animation frame: run the rule of this canvas's variant. Only the
        geometric-crops variant draws connections. */
    method Animate(frame: FrameInput) returns (links: seq<Link>)
      requires Valid() && ValidFrame(frame, particles.Length)
      modifies particles
      ensures Valid()
      ensures variant == FarmlandSeeds ==> forall i :: 0 <= i < particles.Length ==>
                particles[i] == SeedStep(old(particles[i]), width, height)
      ensures variant == GrowingFields ==> forall i :: 0 <= i < particles.Length ==>
                particles[i] == GrowStep(old(particles[i]), frame.growthSines[i], width, height)
      ensures variant == HarvestParticles ==> forall i :: 0 <= i < particles.Length ==>
                particles[i] == HarvestStep(old(particles[i]), frame.swirlCos[i], frame.swirlSin[i], width, height)
      ensures variant == OrganicFlow ==> forall i :: 0 <= i < particles.Length ==>
                particles[i] == OrganicStep(old(particles[i]), frame.driftSines[i], frame.waveSines[i], width, height)
      ensures variant == GeometricCrops ==> forall i :: 0 <= i < particles.Length ==>
                particles[i] == BounceStep(old(particles[i]), width, height)
      ensures variant == GeometricCrops ==> links == FrameLinks(old(particles[..]), width, height, particles.Length)
      ensures variant != GeometricCrops ==> links == []
    {
      links := [];
      match variant {
        case FarmlandSeeds => StepSeeds();
        case GrowingFields => StepGrowing(frame.growthSines);
        case HarvestParticles => StepHarvest(frame.swirlCos, frame.swirlSin);
        case OrganicFlow => StepOrganic(frame.driftSines, frame.waveSines);
        case GeometricCrops => links := StepGeometric();
      }
    }
  }
}
