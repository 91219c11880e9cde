/** The mobile animation: one `MobileCLT` object owns the configuration
    indices, a 30-bin histogram of sample means, its running maximum, the
    sample counter and a capped list of falling/fading particles.
    Random draws and clock readings are passed in as parameters. */
module MobileModel {
  import opened Common

  const Distributions: seq<Distribution> := [Uniform, Exponential, Bimodal, Skewed]
  const SampleSizes: seq<nat> := [10, 20, 30, 50]
  const MaxParticles: nat := 150
  const ParticleSpeed: real := 2.0
  const HistogramBins: nat := 30
  const GenerationRate: real := 0.3
  /** Milliseconds one configuration is shown before `autoCycle` advances. */
  const CycleInterval: int := 8000
  /** Minimum milliseconds between two particle spawns in `render`. */
  const SpawnInterval: real := 100.0
  /** Alpha lost per frame by a fading particle. */
  const FadeStep: real := 0.02

  // ---------------------------------------------------------------------
  // Configuration cycle

  /** The pair (`currentSizeIndex`, `currentDistIndex`). */
  datatype Config = Config(sizeIndex: nat, distIndex: nat)

  predicate InRange(c: Config)
  {
    c.sizeIndex < |SampleSizes| && c.distIndex < |Distributions|
  }

  /** `nextCycle`'s index step: the size index first, and on its wrap the
      distribution index, modulo the number of distributions. */
  function NextConfig(c: Config): (r: Config)
    ensures InRange(c) ==> InRange(r)
  {
    var s := c.sizeIndex + 1;
    if s >= |SampleSizes| then Config(0, (c.distIndex + 1) % |Distributions|)
    else Config(s, c.distIndex)
  }

  /** Position of a configuration in the enumeration
      uniform x sizes, exponential x sizes, bimodal x sizes, skewed x sizes. */
  function Ordinal(c: Config): nat
  {
    c.distIndex * |SampleSizes| + c.sizeIndex
  }

  /** Number of distinct configurations. */
  const Period: nat := |SampleSizes| * |Distributions|

  /** The configuration at position `n` of the (wrapping) enumeration. */
  function ConfigAt(n: nat): (r: Config)
    ensures InRange(r)
  {
    Config(n % |SampleSizes|, (n / |SampleSizes|) % |Distributions|)
  }

  /** The configuration reached after `n` calls of `nextCycle`. */
  function Cycle(c: Config, n: nat): Config
  {
    if n == 0 then c else NextConfig(Cycle(c, n - 1))
  }

  /** One `nextCycle` moves one place forward in the enumeration. */
  lemma NextConfigAt(m: nat)
    ensures NextConfig(ConfigAt(m)) == ConfigAt(m + 1)
  {
  }

  /** An in-range configuration is the one at its own position. */
  lemma ConfigAtOrdinal(c: Config)
    requires InRange(c)
    ensures ConfigAt(Ordinal(c)) == c
  {
  }

  /** The enumeration repeats with period 16. */
  lemma ConfigAtPeriodic(m: nat)
    ensures ConfigAt(m + Period) == ConfigAt(m)
  {
    assert (m + Period) % 4 == m % 4 && (m + Period) / 4 == m / 4 + 4;
  }

  /** After `n` calls of `nextCycle` an in-range configuration has moved
      `n` places forward in the enumeration. */
  lemma {:induction false} CycleFrom(c: Config, n: nat)
    requires InRange(c)
    ensures Cycle(c, n) == ConfigAt(Ordinal(c) + n)
  {
    if n == 0 {
      ConfigAtOrdinal(c);
    } else {
      CycleFrom(c, n - 1);
      NextConfigAt(Ordinal(c) + n - 1);
    }
  }

  /** Sixteen calls of `nextCycle` bring every configuration back to
      itself, and indices never leave their ranges on the way. */
  lemma CyclePeriod(c: Config, n: nat)
    requires InRange(c)
    ensures Period == 16
    ensures InRange(Cycle(c, n))
    ensures Cycle(c, n + Period) == Cycle(c, n)
  {
    CycleFrom(c, n);
    CycleFrom(c, n + Period);
    ConfigAtPeriodic(Ordinal(c) + n);
  }

  /** From the initial configuration the `n`-th call shows sample size
      `n % 4` of distribution `(n / 4) % 4`: all four sizes of uniform, then
      of exponential, bimodal and skewed, then again from the start. */
  lemma VisitOrder(n: nat)
    ensures Cycle(Config(0, 0), n) == Config(n % 4, (n / 4) % 4)
    ensures Cycle(Config(0, 0), 16) == Config(0, 0)
  {
    CycleFrom(Config(0, 0), n);
    CycleFrom(Config(0, 0), 16);
  }

  // ---------------------------------------------------------------------
  // Binning

  /** The value `updateHistogram` and `getSamplePosition` place: the
      exponential mean is halved and capped at 1, the others are used as is. */
  function Normalized(d: Distribution, sample: real): (n: real)
    ensures d != Exponential ==> n == sample
    ensures d == Exponential && 0.0 <= sample ==> 0.0 <= n <= 1.0
    ensures d == Exponential ==> n <= 1.0 && n <= sample / 2.0
    ensures d == Exponential ==> n == sample / 2.0 || n == 1.0
  {
    match d
    case Exponential => if sample / 2.0 < 1.0 then sample / 2.0 else 1.0
    case _ => sample
  }

  /** The bin `updateHistogram` increments. */
  function MobileBin(d: Distribution, sample: real): (k: nat)
    ensures k < HistogramBins
  {
    BinIndex(Normalized(d, sample), HistogramBins, HistogramBins)
  }

  /** For the exponential distribution the cap at 1 never changes the bin:
      every halved mean of 29/30 or more lands in the last bin anyway. */
  lemma ExponentialCapIrrelevant(sample: real)
    ensures MobileBin(Exponential, sample) == BinIndex(sample / 2.0, HistogramBins, HistogramBins)
  {
  }

  /** `getSamplePosition`: the horizontal target of a new particle. */
  function SamplePosition(width: real, d: Distribution, sample: real): (x: real)
    ensures 0.0 <= width && 0.0 <= Normalized(d, sample) <= 1.0 ==>
      width * 0.2 <= x <= width * 0.8
  {
    var n := Normalized(d, sample);
    assert 0.0 <= width && 0.0 <= n <= 1.0 ==> 0.0 <= n * width <= width by {
      if 0.0 <= width && 0.0 <= n <= 1.0 {
        FractionOfWidth(n, width);
      }
    }
    width * 0.2 + n * width * 0.6
  }

  /** A fraction in `[0, 1]` of a non-negative width lies in `[0, width]`. */
  lemma FractionOfWidth(n: real, width: real)
    requires 0.0 <= width && 0.0 <= n <= 1.0
    ensures 0.0 <= n * width <= width
  {
    assert n * width <= 1.0 * width;
    assert 0.0 * width <= n * width;
  }

  // ---------------------------------------------------------------------
  // Particles

  datatype Phase = Falling | Fading

  datatype Particle = Particle(x: real, y: real, targetX: real, targetY: real,
                               sample: real, alpha: real, phase: Phase)

  /** The particle `addParticle` pushes; `u` is the `Math.random()` draw
      that picks its horizontal start. */
  function Spawn(width: real, height: real, d: Distribution, sample: real, u: real): (p: Particle)
    ensures p.phase == Falling && p.alpha == 1.0 && WellFormed(p) && p.sample == sample
    ensures p.y < p.targetY <==> 0.0 < height
  {
    Particle(width * 0.1 + u * width * 0.8, height * 0.2,
             SamplePosition(width, d, sample), height * 0.8, sample, 1.0, Falling)
  }

  /** One frame of `updateParticles` for one particle, before removal: a
      falling particle eases toward its target and starts fading within 10
      pixels of it; a fading one loses `FadeStep` alpha. */
  function Tick(p: Particle): (q: Particle)
    ensures q.targetX == p.targetX && q.targetY == p.targetY && q.sample == p.sample
    ensures p.phase == Fading ==> q.phase == Fading
  {
    match p.phase
    case Falling =>
      var y := p.y + (p.targetY - p.y) * 0.1 + ParticleSpeed;
      p.(x := p.x + (p.targetX - p.x) * 0.1, y := y,
         phase := if y >= p.targetY - 10.0 then Fading else Falling)
    case Fading =>
      p.(alpha := p.alpha - FadeStep)
  }

  /** A particle survives the frame unless it was fading and its alpha
      dropped to zero or below. */
  predicate Kept(p: Particle): (b: bool)
    ensures p.phase == Falling ==> b
    ensures p.phase == Fading ==> (b <==> p.alpha > FadeStep)
  {
    !(p.phase == Fading && Tick(p).alpha <= 0.0)
  }

  /** The whole list after `updateParticles`. */
  function UpdateAll(ps: seq<Particle>): (r: seq<Particle>)
    ensures |r| <= |ps|
  {
    KeepMap(ps, Tick, Kept)
  }

  /** Alpha stays in `(0, 1]`, and a particle still falling is fully opaque. */
  predicate WellFormed(p: Particle)
  {
    0.0 < p.alpha <= 1.0 && (p.phase == Falling ==> p.alpha == 1.0)
  }

  /** The phase machine: a falling particle that switches to fading is not
      dimmed in the same frame; a fading particle never becomes falling
      again, keeps its position and loses exactly `FadeStep`; it is removed
      exactly when that leaves no alpha. */
  lemma TickPhases(p: Particle)
    ensures p.phase == Falling ==>
              Tick(p).alpha == p.alpha && Kept(p) &&
              (Tick(p).phase == Fading <==> Tick(p).y >= p.targetY - 10.0)
    ensures p.phase == Fading ==>
              Tick(p).phase == Fading && Tick(p).alpha == p.alpha - FadeStep &&
              Tick(p).x == p.x && Tick(p).y == p.y && (Kept(p) <==> p.alpha > FadeStep)
  {
  }

  /** A surviving well-formed particle is still well-formed after the frame. */
  lemma TickWellFormed(p: Particle)
    requires WellFormed(p) && Kept(p)
    ensures WellFormed(Tick(p))
  {
  }

  /** `updateParticles` never adds particles and keeps every survivor well-formed. */
  lemma UpdateAllWellFormed(ps: seq<Particle>)
    requires forall i :: 0 <= i < |ps| ==> WellFormed(ps[i])
    ensures |UpdateAll(ps)| <= |ps|
    ensures forall k :: 0 <= k < |UpdateAll(ps)| ==> WellFormed(UpdateAll(ps)[k])
  {
    KeepMapLength(ps, Tick, Kept);
    forall k | 0 <= k < |UpdateAll(ps)|
      ensures WellFormed(UpdateAll(ps)[k])
    {
      KeepMapFrom(ps, Tick, Kept, k);
      var j :| 0 <= j < |ps| && Kept(ps[j]) && CountKept(ps[..j], Kept) == k &&
               UpdateAll(ps)[k] == Tick(ps[j]);
      TickWellFormed(ps[j]);
    }
  }

  /** A falling particle is never removed: it reappears, ticked, after
      exactly the survivors that preceded it. */
  lemma FallingSurvives(ps: seq<Particle>, j: nat)
    requires j < |ps| && ps[j].phase == Falling
    ensures CountKept(ps[..j], Kept) < |UpdateAll(ps)|
    ensures UpdateAll(ps)[CountKept(ps[..j], Kept)] == Tick(ps[j])
  {
    KeepMapAt(ps, Tick, Kept, j);
  }

  // ---------------------------------------------------------------------
  // The animation object

  class MobileCLT {
    /** Canvas size in CSS pixels, as measured by `setupCanvas`. */
    var width: real
    var height: real
    var currentDistIndex: nat
    var currentSizeIndex: nat
    var isRunning: bool
    var particles: seq<Particle>
    var histogram: array<nat>
    var maxHistogramValue: nat
    var sampleCount: nat
    /** Timestamp of the last spawn (the frame clock of `render`). */
    var lastTime: real
    /** Wall-clock time of the last configuration change. */
    var lastCycleTime: int

    ghost predicate Valid()
      reads this, histogram
    {
      histogram.Length == HistogramBins &&
      InRange(CurrentConfig()) &&
      ScaleBounds(histogram[..], maxHistogramValue) &&
      Sum(histogram[..]) == sampleCount &&
      |particles| <= MaxParticles &&
      forall i :: 0 <= i < |particles| ==> WellFormed(particles[i])
    }

    function CurrentConfig(): Config
      reads this
    {
      Config(currentSizeIndex, currentDistIndex)
    }

    /** `getCurrentDistribution`. */
    function CurrentDistribution(): (d: Distribution)
      reads this
      requires currentDistIndex < |Distributions|
      ensures d in Distributions
    {
      Distributions[currentDistIndex]
    }

    /** `getCurrentSampleSize`. It mirrors the reader only: its one caller,
        the sampling loop of the mobile file, is not part of this model. */
    function CurrentSampleSize(): (n: nat)
      reads this
      requires currentSizeIndex < |SampleSizes|
      ensures n in SampleSizes && 10 <= n <= 50
    {
      SampleSizes[currentSizeIndex]
    }

    /** The state the constructor sets up; `now` is `Date.now()`. */
    constructor (width: real, height: real, now: int)
      ensures Valid() && fresh(histogram)
      ensures this.width == width && this.height == height
      ensures CurrentConfig() == Config(0, 0) && isRunning
      ensures particles == [] && sampleCount == 0 && maxHistogramValue == 1
      ensures forall i :: 0 <= i < histogram.Length ==> histogram[i] == 0
      ensures lastTime == 0.0 && lastCycleTime == now
    {
      this.width := width;
      this.height := height;
      currentDistIndex := 0;
      currentSizeIndex := 0;
      isRunning := true;
      particles := [];
      var bins := new nat[HistogramBins](_ => 0);
      SumAllZero(bins[..]);
      histogram := bins;
      maxHistogramValue := 1;
      sampleCount := 0;
      lastTime := 0.0;
      lastCycleTime := now;
    }

    /** `updateHistogram`: exactly one bin, the clamped `floor(norm * 30)`,
        goes up by one, and the running maximum follows it. */
    method UpdateHistogram(sample: real)
      requires histogram.Length == HistogramBins && currentDistIndex < |Distributions|
      requires ScaleBounds(histogram[..], maxHistogramValue)
      modifies histogram, this`maxHistogramValue
      ensures ScaleBounds(histogram[..], maxHistogramValue)
      ensures var k := MobileBin(CurrentDistribution(), sample);
        histogram[..] == old(histogram[..])[k := old(histogram[k]) + 1] &&
        maxHistogramValue == Max(old(maxHistogramValue), histogram[k])
    {
      var normalizedSample := Normalized(CurrentDistribution(), sample);
      var binIndex := (normalizedSample * HistogramBins as real).Floor;
      var clampedIndex := Max(0, Min(binIndex, HistogramBins - 1));
      histogram[clampedIndex] := histogram[clampedIndex] + 1;
      maxHistogramValue := Max(maxHistogramValue, histogram[clampedIndex]);
    }

    /** `addParticle`, given the generated mean `sample` and the position
        draw `u`: at the cap nothing happens; otherwise one falling, opaque
        particle is appended and the sample is counted and binned. */
    method AddParticle(sample: real, u: real)
      requires Valid()
      modifies this`particles, this`sampleCount, this`maxHistogramValue, histogram
      ensures Valid()
      ensures old(|particles|) >= MaxParticles ==>
        particles == old(particles) && sampleCount == old(sampleCount) &&
        histogram[..] == old(histogram[..]) && maxHistogramValue == old(maxHistogramValue)
      ensures old(|particles|) < MaxParticles ==>
        var k := MobileBin(CurrentDistribution(), sample);
        particles == old(particles) + [Spawn(width, height, CurrentDistribution(), sample, u)] &&
        sampleCount == old(sampleCount) + 1 &&
        histogram[..] == old(histogram[..])[k := old(histogram[k]) + 1] &&
        maxHistogramValue == Max(old(maxHistogramValue), histogram[k])
    {
      if |particles| >= MaxParticles {
        return;
      }
      particles := particles + [Spawn(width, height, CurrentDistribution(), sample, u)];
      ghost var k := MobileBin(CurrentDistribution(), sample);
      SumIncrement(histogram[..], k);
      UpdateHistogram(sample);
      sampleCount := sampleCount + 1;
    }

    /** `updateParticles`: the backward loop that ticks each particle and
        splices out the ones whose fade has finished. */
    method UpdateParticles()
      requires Valid()
      modifies this`particles
      ensures Valid()
      ensures particles == UpdateAll(old(particles))
    {
      ghost var ps := particles;
      var i := |particles|;
      while i > 0
        invariant 0 <= i <= |ps|
        invariant particles == ps[..i] + UpdateAll(ps[i..])
      {
        i := i - 1;
        assert ps[i..][1..] == ps[i + 1..];
        assert particles[..i] == ps[..i] && particles[i] == ps[i];
        var particle := particles[i];
        if particle.phase == Falling {
          particles := particles[i := Tick(particle)];
        } else if particle.phase == Fading {
          particle := Tick(particle);
          if particle.alpha <= 0.0 {
            particles := particles[..i] + particles[i + 1..];
          } else {
            particles := particles[i := particle];
          }
        }
      }
      assert ps[0..] == ps;
      UpdateAllWellFormed(ps);
    }

    /** `nextCycle`: the indices step and every accumulated quantity is
        cleared (a fresh histogram of zeros, no particles, no samples). */
    method NextCycle()
      requires Valid()
      modifies this`currentSizeIndex, this`currentDistIndex, this`particles, this`histogram,
               this`maxHistogramValue, this`sampleCount
      ensures Valid() && fresh(histogram)
      ensures CurrentConfig() == NextConfig(old(CurrentConfig()))
      ensures particles == [] && sampleCount == 0 && maxHistogramValue == 1
      ensures forall i :: 0 <= i < histogram.Length ==> histogram[i] == 0
    {
      currentSizeIndex := currentSizeIndex + 1;
      if currentSizeIndex >= |SampleSizes| {
        currentSizeIndex := 0;
        currentDistIndex := (currentDistIndex + 1) % |Distributions|;
      }
      particles := [];
      histogram := new nat[HistogramBins](_ => 0);
      maxHistogramValue := 1;
      sampleCount := 0;
      SumAllZero(histogram[..]);
    }

    /** `autoCycle`, with `now` the reading of `Date.now()`: the
        configuration advances only when strictly more than
        `CycleInterval` has elapsed, and then the cycle clock restarts. */
    method AutoCycle(now: int)
      requires Valid()
      modifies this`currentSizeIndex, this`currentDistIndex, this`particles, this`histogram,
               this`maxHistogramValue, this`sampleCount, this`lastCycleTime
      ensures Valid()
      ensures now - old(lastCycleTime) > CycleInterval ==>
        CurrentConfig() == NextConfig(old(CurrentConfig())) && lastCycleTime == now &&
        particles == [] && sampleCount == 0 && maxHistogramValue == 1 && fresh(histogram) &&
        forall i :: 0 <= i < histogram.Length ==> histogram[i] == 0
      ensures now - old(lastCycleTime) <= CycleInterval ==>
        CurrentConfig() == old(CurrentConfig()) && lastCycleTime == old(lastCycleTime) &&
        particles == old(particles) && sampleCount == old(sampleCount) &&
        maxHistogramValue == old(maxHistogramValue) && histogram == old(histogram)
    {
      if now - lastCycleTime > CycleInterval {
        NextCycle();
        lastCycleTime := now;
      }
    }

    /** The throttled spawn of `render`: `addParticle` runs only when
        strictly more than `SpawnInterval` has elapsed since the last spawn
        and the coin is below the generation rate, and then the spawn clock
        restarts even if the cap stopped the particle. */
    method SpawnStep(currentTime: real, coin: real, sample: real, u: real)
      requires Valid()
      modifies this`particles, this`sampleCount, this`maxHistogramValue, this`lastTime, histogram
      ensures Valid()
      ensures var gate := currentTime - old(lastTime) > SpawnInterval && coin < GenerationRate;
        var added := gate && old(|particles|) < MaxParticles;
        var k := MobileBin(CurrentDistribution(), sample);
        lastTime == (if gate then currentTime else old(lastTime)) &&
        particles == old(particles) + (if added then [Spawn(width, height, CurrentDistribution(), sample, u)] else []) &&
        sampleCount == old(sampleCount) + (if added then 1 else 0) &&
        histogram[..] == (if added then old(histogram[..])[k := old(histogram[k]) + 1] else old(histogram[..])) &&
        maxHistogramValue == (if added then Max(old(maxHistogramValue), histogram[k]) else old(maxHistogramValue))
    {
      if currentTime - lastTime > SpawnInterval && coin < GenerationRate {
        AddParticle(sample, u);
        lastTime := currentTime;
      }
    }

    /** One frame of `render` (drawing left out): `currentTime` is the frame
        timestamp in (fractional) milliseconds, `now` the wall clock, `coin` the `Math.random()` draw of
        the spawn gate, `sample` and `u` the mean and position a spawn
        would use. A spawn is attempted only when strictly more than
        `SpawnInterval` has elapsed since the last one and the coin is below
        the generation rate; all particles are then ticked. */
    method Render(currentTime: real, now: int, coin: real, sample: real, u: real)
      requires Valid()
      modifies this`currentSizeIndex, this`currentDistIndex, this`particles, this`histogram,
               this`maxHistogramValue, this`sampleCount, this`lastCycleTime, this`lastTime, histogram
      ensures Valid()
      ensures !old(isRunning) ==>
        CurrentConfig() == old(CurrentConfig()) && particles == old(particles) &&
        sampleCount == old(sampleCount) && lastTime == old(lastTime) &&
        lastCycleTime == old(lastCycleTime) && histogram == old(histogram) &&
        histogram[..] == old(histogram[..]) && maxHistogramValue == old(maxHistogramValue)
      ensures old(isRunning) ==>
        var cycled := now - old(lastCycleTime) > CycleInterval;
        var config := if cycled then NextConfig(old(CurrentConfig())) else old(CurrentConfig());
        var before := if cycled then [] else old(particles);
        var gate := currentTime - old(lastTime) > SpawnInterval && coin < GenerationRate;
        var added := gate && |before| < MaxParticles;
        var bins := if cycled then seq(HistogramBins, _ => 0) else old(histogram[..]);
        var scale := if cycled then 1 else old(maxHistogramValue);
        var k := MobileBin(Distributions[config.distIndex], sample);
        k < |bins| &&
        histogram[..] == (if added then bins[k := bins[k] + 1] else bins) &&
        maxHistogramValue == (if added then Max(scale, histogram[k]) else scale) &&
        CurrentConfig() == config &&
        lastCycleTime == (if cycled then now else old(lastCycleTime)) &&
        lastTime == (if gate then currentTime else old(lastTime)) &&
        sampleCount == (if cycled then 0 else old(sampleCount)) + (if added then 1 else 0) &&
        particles == UpdateAll(before +
          (if added then [Spawn(width, height, Distributions[config.distIndex], sample, u)] else []))
    {
      if !isRunning {
        return;
      }
      ghost var cycled := now - old(lastCycleTime) > CycleInterval;
      AutoCycle(now);
      assert particles == (if cycled then [] else old(particles));
      assert histogram[..] == (if cycled then seq(HistogramBins, _ => 0) else old(histogram[..]));
      SpawnStep(currentTime, coin, sample, u);
      UpdateParticles();
    }
  }
}
