/** The desktop animation: the script-level state of the page (sample
    size, distribution, sample means, a 50-bin histogram and its running
    maximum, the sample counter and the particle list), gathered into one
    `Animation` object. Random draws, the canvas size and the narrow-window
    test are passed in as parameters. */
module DesktopModel {
  import opened Common

  const SampleSizes: seq<nat> := [10, 30, 50, 100, 500]
  const Distributions: seq<Distribution> := [Uniform, Exponential, Bimodal, Skewed]
  const HistogramLength: nat := 50
  /** Life a data particle loses per frame. */
  const DataFade: real := 0.005
  /** Life the mean particle loses per frame. */
  const MeanFade: real := 0.003

  /** `maxParticles` of `animate`: 500 in a window at most 900 pixels wide, else 1000. */
  function MaxParticles(narrow: bool): (n: nat)
    ensures n == 500 || n == 1000
    ensures narrow <==> n < 1000
  {
    if narrow then 500 else 1000
  }

  /** `generationRate` of `animate`: 0.02 in a narrow window, else 0.05. */
  function GenerationRate(narrow: bool): (r: real)
    ensures 0.0 < r < 1.0
    ensures narrow <==> r < 0.05
  {
    if narrow then 0.02 else 0.05
  }

  // ---------------------------------------------------------------------
  // Samples and bins

  /** One draw of the sampling loop: the value `getSample` returned and the
      two `Math.random()` draws that place its particle. */
  datatype Draw = Draw(value: real, ux: real, uy: real)

  /** Running total of the drawn values, in drawing order. */
  function SumValues(ds: seq<Draw>): (r: real)
    ensures (forall i :: 0 <= i < |ds| ==> 0.0 <= ds[i].value < 1.0) ==>
      0.0 <= r <= |ds| as real && (ds != [] ==> r < |ds| as real)
  {
    if ds == [] then 0.0 else SumValues(ds[..|ds| - 1]) + ds[|ds| - 1].value
  }

  /** The sample mean `sum / sampleSize`. */
  function Mean(ds: seq<Draw>): (m: real)
    requires |ds| > 0
    ensures (forall i :: 0 <= i < |ds| ==> 0.0 <= ds[i].value < 1.0) ==> 0.0 <= m < 1.0
  {
    var n := |ds| as real;
    var s := SumValues(ds);
    assert 0.0 <= s < n ==> 0.0 <= s / n < 1.0 by {
      if 0.0 <= s < n {
        QuotientBelowOne(s, n);
      }
    }
    s / n
  }

  /** A total below the count gives a quotient below one. */
  lemma QuotientBelowOne(s: real, n: real)
    requires 1.0 <= n && 0.0 <= s < n
    ensures 0.0 <= s / n < 1.0
  {
    assert s / n * n == s;
  }

  /** The bin of a mean: `floor(mean * 49)` clamped into `[0, 49]`. */
  function DesktopBin(mean: real): (k: nat)
    ensures k < HistogramLength
  {
    BinIndex(mean, HistogramLength - 1, HistogramLength)
  }

  /** Means in `[0, 1)` never reach the last bin. */
  lemma DesktopBinRange(mean: real)
    requires 0.0 <= mean < 1.0
    ensures DesktopBin(mean) <= HistogramLength - 2
  {
    BinInterval(mean, HistogramLength - 1, HistogramLength, HistogramLength - 1);
  }

  /** The last bin collects exactly the means of 1 or more. */
  lemma DesktopTopBin(mean: real)
    ensures DesktopBin(mean) == HistogramLength - 1 <==> 1.0 <= mean
  {
    BinInterval(mean, HistogramLength - 1, HistogramLength, HistogramLength - 1);
  }

  // ---------------------------------------------------------------------
  // Particles

  /** Data particles and the mean particle share one shape; `isMean` tells
      them apart. */
  datatype Particle = Particle(x: real, y: real, targetX: real, targetY: real,
                               speed: real, life: real, isMean: bool)

  /** `new Particle(x, y, value)` for one draw of the sample. */
  function DataParticle(width: real, height: real, d: Draw): (p: Particle)
    ensures p.life == 1.0 && !p.isMean && p.speed == 0.02
    ensures p.targetX == width * 0.8
  {
    Particle(d.ux * width * 0.3 + 50.0, d.uy * height * 0.3 + 100.0,
             width * 0.8, height * 0.3 + d.value * 200.0, 0.02, 1.0, false)
  }

  /** The particles the sampling loop creates, in drawing order. */
  function DataParticles(width: real, height: real, ds: seq<Draw>): seq<Particle>
  {
    if ds == [] then []
    else DataParticles(width, height, ds[..|ds| - 1]) + [DataParticle(width, height, ds[|ds| - 1])]
  }

  /** The distinguished particle for the sample mean: it starts with life 2. */
  function MeanParticle(width: real, height: real, mean: real): (p: Particle)
    ensures p.life == 2.0 && p.isMean && p.speed == 0.03
    ensures p.targetX == width * 0.8
  {
    Particle(width * 0.4, height * 0.5, width * 0.8, height * 0.8 - mean * 200.0, 0.03, 2.0, true)
  }

  /** One data particle per draw, each with life 1, in drawing order. */
  lemma {:induction false} DataParticlesShape(width: real, height: real, ds: seq<Draw>)
    ensures |DataParticles(width, height, ds)| == |ds|
    ensures forall k :: 0 <= k < |ds| ==>
      DataParticles(width, height, ds)[k] == DataParticle(width, height, ds[k]) &&
      DataParticles(width, height, ds)[k].life == 1.0 && !DataParticles(width, height, ds)[k].isMean
  {
    if ds != [] {
      DataParticlesShape(width, height, ds[..|ds| - 1]);
    }
  }

  /** `update` of either kind of particle: ease toward the target and lose
      `DataFade` or `MeanFade` life. */
  function Update(p: Particle): (q: Particle)
    ensures q.life < p.life
    ensures q.isMean == p.isMean && q.speed == p.speed
    ensures q.targetX == p.targetX && q.targetY == p.targetY
  {
    p.(x := p.x + (p.targetX - p.x) * p.speed,
       y := p.y + (p.targetY - p.y) * p.speed,
       life := p.life - (if p.isMean then MeanFade else DataFade))
  }

  /** What the filter callback of `animate` returns. */
  predicate Alive(p: Particle): (b: bool)
    ensures b <==> p.life > (if p.isMean then MeanFade else DataFade)
  {
    Update(p).life > 0.0
  }

  /** `particles.filter(...)` in `animate`. */
  function Survivors(ps: seq<Particle>): (r: seq<Particle>)
    ensures |r| <= |ps|
  {
    KeepMap(ps, Update, Alive)
  }

  /** Every update strictly lowers life, by the amount for its kind. */
  lemma UpdateLowersLife(p: Particle)
    ensures Update(p).life < p.life
    ensures Update(p).life == p.life - (if p.isMean then 0.003 else 0.005)
  {
  }

  /** The filter keeps exactly the particles whose life is positive after
      the update, in their original order, and never adds any. */
  lemma SurvivorsExactly(ps: seq<Particle>)
    ensures |Survivors(ps)| == CountKept(ps, Alive) <= |ps|
    ensures forall k :: 0 <= k < |Survivors(ps)| ==>
      Survivors(ps)[k].life > 0.0 &&
      exists j :: 0 <= j < |ps| && Alive(ps[j]) && CountKept(ps[..j], Alive) == k &&
                  Survivors(ps)[k] == Update(ps[j])
    ensures forall j :: 0 <= j < |ps| && Update(ps[j]).life > 0.0 ==>
      CountKept(ps[..j], Alive) < |Survivors(ps)| &&
      Survivors(ps)[CountKept(ps[..j], Alive)] == Update(ps[j])
  {
    KeepMapLength(ps, Update, Alive);
    forall k | 0 <= k < |Survivors(ps)|
      ensures Survivors(ps)[k].life > 0.0
      ensures exists j :: 0 <= j < |ps| && Alive(ps[j]) && CountKept(ps[..j], Alive) == k &&
                          Survivors(ps)[k] == Update(ps[j])
    {
      KeepMapFrom(ps, Update, Alive, k);
    }
    forall j | 0 <= j < |ps| && Update(ps[j]).life > 0.0
      ensures CountKept(ps[..j], Alive) < |Survivors(ps)|
      ensures Survivors(ps)[CountKept(ps[..j], Alive)] == Update(ps[j])
    {
      KeepMapAt(ps, Update, Alive, j);
    }
  }

  // ---------------------------------------------------------------------
  // Configuration lists

  /** `changeSampleSize`'s choice. */
  function NextSampleSize(size: nat): (r: nat)
    ensures r in SampleSizes
  {
    CyclicSuccessor(SampleSizes, size)
  }

  /** `changeDistribution`'s choice. */
  function NextDistribution(d: Distribution): (r: Distribution)
    ensures r in Distributions && r != d
  {
    CyclicSuccessor(Distributions, d)
  }

  /** The sample size steps 10, 30, 50, 100, 500 and back to 10; a size
      not in the list is replaced by 10. */
  lemma SampleSizeOrder(size: nat)
    ensures NextSampleSize(10) == 30 && NextSampleSize(30) == 50 && NextSampleSize(50) == 100
    ensures NextSampleSize(100) == 500 && NextSampleSize(500) == 10
    ensures size !in SampleSizes ==> NextSampleSize(size) == 10
  {
    assert SampleSizes[0] == 10 && SampleSizes[..0] == [];
    assert SampleSizes[1] == 30 && SampleSizes[..1] == [10];
    assert SampleSizes[2] == 50 && SampleSizes[..2] == [10, 30];
    assert SampleSizes[3] == 100 && SampleSizes[..3] == [10, 30, 50];
    assert SampleSizes[4] == 500 && SampleSizes[..4] == [10, 30, 50, 100];
  }

  /** The distribution steps uniform, exponential, bimodal, skewed and back. */
  lemma DistributionOrder()
    ensures NextDistribution(Uniform) == Exponential
    ensures NextDistribution(Exponential) == Bimodal
    ensures NextDistribution(Bimodal) == Skewed
    ensures NextDistribution(Skewed) == Uniform
  {
    assert Distributions[0] == Uniform && Distributions[..0] == [];
    assert Distributions[1] == Exponential && Distributions[..1] == [Uniform];
    assert Distributions[2] == Bimodal && Distributions[..2] == [Uniform, Exponential];
    assert Distributions[3] == Skewed && Distributions[..3] == [Uniform, Exponential, Bimodal];
  }

  // ---------------------------------------------------------------------
  // The animation state

  class Animation {
    /** Canvas size in pixels. */
    var width: real
    var height: real
    var isAnimating: bool
    var sampleSize: nat
    var currentDistribution: Distribution
    var sampleCount: nat
    var sampleMeans: seq<real>
    var particles: seq<Particle>
    var histogram: array<nat>
    var maxHistogramValue: nat

    /** The bookkeeping invariant: every sample since the last reset is
        counted once, in `sampleCount`, in `sampleMeans` and in exactly one
        bin; the bar scale bounds every bin; every particle is alive. */
    ghost predicate Valid()
      reads this, histogram
    {
      histogram.Length == HistogramLength &&
      sampleSize in SampleSizes &&
      ScaleBounds(histogram[..], maxHistogramValue) &&
      Sum(histogram[..]) == sampleCount == |sampleMeans| &&
      forall k :: 0 <= k < |particles| ==> particles[k].life > 0.0
    }

    /** No bar is taller than the number of samples drawn since the reset. */
    lemma BinAtMostCount()
      requires Valid()
      ensures forall i :: 0 <= i < histogram.Length ==> histogram[i] <= sampleCount
    {
      forall i | 0 <= i < histogram.Length
        ensures histogram[i] <= sampleCount
      {
        BinAtMostSum(histogram[..], i);
      }
    }

    /** The state the script starts with. */
    constructor (width: real, height: real)
      ensures Valid() && fresh(histogram)
      ensures this.width == width && this.height == height
      ensures isAnimating && sampleSize == 30 && currentDistribution == Uniform
      ensures particles == [] && sampleMeans == [] && sampleCount == 0 && maxHistogramValue == 1
      ensures forall i :: 0 <= i < histogram.Length ==> histogram[i] == 0
    {
      this.width := width;
      this.height := height;
      isAnimating := true;
      sampleSize := 30;
      currentDistribution := Uniform;
      sampleCount := 0;
      sampleMeans := [];
      particles := [];
      var bins := new nat[HistogramLength](_ => 0);
      SumAllZero(bins[..]);
      histogram := bins;
      maxHistogramValue := 1;
    }

    /** The histogram step of `generateSample`: the mean's bin goes up by
        one and the bar scale follows it, so the scale still bounds every
        bin and the total grows by exactly one. */
    method BinMean(mean: real)
      requires histogram.Length == HistogramLength && ScaleBounds(histogram[..], maxHistogramValue)
      modifies this`maxHistogramValue, histogram
      ensures var k := DesktopBin(mean);
        histogram[..] == old(histogram[..])[k := old(histogram[k]) + 1] &&
        maxHistogramValue == Max(old(maxHistogramValue), histogram[k])
      ensures ScaleBounds(histogram[..], maxHistogramValue)
      ensures Sum(histogram[..]) == old(Sum(histogram[..])) + 1
    {
      var bin := (mean * (histogram.Length - 1) as real).Floor;
      bin := Max(0, Min(histogram.Length - 1, bin));
      assert bin == DesktopBin(mean);
      SumIncrement(histogram[..], bin);
      histogram[bin] := histogram[bin] + 1;
      maxHistogramValue := Max(maxHistogramValue, histogram[bin]);
    }

    /** `generateSample`, given the `sampleSize` draws: one particle per
        draw and then the mean particle are appended, the mean is recorded
        and binned, and the counter goes up by one. */
    method GenerateSample(draws: seq<Draw>)
      requires Valid() && |draws| == sampleSize
      modifies this`particles, this`sampleMeans, this`sampleCount, this`maxHistogramValue, histogram
      ensures Valid()
      ensures var mean := Mean(draws); var k := DesktopBin(mean);
        particles == old(particles) + DataParticles(width, height, draws) + [MeanParticle(width, height, mean)] &&
        sampleMeans == old(sampleMeans) + [mean] &&
        sampleCount == old(sampleCount) + 1 &&
        histogram[..] == old(histogram[..])[k := old(histogram[k]) + 1] &&
        maxHistogramValue == Max(old(maxHistogramValue), histogram[k])
    {
      var sum := 0.0;
      var sampleParticles := [];
      var i := 0;
      while i < sampleSize
        invariant 0 <= i <= sampleSize
        invariant sum == SumValues(draws[..i])
        invariant sampleParticles == DataParticles(width, height, draws[..i])
      {
        assert draws[..i + 1][..i] == draws[..i];
        sum := sum + draws[i].value;
        sampleParticles := sampleParticles + [DataParticle(width, height, draws[i])];
        i := i + 1;
      }
      assert draws[..i] == draws;

      var mean := sum / sampleSize as real;
      assert mean == Mean(draws);
      sampleMeans := sampleMeans + [mean];

      BinMean(mean);

      DataParticlesShape(width, height, draws);
      particles := particles + sampleParticles;
      particles := particles + [MeanParticle(width, height, mean)];

      sampleCount := sampleCount + 1;
    }

    /** One frame of `animate` (drawing left out). `coin` is the
        `Math.random()` draw of the generation gate, `narrow` whether the
        window is at most 900 pixels wide, `draws` what a new sample would
        use. All particles are updated and the dead ones dropped; a sample
        is generated only when the coin is below the rate and the surviving
        list is below the cap. A frame that generates therefore leaves at
        most the cap plus `sampleSize` particles, and a frame that does not
        generate never lengthens the list. This is no invariant: a size
        change keeps the particles and the cap is re-read every frame. */
    method Animate(coin: real, narrow: bool, draws: seq<Draw>)
      requires Valid() && |draws| == sampleSize
      modifies this`particles, this`sampleMeans, this`sampleCount, this`maxHistogramValue, histogram
      ensures Valid()
      ensures !isAnimating ==>
        particles == old(particles) && sampleMeans == old(sampleMeans) &&
        sampleCount == old(sampleCount) && histogram[..] == old(histogram[..]) &&
        maxHistogramValue == old(maxHistogramValue)
      ensures isAnimating ==>
        var survivors := Survivors(old(particles));
        var generate := coin < GenerationRate(narrow) && |survivors| < MaxParticles(narrow);
        var mean := Mean(draws);
        var k := DesktopBin(mean);
        (generate ==>
          particles == survivors + DataParticles(width, height, draws) + [MeanParticle(width, height, mean)] &&
          sampleMeans == old(sampleMeans) + [mean] && sampleCount == old(sampleCount) + 1 &&
          histogram[..] == old(histogram[..])[k := old(histogram[k]) + 1] &&
          maxHistogramValue == Max(old(maxHistogramValue), histogram[k])) &&
        (!generate ==>
          particles == survivors && sampleMeans == old(sampleMeans) &&
          sampleCount == old(sampleCount) && histogram[..] == old(histogram[..]) &&
          maxHistogramValue == old(maxHistogramValue))
      ensures isAnimating ==>
        |particles| <= old(|particles|) || |particles| <= MaxParticles(narrow) + sampleSize
    {
      if !isAnimating {
        return;
      }
      SurvivorsExactly(particles);
      particles := Survivors(particles);
      var generationRate := GenerationRate(narrow);
      var maxParticles := MaxParticles(narrow);
      if coin < generationRate && |particles| < maxParticles {
        DataParticlesShape(width, height, draws);
        GenerateSample(draws);
      }
    }

    /** `resetAnimation`: every accumulated quantity is cleared; the sample
        size and the distribution stay. */
    method ResetAnimation()
      requires Valid()
      modifies this`particles, this`histogram, this`sampleMeans, this`sampleCount, this`maxHistogramValue
      ensures Valid() && fresh(histogram)
      ensures particles == [] && sampleMeans == [] && sampleCount == 0 && maxHistogramValue == 1
      ensures forall i :: 0 <= i < histogram.Length ==> histogram[i] == 0
    {
      particles := [];
      var bins := new nat[HistogramLength](_ => 0);
      SumAllZero(bins[..]);
      histogram := bins;
      sampleMeans := [];
      sampleCount := 0;
      maxHistogramValue := 1;
    }

    /** `changeSampleSize`: the next size in the list, or the first one when
        the current size is not in it; nothing else changes. */
    method ChangeSampleSize()
      requires Valid()
      modifies this`sampleSize
      ensures Valid()
      ensures sampleSize == NextSampleSize(old(sampleSize))
    {
      var sizes := SampleSizes;
      var currentIndex := IndexOf(sizes, sampleSize);
      sampleSize := sizes[(currentIndex + 1) % |sizes|];
    }

    /** `changeDistribution`: the next distribution in the list, then a
        full reset; the sample size stays. */
    method ChangeDistribution()
      requires Valid()
      modifies this`currentDistribution, this`particles, this`histogram, this`sampleMeans,
               this`sampleCount, this`maxHistogramValue
      ensures Valid() && fresh(histogram)
      ensures currentDistribution == NextDistribution(old(currentDistribution))
      ensures particles == [] && sampleMeans == [] && sampleCount == 0 && maxHistogramValue == 1
      ensures forall i :: 0 <= i < histogram.Length ==> histogram[i] == 0
    {
      var distributions := Distributions;
      var currentIndex := IndexOf(distributions, currentDistribution);
      currentDistribution := distributions[(currentIndex + 1) % |distributions|];
      ResetAnimation();
    }
  }
}
