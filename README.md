# Central Limit Theorem animation — bookkeeping model

The site draws an animation of the Central Limit Theorem: it repeatedly
draws a sample from one of four distributions (uniform, exponential,
bimodal, skewed), averages it, bins the mean into a histogram and sends
particles across the canvas. Two near-duplicate copies exist: the
`MobileCLT` class in `assets/js/clt-mobile.js` and the script-level state
of `assets/js/main.js`. This project models the discrete, stateful
bookkeeping under the drawing in Dafny and proves its invariants:

- `common.dfy`, module `Common`: the distribution tag, histogram totals,
  the clamped `floor` binning, `indexOf`-and-wrap cycling through a fixed
  list, and the generic per-frame pass "update every particle, keep the
  live ones, in order" (`KeepMap`).
- `clt_mobile.dfy`, module `MobileModel`: class `MobileCLT` with the
  fields of the JavaScript class (indices, 30-bin `array<nat>` histogram,
  running maximum, sample counter, particle `seq`, the two clocks); the
  configuration cycle as a function with its period and visit order; the
  `falling → fading → removed` phase machine.
- `desktop.dfy`, module `DesktopModel`: class `Animation` holding what
  `main.js` keeps in `let` variables (sample size, distribution, sample
  means, 50-bin histogram, maximum, counter, particles), the sampling loop,
  the particle filter and cap of `animate`, reset and the two list steppers.

Every `Math.random()` draw, `Date.now()`, the animation-frame timestamp,
the canvas size and the `window.innerWidth <= 900` test are parameters of
the methods. Means, alpha and life are `real`; binning uses `.Floor`.

The invariants kept by every state-changing method (`Valid()`):
the histogram total equals the sample count (and, on the desktop, the
number of recorded means); the running maximum is at least 1 and at least
every bin; the configuration indices stay in range; the mobile particle
list never exceeds 150 particles, each with alpha in `(0, 1]` and
fully opaque while falling; every desktop particle has positive life.

## Model

| member | source | states |
|---|---|---|
| `Common.ClampIndex` | assets/js/clt-mobile.js:168 | `Math.max(0, Math.min(b, bins - 1))` is a valid bin: below 0 gives 0, at or above `bins` gives the last bin, in range is unchanged |
| `Common.BinIndex` | assets/js/clt-mobile.js:167-168 | the clamped `floor(x * scale)` is always a valid bin index |
| `Common.BinInterval` | assets/js/clt-mobile.js:167-168 | bin `k` is chosen exactly when the scaled value lies in `[k, k+1)`, the first bin also taking everything below and the last everything above (both directions) |
| `Common.SumIncrement` | assets/js/clt-mobile.js:170 | incrementing one bin raises the histogram total by exactly one, which keeps "total = sample count" |
| `Common.SumAllZero` | assets/js/clt-mobile.js:24 | a histogram filled with zeros has total 0, matching a zero sample count |
| `Common.BinAtMostSum` | assets/js/main.js:131 | no bin ever exceeds the histogram total, hence the sample count |
| `Common.IndexOf` | assets/js/main.js:286 | `indexOf` is -1 exactly when the element is absent, otherwise the first position holding it |
| `Common.CyclicSuccessor` | assets/js/main.js:285-287 | `xs[(indexOf(x) + 1) % length]` is a list member: the element after `x` with wrap-around, or the first element when `x` is absent |
| `Common.KeepMap` | assets/js/main.js:250-254 | the update-then-filter pass never returns more elements than it was given |
| `Common.KeepMapLength` | assets/js/main.js:250-254 | the update-and-filter pass returns one element per kept input, never more than it was given |
| `Common.KeepMapAt` | assets/js/main.js:250-254 | every kept input appears, updated, at the position counted by the kept inputs before it (order preserved) |
| `Common.KeepMapFrom` | assets/js/main.js:250-254 | every output is an updated kept input at that same position: nothing else appears |
| `MobileModel.NextConfig` | assets/js/clt-mobile.js:293-297 | the size index steps first and on its wrap the distribution index steps modulo 4; in-range indices stay in range |
| `MobileModel.ConfigAt` | assets/js/clt-mobile.js:11-14 | position `n` of the enumeration is an in-range pair of indices |
| `MobileModel.NextConfigAt` | assets/js/clt-mobile.js:293-297 | one `nextCycle` moves one place forward in the enumeration uniform×sizes, exponential×sizes, bimodal×sizes, skewed×sizes |
| `MobileModel.ConfigAtOrdinal` | assets/js/clt-mobile.js:11-14 | every in-range index pair occurs in the enumeration, at its own position |
| `MobileModel.ConfigAtPeriodic` | assets/js/clt-mobile.js:11-14 | the enumeration repeats every 16 positions |
| `MobileModel.CycleFrom` | assets/js/clt-mobile.js:291-297 | after `n` calls of `nextCycle` an in-range configuration has moved `n` places forward |
| `MobileModel.CyclePeriod` | assets/js/clt-mobile.js:291-297 | indices stay in range through any number of calls and 16 calls return every configuration to itself |
| `MobileModel.VisitOrder` | assets/js/clt-mobile.js:11-14 | from (0, 0) the `n`-th call shows size index `n % 4` of distribution index `(n / 4) % 4`, and call 16 is back at (0, 0) |
| `MobileModel.Normalized` | assets/js/clt-mobile.js:123-141 | only the exponential sample is rescaled, to exactly `min(sample / 2, 1)`: either half the sample or 1, whichever is smaller, hence in `[0, 1]` for a non-negative sample; the other families pass through unchanged |
| `MobileModel.MobileBin` | assets/js/clt-mobile.js:146-168 | the bin `updateHistogram` chooses is one of the 30 |
| `MobileModel.ExponentialCapIrrelevant` | assets/js/clt-mobile.js:155 | for the exponential distribution binning `min(sample/2, 1)` gives the same bin as binning `sample/2`: the cap only moves values already in the last bin |
| `MobileModel.SamplePosition` | assets/js/clt-mobile.js:122-144 | a normalised sample in `[0, 1]` is placed in the middle 60% of the canvas width |
| `MobileModel.Spawn` | assets/js/clt-mobile.js:105-116 | a new particle falls with alpha 1, carries its sample, and starts above its target exactly when the canvas has positive height |
| `MobileModel.Tick` | assets/js/clt-mobile.js:178-195 | one frame never moves a particle's target or changes its sample, and a fading particle stays fading |
| `MobileModel.Kept` | assets/js/clt-mobile.js:190-194 | a falling particle is always kept; a fading one is kept exactly when its alpha is above 0.02 |
| `MobileModel.UpdateAll` | assets/js/clt-mobile.js:174-197 | the pass over all particles never adds one |
| `MobileModel.TickPhases` | assets/js/clt-mobile.js:178-195 | a falling particle is never removed, switches to fading exactly when `y >= targetY - 10` and is not dimmed that frame; a fading one stays fading, keeps its place, loses 0.02 alpha and is kept iff its alpha was above 0.02 |
| `MobileModel.TickWellFormed` | assets/js/clt-mobile.js:187-194 | a surviving particle keeps alpha in `(0, 1]`, full alpha while falling |
| `MobileModel.UpdateAllWellFormed` | assets/js/clt-mobile.js:174-197 | `updateParticles` never adds particles and all survivors stay well-formed |
| `MobileModel.FallingSurvives` | assets/js/clt-mobile.js:174-197 | a falling particle is never removed and keeps its place among the survivors |
| `MobileModel.MobileCLT.CurrentDistribution` | assets/js/clt-mobile.js:56-62 | the current distribution is one of the four in the list |
| `MobileModel.MobileCLT.CurrentSampleSize` | assets/js/clt-mobile.js:56-62 | the current sample size is one of 10, 20, 30, 50 |
| `MobileModel.MobileCLT.constructor` | assets/js/clt-mobile.js:11-31 | configuration (0, 0), no particles, 30 zero bins, maximum 1, count 0, `lastCycleTime` = now |
| `MobileModel.MobileCLT.UpdateHistogram` | assets/js/clt-mobile.js:146-172 | exactly the chosen bin goes up by one, no other changes, and the maximum becomes the larger of the old maximum and that bin, so it bounds every bin |
| `MobileModel.MobileCLT.AddParticle` | assets/js/clt-mobile.js:101-120 | at 150 particles nothing changes; otherwise one falling particle with alpha 1 is appended, one bin and the count go up by one, keeping total = count and length ≤ 150 |
| `MobileModel.MobileCLT.UpdateParticles` | assets/js/clt-mobile.js:174-197 | the backward loop with in-place removal leaves exactly `UpdateAll` of the old list |
| `MobileModel.MobileCLT.NextCycle` | assets/js/clt-mobile.js:291-304 | indices follow `NextConfig`; particles empty, 30 fresh zero bins, maximum 1, count 0 |
| `MobileModel.MobileCLT.AutoCycle` | assets/js/clt-mobile.js:283-289 | cycles and restarts the clock only when strictly more than 8000 ms elapsed; otherwise nothing changes |
| `MobileModel.MobileCLT.SpawnStep` | assets/js/clt-mobile.js:315-319 | `addParticle` runs only when strictly more than 100 ms of frame time passed and the coin is below 0.3; the spawn clock then restarts even when the cap stopped the particle; exactly one bin, the count and the list grow when a particle is added, otherwise nothing changes |
| `MobileModel.MobileCLT.Render` | assets/js/clt-mobile.js:306-322 | when running: cycle if due (30 zero bins, maximum 1), spawn only when strictly more than 100 ms passed and the coin is below 0.3 (and under the cap), incrementing exactly the sample's bin and raising the maximum to that bin if larger, then tick all particles; when stopped nothing changes, the maximum included |
| `DesktopModel.MaxParticles` | assets/js/main.js:260-261 | the cap is 500 in a narrow window and 1000 otherwise |
| `DesktopModel.GenerationRate` | assets/js/main.js:260-261 | the generation probability lies in `(0, 1)`: 0.02 in a narrow window, 0.05 otherwise |
| `DesktopModel.SumValues` | assets/js/main.js:109-125 | the total of values in `[0, 1)` lies in `[0, n]`, strictly below `n` for a non-empty sample |
| `DesktopModel.Mean` | assets/js/main.js:109-125 | the mean of values in `[0, 1)` lies in `[0, 1)` |
| `DesktopModel.DesktopBin` | assets/js/main.js:129-130 | `floor(mean * 49)` clamped into `[0, 49]` is one of the 50 bins |
| `DesktopModel.DesktopBinRange` | assets/js/main.js:129-130 | a mean in `[0, 1)` lands in bins 0..48 |
| `DesktopModel.DesktopTopBin` | assets/js/main.js:129-130 | the last bin receives a mean exactly when the mean is at least 1 |
| `DesktopModel.DataParticle` | assets/js/main.js:70-79 | a data particle starts with life 1 and speed 0.02, heads for 80% of the width and is not the mean particle |
| `DesktopModel.MeanParticle` | assets/js/main.js:138-152 | the mean particle starts with life 2 and speed 0.03, heads for 80% of the width and is marked as the mean |
| `DesktopModel.DataParticlesShape` | assets/js/main.js:113-123 | the sampling loop creates one particle per draw, in order, each with life 1 and not the mean particle |
| `DesktopModel.Update` | assets/js/main.js:81-90 | an update strictly lowers life and keeps the kind, speed and target |
| `DesktopModel.Alive` | assets/js/main.js:250-254 | a particle survives the filter exactly when its life exceeds the fade for its kind (0.003 mean, 0.005 data) |
| `DesktopModel.Survivors` | assets/js/main.js:250-254 | the filter never adds particles |
| `DesktopModel.UpdateLowersLife` | assets/js/main.js:87-89 | every update strictly lowers life: by 0.005 for data particles, 0.003 for the mean particle |
| `DesktopModel.SurvivorsExactly` | assets/js/main.js:250-254 | the survivors are one per particle alive after update: each such particle appears, updated, at its rank among the alive ones, and each survivor is such a particle at that rank |
| `DesktopModel.NextSampleSize` | assets/js/main.js:284-289 | the new sample size is always one of 10, 30, 50, 100, 500 |
| `DesktopModel.SampleSizeOrder` | assets/js/main.js:285-287 | the size steps 10→30→50→100→500→10, and a size not in the list becomes 10 |
| `DesktopModel.NextDistribution` | assets/js/main.js:292-294 | the next distribution is in the list and differs from the current one |
| `DesktopModel.DistributionOrder` | assets/js/main.js:292-294 | the distribution steps uniform→exponential→bimodal→skewed→uniform |
| `DesktopModel.Animation.constructor` | assets/js/main.js:23-28 | animating, size 30, uniform, no particles or means, 50 zero bins, maximum 1, count 0 |
| `DesktopModel.Animation.BinAtMostCount` | assets/js/main.js:131 | in every valid state no bin of the histogram exceeds the number of samples drawn since the last reset |
| `DesktopModel.Animation.BinMean` | assets/js/main.js:128-132 | exactly the mean's bin goes up by one, the scale becomes the larger of the old scale and that bin (still bounding every bin), and the total grows by one |
| `DesktopModel.Animation.GenerateSample` | assets/js/main.js:108-173 | appends `sampleSize` data particles then the mean particle (life 2), appends the mean to `sampleMeans`, increments exactly its bin and the count, keeping total = count = number of means and the maximum bound |
| `DesktopModel.Animation.Animate` | assets/js/main.js:241-264 | filters dead particles, then generates only if the coin is below the rate and fewer than the cap survive, incrementing exactly the mean's bin and raising the maximum to that bin if larger; otherwise histogram and maximum are unchanged; a frame that generates leaves at most the cap plus `sampleSize` particles (the list was below the cap and gains `sampleSize + 1`), and a frame that does not generate never lengthens the list |
| `DesktopModel.Animation.ResetAnimation` | assets/js/main.js:275-282 | particles and means emptied, 50 fresh zero bins, count 0, maximum 1; size and distribution unchanged |
| `DesktopModel.Animation.ChangeSampleSize` | assets/js/main.js:284-289 | the size becomes its cyclic successor; histogram, particles and counts untouched |
| `DesktopModel.Animation.ChangeDistribution` | assets/js/main.js:291-297 | the distribution becomes its cyclic successor and everything accumulated is reset; the size is unchanged |

## Left out

- Random sampling (`generateRandomValue`, `generateSample`'s loop in the mobile file, `uniform`, `exponential`, `bimodal`, `skewed`, `getSample`): nondeterministic and built on floating-point `log`/`pow`; the drawn values, the mobile sample mean and every `Math.random()` coin or position draw are method parameters instead.
- All canvas drawing (`drawHistogram`, `drawNormalCurve`, `drawParticles`, `drawInfo`, `Particle.draw`, the mean particle's `draw`), including the normal-curve arithmetic (`exp`, `sqrt`); the desktop curve divides by a standard deviation that may be 0, which lies in this drawing code.
- DOM and host glue: canvas lookup and the early return when it is missing, `setupCanvas`/`resizeCanvas`, the `DOMContentLoaded`/`resize` listeners that build new `MobileCLT` objects, `textContent` updates, `requestAnimationFrame` scheduling, `toggleAnimation` and `init`.
- The desktop particle `size` (a random radius used only for drawing) and the mean particle's fixed size 8.
- The desktop data particle's `value` field: it only feeds `targetY` in the constructor, which the model computes directly, and nothing else reads it.
- Floating point: positions, alpha, life, means and the fractional `requestAnimationFrame` timestamps are exact reals, so the model says nothing about rounding, and no exact fade duration (number of frames until removal) is claimed, since repeated double subtraction of 0.02 or 0.005 does not behave like real subtraction.
- Fields the source never reassigns (the distribution and size lists, `maxParticles`, `histogramBins`, `generationRate`, `cycleInterval`, `particleSpeed`) are module constants rather than object fields.
- `DesktopModel.Animation.Animate`: the cap in `animate` only decides whether a sample is generated. A frame that generates leaves at most the cap plus `sampleSize` particles, because the list was below the cap and gains `sampleSize + 1`. A frame that does not generate never lengthens the list. The bound is not an invariant of the particle list: `changeSampleSize` keeps the particles, and the cap drops to 500 in a narrow window, so a list grown under size 500 in a wide window can stay far above the new cap plus size.
