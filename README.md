# Kidney filtration demo: the animation engine

The kidney filtration demo is a single React component. It draws a healthy kidney and one
affected by chronic kidney disease (CKD) side by side. Everything on screen comes from one cyclic
time value in [0, 1):

- while playing, a 40 ms timer moves the time forward by `0.015 * speed`, modulo 1;
- each time it wraps, the drop counters grow by 10 (healthy) and 6 (CKD);
- three particle populations (blood cells, filtrate and leaked protein) are recomputed from the
  time every frame: each particle `i` gets a phase `(time + offset(i)) % 1` that picks a segment
  of a piecewise path, and a particle outside every visible segment is not drawn;
- the glomerular filtration rate (GFR) of each kidney oscillates sinusoidally around a fixed
  baseline and is shown on a gauge capped at a full bar.

The Dafny model has five modules:

- `Kidney`: the two kidneys as a `Kind`, JavaScript's `% 1` on exact reals (`Rem1`, which
  truncates and keeps the sign of the dividend as JavaScript does), and `Trig`, the sine and
  cosine passed in as values (`sinPi(u)` is `Math.sin(u * Math.PI)`). `BoundedTrig` (values in
  [-1, 1]) and `SinZero` are the facts about trigonometry the lemmas assume, plus
  sin(pi/2) = 1 in `Filtration.GfrAtQuarter`.
- `Clock`: one tick of the clock, the wrap detector `newTime < t`, and a proof that repeated
  ticks count exactly one wrap per whole cycle travelled.
- `Particles`: the three generator loops as methods over `seq<Particle>`. Each is proved against
  a per-particle specification function (`BloodAt`, `FiltrateAt`, `ProteinAt`).
  - A particle is in the list exactly when its phase is visible.
  - The list is in index order.
  - Each element is what the specification function computes.
  - The list's length is a recursive count.
  - For the page's counts (15 blood, 10 filtrate, 5 protein particles), lemmas bound how many
    particles are on screen at any time.
- `Spacing`: counting evenly spaced phases below a cut-off or inside a window. It reduces every
  count to the phase of particle 0.
- `Filtration`: `calculateGFR`, the gauge width, and their ranges.
- `Demo`: the component state as the class `KidneyFiltrationDemo`, with tick, reset, the
  toggles, the view and speed controls, and the keyboard handler. Its invariant ties the two
  drop counters to one number of completed cycles.

## Model

| member | source | states |
|---|---|---|
| Kidney.Rem1 | src/App.jsx:17 | `x % 1` lies in (-1, 1), on the same side of zero as `x`, and differs from `x` by a whole number |
| Kidney.Rem1OfNonNegative | src/App.jsx:60 | for a non-negative argument `% 1` removes exactly the whole part, leaving a value in [0, 1) |
| Kidney.Rem1Periodic | src/App.jsx:60 | adding a whole number of cycles to a non-negative time does not change its phase |
| Kidney.Rem1BelowTwo | src/App.jsx:17 | below 2, `% 1` subtracts either nothing or exactly one |
| Kidney.Rem1OfSum | src/App.jsx:115 | the phase of a sum depends only on the phase of its first summand |
| Clock.SliderSpeed | src/App.jsx:562-564 | defines the speeds the slider offers: 0.25 to 2 in steps of 0.25 |
| Clock.SliderSpeedValues | src/App.jsx:562-564 | the slider offers exactly the eight speeds 0.25, 0.5, …, 2 |
| Clock.SliderStepBelowOneCycle | src/App.jsx:561-566 | every speed the slider offers moves the time forward by a positive step of at most 0.03, well below one cycle |
| Clock.Advance | src/App.jsx:17 | from a non-negative time the new time lies in [0, 1) and differs from `t + 0.015 * speed` by a whole number of cycles |
| Clock.Wrapped | src/App.jsx:19 | defines the wrap detector: the new time is smaller than the old one |
| Clock.WrapsExactlyAtBoundary | src/App.jsx:17-19 | when the step is below one cycle, the detector `newTime < t` fires if and only if `t + step` reaches 1, and the new time is the sum minus one exactly when it fires |
| Clock.WrapFromNinetyNine | src/App.jsx:17-19 | from 0.99 at speed 1 the tick lands on 0.005 and the wrap detector fires |
| Clock.Run | src/App.jsx:15-26 | `n` ticks at a constant speed, counting the ticks on which the detector fires: after at least one tick the time is in [0, 1), and there are at most `n` wraps |
| Clock.RunCountsCycles | src/App.jsx:15-26 | after `n` ticks at a constant speed the time is the distance travelled modulo 1, and the detector has fired exactly once per whole cycle travelled: no wrap is skipped or counted twice |
| Spacing.PhaseByOffset | src/App.jsx:60 | the phase of particle `i` of `n` is the phase of particle 0 shifted by `i / n` and wrapped once if it passes 1 |
| Spacing.FifteenBelowHealthyCutoff | src/App.jsx:57-60 | of 15 phases spaced 1/15 apart, 12 or 13 lie below 0.85 |
| Spacing.FifteenBelowCkdCutoff | src/App.jsx:57-60 | of 15 phases spaced 1/15 apart, 14 or 15 lie below 0.95 |
| Spacing.TenInsideWindow | src/App.jsx:112-118 | of 10 phases spaced 0.1 apart, 3 or 4 lie in (0.4, 0.75) |
| Spacing.FiveInsideWindow | src/App.jsx:264-267 | of 5 phases spaced 0.2 apart, 1 or 2 lie in (0.4, 0.75) |
| Particles.Push | src/App.jsx:105-107 | appending a particle whose index is above every index so far keeps the list in index order and adds exactly that index |
| Particles.BloodPhase | src/App.jsx:60 | the phase `(time + i / count) % 1` of blood particle `i`, in [0, 1) for a non-negative time |
| Particles.BloodCutoff | src/App.jsx:75-101 | defines the phase at which a blood particle leaves the scene: 0.85 for the healthy kidney, 0.95 for the CKD kidney |
| Particles.HealthyBloodPose | src/App.jsx:63-82 | on the healthy path the opacity is positive exactly before phase 0.85, and then lies in (0.3, 0.9] |
| Particles.CkdBloodPose | src/App.jsx:83-102 | on the CKD path the opacity is positive exactly before phase 0.95, and then lies in (0.1, 0.65] |
| Particles.BloodAt | src/App.jsx:60-107 | a blood particle is drawn if and only if its phase is before its kidney's cut-off (0.85 healthy, 0.95 CKD); it carries its index and the kidney's opacity range |
| Particles.BloodFadesOnExit | src/App.jsx:75-79 | on the exit segment a later phase is strictly less opaque: [0.6, 0.85) for the healthy kidney, [0.7, 0.95) for the CKD kidney (lines 95-99) |
| Particles.BloodPeakOpacity | src/App.jsx:69-94 | the swirl reaches opacity 0.9 for the healthy kidney and 0.65 for the CKD kidney, and no CKD blood particle is as opaque as the healthy peak |
| Particles.BloodStaysInScene | src/App.jsx:63-102 | with sine and cosine in [-1, 1], every drawn blood particle stays inside its path's bounding box (healthy x in [50, 205], y in [170, 230]; CKD x in [50, 200], y in [175, 232]) |
| Particles.CountBloodByOffset | src/App.jsx:59-60 | the number of blood particles drawn depends only on the phase of particle 0 |
| Particles.BloodOnScreen | src/App.jsx:57-60 | with the default 15 particles, the healthy kidney draws 12 or 13 and the CKD kidney 14 or 15 at every non-negative time |
| Particles.GetBloodParticles | src/App.jsx:57-110 | particle `i` of `count` is in the list if and only if its phase is before the cut-off; the list is in index order, every element equals `BloodAt` of its index, and the length is the recursive count |
| Particles.FiltratePhase | src/App.jsx:115 | the phase `(time + i / count + 0.35) % 1` of filtrate particle `i`, in [0, 1) for a non-negative time |
| Particles.InWindow | src/App.jsx:118 | defines the open phase window (0.4, 0.75) in which filtrate particles are drawn; protein particles use the same test (line 267) |
| Particles.FiltrateAt | src/App.jsx:115-124 | a filtrate particle is drawn if and only if its phase is in (0.4, 0.75); it stays in x (119, 129) and y (230, 360), with opacity in (0.8, 1) when healthy and (0.3, 0.5) with CKD |
| Particles.FiltrateFades | src/App.jsx:118-122 | inside the window a later phase puts a filtrate particle further down and to the right and makes it strictly less opaque, for both kidneys |
| Particles.FiltrateCkdDimmer | src/App.jsx:119-122 | at the same phase both kidneys place a filtrate particle at the same point, the CKD one exactly 0.5 less opaque |
| Particles.CountFiltrateByOffset | src/App.jsx:114-115 | the number of filtrate particles drawn depends only on the phase of particle 0 |
| Particles.FiltrateOnScreen | src/App.jsx:112-118 | with the default 10 particles, 3 or 4 are drawn at every non-negative time |
| Particles.GetFiltrateParticles | src/App.jsx:112-127 | particle `i` of `count` is in the list if and only if its phase is in the window; the list is in index order, every element equals `FiltrateAt` of its index, lies in the channel box, and the length is the recursive count |
| Particles.ProteinPhase | src/App.jsx:266 | the phase `(time + i * 0.2 + 0.45) % 1` of protein particle `i`, in [0, 1) for a non-negative time |
| Particles.ProteinAt | src/App.jsx:266-274 | a protein particle is drawn if and only if its phase is in (0.4, 0.75); it stays in x (120, 122) and y (230, 305), with opacity in (0.8, 1) |
| Particles.ProteinFades | src/App.jsx:267-272 | inside the window a later phase puts a protein particle further down and to the right and makes it strictly less opaque |
| Particles.CountProteinsByOffset | src/App.jsx:265-266 | the number of protein particles drawn depends only on the phase of particle 0 |
| Particles.ProteinsOnScreen | src/App.jsx:264-267 | of the five protein particles, one or two are drawn at every non-negative time |
| Particles.ProteinParticles | src/App.jsx:264-276 | protein particle `i < 5` is in the list if and only if its phase is in the window; the list is in index order, every element equals `ProteinAt` of its index, and the length is the recursive count |
| Filtration.BaseGfr | src/App.jsx:130 | defines the baselines: 105 for the healthy kidney, 45 for the CKD kidney |
| Filtration.CalculateGfr | src/App.jsx:129-133 | the GFR is never negative, is at least the baseline plus the sine term, is either 0 or exactly that sum, and stays within 5 of the baseline when sine is in [-1, 1] |
| Filtration.GfrRanges | src/App.jsx:129-133 | the healthy GFR lies in [100, 110] and the CKD GFR in [40, 50]; the clamp at 0 never takes effect and the two always differ by exactly 60 |
| Filtration.GfrAtStart | src/App.jsx:129-133 | at time 0 the two kidneys show their baselines, 105 and 45 |
| Filtration.GfrAtQuarter | src/App.jsx:129-133 | a quarter cycle in, where the sine is 1, they show 110 and 50 |
| Filtration.GaugeWidth | src/App.jsx:136-151 | the bar never exceeds 100 %; it is exactly 100 % if and only if the value reaches the maximum; below that it is proportional to the value; it is never negative for a non-negative value |
| Filtration.GaugesOfGfr | src/App.jsx:459-477 | on the 120 scale neither gauge is ever full, the CKD bar is never empty, and the healthy bar is always more than twice as long as the CKD bar |
| Demo.KidneyFiltrationDemo.constructor | src/App.jsx:5-10 | the initial state: paused at time 0, both kidneys shown, details shown, speed 1, no drops |
| Demo.KidneyFiltrationDemo.Tick | src/App.jsx:15-26 | the new time is the old time advanced by one step modulo 1; both counters grow by 10 and 6 exactly when the step crosses 1; nothing else changes, and the invariant is kept |
| Demo.KidneyFiltrationDemo.Reset | src/App.jsx:51-55 | time 0, paused, no drops; the view, details and speed are kept |
| Demo.KidneyFiltrationDemo.TogglePlay | src/App.jsx:527-531 | flips playing and changes nothing else |
| Demo.KidneyFiltrationDemo.ToggleInfo | src/App.jsx:539-543 | flips the details panel and changes nothing else |
| Demo.KidneyFiltrationDemo.SelectView | src/App.jsx:417-437 | sets the view and changes nothing else |
| Demo.KidneyFiltrationDemo.SetSpeed | src/App.jsx:561-566 | sets one of the slider's speeds and changes nothing else |
| Demo.KidneyFiltrationDemo.HandleKey | src/App.jsx:34-45 | Space toggles playing, KeyR resets, KeyI toggles the details, and any other key changes nothing; the key's default action is suppressed if and only if it is one of the three |
| Demo.TickFromNinetyNine | src/App.jsx:15-26 | one tick of a playing demo at time 0.99 and speed 1 lands on 0.005 and adds 10 healthy and 6 CKD drops |
| Demo.DropRatio | src/App.jsx:19-23 | in every reachable state the counters stand in the ratio 10 : 6 and are multiples of 10 and 6 |

## Left out

- Rendering: the SVG scenes, gradients, filters, legends, buttons and text are not modelled. The model ends at the particle lists, the GFR values and the gauge widths. The CKD scene multiplies each filtrate particle's opacity by 0.6 when drawing it (src/App.jsx:340); that is a rendering detail and is not modelled.
- Scheduling: `setInterval` every 40 ms, clearing it on pause or on a speed change, and registering and removing the keydown listener are not modelled. `Demo.KidneyFiltrationDemo.Tick` requires `isPlaying`, because the interval exists only while playing.
- Trigonometry: `Math.sin` and `Math.cos` are passed in as `Trig` values. The lemmas assume only their range and `sin(0) = 0` (or `sin(pi/2) = 1` where that is used). Exact coordinates on the curved segments are therefore stated only through bounds.
- Floating point: all arithmetic is on exact reals. IEEE-754 rounding of `0.015 * speed`, of `i / count` and of the accumulated time is not modelled.
- Protein particles: they are produced by a loop inside the CKD kidney's render function rather than by a named generator. `Particles.ProteinParticles` models that loop and its fixed count of 5.
- Keyboard events: `preventDefault` is modelled as the `handled` result of `Demo.KidneyFiltrationDemo.HandleKey`. The keyboard-shortcut hint (src/App.jsx:548-553) is presentation only.
- CKD stages: the code has no stage parameter. The CKD baseline is fixed at 45 (src/App.jsx:130), the amplitude is 5 (131), there are always five protein particles (265), and nothing advances automatically. Nothing stage-dependent is modelled.
- Filtrate phase: both kinds of kidney use the same +0.35 offset (src/App.jsx:115); only the opacity depends on the kind (122).
- Particles.GetBloodParticles: does not repeat the opacity bounds in its own contract. They follow from its element ensures (each element equals `BloodAt` of its index) together with the ensures of `Particles.BloodAt`.
