# Portfolio page core, modelled in Dafny

This project models the logic of a single-page portfolio site: the parts that make decisions, not the parts that draw.

- **Performance tier** (`performance.dfy`, module `Performance`).
  - The WebGL renderer check `detectWebGL`. It classifies a probe as `hardware`, `software` or `none`, using five software-renderer keywords.
  - The first-match decision table of `getPerformanceTier`: reduced motion, core count, memory and the WebGL class give low, medium or high.
  - The module-level `_cachedTier`. It is the class `TierCache`, with the spec function `CachedTier` and the call sequence `Calls`.
  - The two constant tables `STAR_DENSITY` and `TARGET_FPS`.
- **Star field** (`starry_background.dfy`, module `StarryBackground`).
  - The `Star` class of the background canvas: its constructor, `update` and `reset`.
  - `initStars`, one `animate` frame and `handleResize`, over a `StarField` of `Star` objects sharing one `Canvas`.
  - Every method is proved against a pure function on the value type `StarState`: `NewStar`, `ResetStar`, `StepStar` and `FrameStates`.
  - The validity invariant `StarValid` is proved preserved by every operation. It covers:
    - opacity in [0, 1];
    - brightness in [0.05, 1.05);
    - the drawn ranges;
    - the position margins.
- **Section tracker** (`page.dfy`, module `Page`).
  - The `PHASES` table and the initial `activePhase = 1`.
  - The IntersectionObserver callback, as the class `Home` with `activePhase` and the logged `section_view` events.
  - The pure folds `BatchActive` and `BatchLog` specify it.
  - Element ids are parsed the way `parseInt(id.replace('phase-', ''), 10)` does. That parsing lives in module `Strings`, which holds `indexOf`, `includes`, first-occurrence `replace` and decimal `parseInt`.
- **One-shot auto-scroll** (`scroll_manager.dfy`, module `ScrollManager`).
  - The class `ScrollManager` has the flags `hasScrolled` and `isScrolling` (the `isScrollingRef` ref).
  - `HandleScroll` returns the `scrollTo('#phase-2', {duration: 0.4, lock: true})` request it makes, if any. `Complete` is the request's `onComplete` callback.
  - Both are specified by the pure `OnScroll` / `OnComplete`, and `Run` folds them over any event sequence.
- **Viewport scaling** (`scale_wrapper.dfy`, module `ScaleWrapper`).
  - The scale rule of `ScaleWrapper`: `width / 1440` strictly between 768 and 1440 px, else 1.
  - The choice between rendering the children bare and wrapping them in a scaled 1440 px box.

Modelling choices:
- `Math.random()` draws are explicit parameters in [0, 1), grouped per call as `StarDraws` (the constructor's nine) and `ResetDraws` (`reset`'s seven).
- `Math.sin` of the twinkle phase is an explicit parameter in [-1, 1].
- The canvas width and height are natural numbers.
- `Math.random() * canvas.width` is written `Scaled(r, width)`, repeated addition, which `ScaledIsProduct` proves equal to the product.
- JavaScript numbers are exact reals. With exact reals the fade-in steps of 0.008 land exactly on 1 after 125 frames. The invariant tracks this through `OnFadeInGrid`.
- Browser probes are inputs. These are the canvas/WebGL context, the debug renderer extension, `navigator.hardwareConcurrency`, `navigator.deviceMemory`, `matchMedia` and `typeof window`. They are the datatype `Env` and `GLProbe`.
- `Star.update` and `Star.reset` are written as short step methods (`TwinkleStep`, `FadeInStep`, `MoveStep`, `FadeOutStep`, `PlaceStep`). Each proves one stage of `StepStar`. Together they run the statements of the source in the source's order.

Behaviour of the code worth knowing, which the model follows:
- The header comment of `src/lib/performance.ts` (line 11) asks for 8+ cores for the high tier. The code's `cores <= 6` test gives high from 7 cores (`Performance.HighExactly`).
- Star brightness is only floored at 0.05, never capped, so a bright star reaches up to 1.05 (`StarryBackground.BrightnessCanExceedOne`, `StarryBackground.StepPreservesValid`).
- The section tracker stores any id that parses, whether or not it is a table phase (`Page.UnknownPhaseBecomesActive`). Only for the elements of the seven table phases does the active phase stay in 1..7 (`Page.ObservedBatch`).
- `initStars` divides the canvas area by the fixed 15000 (`StarryBackground.StarCount`) and never reads `STAR_DENSITY`.

## Model

| member | source | states |
|---|---|---|
| Strings.IndexOfIsLeftmost | src/app/page.tsx:51 | the search finds the leftmost occurrence of the pattern, and finds none exactly when the pattern does not occur |
| Strings.IndexOf | src/lib/performance.ts:47 | `indexOf`; an occurrence it reports fits in the string, and `IndexOfIsLeftmost` proves it the leftmost one, and none exactly when there is none |
| Strings.Includes | src/lib/performance.ts:47 | `includes`; specified by `IncludesIffOccurs` |
| Strings.IncludesIffOccurs | src/lib/performance.ts:47 | `includes` holds exactly when the pattern occurs somewhere in the string |
| Strings.ReplacePrefix | src/app/page.tsx:51 | replacing the first `pat` by nothing in `pat + rest` leaves exactly `rest` |
| Strings.ReplaceFirst | src/app/page.tsx:51 | first-occurrence `replace` with a replacement without `$` patterns; it removes the occurrence `IndexOf` finds, and `ReplacePrefix` proves that a leading pattern is stripped |
| Strings.NatToStringRoundTrip | src/app/page.tsx:75 | the decimal numeral written for `phase-${id}` reads back to `id` |
| Strings.LeadingDigitsIsLongest | src/app/page.tsx:51 | the digits `parseInt` reads are a prefix of the string that the next character does not extend |
| Strings.LeadingDigitsOf | src/app/page.tsx:51 | digits followed by the end or a non-digit are exactly the digits `parseInt` reads |
| Strings.ParseInt | src/app/page.tsx:51 | `parseInt(s, 10)` on an optional sign and leading digits; specified by `ParseIntNumeral`, `ParseIntNaN` and the `LeadingDigits` lemmas |
| Strings.ParseIntNumeral | src/app/page.tsx:51 | a numeral followed by a non-digit parses to the numeral's value |
| Strings.ParseIntNaN | src/app/page.tsx:51-52 | a string starting with neither a sign nor a digit parses to `NaN` |
| Performance.ToLower | src/lib/performance.ts:36 | lower-casing keeps the length and maps every character by the ASCII letter rule |
| Performance.AnyIncluded | src/lib/performance.ts:47 | `some(kw => info.includes(kw))` holds exactly when some keyword occurs in the text |
| Performance.RendererText | src/lib/performance.ts:36 | `` `${renderer} ${vendor}`.toLowerCase() ``; specified through `ToLower`'s ensures and `ToLowerConcat` |
| Performance.DetectWebGL | src/lib/performance.ts:25-56 | `none` exactly when probing threw or no context was created; `software` exactly when the debug info exists and a software keyword occurs in the lower-cased `renderer vendor` text; `hardware` otherwise |
| Performance.HardwareWithoutDebugInfo | src/lib/performance.ts:32-52 | a context without the debug renderer extension counts as hardware |
| Performance.HardwareWhenNoKeyword | src/lib/performance.ts:47-52 | renderer text containing none of the keywords counts as hardware |
| Performance.ToLowerConcat | src/lib/performance.ts:36 | lower-casing `${renderer} ${vendor}` lower-cases each part separately |
| Performance.SwiftShaderIsSoftware | src/lib/performance.ts:36-48 | a renderer that lower-cases to `google swiftshader` is classified software, with any vendor string |
| Performance.ChooseTier | src/lib/performance.ts:71-77 | low exactly when WebGL is not hardware, reduced motion is asked for, cores <= 2 or memory <= 1 |
| Performance.ChooseTierIsWeakestSignal | src/lib/performance.ts:71-77 | the first-match table equals the minimum of the tiers each signal allows on its own |
| Performance.TierMonotone | src/lib/performance.ts:71-77 | more cores and more memory never give a lower tier |
| Performance.HighExactly | src/lib/performance.ts:71-77 | high exactly with hardware WebGL, no reduced motion, at least 7 cores and more than 3 GB |
| Performance.CoresOf | src/lib/performance.ts:64 | `navigator.hardwareConcurrency ?? 4`; specified by `UnknownSignalsGiveMedium` |
| Performance.MemoryOf | src/lib/performance.ts:65 | `deviceMemory ?? 4`; specified by `UnknownSignalsGiveMedium` |
| Performance.UnknownSignalsGiveMedium | src/lib/performance.ts:64-73 | missing core count and memory default to 4 each, which gives medium with hardware WebGL |
| Performance.LowTierScenario | src/lib/performance.ts:64-77 | 2 cores, 1 GB and a software renderer give low |
| Performance.CachedTier | src/lib/performance.ts:58-82 | a cached tier is returned without probing; during server rendering `high` is returned and nothing is cached; otherwise the environment is probed and `ProbeTier(env)` is returned and cached |
| Performance.ProbeTier | src/lib/performance.ts:64-77 | the tier of a browser environment, with the `?? 4` defaults; specified by `UnknownSignalsGiveMedium`, `LowTierScenario` and, through `ChooseTier`, by `ChooseTierIsWeakestSignal`, `TierMonotone` and `HighExactly` |
| Performance.Calls | src/lib/performance.ts:58-82 | successive calls return one tier per call |
| Performance.CacheIsFinal | src/lib/performance.ts:59 | once a tier is cached every later call returns it and the cache keeps it |
| Performance.FirstBrowserCallDecides | src/lib/performance.ts:58-82 | from an empty cache, server-render calls return high, and the first browser call's tier is returned by it and every later call and stays cached |
| Performance.TierCache.constructor | src/lib/performance.ts:16 | the cache starts empty |
| Performance.TierCache.GetPerformanceTier | src/lib/performance.ts:58-82 | the tier returned and the new cache are those of `CachedTier`, and the environment is probed only on a browser call with an empty cache |
| Performance.TablesTotalAndOrdered | src/lib/performance.ts:85-96 | both tables are defined for all three tiers; a higher tier has a smaller area per star and a higher frame rate |
| Page.PhaseTableWellFormed | src/app/page.tsx:23-35 | seven phases numbered 1 to 7 in order, with increasing ids, and the initial active phase is one of them |
| Page.Find | src/app/page.tsx:55 | `PHASES.find(p => p.id === id)`; specified by `FindIsFirstMatch` and `FindInTable` |
| Page.FindIsFirstMatch | src/app/page.tsx:55 | `find` returns the first phase with the id, and nothing exactly when no phase has it |
| Page.FindInTable | src/app/page.tsx:55 | looking up any table id returns that table entry |
| Page.ElementId | src/app/page.tsx:75 | `phase-${phase.id}`; specified by `ParseElementId` and `NatToStringRoundTrip` |
| Page.ParseId | src/app/page.tsx:51 | `parseInt(id.replace('phase-', ''), 10)`, `None` for `NaN`; specified by `ParseIdNumeral` and `ParseElementId` |
| Page.ParseIdNumeral | src/app/page.tsx:51 | `phase-` followed by a numeral (and then nothing or a non-digit) parses to the numeral's value |
| Page.ParseElementId | src/app/page.tsx:51 | the element id `phase-<id>` of a phase parses back to `id` |
| Page.EntryPhase | src/app/page.tsx:50-52 | the id an entry sets: only an intersecting entry with a numeric id has one; specified by `ObservedEntry` and `IgnoredAndUnknownEntries` |
| Page.StepActive | src/app/page.tsx:50-53 | one entry's effect on `activePhase`; specified by `BatchActiveIsLastNumeric` and `IgnoredAndUnknownEntries` |
| Page.EntryLog | src/app/page.tsx:55-61 | one entry logs at most one event |
| Page.BatchActive | src/app/page.tsx:49-53 | the active phase after a batch, entries in order; specified by `BatchActiveIsLastNumeric`, `BatchSnoc` and `ObservedBatch` |
| Page.BatchLog | src/app/page.tsx:49-61 | the events a batch logs, entries in order; specified by `BatchLogNamesTablePhases`, `BatchSnoc` and `ObservedBatch` |
| Page.BatchActiveIsLastNumeric | src/app/page.tsx:49-53 | after a batch the active phase is the id of its last intersecting entry with a numeric id, and unchanged when there is none |
| Page.BatchLogNamesTablePhases | src/app/page.tsx:55-60 | every logged event carries a table phase's id with that phase's name, and a batch logs at most one event per entry |
| Page.BatchSnoc | src/app/page.tsx:49 | entries are handled strictly in order: one more entry at the end acts on the state the batch left |
| Page.IgnoredAndUnknownEntries | src/app/page.tsx:50-56 | a non-intersecting entry or a `NaN` id changes neither the active phase nor the log; an unknown numeric id becomes active but logs nothing |
| Page.ObservedEntry | src/app/page.tsx:50-60 | an entry for a table phase's element yields its id exactly when it intersects, and then logs one event for that phase under its name |
| Page.ObservedBatch | src/app/page.tsx:49-63 | over entries for table phases only, the active phase stays in 1..7 and the log holds one event per intersecting entry, in order, each for that entry's phase under its name |
| Page.UnknownPhaseBecomesActive | src/app/page.tsx:51-56 | an intersecting `phase-9` becomes the active phase and logs nothing |
| Page.Home.constructor | src/app/page.tsx:35 | the active phase starts at 1 with nothing logged |
| Page.Home.HandleEntry | src/app/page.tsx:50-62 | one entry's handling: the new active phase is `StepActive` of the old, and the log grows by exactly `EntryLog` |
| Page.Home.OnIntersect | src/app/page.tsx:48-64 | handling a batch leaves the active phase at `BatchActive` of the old one and appends exactly `BatchLog` to the log |
| ScrollManager.OnScroll | src/components/ScrollManager.tsx:14-31 | `handleScroll`; specified by `ScrollTrigger` and `IgnoredScroll` |
| ScrollManager.OnComplete | src/components/ScrollManager.tsx:25-27 | completion clears the in-flight flag and sets `hasScrolled` |
| ScrollManager.Step | src/components/ScrollManager.tsx:14-31 | one event issues at most one request |
| ScrollManager.Run | src/components/ScrollManager.tsx:14-31 | the handlers applied to a sequence of events; specified by `Sticky`, `AtMostOnce` and `FiresIffTriggered` |
| ScrollManager.ScrollTrigger | src/components/ScrollManager.tsx:16-22 | a request is issued exactly when no auto-scroll finished or is in flight, the offset is below 50 and the velocity positive; it is the scroll to `#phase-2` and marks the auto-scroll in flight; with no request the flags are unchanged |
| ScrollManager.IgnoredScroll | src/components/ScrollManager.tsx:20 | an event at offset 50 or more, or with velocity <= 0, changes nothing and issues nothing |
| ScrollManager.Sticky | src/components/ScrollManager.tsx:16-27 | once started or finished, no later event issues a request, one of the flags stays set, and `hasScrolled` never reverts |
| ScrollManager.AtMostOnce | src/components/ScrollManager.tsx:8-31 | over any event sequence at most one request is issued, and it is the scroll to `#phase-2` |
| ScrollManager.FiresIffTriggered | src/components/ScrollManager.tsx:14-31 | from the initial flags the auto-scroll is requested exactly when some event is a trigger and only non-triggering scroll events come before it |
| ScrollManager.ScrollManager.constructor | src/components/ScrollManager.tsx:8-9 | both flags start false |
| ScrollManager.ScrollManager.HandleScroll | src/components/ScrollManager.tsx:14-31 | the new flags and the returned request are those of `OnScroll` |
| ScrollManager.ScrollManager.Complete | src/components/ScrollManager.tsx:25-27 | the new flags are those of `OnComplete` |
| StarryBackground.ScaledIsProduct | src/components/StarryBackground.tsx:34 | the scaled draw equals the draw times the canvas dimension |
| StarryBackground.ScaledDraw | src/components/StarryBackground.tsx:34-35 | a draw scaled to a canvas dimension lies in [0, dimension), or is 0 on an empty dimension |
| StarryBackground.NewStar | src/components/StarryBackground.tsx:33-52 | the constructor on a canvas; specified by `NewStarModes` |
| StarryBackground.Place | src/components/StarryBackground.tsx:81-87 | the two entry bands of `reset`; specified by `ResetBands` |
| StarryBackground.ResetStar | src/components/StarryBackground.tsx:80-95 | `reset`; specified by `ResetBands` and `ResetValid` |
| StarryBackground.Twinkle | src/components/StarryBackground.tsx:55-57 | the twinkle step; specified by `TwinkleBrightness` and `AdvanceFades` |
| StarryBackground.FadeIn | src/components/StarryBackground.tsx:59-62 | the fade-in step; specified by `AdvanceFades` and `AdvanceOpacity` |
| StarryBackground.Move | src/components/StarryBackground.tsx:64-65 | the drift step; specified by `AdvanceFades` |
| StarryBackground.FadeOut | src/components/StarryBackground.tsx:67-73 | the exit-band fade-out; specified by `AdvanceFades` and `AdvanceOpacity` |
| StarryBackground.Advance | src/components/StarryBackground.tsx:55-73 | `update` before its exit test; specified by `AdvanceFades` and `AdvanceOpacity` |
| StarryBackground.Exits | src/components/StarryBackground.tsx:75 | the exit test of `update`; specified by `StepResetsOrStays` |
| StarryBackground.Max | src/components/StarryBackground.tsx:57 | `Math.max`; specified by `TwinkleBrightness` |
| StarryBackground.StepStar | src/components/StarryBackground.tsx:54-78 | the whole of `update`; specified by `StepResetsOrStays` and `StepPreservesValid` |
| StarryBackground.NewStarModes | src/components/StarryBackground.tsx:33-52 | a new star is valid and at full base brightness; in initial mode it is on the canvas, fully opaque and not fading; otherwise it is just below the bottom edge at opacity 0 and fading in |
| StarryBackground.ResetBands | src/components/StarryBackground.tsx:80-95 | `reset` puts the star in the bottom band (x in [0, 0.7w], y in [h, h+50)) or the left band (x in (-50, 0], y in [0.3h, h]), starts a fade-in from 0 with fresh ranges, and keeps the twinkle fields and brightness |
| StarryBackground.ResetValid | src/components/StarryBackground.tsx:75-95 | a reset star is valid whatever its position and opacity when it met the exit test; only the twinkle fields and brightness it keeps need be in range |
| StarryBackground.TwinkleBrightness | src/components/StarryBackground.tsx:55-57 | the twinkled brightness lies in [0.05, 1.05) |
| StarryBackground.AdvanceFades | src/components/StarryBackground.tsx:55-73 | fade-in adds 0.008 while below 1 and clears the flag at 1; fade-out is raised in the exit band (top tenth or right tenth) and never lowered, and takes 0.01 off while raised; the star drifts by its speed and its phase advances by its twinkle speed |
| StarryBackground.StepResetsOrStays | src/components/StarryBackground.tsx:54-78 | after `update` a star was either just reset after meeting the exit test, or is still visible and inside the exit margins; a fade-out ends only by a reset |
| StarryBackground.AdvanceOpacity | src/components/StarryBackground.tsx:59-73 | the fade bookkeeping keeps opacity at most 1 and on the fade-in grid while fading in |
| StarryBackground.StepPreservesValid | src/components/StarryBackground.tsx:54-95 | `update` keeps a star valid: opacity in [0, 1], brightness in [0.05, 1.05), drawn ranges, position margins |
| StarryBackground.BrightnessCanExceedOne | src/components/StarryBackground.tsx:57 | a valid star can be twinkled above brightness 1 |
| StarryBackground.FrameStates | src/components/StarryBackground.tsx:125-128 | a frame neither adds nor drops stars |
| StarryBackground.FrameStatesAt | src/components/StarryBackground.tsx:125-128 | star `j` after a frame is star `j` updated with its own sine value and reset draws |
| StarryBackground.FramePreservesValid | src/components/StarryBackground.tsx:125-128 | a frame keeps every star valid |
| StarryBackground.StarCount | src/components/StarryBackground.tsx:115 | the star count is the floor of canvas area / 15000 |
| StarryBackground.Canvas.constructor | src/components/StarryBackground.tsx:136-137 | the canvas takes the given width and height, as `handleResize` assigns them |
| StarryBackground.Star.constructor | src/components/StarryBackground.tsx:33-52 | the new star's fields are those of `NewStar` |
| StarryBackground.Star.PlaceStep | src/components/StarryBackground.tsx:81-87 | the position drawn by `reset` is that of `Place` |
| StarryBackground.Star.Reset | src/components/StarryBackground.tsx:80-95 | the new fields are those of `ResetStar` |
| StarryBackground.Star.TwinkleStep | src/components/StarryBackground.tsx:55-57 | the twinkle stage of `update` |
| StarryBackground.Star.FadeInStep | src/components/StarryBackground.tsx:59-62 | the fade-in stage of `update` |
| StarryBackground.Star.MoveStep | src/components/StarryBackground.tsx:64-65 | the drift stage of `update` |
| StarryBackground.Star.FadeOutStep | src/components/StarryBackground.tsx:67-73 | the fade-out stage of `update` |
| StarryBackground.Star.Update | src/components/StarryBackground.tsx:54-78 | the new fields are those of `StepStar` of the old ones |
| StarryBackground.StarField.constructor | src/components/StarryBackground.tsx:16 | the field starts with no stars, which is valid |
| StarryBackground.StarField.InitStars | src/components/StarryBackground.tsx:112-119 | the field holds exactly `StarCount` new stars, each in initial mode with its own draws, and is valid |
| StarryBackground.StarField.Animate | src/components/StarryBackground.tsx:121-131 | the same stars, updated in place to `FrameStates` of the old ones, and still valid |
| StarryBackground.StarField.HandleResize | src/components/StarryBackground.tsx:133-139 | the canvas takes the window size and the field is rebuilt for it |
| ScaleWrapper.Scale | src/components/ui/ScaleWrapper.tsx:9-20 | the scale lies in (768/1440, 1] |
| ScaleWrapper.Render | src/components/ui/ScaleWrapper.tsx:29-44 | bare children exactly at scale 1; otherwise a box 1440 px wide with `transform: scale(scale)`, so `1440 * scale` wide on screen, whose height percentage times the scale is 100 |
| ScaleWrapper.InitialIsUnwrapped | src/components/ui/ScaleWrapper.tsx:6 | before any measurement the children are rendered bare |
| ScaleWrapper.InBandFillsWindow | src/components/ui/ScaleWrapper.tsx:15-16 | in the band the scaled design is exactly as wide as the window, and the scale is below 1 |
| ScaleWrapper.OutOfBandIsUnit | src/components/ui/ScaleWrapper.tsx:15-19 | outside the band the scale is exactly 1 |
| ScaleWrapper.WrappedIffInBand | src/components/ui/ScaleWrapper.tsx:15-29 | the wrapper is used exactly when the width is strictly between 768 and 1440 |
| ScaleWrapper.WrapperHeightBounds | src/components/ui/ScaleWrapper.tsx:35 | in the band the compensating height lies strictly between 100 % and 187.5 % |

## Left out

- Drawing is not modelled: `draw`, `fillRect`, the `rgba` strings, the `x | 0` truncation, `requestAnimationFrame`, `cancelAnimationFrame`, and the resize and scroll listener registration and removal.
- `console.log` in `getPerformanceTier` is not modelled (it is output only). The browser probes are foreign calls, so their results are inputs.
- Performance.ToLower: lower-cases the ASCII letters only; JavaScript's `toLowerCase` also maps non-ASCII letters.
- Strings.ParseInt: models an optional sign followed by decimal digits only. It does not model leading whitespace or precision loss on very long numerals. The ids it reads are short numerals.
- Performance.TierCache.GetPerformanceTier: the `probes` counter is a ghost added to state that probing happens only once; the source has no such counter.
- StarryBackground: `Math.random()` and `Math.sin` are parameters. The contracts assume the sine value lies in [-1, 1], but the model does not tie it to the twinkle phase.
- StarryBackground: numbers are exact reals, not doubles, and `Math.PI * 2` is the decimal constant of the double. With exact reals 125 fade-in steps of 0.008 reach exactly 1. In doubles they sum to 1.0000000000000007, so `OpacityValid`'s "opacity <= 1" and "opacity == 1 when not fading" hold only for the exact-real model.
- Page: the 2-second loading timer, the observer's `rootMargin`/`threshold` options and `observe`/`disconnect` calls are not modelled. `logEvent` is the appended log, not the analytics call.
- Page.Home.OnIntersect: `setActivePhase` takes effect immediately. React's batching of state updates within one callback is not modelled, and it does not change the final value.
- ScrollManager: React effect re-subscription on `hasScrolled` changes is not modelled. `setHasScrolled(true)` takes effect at once, as if the handler always saw the current state. The smooth scrolling and input lock of `scrollTo` are not modelled; the request is only emitted.
- ScrollManager.Run: accepts a `Completed` event when no request is in flight, which the source cannot produce, because `onComplete` belongs to the single `scrollTo` call. The safety lemmas hold for these traces too; the "completion before the trigger" case of `FiresIffTriggered` is such a trace.
- ScaleWrapper: the resize listener and the React state holding the scale are not modelled. `Scale` gives the value `handleResize` stores.
- `SplineBackground.tsx`, `SmoothScroll.tsx`, `PhaseIndicator.tsx`, the section components, the layout, metadata and configuration files are not part of this model.
