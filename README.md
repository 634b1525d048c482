# Embla Carousel autoplay and auto-scroll plugins, in Dafny

This project models the two "hands-off" plugins of Embla Carousel and proves what
they promise.

- **Autoplay** (`Autoplay.ts`) advances the carousel on an interval. It is a closure
  over the flags `active`, `playing`, `wasPlaying` and `jump` and the handles `timer`
  and `animationFrame`.
  - `startTimer` and `stopTimer` are guarded transitions. They emit `autoplay:play` and
    `autoplay:stop` only on an edge.
  - `init` wires them to host events, DOM events and page visibility, according to the
    options.
  - `next` asks the carousel to move on, or back to the first snap.
- **AutoScroll** (`AutoScroll.ts`) replaces the engine's scroll body with an override.
  - On every tick, the override's `seek` moves the location by a fixed step of -2.
  - It announces each change of nearest snap with a `select` event.
  - `startScroll` and `clearScroll` borrow the engine's single `scrollBody` slot and
    give it back.
- **Options** (`Options.ts`) is the AutoScroll options record and its defaults.

Each imperative source file is modelled twice.
- A pure state machine over datatypes: `AutoplaySpec`, `AutoScrollSpec`.
- Classes whose methods follow the source statement by statement: `Autoplay`,
  `AutoScroll`. The host (window timers, listener registry, event bus, document
  visibility, engine primitives) is a separate class.

Every method of `Autoplay.AutoplayPlugin` is proved to perform exactly the pure
transition of the same name in `AutoplaySpec`; `IsPlaying` returns `playing`. In
`AutoScroll` this holds for `ScrollOverride.Seek`, `Direction`, `Velocity`,
`Duration` and `Settled`, and for `AutoScrollPlugin.StartScroll` and `ClearScroll`.
`AutoScrollPlugin.Init` is stated through `AutoScrollSpec.StartScroll`. The `destroy`
and `use*` methods are stated directly: they change nothing.

The properties are proved about the pure transitions, one transition at a time. They
are also proved about whole runs, which are sequences of calls and host events
(`AutoplayProperties`, `AutoScrollProperties`).

Modules: `Wrappers` and `Dom` (common.dfy), `AutoScrollOptions`, `AutoplaySpec`,
`Autoplay`, `AutoplayProperties`, `AutoScrollSpec`, `AutoScroll`, `AutoScrollProperties`.

Behaviour of the code worth knowing:
- Autoplay has no start delay and no pending state. `startTimer` schedules the interval
  at once. Autoplay never touches the scroll body.
- AutoScroll ignores its `speed` and `direction` options. The step is fixed at -2. It
  emits no play or stop events and does not react to visibility. Its `destroy` does
  nothing, so the override stays installed.
- Autoplay's `destroy` does not clear its interval (see Findings). AutoScroll's
  `destroy` does not restore the saved body.
- Autoplay's `destroy` throws a TypeError if `init` never resolved the options, which
  happens when the carousel has a single snap (see Findings).
- The first tick of an AutoScroll body measures its direction from 0, not from its
  starting location.

## Model

| member | source | states |
|---|---|---|
| AutoScrollOptions.ParseDirection | packages/embla-carousel-auto-scroll/src/components/Options.ts:4 | a direction is exactly one of the literals 'forward' and 'backward' |
| AutoScrollOptions.DirectionRoundTrip | packages/embla-carousel-auto-scroll/src/components/Options.ts:4 | every direction is written as one of the two literals, and reads back as itself |
| AutoScrollOptions.DefaultValues | packages/embla-carousel-auto-scroll/src/components/Options.ts:14-25 | defaults: forward, speed 1, delay 1000, active, no breakpoints, play on init, stop on focus in and on interaction, not on mouse enter, no root resolver |
| AutoplaySpec.ResolveRoot | packages/embla-carousel-autoplay/src/components/Autoplay.ts:57-58 | the listener root is the resolver's element when it returns one, and the carousel root otherwise (also when there is no resolver) |
| AutoplaySpec.Wiring | packages/embla-carousel-autoplay/src/components/Autoplay.ts:60-83 | pointer-down always stops; pointer-up resumes iff not stop-on-interaction; mouse enter/leave and focus in/out are wired on the root only when their option is set, and their resume handler also needs not stop-on-interaction; visibility is always wired; init and reInit start iff play-on-init; nothing else is registered |
| Autoplay.AutoplayPlugin.constructor | packages/embla-carousel-autoplay/src/components/Autoplay.ts:31-39 | a new instance is inactive, stopped, without options, with both handles 0 |
| Autoplay.AutoplayPlugin.Init | packages/embla-carousel-autoplay/src/components/Autoplay.ts:41-84 | performs `AutoplaySpec.Init`: nothing with at most one snap; otherwise resolve options, take `jump`, activate, register the wiring |
| Autoplay.AutoplayPlugin.Wire | packages/embla-carousel-autoplay/src/components/Autoplay.ts:56-83 | the registrations `init` makes are exactly `AutoplaySpec.Wiring` |
| Autoplay.AutoplayPlugin.WireRoot | packages/embla-carousel-autoplay/src/components/Autoplay.ts:63-77 | the registrations on the root element are the mouse and focus parts of the wiring |
| Autoplay.AutoplayPlugin.Destroy | packages/embla-carousel-autoplay/src/components/Autoplay.ts:86-95 | performs `AutoplaySpec.Destroy`, the teardown as written, and reports the TypeError when the options were never resolved |
| Autoplay.AutoplayPlugin.StartTimer | packages/embla-carousel-autoplay/src/components/Autoplay.ts:97-106 | performs `AutoplaySpec.StartTimer` and keeps the one-interval invariant |
| Autoplay.AutoplayPlugin.StopTimer | packages/embla-carousel-autoplay/src/components/Autoplay.ts:108-117 | performs `AutoplaySpec.StopTimer` and keeps the one-interval invariant |
| Autoplay.AutoplayPlugin.VisibilityChange | packages/embla-carousel-autoplay/src/components/Autoplay.ts:119-128 | performs `AutoplaySpec.VisibilityChange`, reading the document's visibility state from the host |
| Autoplay.AutoplayPlugin.Next | packages/embla-carousel-autoplay/src/components/Autoplay.ts:130-131 | requests one animation frame and records its handle |
| Autoplay.AutoplayPlugin.NextFrame | packages/embla-carousel-autoplay/src/components/Autoplay.ts:131-144 | performs the frame callback `AutoplaySpec.NextFrame` |
| Autoplay.AutoplayPlugin.Play | packages/embla-carousel-autoplay/src/components/Autoplay.ts:147-150 | performs `AutoplaySpec.Play` |
| Autoplay.AutoplayPlugin.Stop | packages/embla-carousel-autoplay/src/components/Autoplay.ts:152-154 | performs `AutoplaySpec.Stop` |
| Autoplay.AutoplayPlugin.Reset | packages/embla-carousel-autoplay/src/components/Autoplay.ts:156-158 | performs `AutoplaySpec.Reset` |
| Autoplay.AutoplayPlugin.IsPlaying | packages/embla-carousel-autoplay/src/components/Autoplay.ts:160-162 | returns whether the plugin plays |
| AutoplayProperties.InitialConsistent | packages/embla-carousel-autoplay/src/components/Autoplay.ts:34-39 | a new instance satisfies the invariant |
| AutoplayProperties.RunConsistent | packages/embla-carousel-autoplay/src/components/Autoplay.ts:97-117 | in every run at most one interval is scheduled, and it is the one `timer` holds; an inactive plugin never plays; a playing one holds a timer |
| AutoplayProperties.StartTimerEdge | packages/embla-carousel-autoplay/src/components/Autoplay.ts:97-106 | when active: play is emitted iff the plugin was not playing; the old interval is cleared and one fresh interval replaces it; afterwards the plugin plays. When inactive: no change at all |
| AutoplayProperties.StopTimerEdge | packages/embla-carousel-autoplay/src/components/Autoplay.ts:108-117 | when active: stop is emitted iff the plugin was playing; timer becomes 0 with no interval left; afterwards the plugin is stopped. When inactive: no change at all |
| AutoplayProperties.StopIdempotent | packages/embla-carousel-autoplay/src/components/Autoplay.ts:152-154 | `stop()` changes nothing when not playing, and stopping twice equals stopping once |
| AutoplayProperties.PlayAndReset | packages/embla-carousel-autoplay/src/components/Autoplay.ts:147-158 | `play(j)` sets jump to j, and `play()` keeps it; `reset()` never changes whether it plays; it does nothing when stopped, and restarts the interval without any event when playing |
| AutoplayProperties.VisibilityRoundTrip | packages/embla-carousel-autoplay/src/components/Autoplay.ts:119-128 | with the visibility listener wired, on a visible page: nothing happens until the visibility state changes; hiding records the playing state, stops, and emits stop iff it was playing; hiding then showing restores the playing state, emitting stop and play iff it was playing |
| AutoplayProperties.NextFrameAdvances | packages/embla-carousel-autoplay/src/components/Autoplay.ts:130-145 | the callback always requests one scroll: scrollNext(jump) if it can scroll on, else scrollTo(0, jump); it stops the timer iff stop-on-last-snap holds and the next index is the last |
| AutoplayProperties.SingleSnapInitIsNoop | packages/embla-carousel-autoplay/src/components/Autoplay.ts:46 | with at most one snap `init` changes nothing |
| AutoplayProperties.InertWhileInactive | packages/embla-carousel-autoplay/src/components/Autoplay.ts:97-117 | until the next `init`, an inactive plugin never plays, emits nothing, keeps its timer and the scheduled intervals, and with no interval requests no frame |
| AutoplayProperties.DestroyIsTerminal | packages/embla-carousel-autoplay/src/components/Autoplay.ts:86-95 | after `destroy` and until the next `init`, the plugin is inactive and stopped and emits nothing; the timer and its interval stay as they were |
| AutoplayProperties.EdgeEmission | packages/embla-carousel-autoplay/src/components/Autoplay.ts:97-117 | in runs without `destroy`, the plugin's events alternate starting with play, and the last one is play iff the plugin plays |
| AutoplayProperties.LastCallDecides | packages/embla-carousel-autoplay/src/components/Autoplay.ts:147-154 | on an active plugin, after any non-empty sequence of play and stop calls, it plays iff the last call was play |
| AutoplayProperties.WiringWithStopOnInteraction | packages/embla-carousel-autoplay/src/components/Autoplay.ts:60-77 | with stop-on-interaction, only init and reInit can resume the plugin |
| AutoplayProperties.PointerDownHaltsAutoAdvance | packages/embla-carousel-autoplay/src/components/Autoplay.ts:60-61 | with no resume wiring except init and reInit, a pointer-down while no frame is pending stops the plugin for good. No later host event other than init and reInit (which play-on-init binds to `startTimer`), no visibility change, tick, stop or reset makes it play, schedule an interval or scroll. Excluded: a hidden page that hid the plugin while it played |
| AutoplayProperties.PointerDownWhileHiddenResumes | packages/embla-carousel-autoplay/src/components/Autoplay.ts:119-128 | the excluded case: hide a playing plugin, send pointer-down, show the page, and it plays again |
| AutoplayProperties.PlayOnInit | packages/embla-carousel-autoplay/src/components/Autoplay.ts:81-82 | with play-on-init, the host's init event after `init` starts the plugin, whatever the other options |
| AutoplayProperties.InitThenPointerDown | packages/embla-carousel-autoplay/src/components/Autoplay.ts:41-84 | init, then the host's init event, then pointer-down, with stop-on-interaction: whatever unattended events follow, the plugin stays stopped and never scrolls |
| AutoplayProperties.DestroyLeavesIntervalRunning | packages/embla-carousel-autoplay/src/components/Autoplay.ts:86-95 | as written, destroying a playing plugin leaves its interval scheduled; when it fires, the carousel is still scrolled; and the event log ends with a play that no stop answers |
| AutoplayProperties.DestroyCorrectedStopsTimer | packages/embla-carousel-autoplay/src/components/Autoplay.ts:86-95 | the corrected teardown clears the interval and emits stop iff it was playing; afterwards no interval is scheduled and no frame is requested, and play and stop still alternate |
| AutoplayProperties.SingleSnapDestroyThrows | packages/embla-carousel-autoplay/src/components/Autoplay.ts:46-91 | as written, `destroy` after `init` on a single-snap carousel throws, because the options it reads were never resolved |
| AutoplayProperties.DestroyGuardedCompletes | packages/embla-carousel-autoplay/src/components/Autoplay.ts:86-95 | with the options read guarded, `destroy` completes in every reachable state: inactive, stopped, API listeners removed, animation frame cancelled, nothing emitted; with resolved options it equals `destroy` as written |
| AutoScrollSpec.Duration | packages/embla-carousel-auto-scroll/src/components/AutoScroll.ts:108 | the override reports a negative duration |
| AutoScrollSpec.Settled | packages/embla-carousel-auto-scroll/src/components/AutoScroll.ts:111 | the override never reports settled |
| AutoScroll.ScrollOverride.constructor | packages/embla-carousel-auto-scroll/src/components/AutoScroll.ts:73-81 | a new body starts at velocity 0 and direction 0, at the engine's location, with previous raw location 0 |
| AutoScroll.ScrollOverride.Seek | packages/embla-carousel-auto-scroll/src/components/AutoScroll.ts:82-104 | performs `AutoScrollSpec.Seek` on the body and the engine, and returns the body itself |
| AutoScroll.ScrollOverride.Direction | packages/embla-carousel-auto-scroll/src/components/AutoScroll.ts:107 | returns the direction of the last tick |
| AutoScroll.ScrollOverride.Velocity | packages/embla-carousel-auto-scroll/src/components/AutoScroll.ts:109 | returns the velocity of the last tick |
| AutoScroll.ScrollOverride.Duration | packages/embla-carousel-auto-scroll/src/components/AutoScroll.ts:108 | returns `AutoScrollSpec.Duration`, which is -1 |
| AutoScroll.ScrollOverride.Settled | packages/embla-carousel-auto-scroll/src/components/AutoScroll.ts:111 | returns `AutoScrollSpec.Settled`, which is false |
| AutoScroll.ScrollOverride.UseBaseFriction | packages/embla-carousel-auto-scroll/src/components/AutoScroll.ts:112 | returns the same body and changes nothing |
| AutoScroll.ScrollOverride.UseBaseDuration | packages/embla-carousel-auto-scroll/src/components/AutoScroll.ts:113 | returns the same body and changes nothing |
| AutoScroll.ScrollOverride.UseFriction | packages/embla-carousel-auto-scroll/src/components/AutoScroll.ts:114 | returns the same body and changes nothing |
| AutoScroll.ScrollOverride.UseDuration | packages/embla-carousel-auto-scroll/src/components/AutoScroll.ts:115 | returns the same body and changes nothing |
| AutoScroll.AutoScrollPlugin.Init | packages/embla-carousel-auto-scroll/src/components/AutoScroll.ts:32-55 | with at most one snap nothing changes; otherwise it keeps the options, installs a fresh override (saving the installed body), and adds one pointer-down listener that clears the scroll |
| AutoScroll.AutoScrollPlugin.Destroy | packages/embla-carousel-auto-scroll/src/components/AutoScroll.ts:57 | changes nothing |
| AutoScroll.AutoScrollPlugin.StartScroll | packages/embla-carousel-auto-scroll/src/components/AutoScroll.ts:59-64 | saves the installed body, installs a fresh override built on this engine, and starts the loop (`AutoScrollSpec.StartScroll`) |
| AutoScroll.AutoScrollPlugin.ClearScroll | packages/embla-carousel-auto-scroll/src/components/AutoScroll.ts:66-71 | installs the saved body and leaves the loop running (`AutoScrollSpec.ClearScroll`) |
| AutoScrollProperties.SeekStep | packages/embla-carousel-auto-scroll/src/components/AutoScroll.ts:82-104 | one tick: both locations fall by 2; target equals location; velocity -2; direction is the sign of the raw move; previous raw location becomes the raw location; the index becomes the nearest one; if the nearest index changed, the old index becomes the previous index (different from the new one) and exactly one select is emitted; otherwise indices and events stay |
| AutoScrollProperties.FirstTickDirection | packages/embla-carousel-auto-scroll/src/components/AutoScroll.ts:79-93 | the first tick's direction is sign(location - 2), so a body starting beyond 2 reports +1 while moving back |
| AutoScrollProperties.SeekTimesMotion | packages/embla-carousel-auto-scroll/src/components/AutoScroll.ts:82-93 | after n >= 1 ticks both locations are 2n lower, target equals location, velocity is -2, index is the nearest one, and direction is -1 from the second tick on |
| AutoScrollProperties.SeekTimesSelects | packages/embla-carousel-auto-scroll/src/components/AutoScroll.ts:95-101 | over n ticks the number of selects equals the number of changes of nearest index along the path |
| AutoScrollProperties.FirstSelectAtNewIndex | packages/embla-carousel-auto-scroll/src/components/AutoScroll.ts:95-101 | no select while the nearest index stays; exactly one on the first tick where it changes, with the old index as previous |
| AutoScrollProperties.ClearRestoresSaved | packages/embla-carousel-auto-scroll/src/components/AutoScroll.ts:59-71 | clearScroll after startScroll reinstalls exactly the body startScroll found, with the loop running |
| AutoScrollProperties.ClearIdempotent | packages/embla-carousel-auto-scroll/src/components/AutoScroll.ts:66-71 | repeating clearScroll leaves the slot unchanged |
| AutoScrollProperties.SecondStartSavesOverride | packages/embla-carousel-auto-scroll/src/components/AutoScroll.ts:59-64 | one slot only: after two startScroll calls, clearScroll restores the first override, not the engine's own body |

## Left out

- Real time. `setInterval`, `clearInterval`, `requestAnimationFrame` and `cancelAnimationFrame` are tables of handles. A new handle is the last one given out plus one. The host firing a callback is an explicit step (`IntervalFired`, `AnimationFrameFired`). The interval `delay` is carried in the options but has no effect.
- DOM and event-bus mechanics. Registrations form a set of (target, event, handler) triples, so a listener registered twice counts once. Delivering an event is the step `AutoplaySpec.Dispatch`. The document's visibility state is part of the host, and the 'visibilitychange' event is delivered only when that state changes.
- Host engine internals are inputs or recorded calls. These are `index.clone().add(1)`, `scrollSnapList().length`, `canScrollNext`, `scrollNext` and `scrollTo` for Autoplay. For AutoScroll they are `scrollTarget.byDistance(0, false).index`, a function of the location that the engine supplies, and `animation.start` / `stop`. Counter clamping and wrapping in `index.set` are not modelled.
- Option merging (`mergeOptions`, `optionsAtMedia`, `globalOptions`) is outside the plugins. Both `init` methods take the resolved options as an input.
- The Autoplay package's own Options file is not part of this model. `AutoplaySpec.AutoplayOptions` declares only the fields `Autoplay.ts` reads, with no defaults.
- The `emblaApi` reference is fixed when an instance is built, instead of being assigned in `init`. A `destroy` before any `init` therefore behaves like one after a single-snap `init`. Both throw before reaching `stopTimer`.
- AutoScroll's debug logging and its 'scroll' and 'settle' logging listeners are left out, as is the unused root-node lookup.
- Locations are integers. The source uses floating point, but it only ever adds -2 to them.
- AutoScroll `clearScroll` requires a saved body. The source registers it only after `startScroll` has saved one.
- AutoplayProperties.NextFrameAdvances: stated for an active plugin. A frame that fires after `destroy` is covered by DestroyLeavesIntervalRunning.

## Findings

| source | as written | input that shows it | evidently intended | confidence | as-written member | corrected member |
|---|---|---|---|---|---|---|
| packages/embla-carousel-autoplay/src/components/Autoplay.ts:46-91 | `init` returns at a single snap before it resolves `options`, and `destroy` then reads `options.stopOnInteraction` | `init` on a carousel with one slide, then `destroy`: a TypeError, so the animation frame is never cancelled | guard the read, as `init` guards everything else | not executed | AutoplayProperties.SingleSnapDestroyThrows | AutoplayProperties.DestroyGuardedCompletes |
| packages/embla-carousel-autoplay/src/components/Autoplay.ts:86-95 | `destroy` sets `active = false` before calling `stopTimer`, so `stopTimer` returns at once: the interval is never cleared and no `autoplay:stop` is emitted | a playing plugin is destroyed, for example on a `reInit` that drops the plugin: the interval stays scheduled, each firing still calls `scrollNext` / `scrollTo`, and the last event is `autoplay:play` | stop the timer while still active, then deactivate | not executed | AutoplayProperties.DestroyLeavesIntervalRunning | AutoplayProperties.DestroyCorrectedStopsTimer |

The corrected teardowns are `AutoplaySpec.DestroyCorrected` (timer stopped while
still active) and `AutoplaySpec.DestroyGuarded` (options read guarded). The throw
is `AutoplaySpec.DestroyThrows`, which `Autoplay.AutoplayPlugin.Destroy` reports as
its `threw` result. The plugin class keeps the teardown as written, so that it
describes the code as it is.
