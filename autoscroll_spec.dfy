/**
 * The AutoScroll plugin (packages/embla-carousel-auto-scroll/src/components/AutoScroll.ts)
 * over values: the per-tick `seek` of the scroll body it installs, and the
 * single-slot borrow of the engine's `scrollBody` by `startScroll` and
 * `clearScroll`.
 */
module AutoScrollSpec {
  import opened Wrappers

  /** `Math.sign` on integers. */
  function Sign(x: int): int {
    if x > 0 then 1 else if x < 0 then -1 else 0
  }

  /** The velocity every `seek` applies, whatever the options say. */
  const Step: int := -2

  /** The closure variables of one override body. */
  datatype Body = Body(velocity: int, direction: int, rawLocation: int, rawLocationPrevious: int)

  /**
   * The engine primitives the body reads and writes: `location`, `target`,
   * `index`, `indexPrevious`, and how many 'select' events it has emitted.
   */
  datatype Engine = Engine(location: int, target: int, index: int, indexPrevious: int, selects: nat)

  /**
   * The engine's `scrollTarget.byDistance(0, false).index`: the index of the snap
   * nearest to a location. It is the host's; the model takes it as given.
   */
  type IndexLookup = int -> int

  /** A body and the engine it drives. */
  datatype Tick = Tick(body: Body, engine: Engine)

  /** `autoScrollBehaviour(engine)`: a fresh body starts from the engine's location, with the previous raw location at 0. */
  function NewBody(location: int): Body {
    Body(0, 0, location, 0)
  }

  /** `seek`: move both locations by the step, aim the target there, and announce a change of nearest snap. */
  function Seek(t: Tick, nearest: IndexLookup): Tick {
    var velocity := Step;
    var raw := t.body.rawLocation + velocity;
    var location := t.engine.location + velocity;
    var direction := Sign(raw - t.body.rawLocationPrevious);
    var moved := t.engine.(location := location, target := location);
    var current := nearest(location);
    var e := if t.engine.index != current
             then moved.(indexPrevious := t.engine.index, index := current, selects := t.engine.selects + 1)
             else moved;
    Tick(Body(velocity, direction, raw, raw), e)
  }

  /** `direction()`. */
  function Direction(b: Body): int {
    b.direction
  }

  /** `velocity()`. */
  function Velocity(b: Body): int {
    b.velocity
  }

  /** `duration()`: the override reports no settle duration. */
  function Duration(b: Body): (d: int)
    ensures d < 0
  {
    -1
  }

  /** `settled()`: the override never settles. */
  function Settled(b: Body): (settled: bool)
    ensures !settled
  {
    false
  }

  // ----- The engine's scroll-body slot -----

  /**
   * The engine's `scrollBody` slot, the plugin's `defaultScrollBehaviour` (None
   * until the first `startScroll`), and whether the animation loop runs.
   */
  datatype Slot<B> = Slot(installed: B, saved: Option<B>, animating: bool)

  /** `startScroll`: save what is installed, install the override, start the loop. */
  function StartScroll<B>(s: Slot<B>, override: B): Slot<B> {
    Slot(override, Some(s.installed), true)
  }

  /**
   * `clearScroll`: stop the loop, install the saved body, start the loop again.
   * It is only registered once `startScroll` has saved a body.
   */
  function ClearScroll<B>(s: Slot<B>): Slot<B>
    requires s.saved.Some?
  {
    Slot(s.saved.value, s.saved, true)
  }
}
