/**
 * The AutoScroll plugin as the source writes it: `autoScrollBehaviour` builds a
 * scroll body whose closure variables `seek` updates on every tick, and the
 * plugin's `startScroll` / `clearScroll` swap it into and out of the engine's
 * `scrollBody` slot. Each method is proved to perform the transition of the same
 * name in AutoScrollSpec, whose properties are proved in AutoScrollProperties.
 */
module AutoScroll {
  import opened Wrappers
  import opened AutoScrollOptions
  import S = AutoScrollSpec

  /** What can sit in the engine's `scrollBody` slot: the engine's own body, or an override. */
  datatype ScrollBody = EngineScrollBody(id: nat) | AutoScrollBody(body: ScrollOverride)

  /**
   * The engine primitives the plugin touches: location, target, index and
   * previous index, the scroll-body slot, the animation loop, the 'select'
   * events emitted, and the 'pointerDown' listeners that clear the scroll.
   */
  class Engine {
    var location: int
    var target: int
    var index: int
    var indexPrevious: int
    var selects: nat
    var scrollBody: ScrollBody
    var animating: bool
    var clearScrollListeners: nat
    const nearest: S.IndexLookup

    ghost function Snapshot(): S.Engine
      reads this
    {
      S.Engine(location, target, index, indexPrevious, selects)
    }

    constructor (location: int, index: int, body: ScrollBody, nearest: S.IndexLookup)
      ensures Snapshot() == S.Engine(location, location, index, index, 0)
      ensures scrollBody == body && !animating && clearScrollListeners == 0 && this.nearest == nearest
    {
      this.location, target := location, location;
      this.index, indexPrevious := index, index;
      selects := 0;
      scrollBody := body;
      animating := false;
      clearScrollListeners := 0;
      this.nearest := nearest;
    }
  }

  /** The object `autoScrollBehaviour(engine)` returns, with its closure variables. */
  class ScrollOverride {
    var bodyVelocity: int
    var scrollDirection: int
    var rawLocation: int
    var rawLocationPrevious: int
    const engine: Engine

    ghost function State(): S.Body
      reads this
    {
      S.Body(bodyVelocity, scrollDirection, rawLocation, rawLocationPrevious)
    }

    /** `autoScrollBehaviour(engine)`. */
    constructor (engine: Engine)
      ensures this.engine == engine
      ensures State() == S.NewBody(engine.location)
    {
      this.engine := engine;
      bodyVelocity := 0;
      scrollDirection := 0;
      rawLocation := engine.location;
      rawLocationPrevious := 0;
    }

    /** `seek`. */
    method Seek() returns (self: ScrollOverride)
      modifies this, engine`location, engine`target, engine`index, engine`indexPrevious, engine`selects
      ensures self == this
      ensures S.Tick(State(), engine.Snapshot()) == S.Seek(old(S.Tick(State(), engine.Snapshot())), engine.nearest)
    {
      var directionDiff := 0;
      bodyVelocity := S.Step;
      rawLocation := rawLocation + bodyVelocity;
      engine.location := engine.location + bodyVelocity;
      engine.target := engine.location;
      directionDiff := rawLocation - rawLocationPrevious;
      scrollDirection := S.Sign(directionDiff);
      rawLocationPrevious := rawLocation;
      var currentIndex := engine.nearest(engine.location);
      if engine.index != currentIndex {
        engine.indexPrevious := engine.index;
        engine.index := currentIndex;
        engine.selects := engine.selects + 1;
      }
      self := this;
    }

    /** `direction()`. */
    method Direction() returns (d: int)
      ensures d == S.Direction(State())
    {
      d := scrollDirection;
    }

    /** `velocity()`. */
    method Velocity() returns (v: int)
      ensures v == S.Velocity(State())
    {
      v := bodyVelocity;
    }

    /** `duration()`. */
    method Duration() returns (d: int)
      ensures d == S.Duration(State()) && d == -1
    {
      d := -1;
    }

    /** `settled()`. */
    method Settled() returns (settled: bool)
      ensures settled == S.Settled(State()) && !settled
    {
      settled := false;
    }

    /** `useBaseFriction()`: returns the body and changes nothing. */
    method UseBaseFriction() returns (self: ScrollOverride)
      ensures self == this
    {
      self := this;
    }

    /** `useBaseDuration()`: returns the body and changes nothing. */
    method UseBaseDuration() returns (self: ScrollOverride)
      ensures self == this
    {
      self := this;
    }

    /** `useFriction(friction)`: the friction is ignored; returns the body and changes nothing. */
    method UseFriction(friction: real) returns (self: ScrollOverride)
      ensures self == this
    {
      self := this;
    }

    /** `useDuration(duration)`: the duration is ignored; returns the body and changes nothing. */
    method UseDuration(duration: real) returns (self: ScrollOverride)
      ensures self == this
    {
      self := this;
    }
  }

  /** One plugin instance: the closure variables of `AutoScroll(userOptions)`. */
  class AutoScrollPlugin {
    var options: Option<Options>
    var defaultScrollBehaviour: Option<ScrollBody>
    const engine: Engine

    /** The engine's slot together with the body the plugin saved from it. */
    ghost function Slot(): S.Slot<ScrollBody>
      reads this, engine
    {
      S.Slot(engine.scrollBody, defaultScrollBehaviour, engine.animating)
    }

    constructor (engine: Engine)
      ensures this.engine == engine && options == None && defaultScrollBehaviour == None
    {
      this.engine := engine;
      options := None;
      defaultScrollBehaviour := None;
    }

    /**
     * `init`, with the resolved options and the snap count: on a carousel with
     * at most one snap nothing happens; otherwise the override is installed and
     * 'pointerDown' is wired to `clearScroll`.
     */
    method Init(snapCount: nat, o: Options)
      modifies this, engine`scrollBody, engine`animating, engine`clearScrollListeners
      ensures snapCount <= 1 ==> unchanged(this) && unchanged(engine)
      ensures snapCount > 1 ==>
        && options == Some(o)
        && engine.scrollBody.AutoScrollBody? && fresh(engine.scrollBody.body)
        && engine.scrollBody.body.engine == engine
        && engine.scrollBody.body.State() == S.NewBody(engine.location)
        && Slot() == S.StartScroll(old(Slot()), engine.scrollBody)
        && engine.clearScrollListeners == old(engine.clearScrollListeners) + 1
    {
      if snapCount <= 1 {
        return;
      }
      options := Some(o);
      StartScroll();
      engine.clearScrollListeners := engine.clearScrollListeners + 1;
    }

    /** `destroy` does nothing: the override stays installed. */
    method Destroy()
      ensures unchanged(this) && unchanged(engine)
    {
    }

    /** `startScroll`. */
    method StartScroll()
      modifies this`defaultScrollBehaviour, engine`scrollBody, engine`animating
      ensures engine.scrollBody.AutoScrollBody? && fresh(engine.scrollBody.body)
      ensures engine.scrollBody.body.engine == engine
      ensures engine.scrollBody.body.State() == S.NewBody(engine.location)
      ensures Slot() == S.StartScroll(old(Slot()), engine.scrollBody)
    {
      defaultScrollBehaviour := Some(engine.scrollBody);
      var body := new ScrollOverride(engine);
      engine.scrollBody := AutoScrollBody(body);
      engine.animating := true;
    }

    /** `clearScroll`; it is only wired after `startScroll` has saved a body. */
    method ClearScroll()
      requires defaultScrollBehaviour.Some?
      modifies engine`scrollBody, engine`animating
      ensures Slot() == S.ClearScroll(old(Slot()))
    {
      engine.animating := false;
      engine.scrollBody := defaultScrollBehaviour.value;
      engine.animating := true;
    }
  }
}
