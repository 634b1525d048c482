/**
 * The Autoplay plugin (packages/embla-carousel-autoplay/src/components/Autoplay.ts)
 * as a state machine over values. One `State` holds the closure variables of one
 * plugin instance together with the part of the host it touches: the intervals
 * and animation frames that run this instance's callbacks, the registered
 * listeners, the emitted plugin events, the scroll requests made of the carousel
 * and the document's visibility. Each closure function becomes a function from
 * state to state.
 */
module AutoplaySpec {
  import opened Wrappers
  import opened Dom

  /** The resolved options Autoplay.ts reads (the plugin's own Options file is not part of this model). */
  datatype AutoplayOptions = AutoplayOptions(
    delay: real,
    jump: bool,
    playOnInit: bool,
    stopOnInteraction: bool,
    stopOnMouseEnter: bool,
    stopOnFocusIn: bool,
    stopOnLastSnap: bool,
    rootNode: Option<RootResolver>)

  /** The plugin's own events, 'autoplay:play' and 'autoplay:stop'. */
  datatype Signal = AutoplayPlay | AutoplayStop

  /** A request to move the carousel: `scrollNext(jump)` or `scrollTo(index, jump)`. */
  datatype ScrollCall = ScrollNext(jump: bool) | ScrollTo(index: int, jump: bool)

  /** The events the plugin listens to. */
  datatype Trigger =
    | OnInit | OnReInit | OnPointerDown | OnPointerUp
    | OnMouseEnter | OnMouseLeave | OnFocusIn | OnFocusOut
    | OnVisibilityChange

  /** Where a listener is registered: the carousel API, the root element, or the owner document. */
  datatype Target = Api | Root(node: NodeId) | OwnerDocument

  /** The closure functions the plugin registers as listeners. */
  datatype Handler = StartTimerHandler | StopTimerHandler | VisibilityChangeHandler

  datatype Binding = Binding(target: Target, trigger: Trigger, handler: Handler)

  /**
   * The host as the plugin sees it. `intervals` and `frames` are the scheduled
   * intervals and animation frames whose callbacks are this instance's `next` and
   * its frame callback. Handles are positive; 0 stands for none. `lastHandle` is
   * the last handle the window gave out. `hidden` is whether the owner document's
   * visibility state is 'hidden'.
   */
  datatype Env = Env(
    intervals: set<nat>,
    frames: set<nat>,
    lastHandle: nat,
    bindings: set<Binding>,
    emitted: seq<Signal>,
    scrolls: seq<ScrollCall>,
    hidden: bool)

  /** The closure variables of one plugin instance, and its host. `options` is None until `init` resolves them. */
  datatype State = State(
    active: bool,
    playing: bool,
    wasPlaying: bool,
    jump: bool,
    animationFrame: nat,
    timer: nat,
    options: Option<AutoplayOptions>,
    env: Env)

  /** A plugin instance as `Autoplay(userOptions)` creates it. */
  function Initial(env: Env): State {
    State(false, false, false, false, 0, 0, None, env)
  }

  // ----- Host primitives -----

  /** The handle the window gives out next. */
  function NextHandle(e: Env): nat {
    e.lastHandle + 1
  }

  function SetInterval(e: Env): Env {
    e.(intervals := e.intervals + {NextHandle(e)}, lastHandle := NextHandle(e))
  }

  function ClearInterval(e: Env, h: nat): Env {
    e.(intervals := e.intervals - {h})
  }

  function RequestAnimationFrame(e: Env): Env {
    e.(frames := e.frames + {NextHandle(e)}, lastHandle := NextHandle(e))
  }

  function CancelAnimationFrame(e: Env, h: nat): Env {
    e.(frames := e.frames - {h})
  }

  function Emit(e: Env, sig: Signal): Env {
    e.(emitted := e.emitted + [sig])
  }

  function RequestScroll(e: Env, call: ScrollCall): Env {
    e.(scrolls := e.scrolls + [call])
  }

  // ----- Trigger wiring -----

  /** The root the DOM listeners go on: the resolver's element if it gives one, else the carousel root. */
  function ResolveRoot(rootNode: Option<RootResolver>, emblaRoot: NodeId): (root: NodeId)
    ensures root == emblaRoot || (rootNode.Some? && rootNode.value(emblaRoot) == Some(root))
    ensures rootNode.Some? && rootNode.value(emblaRoot).Some? ==> root == rootNode.value(emblaRoot).value
    ensures rootNode.None? ==> root == emblaRoot
  {
    match rootNode
    case None => emblaRoot
    case Some(resolve) =>
      match resolve(emblaRoot)
      case Some(node) => node
      case None => emblaRoot
  }

  /** The listener a trigger is wired to, when it is wired at all. */
  function HandlerOf(t: Trigger): Handler {
    match t
    case OnPointerDown | OnMouseEnter | OnFocusIn => StopTimerHandler
    case OnVisibilityChange => VisibilityChangeHandler
    case _ => StartTimerHandler
  }

  /** Where a trigger's listener goes, given the resolved root. */
  function TargetOf(t: Trigger, root: NodeId): Target {
    match t
    case OnMouseEnter | OnMouseLeave | OnFocusIn | OnFocusOut => Root(root)
    case OnVisibilityChange => OwnerDocument
    case _ => Api
  }

  /** The listeners `init` registers for resolved options `o` on a carousel whose root is `emblaRoot`. */
  function Wiring(o: AutoplayOptions, emblaRoot: NodeId): (r: set<Binding>)
    ensures forall b | b in r :: b.handler == HandlerOf(b.trigger) && b.target == TargetOf(b.trigger, ResolveRoot(o.rootNode, emblaRoot))
    ensures Binding(Api, OnPointerDown, StopTimerHandler) in r
    ensures Binding(Api, OnPointerUp, StartTimerHandler) in r <==> !o.stopOnInteraction
    ensures Binding(Root(ResolveRoot(o.rootNode, emblaRoot)), OnMouseEnter, StopTimerHandler) in r <==> o.stopOnMouseEnter
    ensures Binding(Root(ResolveRoot(o.rootNode, emblaRoot)), OnMouseLeave, StartTimerHandler) in r <==> o.stopOnMouseEnter && !o.stopOnInteraction
    ensures Binding(Root(ResolveRoot(o.rootNode, emblaRoot)), OnFocusIn, StopTimerHandler) in r <==> o.stopOnFocusIn
    ensures Binding(Root(ResolveRoot(o.rootNode, emblaRoot)), OnFocusOut, StartTimerHandler) in r <==> o.stopOnFocusIn && !o.stopOnInteraction
    ensures Binding(OwnerDocument, OnVisibilityChange, VisibilityChangeHandler) in r
    ensures Binding(Api, OnInit, StartTimerHandler) in r <==> o.playOnInit
    ensures Binding(Api, OnReInit, StartTimerHandler) in r <==> o.playOnInit
  {
    var root := ResolveRoot(o.rootNode, emblaRoot);
    PointerWiring(o) + MouseWiring(o, root) + FocusWiring(o, root)
    + {Binding(OwnerDocument, OnVisibilityChange, VisibilityChangeHandler)}
    + (if o.playOnInit then {Binding(Api, OnInit, StartTimerHandler), Binding(Api, OnReInit, StartTimerHandler)} else {})
  }

  /** Pointer down always stops; pointer up resumes unless interaction stops for good. */
  function PointerWiring(o: AutoplayOptions): set<Binding> {
    {Binding(Api, OnPointerDown, StopTimerHandler)}
    + (if !o.stopOnInteraction then {Binding(Api, OnPointerUp, StartTimerHandler)} else {})
  }

  /** Mouse enter stops and mouse leave resumes, on the root, when stop on mouse enter is set. */
  function MouseWiring(o: AutoplayOptions, root: NodeId): set<Binding> {
    if o.stopOnMouseEnter then
      {Binding(Root(root), OnMouseEnter, StopTimerHandler)}
      + (if !o.stopOnInteraction then {Binding(Root(root), OnMouseLeave, StartTimerHandler)} else {})
    else {}
  }

  /** Focus in stops and focus out resumes, on the root, when stop on focus in is set. */
  function FocusWiring(o: AutoplayOptions, root: NodeId): set<Binding> {
    if o.stopOnFocusIn then
      {Binding(Root(root), OnFocusIn, StopTimerHandler)}
      + (if !o.stopOnInteraction then {Binding(Root(root), OnFocusOut, StartTimerHandler)} else {})
    else {}
  }

  /** The listeners `destroy` removes from the carousel API whatever the options. */
  const ApiUnwired: set<Binding> :=
    {Binding(Api, OnInit, StartTimerHandler), Binding(Api, OnReInit, StartTimerHandler),
     Binding(Api, OnPointerDown, StopTimerHandler)}

  /** The listeners `destroy` removes from the carousel API (the DOM ones stay with the host's event store). */
  function Unwired(o: AutoplayOptions): set<Binding> {
    ApiUnwired + (if !o.stopOnInteraction then {Binding(Api, OnPointerUp, StartTimerHandler)} else {})
  }

  // ----- The closure functions -----

  /** `init`: a carousel with at most one snap returns before anything else happens. */
  function Init(s: State, snapCount: nat, emblaRoot: NodeId, o: AutoplayOptions): State {
    if snapCount <= 1 then s
    else
      s.(options := Some(o), jump := o.jump, active := true,
         env := s.env.(bindings := s.env.bindings + Wiring(o, emblaRoot)))
  }

  /** `startTimer`: emit play on the rising edge, replace the interval, and mark playing. */
  function StartTimer(s: State): State {
    if !s.active then s
    else
      var e1 := if !s.playing then Emit(s.env, AutoplayPlay) else s.env;
      var e2 := ClearInterval(e1, s.timer);
      var e3 := SetInterval(e2);
      s.(env := e3, timer := NextHandle(e2), playing := true)
  }

  /** `stopTimer`: emit stop on the falling edge, clear the interval, and mark stopped. */
  function StopTimer(s: State): State {
    if !s.active then s
    else
      var e1 := if s.playing then Emit(s.env, AutoplayStop) else s.env;
      s.(env := ClearInterval(e1, s.timer), timer := 0, playing := false)
  }

  /** `destroy` fails before it reaches `stopTimer` when `init` never resolved the options. */
  predicate DestroyThrows(s: State) {
    s.options.None?
  }

  /**
   * `destroy` as written: it clears `active` first, so its own `stopTimer` call
   * returns at once and the interval is neither cleared nor announced.
   * Without resolved options only the first two assignments happen before the
   * property access on undefined throws.
   */
  function Destroy(s: State): State {
    var s1 := s.(active := false, playing := false);
    if s.options.None? then s1
    else
      var s2 := s1.(env := s1.env.(bindings := s1.env.bindings - Unwired(s.options.value)));
      var s3 := StopTimer(s2);
      s3.(env := CancelAnimationFrame(s3.env, s3.animationFrame), animationFrame := 0)
  }

  /**
   * `destroy` with the timer stopped while the plugin is still active, so that the
   * interval is cleared and a playing plugin announces its stop.
   */
  function DestroyCorrected(s: State): State {
    Destroy(StopTimer(s))
  }

  /**
   * `destroy` with its read of `options.stopOnInteraction` guarded, so that it
   * also completes when `init` never resolved the options.
   */
  function DestroyGuarded(s: State): State {
    var s1 := s.(active := false, playing := false);
    var removed := if s.options.Some? then Unwired(s.options.value) else ApiUnwired;
    var s2 := s1.(env := s1.env.(bindings := s1.env.bindings - removed));
    var s3 := StopTimer(s2);
    s3.(env := CancelAnimationFrame(s3.env, s3.animationFrame), animationFrame := 0)
  }

  /** `visibilityChange`: remember and stop when the document is hidden; resume when visible if it was playing. */
  function VisibilityChange(s: State): State {
    if s.env.hidden then StopTimer(s.(wasPlaying := s.playing))
    else if s.wasPlaying then StartTimer(s)
    else s
  }

  /** `next`, run by the interval: it only requests an animation frame. */
  function Next(s: State): State {
    var e := RequestAnimationFrame(s.env);
    s.(env := e, animationFrame := NextHandle(s.env))
  }

  /**
   * The frame callback of `next`, given what the host reports: the index one
   * past the current one, the snap count, and whether it can scroll further.
   * Frames are only requested once `init` has resolved the options.
   */
  function NextFrame(s: State, nextIndex: int, snapCount: nat, canScrollNext: bool): State {
    var kill := s.options.Some? && s.options.value.stopOnLastSnap && nextIndex == snapCount - 1;
    var s1 := if kill then StopTimer(s) else s;
    s1.(env := RequestScroll(s1.env, if canScrollNext then ScrollNext(s1.jump) else ScrollTo(0, s1.jump)))
  }

  /** `play(jumpOverride?)`. */
  function Play(s: State, jumpOverride: Option<bool>): State {
    StartTimer(if jumpOverride.Some? then s.(jump := jumpOverride.value) else s)
  }

  /** `stop()`. */
  function Stop(s: State): State {
    if s.playing then StopTimer(s) else s
  }

  /** `reset()`. */
  function Reset(s: State): State {
    if s.playing then Play(s, None) else s
  }

  // ----- The host driving the plugin -----

  /** The window runs interval `h`'s callback (`next`) only while `h` is scheduled. */
  function IntervalFired(s: State, h: nat): State {
    if h in s.env.intervals then Next(s) else s
  }

  /** The window runs animation frame `h` once, and only if it was not cancelled. */
  function AnimationFrameFired(s: State, h: nat, nextIndex: int, snapCount: nat, canScrollNext: bool): State {
    if h in s.env.frames then
      NextFrame(s.(env := CancelAnimationFrame(s.env, h)), nextIndex, snapCount, canScrollNext)
    else s
  }

  /** Whether some registered listener for trigger `t` is handler `h`. */
  predicate Bound(bindings: set<Binding>, t: Trigger, h: Handler) {
    exists b :: b in bindings && b.trigger == t && b.handler == h
  }

  /** The host delivers trigger `t` (other than visibility) to the plugin's listeners. */
  function Dispatch(s: State, t: Trigger): State {
    if Bound(s.env.bindings, t, StopTimerHandler) then StopTimer(s)
    else if Bound(s.env.bindings, t, StartTimerHandler) then StartTimer(s)
    else s
  }

  /**
   * The document's visibility state becomes `hidden`. The 'visibilitychange'
   * event fires only when the state actually changes.
   */
  function DocumentVisibility(s: State, hidden: bool): State {
    if hidden == s.env.hidden then s
    else
      var s1 := s.(env := s.env.(hidden := hidden));
      if Bound(s1.env.bindings, OnVisibilityChange, VisibilityChangeHandler) then VisibilityChange(s1) else s1
  }

  // ----- Invariant -----

  /**
   * What every reachable state satisfies: at most one interval is scheduled and
   * it is the one `timer` holds, a handle the window has given out; an inactive
   * plugin is not playing; a playing one holds a timer; an active one has
   * resolved options.
   */
  ghost predicate Consistent(s: State) {
    && s.env.intervals == (if s.timer == 0 then {} else {s.timer})
    && s.timer <= s.env.lastHandle
    && (!s.active ==> !s.playing)
    && (s.playing ==> s.timer != 0)
    && (s.active ==> s.options.Some?)
  }
}
