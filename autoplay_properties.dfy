/**
 * What the Autoplay plugin promises, stated over single transitions and over
 * whole runs: sequences of calls and host events applied one after another.
 */
module AutoplayProperties {
  import opened Wrappers
  import opened Dom
  import opened AutoplaySpec

  /** One thing that can happen to a plugin instance. */
  datatype Op =
    | InitOp(snapCount: nat, emblaRoot: NodeId, options: AutoplayOptions)
    | DestroyOp
    | PlayOp(jumpOverride: Option<bool>)
    | StopOp
    | ResetOp
    | HostEvent(trigger: Trigger)
    | VisibilityEvent(hidden: bool)
    | IntervalTick(handle: nat)
    | FrameTick(handle: nat, nextIndex: int, snapCount: nat, canScrollNext: bool)

  function Apply(s: State, op: Op): State {
    match op
    case InitOp(n, root, o) => Init(s, n, root, o)
    case DestroyOp => Destroy(s)
    case PlayOp(j) => Play(s, j)
    case StopOp => Stop(s)
    case ResetOp => Reset(s)
    case HostEvent(t) => Dispatch(s, t)
    case VisibilityEvent(hidden) => DocumentVisibility(s, hidden)
    case IntervalTick(h) => IntervalFired(s, h)
    case FrameTick(h, i, n, c) => AnimationFrameFired(s, h, i, n, c)
  }

  /** The state after the operations `ops`, first to last. */
  function Run(s: State, ops: seq<Op>): State
    decreases |ops|
  {
    if ops == [] then s else Run(Apply(s, ops[0]), ops[1..])
  }

  predicate NoInit(ops: seq<Op>) {
    forall i | 0 <= i < |ops| :: !ops[i].InitOp?
  }

  predicate NoDestroy(ops: seq<Op>) {
    forall i | 0 <= i < |ops| :: !ops[i].DestroyOp?
  }

  // ----- The invariant -----

  lemma StartTimerConsistent(s: State)
    requires Consistent(s)
    ensures Consistent(StartTimer(s))
  {
  }

  lemma StopTimerConsistent(s: State)
    requires Consistent(s)
    ensures Consistent(StopTimer(s))
  {
  }

  lemma InitConsistent(s: State, n: nat, root: NodeId, o: AutoplayOptions)
    requires Consistent(s)
    ensures Consistent(Init(s, n, root, o))
  {
  }

  lemma DestroyConsistent(s: State)
    requires Consistent(s)
    ensures Consistent(Destroy(s))
  {
    StopTimerConsistent(s.(active := false, playing := false));
  }

  lemma DispatchConsistent(s: State, t: Trigger)
    requires Consistent(s)
    ensures Consistent(Dispatch(s, t))
  {
    StartTimerConsistent(s);
    StopTimerConsistent(s);
  }

  lemma VisibilityConsistent(s: State, hidden: bool)
    requires Consistent(s)
    ensures Consistent(DocumentVisibility(s, hidden))
  {
    var s1 := s.(env := s.env.(hidden := hidden));
    StartTimerConsistent(s1);
    StopTimerConsistent(s1.(wasPlaying := s1.playing));
  }

  lemma FrameConsistent(s: State, h: nat, i: int, n: nat, c: bool)
    requires Consistent(s)
    ensures Consistent(AnimationFrameFired(s, h, i, n, c))
  {
    if h in s.env.frames {
      StopTimerConsistent(s.(env := CancelAnimationFrame(s.env, h)));
    }
  }

  lemma ApplyConsistent(s: State, op: Op)
    requires Consistent(s)
    ensures Consistent(Apply(s, op))
  {
    match op
    case InitOp(n, root, o) => InitConsistent(s, n, root, o);
    case DestroyOp => DestroyConsistent(s);
    case PlayOp(j) => StartTimerConsistent(if j.Some? then s.(jump := j.value) else s);
    case StopOp => StopTimerConsistent(s);
    case ResetOp => StartTimerConsistent(s);
    case HostEvent(t) => DispatchConsistent(s, t);
    case VisibilityEvent(hidden) => VisibilityConsistent(s, hidden);
    case IntervalTick(h) =>
    case FrameTick(h, i, n, c) => FrameConsistent(s, h, i, n, c);
  }

  /** Every run keeps the invariant: at most one interval is ever scheduled, and it is `timer`'s. */
  lemma {:induction false} RunConsistent(s: State, ops: seq<Op>)
    requires Consistent(s)
    ensures Consistent(Run(s, ops))
    decreases |ops|
  {
    if ops != [] {
      ApplyConsistent(s, ops[0]);
      RunConsistent(Apply(s, ops[0]), ops[1..]);
    }
  }

  lemma InitialConsistent(env: Env)
    requires env.intervals == {}
    ensures Consistent(Initial(env))
  {
  }

  // ----- startTimer / stopTimer -----

  /** `startTimer` on an active plugin: play is emitted only on the rising edge, the old interval is replaced by a fresh one, and the plugin plays. */
  lemma StartTimerEdge(s: State)
    requires Consistent(s)
    ensures s.active ==> var r := StartTimer(s);
      && r.playing
      && r.env.emitted == s.env.emitted + (if s.playing then [] else [AutoplayPlay])
      && r.timer > s.env.lastHandle
      && r.env.intervals == {r.timer}
      && s.timer !in r.env.intervals
    ensures !s.active ==> StartTimer(s) == s
  {
  }

  /** `stopTimer` on an active plugin: stop is emitted only on the falling edge, no interval stays scheduled, and the plugin is stopped. */
  lemma StopTimerEdge(s: State)
    requires Consistent(s)
    ensures s.active ==> var r := StopTimer(s);
      && !r.playing && r.timer == 0 && r.env.intervals == {}
      && r.env.emitted == s.env.emitted + (if s.playing then [AutoplayStop] else [])
    ensures !s.active ==> StopTimer(s) == s
  {
  }

  /** `stop()` does nothing when not playing, so stopping twice is stopping once. */
  lemma StopIdempotent(s: State)
    requires Consistent(s)
    ensures !s.playing ==> Stop(s) == s
    ensures Stop(Stop(s)) == Stop(s)
    ensures !Stop(s).playing
  {
  }

  /** `play(j)` sets `jump` only when `j` is given; `reset()` restarts the interval only when playing, and never changes whether it plays. */
  lemma PlayAndReset(s: State, j: bool)
    requires Consistent(s)
    ensures Play(s, Some(j)).jump == j
    ensures Play(s, None).jump == s.jump
    ensures s.active ==> Play(s, None).playing
    ensures Reset(s).playing == s.playing
    ensures !s.playing ==> Reset(s) == s
    ensures s.playing ==> Reset(s).env.emitted == s.env.emitted && Reset(s).timer != s.timer
  {
  }

  // ----- Visibility -----

  /**
   * On a visible page, nothing happens until the visibility state changes. Hiding
   * remembers whether it played and stops; showing again resumes exactly when it
   * played before.
   */
  lemma VisibilityRoundTrip(s: State)
    requires Consistent(s) && s.active && !s.env.hidden
    requires Binding(OwnerDocument, OnVisibilityChange, VisibilityChangeHandler) in s.env.bindings
    ensures DocumentVisibility(s, false) == s
    ensures var h := DocumentVisibility(s, true);
      && h.env.hidden && h.wasPlaying == s.playing && !h.playing
      && h.env.emitted == s.env.emitted + (if s.playing then [AutoplayStop] else [])
    ensures var v := DocumentVisibility(DocumentVisibility(s, true), false);
      && !v.env.hidden && v.playing == s.playing
      && v.env.emitted == s.env.emitted + (if s.playing then [AutoplayStop, AutoplayPlay] else [])
  {
    var h := DocumentVisibility(s, true);
    assert Bound(s.env.bindings, OnVisibilityChange, VisibilityChangeHandler);
    assert h.env.bindings == s.env.bindings;
    assert Bound(h.env.bindings, OnVisibilityChange, VisibilityChangeHandler);
  }

  // ----- next -----

  /** The frame callback stops the timer at the last snap when so configured, and advances in every case: on, or back to the start. */
  lemma NextFrameAdvances(s: State, nextIndex: int, snapCount: nat, canScrollNext: bool)
    requires Consistent(s) && s.active
    ensures var r := NextFrame(s, nextIndex, snapCount, canScrollNext);
      && r.env.scrolls == s.env.scrolls + [if canScrollNext then ScrollNext(s.jump) else ScrollTo(0, s.jump)]
      && (s.options.value.stopOnLastSnap && nextIndex == snapCount - 1 ==> !r.playing && r.env.intervals == {})
      && (!(s.options.value.stopOnLastSnap && nextIndex == snapCount - 1) ==> r.playing == s.playing && r.timer == s.timer)
  {
  }

  // ----- Inactive plugins -----

  /** A carousel with at most one snap leaves `init` without effect. */
  lemma SingleSnapInitIsNoop(s: State, snapCount: nat, emblaRoot: NodeId, o: AutoplayOptions)
    requires snapCount <= 1
    ensures Init(s, snapCount, emblaRoot, o) == s
  {
  }

  /** One step of an inactive plugin other than `init` touches neither the timer nor the plugin's events. */
  lemma ApplyInactive(s: State, op: Op)
    requires Consistent(s) && !s.active && !op.InitOp?
    ensures var r := Apply(s, op);
      && !r.active && !r.playing && r.timer == s.timer
      && r.env.intervals == s.env.intervals && r.env.emitted == s.env.emitted
      && (s.env.intervals == {} ==> r.env.frames <= s.env.frames)
  {
  }

  /**
   * Until the next `init`, an inactive plugin (never initialised, initialised on a
   * single-snap carousel, or destroyed) never plays, keeps its timer handle and
   * the window's intervals as they are, and emits nothing. With no interval left
   * scheduled it requests no animation frame either.
   */
  lemma {:induction false} InertWhileInactive(s: State, ops: seq<Op>)
    requires Consistent(s) && !s.active && NoInit(ops)
    ensures var r := Run(s, ops);
      && !r.active && !r.playing && r.timer == s.timer
      && r.env.intervals == s.env.intervals && r.env.emitted == s.env.emitted
      && (s.env.intervals == {} ==> r.env.frames <= s.env.frames)
    decreases |ops|
  {
    if ops != [] {
      ApplyInactive(s, ops[0]);
      ApplyConsistent(s, ops[0]);
      InertWhileInactive(Apply(s, ops[0]), ops[1..]);
    }
  }

  /**
   * `destroy` is terminal until the next `init`: the plugin is inactive and stopped
   * from then on, emits nothing further, and the timer handle it held (with its
   * interval) is left exactly as it was.
   */
  lemma DestroyIsTerminal(s: State, ops: seq<Op>)
    requires Consistent(s) && NoInit(ops)
    ensures var r := Run(Destroy(s), ops);
      && !r.active && !r.playing
      && r.timer == s.timer && r.env.intervals == s.env.intervals
      && r.env.emitted == s.env.emitted
  {
    ApplyConsistent(s, DestroyOp);
    InertWhileInactive(Destroy(s), ops);
  }

  // ----- Emission on edges -----

  /**
   * The plugin's events alternate, starting with play, and the last one is play
   * exactly when the plugin plays.
   */
  ghost predicate EdgeLog(s: State) {
    var e := s.env.emitted;
    && (forall i | 0 <= i < |e| - 1 :: e[i] != e[i + 1])
    && (|e| > 0 ==> e[0] == AutoplayPlay)
    && (s.playing <==> |e| > 0 && e[|e| - 1] == AutoplayPlay)
  }

  lemma AppendAlternates(e: seq<Signal>, x: Signal)
    requires forall i | 0 <= i < |e| - 1 :: e[i] != e[i + 1]
    requires |e| > 0 ==> e[|e| - 1] != x
    ensures var f := e + [x]; forall i | 0 <= i < |f| - 1 :: f[i] != f[i + 1]
  {
    var f := e + [x];
    forall i | 0 <= i < |f| - 1
      ensures f[i] != f[i + 1]
    {
      if i < |e| - 1 {
        assert f[i] == e[i] && f[i + 1] == e[i + 1];
      }
    }
  }

  lemma StartTimerEdgeLog(s: State)
    requires Consistent(s) && EdgeLog(s)
    ensures EdgeLog(StartTimer(s))
  {
    if s.active && !s.playing {
      AppendAlternates(s.env.emitted, AutoplayPlay);
    }
  }

  lemma StopTimerEdgeLog(s: State)
    requires Consistent(s) && EdgeLog(s)
    ensures EdgeLog(StopTimer(s))
  {
    if s.active && s.playing {
      AppendAlternates(s.env.emitted, AutoplayStop);
    }
  }

  lemma PlayEdgeLog(s: State, j: Option<bool>)
    requires Consistent(s) && EdgeLog(s)
    ensures EdgeLog(Play(s, j))
  {
    StartTimerEdgeLog(if j.Some? then s.(jump := j.value) else s);
  }

  lemma StopEdgeLog(s: State)
    requires Consistent(s) && EdgeLog(s)
    ensures EdgeLog(Stop(s))
  {
    StopTimerEdgeLog(s);
  }

  lemma ResetEdgeLog(s: State)
    requires Consistent(s) && EdgeLog(s)
    ensures EdgeLog(Reset(s))
  {
    StartTimerEdgeLog(s);
  }

  lemma DispatchEdgeLog(s: State, t: Trigger)
    requires Consistent(s) && EdgeLog(s)
    ensures EdgeLog(Dispatch(s, t))
  {
    StartTimerEdgeLog(s);
    StopTimerEdgeLog(s);
  }

  lemma VisibilityEdgeLog(s: State, hidden: bool)
    requires Consistent(s) && EdgeLog(s)
    ensures EdgeLog(DocumentVisibility(s, hidden))
  {
    var s1 := s.(env := s.env.(hidden := hidden));
    StartTimerEdgeLog(s1);
    StopTimerEdgeLog(s1.(wasPlaying := s1.playing));
  }

  lemma FrameEdgeLog(s: State, h: nat, i: int, n: nat, c: bool)
    requires Consistent(s) && EdgeLog(s)
    ensures EdgeLog(AnimationFrameFired(s, h, i, n, c))
  {
    if h in s.env.frames {
      StopTimerEdgeLog(s.(env := CancelAnimationFrame(s.env, h)));
    }
  }

  lemma ApplyEdgeLog(s: State, op: Op)
    requires Consistent(s) && EdgeLog(s) && !op.DestroyOp?
    ensures EdgeLog(Apply(s, op))
  {
    match op
    case InitOp(n, root, o) =>
    case DestroyOp =>
    case PlayOp(j) => PlayEdgeLog(s, j);
    case StopOp => StopEdgeLog(s);
    case ResetOp => ResetEdgeLog(s);
    case HostEvent(t) => DispatchEdgeLog(s, t);
    case VisibilityEvent(hidden) => VisibilityEdgeLog(s, hidden);
    case IntervalTick(h) =>
    case FrameTick(h, i, n, c) => FrameEdgeLog(s, h, i, n, c);
  }

  /**
   * Without `destroy`, play and stop are emitted only on edges: the log alternates,
   * starts with play, and ends with play exactly while the plugin plays.
   */
  lemma {:induction false} EdgeEmission(s: State, ops: seq<Op>)
    requires Consistent(s) && EdgeLog(s) && NoDestroy(ops)
    ensures EdgeLog(Run(s, ops))
    decreases |ops|
  {
    if ops != [] {
      ApplyEdgeLog(s, ops[0]);
      ApplyConsistent(s, ops[0]);
      EdgeEmission(Apply(s, ops[0]), ops[1..]);
    }
  }

  // ----- Sequences of play and stop -----

  predicate PlayStopOnly(ops: seq<Op>) {
    forall i | 0 <= i < |ops| :: ops[i].PlayOp? || ops[i].StopOp?
  }

  /** On an active plugin, after any non-empty sequence of `play` and `stop` calls it plays exactly when the last call was `play`. */
  lemma {:induction false} LastCallDecides(s: State, ops: seq<Op>)
    requires Consistent(s) && s.active && ops != [] && PlayStopOnly(ops)
    ensures Run(s, ops).playing <==> ops[|ops| - 1].PlayOp?
    decreases |ops|
  {
    var s1 := Apply(s, ops[0]);
    ApplyConsistent(s, ops[0]);
    if |ops| > 1 {
      assert PlayStopOnly(ops[1..]) by {
        forall i | 0 <= i < |ops| - 1 ensures ops[1..][i].PlayOp? || ops[1..][i].StopOp? {
          assert ops[1..][i] == ops[i + 1];
        }
      }
      LastCallDecides(s1, ops[1..]);
      assert ops[1..][|ops[1..]| - 1] == ops[|ops| - 1];
    } else {
      assert Run(s1, ops[1..]) == s1;
    }
  }

  // ----- Pointer down with stop on interaction -----

  /** No listener resumes the plugin except on 'init' and 'reInit'. */
  predicate NoResumeBinding(bindings: set<Binding>) {
    forall b | b in bindings :: b.handler == StartTimerHandler ==> b.trigger == OnInit || b.trigger == OnReInit
  }

  /** With stop on interaction, the wiring resumes only on 'init' and 'reInit'. */
  lemma WiringWithStopOnInteraction(o: AutoplayOptions, emblaRoot: NodeId)
    requires o.stopOnInteraction
    ensures NoResumeBinding(Wiring(o, emblaRoot))
  {
  }

  /** A host event or call that can happen between two re-initialisations without an explicit `play()`. */
  predicate Unattended(op: Op) {
    || (op.HostEvent? && op.trigger != OnInit && op.trigger != OnReInit)
    || op.VisibilityEvent? || op.IntervalTick? || op.FrameTick? || op.StopOp? || op.ResetOp?
  }

  /**
   * The plugin is stopped with nothing scheduled and nothing that would resume it.
   * When visibility changes are listened to, on a hidden page it did not play
   * when the page was hidden, and on a visible page the next visibility change
   * hides it, which records that it is stopped.
   */
  ghost predicate Halted(s: State, bindings: set<Binding>) {
    && Consistent(s) && s.active && !s.playing
    && (s.env.hidden && Bound(bindings, OnVisibilityChange, VisibilityChangeHandler) ==> !s.wasPlaying)
    && s.timer == 0 && s.env.frames == {} && s.env.bindings == bindings
    && NoResumeBinding(bindings)
  }

  lemma ApplyHalted(s: State, op: Op, bindings: set<Binding>)
    requires Halted(s, bindings) && Unattended(op)
    ensures Halted(Apply(s, op), bindings)
    ensures Apply(s, op).env.scrolls == s.env.scrolls
  {
    if op.HostEvent? {
      assert !Bound(s.env.bindings, op.trigger, StartTimerHandler);
    } else if op.VisibilityEvent? && op.hidden != s.env.hidden {
      var s1 := s.(env := s.env.(hidden := op.hidden));
      if Bound(bindings, OnVisibilityChange, VisibilityChangeHandler) {
        assert Halted(VisibilityChange(s1), bindings);
      } else {
        assert Halted(s1, bindings);
      }
    }
  }

  lemma {:induction false} RunHalted(s: State, ops: seq<Op>, bindings: set<Binding>)
    requires Halted(s, bindings)
    requires forall i | 0 <= i < |ops| :: Unattended(ops[i])
    ensures Halted(Run(s, ops), bindings)
    ensures Run(s, ops).env.scrolls == s.env.scrolls
    decreases |ops|
  {
    if ops != [] {
      ApplyHalted(s, ops[0], bindings);
      RunHalted(Apply(s, ops[0]), ops[1..], bindings);
    }
  }

  /**
   * With no resume wiring, a pointer-down while no animation frame is pending
   * stops the plugin for good: whatever host events other than 'init' and
   * 'reInit', visibility changes, ticks, stops and resets follow, it requests no
   * further scroll and stays stopped until an explicit `play()` or `init`. The
   * one state excluded is a page hidden while the plugin played: showing it
   * resumes the plugin, as `PointerDownWhileHiddenResumes` shows.
   */
  lemma PointerDownHaltsAutoAdvance(s: State, ops: seq<Op>)
    requires Consistent(s) && s.active && (s.env.hidden ==> !s.wasPlaying) && s.env.frames == {}
    requires Binding(Api, OnPointerDown, StopTimerHandler) in s.env.bindings
    requires NoResumeBinding(s.env.bindings)
    requires forall i | 0 <= i < |ops| :: Unattended(ops[i])
    ensures var r := Run(Apply(s, HostEvent(OnPointerDown)), ops);
      !r.playing && r.env.intervals == {} && r.env.scrolls == s.env.scrolls
  {
    var s1 := Apply(s, HostEvent(OnPointerDown));
    assert Bound(s.env.bindings, OnPointerDown, StopTimerHandler);
    assert Halted(s1, s.env.bindings);
    RunHalted(s1, ops, s.env.bindings);
  }

  lemma RunCons(s: State, op: Op, ops: seq<Op>)
    ensures Run(s, [op] + ops) == Run(Apply(s, op), ops)
  {
    assert ([op] + ops)[0] == op;
    assert ([op] + ops)[1..] == ops;
  }

  /**
   * The excluded case of `PointerDownHaltsAutoAdvance`: a playing plugin whose
   * page is hidden, then receives a pointer-down, plays again once the page is shown.
   */
  lemma PointerDownWhileHiddenResumes(s: State)
    requires Consistent(s) && s.active && s.playing && !s.env.hidden
    requires Binding(OwnerDocument, OnVisibilityChange, VisibilityChangeHandler) in s.env.bindings
    requires Binding(Api, OnPointerDown, StopTimerHandler) in s.env.bindings
    ensures var h := Apply(s, VisibilityEvent(true));
      var p := Apply(h, HostEvent(OnPointerDown));
      && h.env.hidden && h.wasPlaying && !p.playing
      && Apply(p, VisibilityEvent(false)).playing
  {
    var h := Apply(s, VisibilityEvent(true));
    assert Bound(s.env.bindings, OnVisibilityChange, VisibilityChangeHandler);
    assert h.env.bindings == s.env.bindings;
    var p := Apply(h, HostEvent(OnPointerDown));
    assert Bound(h.env.bindings, OnPointerDown, StopTimerHandler);
    assert p.env.bindings == s.env.bindings;
    assert Bound(p.env.bindings, OnVisibilityChange, VisibilityChangeHandler);
  }

  /** With play on init, `init` on a carousel with several snaps followed by the host's 'init' event starts the plugin. */
  lemma PlayOnInit(env: Env, snapCount: nat, emblaRoot: NodeId, o: AutoplayOptions)
    requires env.intervals == {} && env.frames == {} && env.bindings == {}
    requires snapCount > 1 && o.playOnInit
    ensures var s := Dispatch(Init(Initial(env), snapCount, emblaRoot, o), OnInit);
      && s.playing && Consistent(s) && s.active && !s.wasPlaying && s.env.frames == {}
      && s.env.bindings == Wiring(o, emblaRoot)
  {
    var s1 := Init(Initial(env), snapCount, emblaRoot, o);
    assert s1.env.bindings == Wiring(o, emblaRoot);
    assert Binding(Api, OnInit, StartTimerHandler) in s1.env.bindings;
    assert !Bound(s1.env.bindings, OnInit, StopTimerHandler);
  }

  /**
   * End to end: on a carousel with several snaps, with play on init and stop on
   * interaction, the plugin starts with the host's 'init' event, and a pointer-down
   * before the first interval fires stops all automatic advance until `play()`.
   */
  lemma InitThenPointerDown(env: Env, snapCount: nat, emblaRoot: NodeId, o: AutoplayOptions, ops: seq<Op>)
    requires env.intervals == {} && env.frames == {} && env.bindings == {}
    requires snapCount > 1 && o.playOnInit && o.stopOnInteraction
    requires forall i | 0 <= i < |ops| :: Unattended(ops[i])
    ensures var r := Run(Initial(env), [InitOp(snapCount, emblaRoot, o), HostEvent(OnInit), HostEvent(OnPointerDown)] + ops);
      !r.playing && r.env.intervals == {} && r.env.scrolls == env.scrolls
  {
    var s0 := Initial(env);
    var s1 := Apply(s0, InitOp(snapCount, emblaRoot, o));
    var s2 := Apply(s1, HostEvent(OnInit));
    PlayOnInit(env, snapCount, emblaRoot, o);
    WiringWithStopOnInteraction(o, emblaRoot);
    PointerDownHaltsAutoAdvance(s2, ops);
    var tail := [HostEvent(OnPointerDown)] + ops;
    RunCons(s1, HostEvent(OnInit), tail);
    RunCons(s0, InitOp(snapCount, emblaRoot, o), [HostEvent(OnInit)] + tail);
    RunCons(s2, HostEvent(OnPointerDown), ops);
    assert [InitOp(snapCount, emblaRoot, o), HostEvent(OnInit), HostEvent(OnPointerDown)] + ops
      == [InitOp(snapCount, emblaRoot, o)] + ([HostEvent(OnInit)] + tail);
  }

  // ----- Finding: destroy leaves the interval running -----

  /**
   * As written, destroying a playing plugin leaves its interval scheduled; when it
   * fires, the frame callback still asks the carousel to scroll, and the event log
   * ends with a play that no stop answers.
   */
  lemma DestroyLeavesIntervalRunning(s: State, nextIndex: int, snapCount: nat, canScrollNext: bool)
    requires Consistent(s) && s.playing
    ensures Destroy(s).env.intervals == {s.timer}
    ensures var f := IntervalFired(Destroy(s), s.timer);
      var g := AnimationFrameFired(f, f.animationFrame, nextIndex, snapCount, canScrollNext);
      |g.env.scrolls| == |s.env.scrolls| + 1
    ensures EdgeLog(s) ==> !EdgeLog(Destroy(s))
  {
  }

  /**
   * Corrected, `destroy` clears the interval and announces the stop; afterwards,
   * until the next `init`, no interval is scheduled and no animation frame is
   * requested, and the event log still pairs every play with a stop.
   */
  lemma DestroyCorrectedStopsTimer(s: State, ops: seq<Op>)
    requires Consistent(s) && s.active && NoInit(ops)
    ensures var d := DestroyCorrected(s);
      && !d.active && !d.playing && d.timer == 0 && d.env.intervals == {}
      && d.env.emitted == s.env.emitted + (if s.playing then [AutoplayStop] else [])
    ensures EdgeLog(s) ==> EdgeLog(DestroyCorrected(s))
    ensures var r := Run(DestroyCorrected(s), ops);
      && !r.playing && r.env.intervals == {} && r.env.emitted == DestroyCorrected(s).env.emitted
      && r.env.frames <= DestroyCorrected(s).env.frames
  {
    if EdgeLog(s) {
      StopTimerEdgeLog(s);
    }
    var d := DestroyCorrected(s);
    assert Consistent(d);
    InertWhileInactive(d, ops);
  }

  // ----- Finding: destroy throws when `init` never resolved the options -----

  /**
   * As written, `destroy` on a plugin whose `init` met a single-snap carousel
   * reads a property of the unresolved options and throws.
   */
  lemma SingleSnapDestroyThrows(env: Env, snapCount: nat, emblaRoot: NodeId, o: AutoplayOptions)
    requires snapCount <= 1
    ensures DestroyThrows(Init(Initial(env), snapCount, emblaRoot, o))
  {
  }

  /**
   * With its options read guarded, `destroy` completes in every reachable state:
   * the plugin ends inactive and stopped, its listeners on the carousel API are
   * removed and its animation frame is cancelled. With resolved options it is
   * `destroy` as written.
   */
  lemma DestroyGuardedCompletes(s: State)
    requires Consistent(s)
    ensures s.options.Some? ==> DestroyGuarded(s) == Destroy(s)
    ensures var d := DestroyGuarded(s);
      && !d.active && !d.playing && d.animationFrame == 0
      && d.env.frames == s.env.frames - {s.animationFrame}
      && d.env.bindings == s.env.bindings - (if s.options.Some? then Unwired(s.options.value) else ApiUnwired)
      && d.env.emitted == s.env.emitted
  {
  }
}
