/**
 * The Autoplay plugin as the source writes it: a closure whose variables the
 * functions `init`, `destroy`, `startTimer`, `stopTimer`, `visibilityChange`,
 * `next`, `play`, `stop` and `reset` reassign. Here the closure is a class and
 * the host it talks to is another; each method is proved to perform exactly the
 * transition of the same name in AutoplaySpec, whose properties are proved in
 * AutoplayProperties.
 */
module Autoplay {
  import opened Wrappers
  import opened Dom
  import S = AutoplaySpec

  /**
   * The host as one plugin instance sees it: the scheduled intervals and
   * animation frames whose callbacks are this instance's (the window's handle
   * counter is shared), the listener registry (the carousel API's and the event
   * store's), the event bus, the carousel's scroll API and the owner document's
   * visibility state.
   */
  class Host {
    var intervals: set<nat>
    var frames: set<nat>
    var lastHandle: nat
    var bindings: set<S.Binding>
    var emitted: seq<S.Signal>
    var scrolls: seq<S.ScrollCall>
    var hidden: bool

    ghost function Snapshot(): S.Env
      reads this
    {
      S.Env(intervals, frames, lastHandle, bindings, emitted, scrolls, hidden)
    }

    constructor (hidden: bool)
      ensures Snapshot() == S.Env({}, {}, 0, {}, [], [], hidden)
    {
      intervals, frames, lastHandle := {}, {}, 0;
      bindings, emitted, scrolls := {}, [], [];
      this.hidden := hidden;
    }

    /** `ownerWindow.setInterval`: schedules an interval under a fresh handle. */
    method SetInterval() returns (h: nat)
      modifies this
      ensures h == S.NextHandle(old(Snapshot())) && h > 0
      ensures Snapshot() == S.SetInterval(old(Snapshot()))
    {
      lastHandle := lastHandle + 1;
      h := lastHandle;
      intervals := intervals + {h};
    }

    /** `ownerWindow.clearInterval`: a handle that is not scheduled (such as 0) is ignored. */
    method ClearInterval(h: nat)
      modifies this
      ensures Snapshot() == S.ClearInterval(old(Snapshot()), h)
    {
      intervals := intervals - {h};
    }

    /** `requestAnimationFrame`. */
    method RequestAnimationFrame() returns (h: nat)
      modifies this
      ensures h == S.NextHandle(old(Snapshot())) && h > 0
      ensures Snapshot() == S.RequestAnimationFrame(old(Snapshot()))
    {
      lastHandle := lastHandle + 1;
      h := lastHandle;
      frames := frames + {h};
    }

    /** `cancelAnimationFrame`. */
    method CancelAnimationFrame(h: nat)
      modifies this
      ensures Snapshot() == S.CancelAnimationFrame(old(Snapshot()), h)
    {
      frames := frames - {h};
    }

    /** `emblaApi.emit` of one of the plugin's events. */
    method Emit(sig: S.Signal)
      modifies this
      ensures Snapshot() == S.Emit(old(Snapshot()), sig)
    {
      emitted := emitted + [sig];
    }

    /** `emblaApi.on` or `eventStore.add`. */
    method On(b: S.Binding)
      modifies this`bindings
      ensures bindings == old(bindings) + {b}
    {
      bindings := bindings + {b};
    }

    /** `emblaApi.off`. */
    method Off(b: S.Binding)
      modifies this`bindings
      ensures bindings == old(bindings) - {b}
    {
      bindings := bindings - {b};
    }

    /** `emblaApi.scrollNext(jump)` or `emblaApi.scrollTo(index, jump)`, recorded. */
    method Scroll(call: S.ScrollCall)
      modifies this
      ensures Snapshot() == S.RequestScroll(old(Snapshot()), call)
    {
      scrolls := scrolls + [call];
    }
  }

  /** One plugin instance: the closure variables of `Autoplay(userOptions)`. */
  class AutoplayPlugin {
    var options: Option<S.AutoplayOptions>
    var active: bool
    var playing: bool
    var wasPlaying: bool
    var jump: bool
    var animationFrame: nat
    var timer: nat
    const host: Host

    ghost function Model(): S.State
      reads this, host
    {
      S.State(active, playing, wasPlaying, jump, animationFrame, timer, options, host.Snapshot())
    }

    ghost predicate Valid()
      reads this, host
    {
      S.Consistent(Model())
    }

    constructor (host: Host)
      requires host.intervals == {}
      ensures this.host == host
      ensures Model() == S.Initial(host.Snapshot()) && Valid()
    {
      this.host := host;
      options := None;
      active, playing, wasPlaying, jump := false, false, false, false;
      animationFrame, timer := 0, 0;
    }

    /** `init`, with the resolved options, the snap count and the carousel root. */
    method Init(snapCount: nat, emblaRoot: NodeId, o: S.AutoplayOptions)
      requires Valid()
      modifies this, host
      ensures Valid()
      ensures Model() == S.Init(old(Model()), snapCount, emblaRoot, o)
    {
      if snapCount <= 1 {
        return;
      }
      options := Some(o);
      jump := o.jump;
      active := true;
      Wire(o, emblaRoot);
    }

    /** The listener registrations of `init`, in the source's order. */
    method Wire(o: S.AutoplayOptions, emblaRoot: NodeId)
      modifies host`bindings
      ensures host.bindings == old(host.bindings) + S.Wiring(o, emblaRoot)
    {
      ghost var before := host.bindings;
      var root := S.ResolveRoot(o.rootNode, emblaRoot);
      host.On(S.Binding(S.Api, S.OnPointerDown, S.StopTimerHandler));
      if !o.stopOnInteraction {
        host.On(S.Binding(S.Api, S.OnPointerUp, S.StartTimerHandler));
      }
      assert host.bindings == before + S.PointerWiring(o);
      WireRoot(o, root);
      host.On(S.Binding(S.OwnerDocument, S.OnVisibilityChange, S.VisibilityChangeHandler));
      if o.playOnInit {
        host.On(S.Binding(S.Api, S.OnInit, S.StartTimerHandler));
        host.On(S.Binding(S.Api, S.OnReInit, S.StartTimerHandler));
      }
    }

    /** The registrations on the root element. */
    method WireRoot(o: S.AutoplayOptions, root: NodeId)
      modifies host`bindings
      ensures host.bindings == old(host.bindings) + S.MouseWiring(o, root) + S.FocusWiring(o, root)
    {
      ghost var before := host.bindings;
      if o.stopOnMouseEnter {
        host.On(S.Binding(S.Root(root), S.OnMouseEnter, S.StopTimerHandler));
        if !o.stopOnInteraction {
          host.On(S.Binding(S.Root(root), S.OnMouseLeave, S.StartTimerHandler));
        }
      }
      assert host.bindings == before + S.MouseWiring(o, root);
      if o.stopOnFocusIn {
        host.On(S.Binding(S.Root(root), S.OnFocusIn, S.StopTimerHandler));
        if !o.stopOnInteraction {
          host.On(S.Binding(S.Root(root), S.OnFocusOut, S.StartTimerHandler));
        }
      }
    }

    /**
     * `destroy`. `threw` reports the TypeError the source raises when `init` never
     * resolved the options; the state is then as the first two assignments left it.
     */
    method Destroy() returns (threw: bool)
      requires Valid()
      modifies this, host
      ensures Valid()
      ensures threw == S.DestroyThrows(old(Model()))
      ensures Model() == S.Destroy(old(Model()))
    {
      active := false;
      playing := false;
      if options.None? {
        return true;
      }
      threw := false;
      host.Off(S.Binding(S.Api, S.OnInit, S.StartTimerHandler));
      host.Off(S.Binding(S.Api, S.OnReInit, S.StartTimerHandler));
      host.Off(S.Binding(S.Api, S.OnPointerDown, S.StopTimerHandler));
      if !options.value.stopOnInteraction {
        host.Off(S.Binding(S.Api, S.OnPointerUp, S.StartTimerHandler));
      }
      StopTimer();
      host.CancelAnimationFrame(animationFrame);
      animationFrame := 0;
    }

    /** `startTimer`. */
    method StartTimer()
      requires Valid()
      modifies this, host
      ensures Valid()
      ensures Model() == S.StartTimer(old(Model()))
    {
      if !active {
        return;
      }
      if !playing {
        host.Emit(S.AutoplayPlay);
      }
      host.ClearInterval(timer);
      timer := host.SetInterval();
      playing := true;
    }

    /** `stopTimer`. */
    method StopTimer()
      requires Valid()
      modifies this, host
      ensures Valid()
      ensures Model() == S.StopTimer(old(Model()))
    {
      if !active {
        return;
      }
      if playing {
        host.Emit(S.AutoplayStop);
      }
      host.ClearInterval(timer);
      timer := 0;
      playing := false;
    }

    /** `visibilityChange`: it reads the owner document's visibility state. */
    method VisibilityChange()
      requires Valid()
      modifies this, host
      ensures Valid()
      ensures Model() == S.VisibilityChange(old(Model()))
    {
      if host.hidden {
        wasPlaying := playing;
        StopTimer();
        return;
      }
      if wasPlaying {
        StartTimer();
      }
    }

    /** `next`, as the interval runs it: it requests the animation frame that advances. */
    method Next()
      requires Valid()
      modifies this, host
      ensures Valid()
      ensures Model() == S.Next(old(Model()))
    {
      animationFrame := host.RequestAnimationFrame();
    }

    /**
     * The animation-frame callback of `next`, given what the host reports: the
     * index after the current one, the snap count, and whether it can scroll on.
     */
    method NextFrame(nextIndex: int, snapCount: nat, canScrollNext: bool)
      requires Valid()
      modifies this, host
      ensures Valid()
      ensures Model() == S.NextFrame(old(Model()), nextIndex, snapCount, canScrollNext)
    {
      var lastIndex := snapCount - 1;
      var kill := options.Some? && options.value.stopOnLastSnap && nextIndex == lastIndex;
      if kill {
        StopTimer();
      }
      if canScrollNext {
        host.Scroll(S.ScrollNext(jump));
      } else {
        host.Scroll(S.ScrollTo(0, jump));
      }
    }

    /** `play(jumpOverride?)`. */
    method Play(jumpOverride: Option<bool>)
      requires Valid()
      modifies this, host
      ensures Valid()
      ensures Model() == S.Play(old(Model()), jumpOverride)
    {
      if jumpOverride.Some? {
        jump := jumpOverride.value;
      }
      StartTimer();
    }

    /** `stop()`. */
    method Stop()
      requires Valid()
      modifies this, host
      ensures Valid()
      ensures Model() == S.Stop(old(Model()))
    {
      if playing {
        StopTimer();
      }
    }

    /** `reset()`. */
    method Reset()
      requires Valid()
      modifies this, host
      ensures Valid()
      ensures Model() == S.Reset(old(Model()))
    {
      if playing {
        Play(None);
      }
    }

    /** `isPlaying()`. */
    method IsPlaying() returns (b: bool)
      ensures b == playing
    {
      b := playing;
    }
  }
}
