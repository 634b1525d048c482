/** What the AutoScroll override promises, for one tick, for many, and for the slot it borrows. */
module AutoScrollProperties {
  import opened Wrappers
  import opened AutoScrollSpec

  // ----- One tick -----

  /**
   * One `seek`: both locations fall by 2, the target is the location, the velocity
   * is -2, the direction is the sign of the raw move from the previous raw
   * location, which becomes the new raw location; a change of nearest index
   * shifts `index` into `indexPrevious` and emits one 'select', and otherwise the
   * indices and the event count stay.
   */
  lemma SeekStep(t: Tick, nearest: IndexLookup)
    ensures var r := Seek(t, nearest);
      && r.body.rawLocation == t.body.rawLocation - 2
      && r.engine.location == t.engine.location - 2
      && r.engine.target == r.engine.location
      && Velocity(r.body) == -2
      && Direction(r.body) == Sign(r.body.rawLocation - t.body.rawLocationPrevious)
      && r.body.rawLocationPrevious == r.body.rawLocation
      && r.engine.index == nearest(r.engine.location)
    ensures var r := Seek(t, nearest);
      if nearest(t.engine.location - 2) != t.engine.index then
        && r.engine.indexPrevious == t.engine.index
        && r.engine.indexPrevious != r.engine.index
        && r.engine.selects == t.engine.selects + 1
      else
        && r.engine.index == t.engine.index
        && r.engine.indexPrevious == t.engine.indexPrevious
        && r.engine.selects == t.engine.selects
  {
  }

  /**
   * The first tick of a fresh body measures its direction from 0, not from where
   * it starts: starting beyond 2 it reports moving forward while it moves back.
   */
  lemma FirstTickDirection(location: int, e: Engine, nearest: IndexLookup)
    ensures Direction(Seek(Tick(NewBody(location), e), nearest).body) == Sign(location - 2)
    ensures location > 2 ==> Direction(Seek(Tick(NewBody(location), e), nearest).body) == 1
  {
  }

  // ----- Many ticks -----

  /** `n` ticks of the animation loop. */
  function SeekTimes(t: Tick, nearest: IndexLookup, n: nat): Tick
    decreases n
  {
    if n == 0 then t else SeekTimes(Seek(t, nearest), nearest, n - 1)
  }

  /** The nearest indices at the locations `n` ticks from `location` passes through. */
  function Visited(location: int, nearest: IndexLookup, n: nat): seq<int>
    decreases n
  {
    if n == 0 then [] else [nearest(location + Step)] + Visited(location + Step, nearest, n - 1)
  }

  /** How often `s` changes value, starting from `previous`. */
  function Changes(previous: int, s: seq<int>): nat
    decreases |s|
  {
    if s == [] then 0 else (if s[0] != previous then 1 else 0) + Changes(s[0], s[1..])
  }

  /**
   * After `n` >= 1 ticks both locations have fallen by 2n, the target is the
   * location, the velocity is -2, and the index is the one nearest the location.
   * The direction is the first tick's sign when `n` is 1, and -1 from the second
   * tick on.
   */
  lemma {:induction false} SeekTimesMotion(t: Tick, nearest: IndexLookup, n: nat)
    requires n >= 1
    ensures var r := SeekTimes(t, nearest, n);
      && r.engine.location == t.engine.location - 2 * n
      && r.body.rawLocation == t.body.rawLocation - 2 * n
      && r.engine.target == r.engine.location
      && Velocity(r.body) == -2
      && r.body.rawLocationPrevious == r.body.rawLocation
      && r.engine.index == nearest(r.engine.location)
      && Direction(r.body) == (if n == 1 then Sign(t.body.rawLocation - 2 - t.body.rawLocationPrevious) else -1)
    decreases n
  {
    var t1 := Seek(t, nearest);
    if n > 1 {
      SeekTimesMotion(t1, nearest, n - 1);
      if n - 1 > 1 {
      } else {
        assert SeekTimes(t1, nearest, 1) == Seek(t1, nearest);
      }
    } else {
      assert SeekTimes(t1, nearest, 0) == t1;
    }
  }

  /** Over `n` ticks, exactly one 'select' is emitted per change of nearest index. */
  lemma {:induction false} SeekTimesSelects(t: Tick, nearest: IndexLookup, n: nat)
    ensures SeekTimes(t, nearest, n).engine.selects
      == t.engine.selects + Changes(t.engine.index, Visited(t.engine.location, nearest, n))
    decreases n
  {
    if n > 0 {
      var t1 := Seek(t, nearest);
      SeekTimesSelects(t1, nearest, n - 1);
      var v := Visited(t.engine.location, nearest, n);
      assert v[0] == nearest(t.engine.location + Step);
      assert v[1..] == Visited(t1.engine.location, nearest, n - 1);
    }
  }

  /**
   * Starting at index `from`, while the nearest index stays `from` no 'select' is
   * emitted; on the first tick it becomes `to`, exactly one is, with `from` as the
   * previous index.
   */
  lemma {:induction false} FirstSelectAtNewIndex(t: Tick, nearest: IndexLookup, n: nat, to: int)
    requires forall k | 1 <= k <= n :: nearest(t.engine.location - 2 * k) == t.engine.index
    requires nearest(t.engine.location - 2 * (n + 1)) == to && to != t.engine.index
    ensures SeekTimes(t, nearest, n).engine.selects == t.engine.selects
    ensures SeekTimes(t, nearest, n).engine.index == t.engine.index
    ensures var r := SeekTimes(t, nearest, n + 1);
      r.engine.selects == t.engine.selects + 1 && r.engine.index == to && r.engine.indexPrevious == t.engine.index
    decreases n
  {
    var t1 := Seek(t, nearest);
    if n > 0 {
      assert nearest(t.engine.location - 2 * 1) == t.engine.index;
      forall k | 1 <= k <= n - 1
        ensures nearest(t1.engine.location - 2 * k) == t1.engine.index
      {
        assert t1.engine.location - 2 * k == t.engine.location - 2 * (k + 1);
      }
      assert t1.engine.location - 2 * n == t.engine.location - 2 * (n + 1);
      FirstSelectAtNewIndex(t1, nearest, n - 1, to);
    } else {
      assert SeekTimes(t1, nearest, 0) == t1;
    }
  }

  // ----- The borrowed slot -----

  /** `clearScroll` after `startScroll` puts back exactly the body that was installed, with the loop running. */
  lemma ClearRestoresSaved<B>(s: Slot<B>, override: B)
    ensures StartScroll(s, override).installed == override
    ensures StartScroll(s, override).saved == Some(s.installed)
    ensures ClearScroll(StartScroll(s, override)).installed == s.installed
    ensures ClearScroll(StartScroll(s, override)).animating
  {
  }

  /** Repeating `clearScroll` leaves the slot as the first one left it. */
  lemma ClearIdempotent<B>(s: Slot<B>)
    requires s.saved.Some?
    ensures ClearScroll(ClearScroll(s)) == ClearScroll(s)
  {
  }

  /**
   * The slot holds one saved body: a second `startScroll` saves the first
   * override, and `clearScroll` then restores that override, not the engine's own body.
   */
  lemma SecondStartSavesOverride<B>(s: Slot<B>, first: B, second: B)
    ensures ClearScroll(StartScroll(StartScroll(s, first), second)).installed == first
  {
  }
}
