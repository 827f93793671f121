/**
 * Sprite-sheet animation shared by both actors: an actor in a state shows the
 * frames of one window of its sheet, cycling through them, either forward
 * (frameStart, frameStart + 1, ...) or in reverse (frameEnd, frameEnd - 1, ...).
 */
module Animation {

  import opened Arith

  /**
   * A frame window and the time each frame stays on screen.  `Undefined` is
   * the window of a state that is never drawn (the supervisor while absent,
   * whose three window fields are NaN).
   */
  datatype Window = Window(frameStart: int, frameEnd: int, msPerFrame: real) | Undefined
  {
    predicate WellFormed() {
      Window? && frameStart <= frameEnd && msPerFrame > 0.0
    }

    function Span(): int
      requires Window?
    {
      frameEnd - frameStart + 1
    }
  }

  /**
   * The frame shown `t` ms after the state was entered:
   * floor(t / msPerFrame) mod span, counted from frameStart when playing
   * forward and back from frameEnd when playing in reverse.
   */
  function FrameIndex(w: Window, t: real, forward: bool): (frame: int)
    requires w.WellFormed() && t >= 0.0
    ensures w.frameStart <= frame <= w.frameEnd
    ensures t < w.msPerFrame ==> frame == (if forward then w.frameStart else w.frameEnd)
  {
    var k := (t / w.msPerFrame).Floor % w.Span();
    assert t < w.msPerFrame ==> k == 0 by {
      if t < w.msPerFrame {
        DivBelowOne(t, w.msPerFrame);
      }
    }
    if forward then w.frameStart + k else w.frameEnd - k
  }

  /** Reverse playback shows the mirror image, within the window, of forward playback. */
  lemma ReverseMirrorsForward(w: Window, t: real)
    requires w.WellFormed() && t >= 0.0
    ensures FrameIndex(w, t, false) == w.frameStart + w.frameEnd - FrameIndex(w, t, true)
  {
  }

  /** The time `n` whole passes over the window take. */
  function Passes(w: Window, n: nat): (d: real)
    requires w.WellFormed()
    ensures d >= 0.0
  {
    var k := n * w.Span();
    assert k >= 0;
    k as real * w.msPerFrame
  }

  /**
   * The animation is periodic: after a whole number of passes over the window
   * (span * msPerFrame ms each) the same frame is shown again.
   */
  lemma FrameIndexPeriodic(w: Window, t: real, forward: bool, n: nat)
    requires w.WellFormed() && t >= 0.0
    ensures FrameIndex(w, t + Passes(w, n), forward) == FrameIndex(w, t, forward)
  {
    var m, span := w.msPerFrame, w.Span();
    var k := n * span;
    var q := (t / m).Floor;
    FloorShift(t, m, k);
    ModAddMultiple(q, n, span, k);
    var t' := t + Passes(w, n);
    assert t' == t + k as real * m;
    assert (t' / m).Floor % span == q % span;
  }
}
