/**
 * The player's character (YH): relaxes, works while the input is held, and
 * cries after being caught.  Working is tiring: after 1500 ms of work the
 * character drops back to relaxing on its own.
 */
module Worker {

  import opened Animation

  datatype Status = Relax | Work | Cry

  /** Longest stretch of work before the character relaxes by itself. */
  const MaxWorkTime: real := 1500.0
  /** Time a relaxing character needs before it can be made to work again. */
  const MinRelaxTime: real := 100.0
  /** Time a crying character needs before a new round can start. */
  const MinCryTime: real := 3000.0

  /** Sprite frames and frame time of each status: 7 frames/s, 21 while working. */
  function WindowOf(s: Status): (w: Window)
    ensures w.WellFormed()
  {
    match s
    case Relax => Window(0, 4, 1000.0 / 7.0)
    case Work => Window(5, 8, 1000.0 / 21.0)
    case Cry => Window(9, 11, 1000.0 / 7.0)
  }

  /** What the character's behaviour depends on: its status and the time spent in it. */
  datatype State = State(status: Status, timeInCurrentStatus: real)

  /** The state `setStatus(s)` leaves: the new status with a fresh timer. */
  function Entered(s: Status): (st: State)
    ensures st.status == s && st.timeInCurrentStatus == 0.0
  {
    State(s, 0.0)
  }

  /**
   * One `update(delta)`: the timer grows by delta; a character that has now
   * worked for strictly more than MaxWorkTime relaxes, with a fresh timer.
   * Relaxing and crying characters never change status here.
   */
  function Advance(st: State, delta: real): (r: State)
    requires st.timeInCurrentStatus >= 0.0 && delta >= 0.0
    ensures r.timeInCurrentStatus >= 0.0
    ensures r.status != st.status <==> st.status == Work && st.timeInCurrentStatus + delta > MaxWorkTime
    ensures r.status != st.status ==> r == Entered(Relax)
    ensures r.status == st.status ==> r.timeInCurrentStatus == st.timeInCurrentStatus + delta
  {
    var t := st.timeInCurrentStatus + delta;
    if st.status == Work && t > MaxWorkTime then Entered(Relax) else State(st.status, t)
  }

  /** The sprite frame drawn for a state; always inside the status' window. */
  function Frame(st: State): (frame: int)
    requires st.timeInCurrentStatus >= 0.0
    ensures WindowOf(st.status).frameStart <= frame <= WindowOf(st.status).frameEnd
  {
    FrameIndex(WindowOf(st.status), st.timeInCurrentStatus, true)
  }

  /**
   * Whether a press may set the character to work: it must have relaxed for
   * strictly more than MinRelaxTime or cried for strictly more than MinCryTime.
   */
  predicate InTheMood(st: State): (b: bool)
    ensures b <==> st.status != Work && st.timeInCurrentStatus > MoodThreshold(st.status)
  {
    (st.status == Relax && st.timeInCurrentStatus > MinRelaxTime) ||
    (st.status == Cry && st.timeInCurrentStatus > MinCryTime)
  }

  /** The threshold a resting status must strictly exceed before a press is accepted. */
  function MoodThreshold(s: Status): real
    requires s != Work
  {
    if s == Relax then MinRelaxTime else MinCryTime
  }

  /** A working character, or one that has just entered any status, ignores presses. */
  lemma MoodNeedsRest(st: State)
    requires InTheMood(st)
    ensures st.status != Work && st.timeInCurrentStatus > MinRelaxTime
  {
  }

  // Successive calls of `update`, as a specification device for the timing properties.

  ghost predicate NonNegative(deltas: seq<real>) {
    forall i :: 0 <= i < |deltas| ==> deltas[i] >= 0.0
  }

  ghost function Sum(deltas: seq<real>): real {
    if deltas == [] then 0.0 else deltas[0] + Sum(deltas[1..])
  }

  lemma {:induction false} SumNonNegative(deltas: seq<real>)
    requires NonNegative(deltas)
    ensures Sum(deltas) >= 0.0
  {
    if deltas != [] {
      SumNonNegative(deltas[1..]);
    }
  }

  ghost function Run(st: State, deltas: seq<real>): State
    requires st.timeInCurrentStatus >= 0.0 && NonNegative(deltas)
    decreases |deltas|
  {
    if deltas == [] then st else Run(Advance(st, deltas[0]), deltas[1..])
  }

  /** Relaxing and crying only ever accumulate time. */
  lemma {:induction false} RunAtRest(st: State, deltas: seq<real>)
    requires st.status != Work && st.timeInCurrentStatus >= 0.0 && NonNegative(deltas)
    ensures Run(st, deltas) == State(st.status, st.timeInCurrentStatus + Sum(deltas))
    decreases |deltas|
  {
    if deltas != [] {
      RunAtRest(Advance(st, deltas[0]), deltas[1..]);
    }
  }

  /** Work goes on, accumulating time, as long as the total stays at most MaxWorkTime. */
  lemma {:induction false} RunWorkWithin(t: real, deltas: seq<real>)
    requires t >= 0.0 && NonNegative(deltas) && t + Sum(deltas) <= MaxWorkTime
    ensures Run(State(Work, t), deltas) == State(Work, t + Sum(deltas))
    decreases |deltas|
  {
    if deltas != [] {
      SumNonNegative(deltas[1..]);
      RunWorkWithin(t + deltas[0], deltas[1..]);
    }
  }

  /**
   * Work ends, with the timer reset, on exactly the update whose delta first
   * takes the total strictly past MaxWorkTime.
   */
  lemma {:induction false} RunWorkEnds(t: real, deltas: seq<real>)
    requires t >= 0.0 && NonNegative(deltas) && deltas != []
    requires t + Sum(deltas[..|deltas| - 1]) <= MaxWorkTime < t + Sum(deltas)
    ensures Run(State(Work, t), deltas) == Entered(Relax)
    decreases |deltas|
  {
    var rest := deltas[1..];
    if rest == [] {
      assert Sum(deltas) == deltas[0];
    } else {
      assert deltas[..|deltas| - 1] == [deltas[0]] + rest[..|rest| - 1];
      assert deltas[..|deltas| - 1][1..] == rest[..|rest| - 1];
      SumNonNegative(rest[..|rest| - 1]);
      RunWorkEnds(t + deltas[0], rest);
    }
  }

  /**
   * After entering a resting status, presses are refused while the time
   * spent there is at most the status' threshold and accepted once it is
   * strictly more.
   */
  lemma MoodAfterEntering(s: Status, deltas: seq<real>)
    requires s != Work && NonNegative(deltas)
    ensures InTheMood(Run(Entered(s), deltas)) <==> Sum(deltas) > MoodThreshold(s)
  {
    RunAtRest(Entered(s), deltas);
  }

  /** At 2000 ms into relaxing, floor(2000 / (1000/7)) mod 5 = 14 mod 5 selects frame 4. */
  lemma RelaxFrameAt2000()
    ensures Frame(State(Relax, 2000.0)) == 4
  {
    assert 2000.0 / (1000.0 / 7.0) == 14.0;
  }

  /** The character, updated in place by the game loop. */
  class YH {
    var status: Status
    var timeInCurrentStatus: real
    /** frameStart, frameEnd and msPerFrame of the current status. */
    var window: Window

    ghost predicate Valid()
      reads this
    {
      timeInCurrentStatus >= 0.0 && window == WindowOf(status)
    }

    function Model(): State
      reads this
    {
      State(status, timeInCurrentStatus)
    }

    constructor ()
      ensures Valid() && Model() == Entered(Relax)
    {
      timeInCurrentStatus := 0.0;
      new;
      SetStatus(Relax);
    }

    /** Enters `s`: resets the timer and installs the status' frame window. */
    method SetStatus(s: Status)
      modifies this
      ensures Valid() && Model() == Entered(s)
    {
      status := s;
      timeInCurrentStatus := 0.0;
      match s
      case Relax => window := Window(0, 4, 1000.0 / 7.0);
      case Work => window := Window(5, 8, 1000.0 / 21.0);
      case Cry => window := Window(9, 11, 1000.0 / 7.0);
    }

    /** Advances the timer by `delta` and returns the sprite frame to draw. */
    method Update(delta: real) returns (frame: int)
      requires Valid() && delta >= 0.0
      modifies this
      ensures Valid() && Model() == Advance(old(Model()), delta)
      ensures frame == Frame(Model())
      ensures window.frameStart <= frame <= window.frameEnd
    {
      timeInCurrentStatus := timeInCurrentStatus + delta;
      if status == Work && timeInCurrentStatus > MaxWorkTime {
        SetStatus(Relax);
      }
      frame := FrameIndex(window, timeInCurrentStatus, true);
    }

    /** Whether a press is accepted now (index.js `inTheMoodToWork`). */
    predicate InTheMoodToWork(): (b: bool)
      reads this
      ensures b <==> status != Work && timeInCurrentStatus > MoodThreshold(status)
    {
      InTheMood(Model())
    }
  }
}
