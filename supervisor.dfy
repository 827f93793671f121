/**
 * The supervisor (Leader): rises behind the desk, peeps at the player's
 * character, lowers again and stays away for a while, over and over, until
 * it catches the character relaxing and turns mad.
 */
module Supervisor {

  import opened Animation
  import opened Chance
  import opened Scaling

  datatype Status = Rise | Peep | Lower | Absent | Mad

  /**
   * How long the current status lasts.  A mad supervisor has no duration
   * (NaN, against which every comparison is false): `Forever`.
   */
  datatype Duration = Until(ms: real) | Forever

  /** Whether `t` is strictly past the duration; never for `Forever`. */
  predicate Exceeded(t: real, d: Duration): (b: bool)
    ensures d == Forever ==> !b
    ensures d.Until? ==> (b <==> d.ms < t)
  {
    d.Until? && t > d.ms
  }

  /** The fixed cycle Rise -> Peep -> Lower -> Absent -> Rise. */
  function Next(s: Status): (n: Status)
    requires s != Mad
    ensures n != Mad && n != s
  {
    match s
    case Rise => Peep
    case Peep => Lower
    case Lower => Absent
    case Absent => Rise
  }

  /** Peeping is reached only from rising, and four steps close the cycle. */
  lemma NextCycle(s: Status)
    requires s != Mad
    ensures Next(s) == Peep <==> s == Rise
    ensures Next(Next(Next(Next(s)))) == s
  {
  }

  /**
   * Sprite frames of each status.  Rise and lower spread their three frames
   * evenly over the status' duration; an absent supervisor is not drawn.
   */
  function WindowOf(s: Status, d: Duration): (w: Window)
    ensures w == Undefined <==> s == Absent || ((s == Rise || s == Lower) && d.Forever?)
    ensures (s == Peep || s == Mad) ==> w.WellFormed()
    ensures (s == Rise || s == Lower) && d.Until? && d.ms > 0.0 ==>
              w.WellFormed() && w.frameStart == 0 && w.frameEnd == 2 && w.msPerFrame == d.ms / 3.0
  {
    match s
    case Rise => if d.Until? then Window(0, 2, d.ms / 3.0) else Undefined
    case Lower => if d.Until? then Window(0, 2, d.ms / 3.0) else Undefined
    case Peep => Window(3, 4, 1000.0 / 7.0)
    case Absent => Undefined
    case Mad => Window(5, 7, 1000.0 / 21.0)
  }

  datatype State = State(
    status: Status,
    timeInCurrentStatus: real,
    statusDuration: Duration,
    window: Window,
    forward: bool,
    difficulty: Difficulty)

  /** Facts every reachable supervisor state satisfies. */
  ghost predicate Consistent(st: State) {
    && st.timeInCurrentStatus >= 0.0
    && st.difficulty.riseTime >= MinRiseTime
    && st.window == WindowOf(st.status, st.statusDuration)
    && (st.statusDuration.Forever? <==> st.status == Mad)
    && ((st.status == Rise || st.status == Lower) ==> st.statusDuration.ms >= MinRiseTime)
    && ((st.status == Rise || st.status == Mad) ==> st.forward)
    && (st.status == Lower ==> !st.forward)
  }

  /**
   * Peeping does not choose a direction: it keeps the one rising left, and
   * so plays forward.  This holds as long as peeping is entered only from
   * rising, which is what `update` does.
   */
  ghost predicate PeepPlaysForward(st: State) {
    st.status == Peep ==> st.forward
  }

  predicate IsInteger(x: real) {
    x == x.Floor as real
  }

  /**
   * The state `setStatus(s)` leaves, `u` being the random draw: the timer is
   * reset; rise and lower last the current riseTime; peep lasts a random
   * whole number of ms in [800, 1000] and absent one in [500, 2500] (fixed
   * bounds: the difficulty's peep and absent bounds are not consulted).
   */
  function Enter(st: State, s: Status, u: real): (r: State)
    requires 0.0 <= u < 1.0
    ensures r.status == s && r.timeInCurrentStatus == 0.0 && r.difficulty == st.difficulty
    ensures r.window == WindowOf(s, r.statusDuration)
    ensures (s == Rise || s == Lower) ==> r.statusDuration == Until(st.difficulty.riseTime)
    ensures s == Peep ==> r.statusDuration.Until? && IsInteger(r.statusDuration.ms)
                          && 800.0 <= r.statusDuration.ms <= 1000.0
    ensures s == Absent ==> r.statusDuration.Until? && IsInteger(r.statusDuration.ms)
                            && 500.0 <= r.statusDuration.ms <= 2500.0
    ensures r.statusDuration.Forever? <==> s == Mad
    ensures (s == Peep || s == Absent) ==> r.forward == st.forward
  {
    var d := match s
      case Rise => Until(st.difficulty.riseTime)
      case Lower => Until(st.difficulty.riseTime)
      case Peep => Until(GetRandomNum(800, 1000, u) as real)
      case Absent => Until(GetRandomNum(500, 2500, u) as real)
      case Mad => Forever;
    var fwd := match s
      case Rise => true
      case Mad => true
      case Lower => false
      case Peep => st.forward
      case Absent => st.forward;
    State(s, 0.0, d, WindowOf(s, d), fwd, st.difficulty)
  }

  /** Entering any status keeps a supervisor consistent. */
  lemma EnterConsistent(st: State, s: Status, u: real)
    requires 0.0 <= u < 1.0 && st.difficulty.riseTime >= MinRiseTime
    ensures Consistent(Enter(st, s, u))
  {
  }

  /**
   * One `update(delta)`: the timer grows by delta; outside Mad, a timer
   * strictly past the status' duration moves the supervisor one step along
   * the cycle (never more), with a fresh timer.  Mad never changes.
   */
  function Advance(st: State, delta: real, u: real): (r: State)
    requires st.timeInCurrentStatus >= 0.0 && delta >= 0.0 && 0.0 <= u < 1.0
    ensures r.difficulty == st.difficulty
    ensures r.status != st.status <==>
              st.status != Mad && Exceeded(st.timeInCurrentStatus + delta, st.statusDuration)
    ensures r.status != st.status ==> r.status == Next(st.status) && r == Enter(st, r.status, u)
    ensures r.status == st.status ==>
              r == st.(timeInCurrentStatus := st.timeInCurrentStatus + delta)
  {
    var t := st.timeInCurrentStatus + delta;
    if st.status != Mad && Exceeded(t, st.statusDuration) then Enter(st, Next(st.status), u)
    else st.(timeInCurrentStatus := t)
  }

  /** Updates keep the supervisor consistent, and peeping forward. */
  lemma AdvanceKeepsConsistent(st: State, delta: real, u: real)
    requires Consistent(st) && PeepPlaysForward(st) && delta >= 0.0 && 0.0 <= u < 1.0
    ensures Consistent(Advance(st, delta, u)) && PeepPlaysForward(Advance(st, delta, u))
  {
    var r := Advance(st, delta, u);
    if r.status != st.status {
      EnterConsistent(st, r.status, u);
      NextCycle(st.status);
    }
  }

  /**
   * The sprite frame drawn for a present supervisor: within [0, 2] while
   * rising or lowering, [3, 4] while peeping and [5, 7] when mad.
   */
  function Frame(st: State): (frame: int)
    requires Consistent(st) && st.status != Absent
    ensures (st.status == Rise || st.status == Lower) ==> 0 <= frame <= 2
    ensures st.status == Peep ==> 3 <= frame <= 4
    ensures st.status == Mad ==> 5 <= frame <= 7
  {
    FrameIndex(st.window, st.timeInCurrentStatus, st.forward)
  }

  /**
   * `updateDifficuty(hour)`: the parameters are replaced by those of the
   * hour; the running status keeps the duration and frames it was entered with.
   */
  function Rescaled(st: State, hour: nat): (r: State)
    ensures r.difficulty == ForHour(hour)
    ensures r.status == st.status && r.timeInCurrentStatus == st.timeInCurrentStatus
    ensures r.statusDuration == st.statusDuration && r.window == st.window && r.forward == st.forward
    ensures Consistent(st) ==> Consistent(r)
  {
    st.(difficulty := ForHour(hour))
  }

  /** Recomputing the parameters for the same hour changes nothing more. */
  lemma RescaledIdempotent(st: State, hour: nat)
    ensures Rescaled(Rescaled(st, hour), hour) == Rescaled(st, hour)
  {
  }

  /**
   * The supervisor a new game starts with: absent for a random whole number
   * of ms in [500, 2500] (drawn before the parameters are set), not yet
   * playing forward, with the initial parameters.
   */
  function Initial(u: real): (st: State)
    requires 0.0 <= u < 1.0
    ensures st.status == Absent && !st.forward && st.difficulty == Defaults()
    ensures Consistent(st) && PeepPlaysForward(st)
  {
    var blank := State(Absent, 0.0, Forever, Undefined, false, Defaults());
    Enter(blank, Absent, u)
  }

  /** The supervisor, updated in place by the game loop. */
  class Leader {
    var status: Status
    var timeInCurrentStatus: real
    var statusDuration: Duration
    /** frameStart, frameEnd and msPerFrame of the current status. */
    var window: Window
    var forward: bool
    var riseTime: real
    var minPeepTime: int
    var maxPeepTime: int
    var minAbsentTime: int
    var maxAbsentTime: int

    function Model(): State
      reads this
    {
      State(status, timeInCurrentStatus, statusDuration, window, forward,
            Difficulty(riseTime, minPeepTime, maxPeepTime, minAbsentTime, maxAbsentTime))
    }

    ghost predicate Valid()
      reads this
    {
      Consistent(Model())
    }

    constructor (u: real)
      requires 0.0 <= u < 1.0
      ensures Valid() && Model() == Initial(u)
    {
      timeInCurrentStatus := 0.0;
      forward := false;
      new;
      SetStatus(Absent, u);
      riseTime := 3000.0 / 7.0;
      minPeepTime := 800;
      maxPeepTime := 1000;
      minAbsentTime := 500;
      maxAbsentTime := 2000;
    }

    /** Enters `s`, `u` being the random draw for a peep or absent duration. */
    method SetStatus(s: Status, u: real)
      requires 0.0 <= u < 1.0
      modifies this
      ensures Model() == Enter(old(Model()), s, u)
      ensures old(riseTime) >= MinRiseTime ==> Valid()
    {
      status := s;
      timeInCurrentStatus := 0.0;
      match s {
        case Rise =>
          statusDuration := Until(riseTime);
          window := Window(0, 2, riseTime / (2 - 0 + 1) as real);
          forward := true;
        case Peep =>
          statusDuration := Until(GetRandomNum(800, 1000, u) as real);
          window := Window(3, 4, 1000.0 / 7.0);
        case Lower =>
          statusDuration := Until(riseTime);
          window := Window(0, 2, riseTime / (2 - 0 + 1) as real);
          forward := false;
        case Absent =>
          statusDuration := Until(GetRandomNum(500, 2500, u) as real);
          window := Undefined;
        case Mad =>
          statusDuration := Forever;
          window := Window(5, 7, 1000.0 / 21.0);
          forward := true;
      }
      if old(riseTime) >= MinRiseTime {
        EnterConsistent(old(Model()), s, u);
      }
    }

    /**
     * Advances the timer by `delta`, `u` being the random draw should a new
     * status be entered; returns whether the supervisor is drawn and which
     * frame.
     */
    method Update(delta: real, u: real) returns (drawn: bool, frame: int)
      requires Valid() && delta >= 0.0 && 0.0 <= u < 1.0
      modifies this
      ensures Valid() && Model() == Advance(old(Model()), delta, u)
      ensures drawn == (status != Absent)
      ensures drawn ==> frame == Frame(Model())
    {
      timeInCurrentStatus := timeInCurrentStatus + delta;
      if status != Mad && Exceeded(timeInCurrentStatus, statusDuration) {
        SetStatus(Next(status), u);
      }
      drawn := status != Absent;
      frame := 0;
      if drawn {
        frame := FrameIndex(window, timeInCurrentStatus, forward);
      }
    }

    /** Recomputes the timing parameters for survived hour `hour`. */
    method UpdateDifficulty(hour: nat)
      requires Valid()
      modifies this
      ensures Valid() && Model() == Rescaled(old(Model()), hour)
    {
      riseTime := MaxReal(1000.0 / 7.0, (3000 - 50 * hour) as real / 7.0);
      minPeepTime := MinInt(1000, 800 + 10 * hour);
      maxPeepTime := MinInt(1200, 1000 + 10 * hour);
      minAbsentTime := MaxInt(200, 500 - 10 * hour);
      maxAbsentTime := MaxInt(1000, 1200 - 20 * hour);
    }
  }
}
