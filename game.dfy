/**
 * The session controller (Runner): one tick per animation frame advances both
 * characters, applies the loss rule and rescales the difficulty; presses and
 * releases of the input start and stop the character's work.
 */
module Game {

  import opened Scaling
  import Worker
  import Supervisor

  datatype Status = Intro | Play | Summary

  /** Everything a tick, a press or a release reads or writes. */
  datatype Session = Session(
    status: Status,
    time: real,
    runningTime: real,
    yh: Worker.State,
    leader: Supervisor.State)

  /** The session after construction and `init`: the intro, nothing played yet. */
  function Initial(u: real): (g: Session)
    requires 0.0 <= u < 1.0
    ensures g.status == Intro && g.time == 0.0 && g.runningTime == 0.0
    ensures g.yh == Worker.Entered(Worker.Relax) && g.leader.status == Supervisor.Absent
  {
    Session(Intro, 0.0, 0.0, Worker.Entered(Worker.Relax), Supervisor.Initial(u))
  }

  /**
   * Time since the previous tick, `now - (time || now)`: a recorded time of
   * 0 counts as no previous tick, so that tick sees no time pass.
   */
  function Delta(time: real, now: real): (delta: real)
    ensures time == 0.0 ==> delta == 0.0
    ensures time != 0.0 ==> delta == now - time
  {
    now - (if time != 0.0 then time else now)
  }

  /** Timers a tick can advance: none is negative. */
  predicate Timers(g: Session) {
    g.runningTime >= 0.0 && g.yh.timeInCurrentStatus >= 0.0 && g.leader.timeInCurrentStatus >= 0.0
  }

  /** The loss rule: the supervisor peeps while the character relaxes. */
  predicate Caught(yh: Worker.State, leader: Supervisor.State): (b: bool)
    ensures b ==> yh.status != Worker.Work && yh.status != Worker.Cry
    ensures b ==> leader.status !in {Supervisor.Rise, Supervisor.Lower, Supervisor.Absent, Supervisor.Mad}
  {
    yh.status == Worker.Relax && leader.status == Supervisor.Peep
  }

  /** The running time after a tick: it grows by the tick's delta only in play. */
  function RunningTimeAfter(g: Session, delta: real): (rt: real)
    ensures delta >= 0.0 ==> g.runningTime <= rt <= g.runningTime + delta
    ensures rt != g.runningTime ==> g.status == Play
  {
    if g.status == Play then g.runningTime + delta else g.runningTime
  }

  /** The character after its update in a tick. */
  function WorkerAfter(g: Session, delta: real): (yh: Worker.State)
    requires Timers(g) && delta >= 0.0
    ensures yh.timeInCurrentStatus >= 0.0
    ensures yh.status == Worker.Work ==> yh.timeInCurrentStatus <= Worker.MaxWorkTime
    ensures yh.status == g.yh.status || yh == Worker.Entered(Worker.Relax)
  {
    Worker.Advance(g.yh, delta)
  }

  /** The supervisor after its update in a tick: it is frozen during the intro. */
  function LeaderAfter(g: Session, delta: real, u: real): (l: Supervisor.State)
    requires Timers(g) && delta >= 0.0 && 0.0 <= u < 1.0
    ensures g.status == Intro ==> l == g.leader
    ensures l.status == g.leader.status || (g.status != Intro && g.leader.status != Supervisor.Mad && l.status == Supervisor.Next(g.leader.status))
    ensures l.timeInCurrentStatus >= 0.0
  {
    if g.status != Intro then Supervisor.Advance(g.leader, delta, u) else g.leader
  }

  /**
   * One tick at host time `now`, `u` being the random draw should the
   * supervisor enter a new status.  If, after both updates, the character
   * relaxes while the supervisor peeps, the round is lost: summary, the
   * character cries, the supervisor turns mad, and the difficulty is left as
   * it was.  Otherwise the difficulty is recomputed from the hour reached.
   */
  function Tick(g: Session, now: real, u: real): (r: Session)
    requires Timers(g) && (g.time == 0.0 || now >= g.time) && 0.0 <= u < 1.0
    ensures Timers(r) && r.time == now
  {
    var delta := Delta(g.time, now);
    var runningTime := RunningTimeAfter(g, delta);
    var yh := WorkerAfter(g, delta);
    var leader := LeaderAfter(g, delta, u);
    if Caught(yh, leader) then
      Session(Summary, now, runningTime, Worker.Entered(Worker.Cry), Supervisor.Enter(leader, Supervisor.Mad, u))
    else
      Session(g.status, now, runningTime, yh, Supervisor.Rescaled(leader, HourOf(runningTime)))
  }

  /**
   * A press.  Refused unless the character is in the mood to work.  Accepted
   * from the intro or the summary, it starts a new round: play, supervisor
   * absent, running time 0.  Accepted in any status, the character starts
   * working with a fresh timer.
   */
  function Press(g: Session, u: real): (r: Session)
    requires 0.0 <= u < 1.0
    ensures !Worker.InTheMood(g.yh) ==> r == g
    ensures Worker.InTheMood(g.yh) ==> r.yh == Worker.Entered(Worker.Work) && r.status == Play
    ensures Worker.InTheMood(g.yh) && g.status != Play ==>
              r.runningTime == 0.0 && r.leader.status == Supervisor.Absent
              && r.leader.timeInCurrentStatus == 0.0 && r.leader.difficulty == g.leader.difficulty
    ensures g.status == Play ==> r.runningTime == g.runningTime && r.leader == g.leader
    ensures r.time == g.time
  {
    if !Worker.InTheMood(g.yh) then g
    else if g.status == Intro || g.status == Summary then
      Session(Play, g.time, 0.0, Worker.Entered(Worker.Work), Supervisor.Enter(g.leader, Supervisor.Absent, u))
    else
      assert g.status == Play;
      g.(yh := Worker.Entered(Worker.Work))
  }

  /** A release: a working character relaxes; nothing else changes, ever. */
  function Release(g: Session): (r: Session)
    ensures g.yh.status == Worker.Work ==> r == g.(yh := Worker.Entered(Worker.Relax))
    ensures g.yh.status != Worker.Work ==> r == g
  {
    if g.yh.status == Worker.Work then g.(yh := Worker.Entered(Worker.Relax)) else g
  }

  /**
   * What holds between ticks and events of a session: the character cries
   * exactly in the summary, which is exactly when the supervisor is mad; in
   * the intro nothing has started; a working character has not yet worked
   * past its limit.
   */
  ghost predicate Invariant(g: Session) {
    && Timers(g)
    && (g.yh.status == Worker.Work ==> g.yh.timeInCurrentStatus <= Worker.MaxWorkTime)
    && Supervisor.Consistent(g.leader) && Supervisor.PeepPlaysForward(g.leader)
    && (g.status == Summary <==> g.yh.status == Worker.Cry)
    && (g.status == Summary <==> g.leader.status == Supervisor.Mad)
    && (g.status == Intro ==>
          g.yh.status == Worker.Relax && g.leader.status == Supervisor.Absent && g.runningTime == 0.0)
  }

  lemma InitialInvariant(u: real)
    requires 0.0 <= u < 1.0
    ensures Invariant(Initial(u))
  {
  }

  lemma {:induction false} TickInvariant(g: Session, now: real, u: real)
    requires Invariant(g) && (g.time == 0.0 || now >= g.time) && 0.0 <= u < 1.0
    ensures Invariant(Tick(g, now, u))
  {
    var delta := Delta(g.time, now);
    var yh := WorkerAfter(g, delta);
    var leader := LeaderAfter(g, delta, u);
    if g.status != Intro {
      Supervisor.AdvanceKeepsConsistent(g.leader, delta, u);
    }
    if Caught(yh, leader) {
      Supervisor.EnterConsistent(leader, Supervisor.Mad, u);
    }
  }

  lemma PressInvariant(g: Session, u: real)
    requires Invariant(g) && 0.0 <= u < 1.0
    ensures Invariant(Press(g, u))
  {
    if Worker.InTheMood(g.yh) && g.status != Play {
      Supervisor.EnterConsistent(g.leader, Supervisor.Absent, u);
    }
  }

  lemma ReleaseInvariant(g: Session)
    requires Invariant(g)
    ensures Invariant(Release(g))
  {
  }

  /**
   * The loss rule fires on a tick exactly when, after both updates, the
   * character relaxes and the supervisor peeps; it ends the round.  Otherwise
   * the status is kept and the difficulty follows the hour reached.
   */
  lemma TickLoss(g: Session, now: real, u: real)
    requires Invariant(g) && (g.time == 0.0 || now >= g.time) && 0.0 <= u < 1.0
    ensures var delta := Delta(g.time, now);
            var r := Tick(g, now, u);
            (r.status == Summary && g.status != Summary) <==>
              Caught(WorkerAfter(g, delta), LeaderAfter(g, delta, u))
    ensures var delta := Delta(g.time, now);
            var r := Tick(g, now, u);
            Caught(WorkerAfter(g, delta), LeaderAfter(g, delta, u)) ==>
              g.status == Play && r.yh == Worker.Entered(Worker.Cry)
              && r.leader.status == Supervisor.Mad && r.leader.difficulty == g.leader.difficulty
    ensures var delta := Delta(g.time, now);
            var r := Tick(g, now, u);
            !Caught(WorkerAfter(g, delta), LeaderAfter(g, delta, u)) ==>
              r.status == g.status && r.leader.difficulty == ForHour(HourOf(r.runningTime))
  {
  }

  /** A character that is still working after its update is never caught. */
  lemma NoLossWhileWorking(g: Session, now: real, u: real)
    requires Timers(g) && (g.time == 0.0 || now >= g.time) && 0.0 <= u < 1.0
    requires g.yh.status == Worker.Work
    requires g.yh.timeInCurrentStatus + Delta(g.time, now) <= Worker.MaxWorkTime
    ensures Tick(g, now, u).status == g.status
    ensures Tick(g, now, u).yh.status == Worker.Work
  {
  }

  /**
   * The running time grows by the tick's delta in play and stays put in the
   * intro and the summary; the first tick after construction sees no time pass.
   */
  lemma TickRunningTime(g: Session, now: real, u: real)
    requires Timers(g) && (g.time == 0.0 || now >= g.time) && 0.0 <= u < 1.0
    ensures g.status == Play ==> Tick(g, now, u).runningTime == g.runningTime + Delta(g.time, now)
    ensures g.status != Play ==> Tick(g, now, u).runningTime == g.runningTime
    ensures g.time == 0.0 ==> Tick(g, now, u).runningTime == g.runningTime
  {
  }

  /** During the intro the supervisor does not move. */
  lemma IntroFreezesLeader(g: Session, now: real, u: real)
    requires Invariant(g) && g.status == Intro && (g.time == 0.0 || now >= g.time) && 0.0 <= u < 1.0
    ensures var r := Tick(g, now, u);
            r.status == Intro && r.leader.status == Supervisor.Absent
            && r.leader.timeInCurrentStatus == g.leader.timeInCurrentStatus
  {
  }

  /**
   * Presses cannot be repeated in quick succession: a second press right
   * after any press changes nothing.
   */
  lemma PressTwice(g: Session, u: real, v: real)
    requires 0.0 <= u < 1.0 && 0.0 <= v < 1.0
    ensures Press(Press(g, u), v) == Press(g, u)
  {
    if Worker.InTheMood(g.yh) {
      assert !Worker.InTheMood(Press(g, u).yh);
    }
  }

  /**
   * A new round can start only after the character has cried for strictly
   * more than 3000 ms: in the summary, a press is refused until then and
   * accepted afterwards.
   */
  lemma RestartAfterCrying(g: Session, u: real)
    requires Invariant(g) && g.status == Summary && 0.0 <= u < 1.0
    ensures Press(g, u).status == Play <==> g.yh.timeInCurrentStatus > Worker.MinCryTime
  {
  }

  /**
   * The round described for the game: the character has relaxed for more
   * than 100 ms in the intro; a press starts play; the input is held for
   * 1600 ms, over one tick, without being caught; the character has relaxed
   * by itself, and the late release changes nothing.
   */
  lemma HoldPastMaxWork(g: Session, u: real, v: real, now: real)
    requires Invariant(g) && g.status == Intro && g.time > 0.0
    requires g.yh.timeInCurrentStatus > Worker.MinRelaxTime
    requires 0.0 <= u < 1.0 && 0.0 <= v < 1.0 && now == g.time + 1600.0
    ensures var p := Press(g, u);
            p.status == Play && p.yh == Worker.Entered(Worker.Work) && p.runningTime == 0.0
    ensures var t := Tick(Press(g, u), now, v);
            t.status == Play && t.yh == Worker.Entered(Worker.Relax) && t.runningTime == 1600.0
            && Release(t) == t
  {
    var p := Press(g, u);
    assert p.leader.status == Supervisor.Absent;
    var leader := LeaderAfter(p, 1600.0, v);
    assert leader.status != Supervisor.Peep;
  }

  /** The game, updated in place by the host's frame callbacks and input events. */
  class Runner {
    var time: real
    var runningTime: real
    var status: Status
    /** Whether an animation frame has been requested and not yet delivered. */
    var updatePending: bool
    /** Animation frames requested from the host and not yet delivered. */
    ghost var requested: nat
    const yh: Worker.YH
    const leader: Supervisor.Leader

    function Model(): Session
      reads this, yh, leader
    {
      Session(status, time, runningTime, yh.Model(), leader.Model())
    }

    ghost predicate Valid()
      reads this, yh, leader
    {
      && yh.Valid() && leader.Valid()
      && Invariant(Model())
      && requested <= 1 && (updatePending <==> requested == 1)
    }

    /** The runner once constructed and initialised, before its first tick. */
    constructor (u: real)
      requires 0.0 <= u < 1.0
      ensures Valid() && Model() == Initial(u) && requested == 0
    {
      time := 0.0;
      runningTime := 0.0;
      status := Intro;
      updatePending := false;
      requested := 0;
      yh := new Worker.YH();
      leader := new Supervisor.Leader(u);
      new;
      InitialInvariant(u);
    }

    /**
     * Requests the next animation frame unless one is already requested, so
     * that at most one frame callback is ever outstanding.
     */
    method ScheduleNextUpdate()
      requires requested <= 1 && (updatePending <==> requested == 1)
      modifies this`updatePending, this`requested
      ensures updatePending && requested == 1
    {
      if !updatePending {
        updatePending := true;
        requested := requested + 1;
      }
    }

    /**
     * One frame at host time `now`: the requested frame, or the first call
     * made by `init`.
     */
    method Update(now: real, u: real)
      requires Valid() && (time == 0.0 || now >= time) && 0.0 <= u < 1.0
      modifies this, yh, leader
      ensures Valid() && Model() == Tick(old(Model()), now, u)
      ensures updatePending && requested == 1
    {
      ghost var g := Model();
      updatePending := false;
      requested := 0;
      var deltaTime := now - (if time != 0.0 then time else now);
      time := now;
      if status == Play {
        runningTime := runningTime + deltaTime;
      }
      assert runningTime == RunningTimeAfter(g, deltaTime);
      UpdateActors(deltaTime, u);
      CheckLoss(g, now, u);
      ScheduleNextUpdate();
    }

    /**
     * Updates the character and, outside the intro, the supervisor (each
     * drawing its frame).
     */
    method UpdateActors(delta: real, u: real)
      requires yh.Valid() && leader.Valid() && Supervisor.PeepPlaysForward(leader.Model())
      requires delta >= 0.0 && 0.0 <= u < 1.0
      modifies yh, leader
      ensures yh.Valid() && leader.Valid()
      ensures yh.Model() == Worker.Advance(old(yh.Model()), delta)
      ensures leader.Model() == if status != Intro then Supervisor.Advance(old(leader.Model()), delta, u)
                                else old(leader.Model())
      ensures Supervisor.PeepPlaysForward(leader.Model())
    {
      var yhFrame := yh.Update(delta);
      if status != Intro {
        Supervisor.AdvanceKeepsConsistent(leader.Model(), delta, u);
        var leaderDrawn, leaderFrame := leader.Update(delta, u);
      }
    }

    /**
     * The loss rule, applied once both characters have been updated; without
     * a loss, the difficulty follows the hour reached.
     */
    method CheckLoss(ghost g: Session, now: real, u: real)
      requires yh.Valid() && leader.Valid()
      requires Invariant(g) && (g.time == 0.0 || now >= g.time) && 0.0 <= u < 1.0
      requires time == now && status == g.status
      requires runningTime == RunningTimeAfter(g, Delta(g.time, now))
      requires yh.Model() == WorkerAfter(g, Delta(g.time, now))
      requires leader.Model() == LeaderAfter(g, Delta(g.time, now), u)
      modifies this`status, yh, leader
      ensures yh.Valid() && leader.Valid()
      ensures Model() == Tick(g, now, u) && Invariant(Model())
    {
      if yh.status == Worker.Relax && leader.status == Supervisor.Peep {
        status := Summary;
        yh.SetStatus(Worker.Cry);
        leader.SetStatus(Supervisor.Mad, u);
      } else {
        leader.UpdateDifficulty(HourOf(runningTime));
      }
      TickInvariant(g, now, u);
    }

    /** A press of the input (the W key, a touch or a mouse button). */
    method OnKeyDown(u: real)
      requires Valid() && 0.0 <= u < 1.0
      modifies this, yh, leader
      ensures Valid() && Model() == Press(old(Model()), u)
      ensures updatePending == old(updatePending) && requested == old(requested)
    {
      ghost var g := Model();
      if yh.InTheMoodToWork() {
        if status == Intro || status == Summary {
          status := Play;
          leader.SetStatus(Supervisor.Absent, u);
          runningTime := 0.0;
        }
        yh.SetStatus(Worker.Work);
      }
      PressInvariant(g, u);
    }

    /** A release of the input. */
    method OnKeyUp()
      requires Valid()
      modifies yh
      ensures Valid() && Model() == Release(old(Model()))
    {
      ghost var g := Model();
      if yh.status == Worker.Work {
        yh.SetStatus(Worker.Relax);
      }
      ReleaseInvariant(g);
    }
  }
}
