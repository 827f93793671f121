/**
 * The supervisor's timing parameters and how they scale with the hours the
 * player has survived (one "hour" is 2000 ms of play).
 */
module Scaling {

  /**
   * riseTime is the length of the supervisor's rise and lower animations; the
   * four bounds are stored by the supervisor but never read when it picks a
   * peep or absent duration.
   */
  datatype Difficulty = Difficulty(
    riseTime: real,
    minPeepTime: int,
    maxPeepTime: int,
    minAbsentTime: int,
    maxAbsentTime: int)

  /** The shortest rise the curve reaches. */
  const MinRiseTime: real := 1000.0 / 7.0

  /** Milliseconds of play per survived hour. */
  const MsPerHour: real := 2000.0

  /** The parameters a new supervisor starts with, before any update. */
  function Defaults(): (d: Difficulty)
    ensures d.riseTime == 3000.0 / 7.0 && d.maxAbsentTime == 2000
  {
    Difficulty(3000.0 / 7.0, 800, 1000, 500, 2000)
  }

  function MaxReal(a: real, b: real): real { if a >= b then a else b }
  function MaxInt(a: int, b: int): int { if a >= b then a else b }
  function MinInt(a: int, b: int): int { if a <= b then a else b }

  /**
   * The parameters for survived hour `hour`, each a linear function of the
   * hour clamped at a floor or a ceiling.  They are recomputed from the hour
   * alone, never from the previous parameters.
   */
  function ForHour(hour: nat): (d: Difficulty)
    ensures MinRiseTime <= d.riseTime <= 3000.0 / 7.0
    ensures 800 <= d.minPeepTime <= 1000 && 1000 <= d.maxPeepTime <= 1200
    ensures 200 <= d.minAbsentTime <= 500 && 1000 <= d.maxAbsentTime <= 1200
    ensures d.minPeepTime < d.maxPeepTime && d.minAbsentTime < d.maxAbsentTime
  {
    Difficulty(
      MaxReal(1000.0 / 7.0, (3000 - 50 * hour) as real / 7.0),
      MinInt(1000, 800 + 10 * hour),
      MinInt(1200, 1000 + 10 * hour),
      MaxInt(200, 500 - 10 * hour),
      MaxInt(1000, 1200 - 20 * hour))
  }

  /**
   * The game only gets harder: a later hour never lengthens the rise, never
   * lowers a peep bound and never raises an absent bound.
   */
  lemma ForHourMonotone(h1: nat, h2: nat)
    requires h1 <= h2
    ensures ForHour(h2).riseTime <= ForHour(h1).riseTime
    ensures ForHour(h1).minPeepTime <= ForHour(h2).minPeepTime
    ensures ForHour(h1).maxPeepTime <= ForHour(h2).maxPeepTime
    ensures ForHour(h2).minAbsentTime <= ForHour(h1).minAbsentTime
    ensures ForHour(h2).maxAbsentTime <= ForHour(h1).maxAbsentTime
  {
  }

  /** From hour 40 on every parameter sits at its clamp. */
  lemma ForHourSaturates(hour: nat)
    requires hour >= 40
    ensures ForHour(hour) == Difficulty(MinRiseTime, 1000, 1200, 200, 1000)
  {
  }

  /** Before the clamps bite, each hour shortens the rise by 50/7 ms. */
  lemma ForHourRiseStep(hour: nat)
    requires hour < 40
    ensures ForHour(hour + 1).riseTime == ForHour(hour).riseTime - 50.0 / 7.0
  {
  }

  /** The hour bucket a running time falls in: floor(runningTime / 2000). */
  function HourOf(runningTime: real): (hour: nat)
    requires runningTime >= 0.0
    ensures hour as real * MsPerHour <= runningTime < (hour + 1) as real * MsPerHour
  {
    var h := (runningTime / MsPerHour).Floor;
    assert h as real * MsPerHour <= runningTime < (h + 1) as real * MsPerHour;
    h
  }

  /** A longer running time never falls in an earlier hour. */
  lemma HourOfMonotone(r1: real, r2: real)
    requires 0.0 <= r1 <= r2
    ensures HourOf(r1) <= HourOf(r2)
  {
  }
}
