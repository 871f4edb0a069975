/**
 * The difficulty curve of the coin catcher: every decay tick the spawn delay
 * shrinks by a rate that depends on the score, never below a floor.
 */
module Difficulty {

  /** Delay between two coin spawns when the scene starts, in milliseconds. */
  const InitialSpawnDelay: real := 1000.0
  /** The spawn delay never shrinks below this, in milliseconds. */
  const MinSpawnDelay: real := 300.0
  /** Period of the looping decay timer, in milliseconds. */
  const DecayTickDelay: real := 5000.0

  /**
   * The factor the spawn delay is multiplied by on a decay tick: a flat 0.98
   * below a score of 400, then a linear ramp that starts at 0.85 and loses
   * 0.1 for every further 100 points.
   */
  function ReductionRate(score: nat): (rate: real)
    ensures rate <= 0.98
    ensures score < 400 ==> rate == 0.98
    ensures 400 <= score <= 500 ==> 0.75 <= rate <= 0.85
  {
    if score >= 400 then
      var progress := (score - 400) as real / 100.0;
      0.85 - progress * 0.1
    else
      0.98
  }

  /** On the ramp the rate falls by exactly 0.001 per point of score, so it is strictly decreasing there. */
  lemma RateStrictlyDecreasing(s1: nat, s2: nat)
    requires 400 <= s1 < s2
    ensures ReductionRate(s1) - ReductionRate(s2) == (s2 - s1) as real / 1000.0
    ensures ReductionRate(s2) < ReductionRate(s1)
  {
  }

  /** Sample points of the curve, including the jump from 0.98 to 0.85 at a score of 400. */
  lemma RateExamples()
    ensures ReductionRate(0) == 0.98 && ReductionRate(399) == 0.98
    ensures ReductionRate(400) == 0.85
    ensures ReductionRate(450) == 0.80
    ensures ReductionRate(500) == 0.75
  {
  }

  /**
   * The new spawn delay after one decay tick: the old delay times the rate,
   * but never less than MinSpawnDelay.
   */
  function NextSpawnDelay(delay: real, score: nat): (next: real)
    ensures next >= MinSpawnDelay
    ensures next >= delay * ReductionRate(score)
    ensures next == MinSpawnDelay || next == delay * ReductionRate(score)
    ensures delay > MinSpawnDelay ==> next < delay
    ensures delay > MinSpawnDelay ==> next == MinSpawnDelay || next <= delay * 0.98
  {
    var scaled := delay * ReductionRate(score);
    RateBelowOne(delay, score);
    if MinSpawnDelay > scaled then MinSpawnDelay else scaled
  }

  /** Scaling a positive delay by the rate shrinks it by at least two percent. */
  lemma RateBelowOne(delay: real, score: nat)
    ensures delay > 0.0 ==> delay * ReductionRate(score) <= delay * 0.98 < delay
  {
  }

  /** One decay tick at the given score: the delay changes only while it is above the floor. */
  function DecayTick(delay: real, score: nat): real {
    if delay > MinSpawnDelay then NextSpawnDelay(delay, score) else delay
  }

  /**
   * The spawn delay after one decay tick per entry of `scores`, each tick
   * taken at the score the game had at that moment.
   */
  function SpawnDelayAfter(delay: real, scores: seq<nat>): (r: real)
    requires delay >= MinSpawnDelay
    ensures MinSpawnDelay <= r <= delay
    decreases |scores|
  {
    if scores == [] then delay
    else DecayTick(SpawnDelayAfter(delay, scores[..|scores| - 1]), scores[|scores| - 1])
  }

  /**
   * Every tick above the floor removes at least 6 ms (two percent of at least
   * 300 ms), whatever the score at that tick, so after n ticks the delay is
   * at most the larger of the floor and the starting delay less 6n.
   */
  lemma {:induction false} DecayBound(delay: real, scores: seq<nat>)
    requires delay >= MinSpawnDelay
    ensures SpawnDelayAfter(delay, scores) <= MinSpawnDelay
                                             || SpawnDelayAfter(delay, scores) <= delay - 6.0 * |scores| as real
    decreases |scores|
  {
    if scores != [] {
      DecayBound(delay, scores[..|scores| - 1]);
    }
  }

  /** Once 6 ms per tick covers the distance to the floor, the delay is exactly at the floor, whatever the scores. */
  lemma DecayReachesFloor(delay: real, scores: seq<nat>)
    requires delay >= MinSpawnDelay
    requires |scores| as real * 6.0 >= delay - MinSpawnDelay
    ensures SpawnDelayAfter(delay, scores) == MinSpawnDelay
  {
    DecayBound(delay, scores);
  }

  /** Decay ticks only ever lower the delay: the delay after a run of ticks is at most the delay after any prefix of it. */
  lemma {:induction false} SpawnDelayNonIncreasing(delay: real, scores: seq<nat>, k: nat)
    requires delay >= MinSpawnDelay
    requires k <= |scores|
    ensures SpawnDelayAfter(delay, scores) <= SpawnDelayAfter(delay, scores[..k])
    decreases |scores|
  {
    if k < |scores| {
      var init := scores[..|scores| - 1];
      assert init[..k] == scores[..k];
      SpawnDelayNonIncreasing(delay, init, k);
    } else {
      assert scores[..k] == scores;
    }
  }

  /**
   * The worked numbers: 1000 ms at score 0 becomes 980 ms; 980 ms at score 400
   * becomes 833 ms; and from the initial 1000 ms at score 0 the 6 ms bound
   * puts the delay at the floor within 117 ticks (with exact rates the floor
   * is reached at tick 60, since 1000 * 0.98^59 is about 303.6).
   */
  lemma SpawnDelayScenario()
    ensures NextSpawnDelay(InitialSpawnDelay, 0) == 980.0
    ensures NextSpawnDelay(980.0, 400) == 833.0
    ensures NextSpawnDelay(833.0, 450) == 666.4
    ensures NextSpawnDelay(310.0, 450) == MinSpawnDelay
    ensures SpawnDelayAfter(InitialSpawnDelay, seq(117, _ => 0)) == MinSpawnDelay
  {
    DecayReachesFloor(InitialSpawnDelay, seq(117, _ => 0));
  }
}
