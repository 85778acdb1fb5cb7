/** The boss's timed behaviour: phase durations, the survival thresholds, the
    points the boss eases toward, its active-phase motion and the phase pick.
    The sub-state machine that uses them is Game.GameState. */
module BossPhase {
  import opened Geometry

  /** The boss's sub-state. The source keeps three flags, and the flag for a
      phase warning may stay set underneath a survival interlude; which
      branch of the frame runs is decided by priority, survival warning
      first, then survival, then phase warning, else the active phase. */
  datatype Mode = SurvivalWarning | Survival | Warning | Active

  function ModeOf(isSurvivalWarning: bool, isSurvival: bool, isWarning: bool): Mode {
    if isSurvivalWarning then SurvivalWarning
    else if isSurvival then Survival
    else if isWarning then Warning
    else Active
  }

  /** The boss's full health, `bossMaxHP`. */
  const BossMaxHP: real := 8000.0

  /** The warning telegraphs (before a phase and before a survival interlude) last 2 s;
      a survival interlude lasts 15 s. */
  const WarningDuration: real := 2.0
  const SurvivalDuration: real := 15.0

  /** How long a phase runs before the next is picked: 6 s for the stream, 8 s otherwise. */
  function PhaseDuration(phase: int): (d: real)
    ensures d > 0.0
  {
    if phase == 6 then 6.0 else 8.0
  }

  /** The survival trigger: the boss's health ratio has fallen below
      1 - 0.3 * nextThreshold, i.e. 70 %, 40 %, 10 % for the first three thresholds. */
  predicate SurvivalDue(hp: real, nextThreshold: int) {
    hp / BossMaxHP < 1.0 - nextThreshold as real * 0.3
  }

  /** The threshold as an absolute amount of health: each threshold lies 2400
      below the previous one, and a boss that is still alive never meets the
      fourth or any later one. */
  lemma SurvivalThresholds(hp: real, nextThreshold: int)
    ensures SurvivalDue(hp, nextThreshold) <==> hp < BossMaxHP - 2400.0 * nextThreshold as real
    ensures hp > 0.0 && SurvivalDue(hp, nextThreshold) ==> nextThreshold <= 3
  {
    assert hp / BossMaxHP * BossMaxHP == hp;
  }

  const Centre: Vec := Vec(WorldW / 2.0, WorldH / 2.0)
  const TopStage: Vec := Vec(WorldW / 2.0, 150.0)

  /** Where the boss heads while a survival interlude is announced: the top
      stage before the first interlude, the centre before the others. */
  function SurvivalWarningTarget(nextThreshold: int): Vec {
    if nextThreshold == 1 then TopStage else Centre
  }

  /** Where the boss holds during a survival interlude (nextThreshold has
      already advanced): the top stage in the first, the centre in the others. */
  function SurvivalTarget(nextThreshold: int): Vec {
    if nextThreshold == 2 then TopStage else Centre
  }

  /** The boss keeps heading for the same point from the announcement of an
      interlude through to its end, although the two targets are chosen on
      either side of the threshold's advance. */
  lemma InterludeKeepsItsStage(nextThreshold: int)
    requires nextThreshold >= 1
    ensures SurvivalTarget(nextThreshold + 1) == SurvivalWarningTarget(nextThreshold)
  {
  }

  /** The staging point of the warning before a phase: top centre for the
      rain, right of centre for the gap ring, the right edge for the stream,
      the centre otherwise. */
  function StagingPoint(phase: int): (p: Vec)
    ensures 0.0 <= p.x <= WorldW && 0.0 <= p.y <= WorldH
  {
    if phase == 2 then Vec(WorldW / 2.0, 200.0)
    else if phase == 3 then Vec(WorldW / 2.0 + 400.0, WorldH / 2.0)
    else if phase == 6 then Vec(WorldW - 100.0, WorldH / 2.0)
    else Centre
  }

  /** Closed-form positions of the active phases 2, 3 and 6 at phase time t:
      a figure-eight along the top, a circle of radius 400 about the centre,
      and an ellipse along the arena's edge. */
  function Orbit(env: Trig, phase: int, t: real): Vec {
    if phase == 2 then Vec(WorldW / 2.0 + env.cos(t) * 600.0, 200.0 + env.sin(t * 2.0) * 100.0)
    else if phase == 3 then
      var a := t * 1.25;
      Vec(WorldW / 2.0 + env.cos(a) * 400.0, WorldH / 2.0 + env.sin(a) * 400.0)
    else
      var a := -t * 0.5;
      Vec(WorldW / 2.0 + env.cos(a) * (WorldW / 2.0 - 100.0), WorldH / 2.0 + env.sin(a) * (WorldH / 2.0 - 100.0))
  }

  /** Phase 4 homes in on the player: its tracked centre eases toward the
      player at the homing gain, and the boss circles that centre at radius 200. */
  function HomingOffset(env: Trig, t: real): Vec {
    Vec(env.cos(t * 3.0) * 200.0, env.sin(t * 3.0) * 200.0)
  }

  // ---------------------------------------------------------------- the phase pick

  /** `rand() % 6 + 1`: the phase named by the n-th draw of the random source. */
  function Draw(rand: nat -> nat, n: nat): (p: int)
    ensures 1 <= p <= 6
  {
    rand(n) % 6 + 1
  }

  /** The random source keeps varying: whatever a draw names, a later draw names
      another phase. This is what makes the "draw until different" loop finish. */
  ghost predicate Varies(rand: nat -> nat) {
    forall n: nat :: ChangesAfter(rand, n)
  }

  /** Some draw after the n-th names a different phase from the n-th. */
  ghost predicate ChangesAfter(rand: nat -> nat, n: nat) {
    exists k: nat :: n < k && Draw(rand, k) != Draw(rand, n)
  }

  /** Draws, from the cursor on, until one names a phase other than `current`;
      returns that phase and the cursor past the draws it used. */
  method PickPhase(rand: nat -> nat, cursor: nat, current: int) returns (next: int, used: nat)
    requires Varies(rand)
    ensures 1 <= next <= 6 && next != current
    ensures cursor < used && next == Draw(rand, used - 1)
    ensures forall m :: cursor <= m < used - 1 ==> Draw(rand, m) == current
  {
    ghost var bound: nat := cursor;
    if Draw(rand, cursor) == current {
      assert ChangesAfter(rand, cursor);
      ghost var k :| cursor < k && Draw(rand, k) != Draw(rand, cursor);
      bound := k;
    }
    next := Draw(rand, cursor);
    used := cursor + 1;
    while next == current
      invariant cursor < used <= bound + 1
      invariant Draw(rand, bound) != current
      invariant next == Draw(rand, used - 1)
      invariant forall m :: cursor <= m < used - 1 ==> Draw(rand, m) == current
      decreases bound + 1 - used
    {
      next := Draw(rand, used);
      used := used + 1;
    }
  }
}
