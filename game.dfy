/** The simulation of one boss encounter, as main() runs it frame by frame:
    its local variables and function-local statics become the fields of
    GameState, and each block of the frame becomes a method that changes
    them in place. Window, drawing, colours and event polling are not here;
    what the frame reads from them arrives as an Input. */
module Game {
  import opened Geometry
  import opened Projectiles
  import opened Patterns
  import opened Lifecycle
  import opened BossPhase

  /** What one frame reads from the keyboard and mouse: the movement keys
      held (W, S, A, D), whether the left and right buttons fire this frame
      (pressed, with their refire timers already elapsed), the mouse in
      world coordinates, and whether R was pressed. */
  datatype Input = Input(up: bool, down: bool, left: bool, right: bool,
                         fire: bool, spread: bool, aim: Vec, resetPressed: bool)

  /** The player's displacement for a frame: 500 units per second per held key. */
  function Movement(dt: real, input: Input): Vec {
    Vec((if input.left then -500.0 * dt else 0.0) + (if input.right then 500.0 * dt else 0.0),
        (if input.up then -500.0 * dt else 0.0) + (if input.down then 500.0 * dt else 0.0))
  }

  const PlayerMaxHealth: real := 1000.0
  const PlayerStart: Vec := Vec(WorldW / 2.0, WorldH * 0.8)
  const BossStart: Vec := Vec(WorldW / 2.0, 200.0)

  class GameState {
    /** The <cmath> functions and the random source: rand(n) is the n-th
        value rand() returns, and randCursor counts the values used so far. */
    const env: Trig
    const rand: nat -> nat
    var randCursor: nat

    var isGameOver: bool
    var isVictory: bool
    var playerHealth: real
    var bossCurrentHP: real

    var bossTimer: real
    var spawnTimer: real
    var survivalSpawnTimer: real
    var patternTimer: real
    var warningTimer: real
    var survivalTimer: real

    var isWarning: bool
    var isSurvival: bool
    var isSurvivalWarning: bool
    var currentPhase: int
    var nextThreshold: int

    var bullets: seq<Bullet>
    var playerBullets: seq<PlayerBullet>

    /** When hitTimer was last restarted. */
    var lastHit: real
    var playerPos: Vec
    var bossPos: Vec

    /** The function-local statics: the spiral's and the cross's rotations
        (two distinct statics both named r), the dense cross's rotation cR,
        the miasma's rotation tR, the knife wall's timer wT, the poprock and
        tower timers prT and towerT, the towers' rotation towerR, and phase
        4's tracked centre cp, which is initialised on first use. */
    var spiralR: real
    var crossR: real
    var cR: real
    var tR: real
    var wT: real
    var prT: real
    var towerT: real
    var towerR: real
    var cp: Vec
    var cpInit: bool

    /** The sub-state invariant: a phase in 1..6, a threshold in 1..4, never both
        survival flags at once, and a threshold that fits the interlude. */
    ghost predicate Wf()
      reads this
    {
      1 <= currentPhase <= 6
      && 1 <= nextThreshold <= 4
      && !(isSurvival && isSurvivalWarning)
      && (isSurvivalWarning ==> nextThreshold <= 3)
      && (isSurvival ==> 2 <= nextThreshold)
    }

    /** The state invariant between frames: the random source keeps varying, the
        sub-state is well formed, and the outcome flags record exactly whether a
        health pool has run out. */
    ghost predicate Valid()
      reads this
    {
      Varies(rand) && Wf() && isGameOver == (playerHealth <= 0.0) && isVictory == (bossCurrentHP <= 0.0)
    }

    predicate Terminal()
      reads this
    {
      isGameOver || isVictory
    }

    ghost function SubState(): Mode
      reads this
    {
      ModeOf(isSurvivalWarning, isSurvival, isWarning)
    }

    /** The values resetGame sets. */
    ghost predicate AtStart()
      reads this
    {
      playerHealth == PlayerMaxHealth && bossCurrentHP == BossMaxHP
      && bullets == [] && playerBullets == []
      && bossTimer == 0.0 && spawnTimer == 0.0 && survivalSpawnTimer == 0.0
      && patternTimer == 0.0 && warningTimer == 0.0 && survivalTimer == 0.0
      && !isSurvival && !isSurvivalWarning && !isWarning && !isGameOver && !isVictory
      && nextThreshold == 1 && currentPhase == 1
      && playerPos == PlayerStart && bossPos == BossStart
    }

    ghost function Accumulators(): seq<real>
      reads this
    {
      [spiralR, crossR, cR, tR, wT, prT, towerT, towerR]
    }

    /** main()'s set-up: its initial values followed by resetGame(); the
        statics start at zero, and hitTimer starts at `now`. */
    constructor (env: Trig, rand: nat -> nat, now: real)
      requires Varies(rand)
      ensures Valid() && AtStart()
      ensures this.env == env && this.rand == rand && randCursor == 0
      ensures Accumulators() == [0.0, 0.0, 0.0, 0.0, 0.0, 0.0, 0.0, 0.0] && !cpInit
      ensures lastHit == now
    {
      this.env := env;
      this.rand := rand;
      randCursor := 0;
      isGameOver, isVictory := false, false;
      playerHealth, bossCurrentHP := PlayerMaxHealth, BossMaxHP;
      bossTimer, spawnTimer, survivalSpawnTimer := 0.0, 0.0, 0.0;
      patternTimer, warningTimer, survivalTimer := 0.0, 0.0, 0.0;
      isWarning, isSurvival, isSurvivalWarning := false, false, false;
      currentPhase, nextThreshold := 1, 1;
      bullets, playerBullets := [], [];
      lastHit := now;
      playerPos, bossPos := PlayerStart, BossStart;
      spiralR, crossR, cR, tR, wT, prT, towerT, towerR := 0.0, 0.0, 0.0, 0.0, 0.0, 0.0, 0.0, 0.0;
      cp, cpInit := Zero, false;
    }

    // ------------------------------------------------------------ reset and outcome

    /** resetGame: the encounter's start values; its frame leaves the
        statics, the hit timer and the random source untouched. */
    method ResetGame()
      modifies this`playerHealth, this`bossCurrentHP, this`bullets, this`playerBullets,
               this`bossTimer, this`spawnTimer, this`survivalSpawnTimer, this`patternTimer,
               this`warningTimer, this`survivalTimer, this`isSurvival, this`isSurvivalWarning,
               this`isWarning, this`isGameOver, this`isVictory, this`nextThreshold,
               this`currentPhase, this`playerPos, this`bossPos
      ensures Wf()
      ensures AtStart()
    {
      ResetPools();
      ResetTimers();
      ResetFlags();
      playerPos := PlayerStart;
      bossPos := BossStart;
    }

    /** Both health pools full, both stores empty. */
    method ResetPools()
      modifies this`playerHealth, this`bossCurrentHP, this`bullets, this`playerBullets
      ensures playerHealth == PlayerMaxHealth && bossCurrentHP == BossMaxHP
      ensures bullets == [] && playerBullets == []
    {
      playerHealth := PlayerMaxHealth;
      bossCurrentHP := BossMaxHP;
      bullets := [];
      playerBullets := [];
    }

    /** Every timer of the encounter back at zero. */
    method ResetTimers()
      modifies this`bossTimer, this`spawnTimer, this`survivalSpawnTimer, this`patternTimer,
               this`warningTimer, this`survivalTimer
      ensures bossTimer == 0.0 && spawnTimer == 0.0 && survivalSpawnTimer == 0.0
      ensures patternTimer == 0.0 && warningTimer == 0.0 && survivalTimer == 0.0
    {
      bossTimer, spawnTimer, survivalSpawnTimer := 0.0, 0.0, 0.0;
      patternTimer, warningTimer, survivalTimer := 0.0, 0.0, 0.0;
    }

    /** No interlude, no warning, no outcome; phase 1 and the first threshold. */
    method ResetFlags()
      modifies this`isSurvival, this`isSurvivalWarning, this`isWarning, this`isGameOver,
               this`isVictory, this`nextThreshold, this`currentPhase
      ensures !isSurvival && !isSurvivalWarning && !isWarning && !isGameOver && !isVictory
      ensures nextThreshold == 1 && currentPhase == 1
    {
      isSurvival, isSurvivalWarning, isWarning, isGameOver, isVictory := false, false, false, false, false;
      nextThreshold := 1;
      currentPhase := 1;
    }

    /** The R key: honoured only once the encounter is over. */
    method PressReset()
      requires Valid()
      modifies this`playerHealth, this`bossCurrentHP, this`bullets, this`playerBullets,
               this`bossTimer, this`spawnTimer, this`survivalSpawnTimer, this`patternTimer,
               this`warningTimer, this`survivalTimer, this`isSurvival, this`isSurvivalWarning,
               this`isWarning, this`isGameOver, this`isVictory, this`nextThreshold,
               this`currentPhase, this`playerPos, this`bossPos
      ensures Valid()
      ensures old(Terminal()) ==> AtStart()
      ensures !old(Terminal()) ==> unchanged(this)
    {
      if isGameOver || isVictory {
        ResetGame();
      }
    }

    /** The end of the frame: defeat once the player's health is gone,
        victory once the boss's is; both can be set in the same frame. */
    method CheckOutcome()
      modifies this`isGameOver, this`isVictory
      ensures isGameOver == (old(isGameOver) || playerHealth <= 0.0)
      ensures isVictory == (old(isVictory) || bossCurrentHP <= 0.0)
    {
      if playerHealth <= 0.0 {
        isGameOver := true;
      }
      if bossCurrentHP <= 0.0 {
        isVictory := true;
      }
    }

    // ------------------------------------------------------------ the boss's state machine

    /** The survival trigger: outside any interlude, a boss whose health ratio
        has fallen below the next threshold starts a survival warning, and the
        bullet store is emptied. The phase-warning flag is left as it is. */
    method CheckSurvivalTrigger()
      requires Wf() && bossCurrentHP > 0.0
      modifies this`isSurvivalWarning, this`warningTimer, this`bullets, this`survivalSpawnTimer
      ensures Wf()
      ensures if !old(isSurvival) && !old(isSurvivalWarning) && SurvivalDue(bossCurrentHP, nextThreshold)
              then isSurvivalWarning && warningTimer == 0.0 && bullets == [] && survivalSpawnTimer == 0.0
              else unchanged(this)
    {
      if !isSurvival && !isSurvivalWarning && bossCurrentHP / BossMaxHP < 1.0 - nextThreshold as real * 0.3 {
        SurvivalThresholds(bossCurrentHP, nextThreshold);
        isSurvivalWarning := true;
        warningTimer := 0.0;
        bullets := [];
        survivalSpawnTimer := 0.0;
      }
    }

    /** The phase clock: outside survival it runs (during a phase warning
        too); once it reaches the phase's duration a new phase, different from
        the current one, is drawn and announced by a warning. During survival
        it is frozen. */
    method AdvancePatternClock(dt: real)
      requires Varies(rand) && Wf()
      modifies this`patternTimer, this`isWarning, this`warningTimer, this`currentPhase, this`randCursor
      ensures Wf()
      ensures old(isSurvival || isSurvivalWarning) ==> unchanged(this)
      ensures !old(isSurvival || isSurvivalWarning) && old(patternTimer) + dt < PhaseDuration(old(currentPhase)) ==>
        patternTimer == old(patternTimer) + dt && unchanged(this`isWarning, this`warningTimer, this`currentPhase, this`randCursor)
      ensures !old(isSurvival || isSurvivalWarning) && old(patternTimer) + dt >= PhaseDuration(old(currentPhase)) ==>
        isWarning && warningTimer == 0.0 && patternTimer == 0.0
        && currentPhase != old(currentPhase) && randCursor > old(randCursor)
        && currentPhase == Draw(rand, randCursor - 1)
        && forall m :: old(randCursor) <= m < randCursor - 1 ==> Draw(rand, m) == old(currentPhase)
    {
      if !isSurvival && !isSurvivalWarning {
        patternTimer := patternTimer + dt;
        var dur := if currentPhase == 6 then 6.0 else 8.0;
        if patternTimer >= dur {
          isWarning := true;
          warningTimer := 0.0;
          var nextP, used := PickPhase(rand, randCursor, currentPhase);
          randCursor := used;
          currentPhase := nextP;
          patternTimer := 0.0;
        }
      }
    }

    /** The survival-warning branch: the warning timer runs and the boss eases
        toward the interlude's stage; after 2 s the interlude starts and the
        threshold advances. */
    twostate predicate SurvivalWarningAdvanced(dt: real)
      reads this
    {
      var t := old(warningTimer) + dt;
      var done := t >= WarningDuration;
      warningTimer == t
      && bossPos == Ease(old(bossPos), SurvivalWarningTarget(old(nextThreshold)), StageGain)
      && isSurvivalWarning == !done && isSurvival == done
      && survivalTimer == (if done then 0.0 else old(survivalTimer))
      && survivalSpawnTimer == (if done then 0.0 else old(survivalSpawnTimer))
      && nextThreshold == old(nextThreshold) + (if done then 1 else 0)
      && isWarning == old(isWarning) && bullets == old(bullets)
      && bossTimer == old(bossTimer) && spawnTimer == old(spawnTimer)
      && cp == old(cp) && cpInit == old(cpInit)
    }

    /** The survival branch: the survival timer runs and the boss holds its
        stage; after 15 s the interlude ends in a phase warning (the phase
        itself is unchanged) and the store is emptied. */
    twostate predicate SurvivalAdvanced(dt: real)
      reads this
    {
      var t := old(survivalTimer) + dt;
      var done := t >= SurvivalDuration;
      survivalTimer == t
      && bossPos == Ease(old(bossPos), SurvivalTarget(old(nextThreshold)), StageGain)
      && isSurvival == !done && isWarning == (done || old(isWarning))
      && warningTimer == (if done then 0.0 else old(warningTimer))
      && bullets == (if done then [] else old(bullets))
      && isSurvivalWarning == old(isSurvivalWarning) && survivalSpawnTimer == old(survivalSpawnTimer)
      && nextThreshold == old(nextThreshold)
      && bossTimer == old(bossTimer) && spawnTimer == old(spawnTimer)
      && cp == old(cp) && cpInit == old(cpInit)
    }

    /** The phase-warning branch: the warning timer runs and the boss eases
        toward the new phase's staging point; after 2 s the phase goes live
        with its boss timer and spawn timer at zero. */
    twostate predicate WarningAdvanced(dt: real)
      reads this
    {
      var t := old(warningTimer) + dt;
      var done := t >= WarningDuration;
      warningTimer == t
      && bossPos == Ease(old(bossPos), StagingPoint(currentPhase), WarningGain)
      && isWarning == !done
      && bossTimer == (if done then 0.0 else old(bossTimer))
      && spawnTimer == (if done then 0.0 else old(spawnTimer))
      && isSurvivalWarning == old(isSurvivalWarning) && isSurvival == old(isSurvival)
      && survivalTimer == old(survivalTimer) && survivalSpawnTimer == old(survivalSpawnTimer)
      && nextThreshold == old(nextThreshold) && bullets == old(bullets)
      && cp == old(cp) && cpInit == old(cpInit)
    }

    /** The active branch: the boss timer runs and the boss follows its
        phase's motion; phase 4 moves its tracked centre toward the player
        (first taking the boss's position, if it never ran before). */
    twostate predicate ActiveAdvanced(dt: real)
      reads this
    {
      var t := old(bossTimer) + dt;
      bossTimer == t
      && (currentPhase == 4 ==>
            cpInit && cp == Ease(if old(cpInit) then old(cp) else old(bossPos), playerPos, HomingGain)
            && bossPos == cp.Plus(HomingOffset(env, t)))
      && (currentPhase != 4 ==>
            cp == old(cp) && cpInit == old(cpInit)
            && bossPos == if currentPhase == 1 || currentPhase == 5 then Ease(old(bossPos), Centre, StageGain)
                          else Orbit(env, currentPhase, t))
      && warningTimer == old(warningTimer) && isWarning == old(isWarning)
      && isSurvivalWarning == old(isSurvivalWarning) && isSurvival == old(isSurvival)
      && survivalTimer == old(survivalTimer) && survivalSpawnTimer == old(survivalSpawnTimer)
      && nextThreshold == old(nextThreshold) && bullets == old(bullets) && spawnTimer == old(spawnTimer)
    }

    /** BOSS STATE & MOVEMENT: exactly one branch runs, chosen by priority. */
    method AdvanceBoss(dt: real)
      requires Wf()
      modifies this`warningTimer, this`isSurvivalWarning, this`isSurvival, this`survivalTimer,
               this`survivalSpawnTimer, this`nextThreshold, this`isWarning, this`bullets,
               this`bossTimer, this`spawnTimer, this`bossPos, this`cp, this`cpInit
      ensures Wf()
      ensures old(SubState()) == SurvivalWarning ==> SurvivalWarningAdvanced(dt)
      ensures old(SubState()) == Survival ==> SurvivalAdvanced(dt)
      ensures old(SubState()) == Warning ==> WarningAdvanced(dt)
      ensures old(SubState()) == Active ==> ActiveAdvanced(dt)
    {
      if isSurvivalWarning {
        AdvanceSurvivalWarning(dt);
      } else if isSurvival {
        AdvanceSurvival(dt);
      } else if isWarning {
        AdvanceWarning(dt);
      } else {
        AdvanceActive(dt);
      }
    }

    method AdvanceSurvivalWarning(dt: real)
      requires Wf() && isSurvivalWarning
      modifies this`warningTimer, this`isSurvivalWarning, this`isSurvival, this`survivalTimer,
               this`survivalSpawnTimer, this`nextThreshold, this`bossPos
      ensures Wf()
      ensures SurvivalWarningAdvanced(dt)
    {
      warningTimer := warningTimer + dt;
      bossPos := Ease(bossPos, SurvivalWarningTarget(nextThreshold), StageGain);
      if warningTimer >= WarningDuration {
        isSurvivalWarning, isSurvival := false, true;
        survivalTimer, survivalSpawnTimer := 0.0, 0.0;
        nextThreshold := nextThreshold + 1;
      }
    }

    method AdvanceSurvival(dt: real)
      requires Wf() && !isSurvivalWarning && isSurvival
      modifies this`survivalTimer, this`isSurvival, this`isWarning, this`warningTimer,
               this`bullets, this`bossPos
      ensures Wf()
      ensures SurvivalAdvanced(dt)
    {
      survivalTimer := survivalTimer + dt;
      bossPos := Ease(bossPos, SurvivalTarget(nextThreshold), StageGain);
      if survivalTimer >= SurvivalDuration {
        isSurvival, isWarning := false, true;
        warningTimer := 0.0;
        bullets := [];
      }
    }

    method AdvanceWarning(dt: real)
      requires Wf() && !isSurvivalWarning && !isSurvival && isWarning
      modifies this`warningTimer, this`isWarning, this`bossTimer, this`spawnTimer, this`bossPos
      ensures Wf()
      ensures WarningAdvanced(dt)
    {
      warningTimer := warningTimer + dt;
      bossPos := Ease(bossPos, StagingPoint(currentPhase), WarningGain);
      if warningTimer >= WarningDuration {
        isWarning := false;
        bossTimer, spawnTimer := 0.0, 0.0;
      }
    }

    method AdvanceActive(dt: real)
      modifies this`bossTimer, this`bossPos, this`cp, this`cpInit
      ensures ActiveAdvanced(dt)
    {
      var bPos := bossPos;
      bossTimer := bossTimer + dt;
      if currentPhase == 1 || currentPhase == 5 {
        bossPos := Ease(bPos, Centre, StageGain);
      } else if currentPhase == 4 {
        if !cpInit {
          cp, cpInit := bPos, true;
        }
        cp := Ease(cp, playerPos, HomingGain);
        bossPos := cp.Plus(HomingOffset(env, bossTimer));
      } else {
        bossPos := Orbit(env, currentPhase, bossTimer);
      }
    }

    // ------------------------------------------------------------ the player

    method MovePlayer(dt: real, input: Input)
      modifies this`playerPos
      ensures playerPos == old(playerPos).Plus(Movement(dt, input))
    {
      var mvt := Vec(0.0, 0.0);
      if input.up { mvt := mvt.(y := mvt.y - 500.0 * dt); }
      if input.down { mvt := mvt.(y := mvt.y + 500.0 * dt); }
      if input.left { mvt := mvt.(x := mvt.x - 500.0 * dt); }
      if input.right { mvt := mvt.(x := mvt.x + 500.0 * dt); }
      playerPos := playerPos.Plus(mvt);
    }

    /** The player's shots leave from where the player stood at the start of
        the frame: one aimed at the mouse, and the spread of twelve. */
    method FirePlayerShots(origin: Vec, input: Input)
      modifies this`playerBullets
      ensures playerBullets == old(playerBullets)
        + (if input.fire then [NewPlayerBullet(env, origin, input.aim)] else [])
        + (if input.spread then PlayerSpread(env, origin) else [])
    {
      if input.fire {
        playerBullets := playerBullets + [NewPlayerBullet(env, origin, input.aim)];
      }
      ghost var before := playerBullets;
      if input.spread {
        ghost var spread := PlayerSpread(env, origin);
        var i := 0;
        ghost var n := 0;
        while i < 360
          invariant 0 <= n <= 12 && i == 30 * n
          invariant playerBullets == before + spread[..n]
          modifies this`playerBullets
        {
          assert spread[..n + 1] == spread[..n] + [SpreadShot(env, origin, i)];
          playerBullets := playerBullets + [SpreadShot(env, origin, i)];
          i := i + 30;
          n := n + 1;
        }
        assert spread[..12] == spread;
      }
    }

    /** The arena clamp: the player's circle is kept inside the arena. */
    method ClampPlayer()
      modifies this`playerPos
      ensures playerPos == ClampToArena(old(playerPos), WorldW, WorldH, PlayerRadius)
    {
      var p := playerPos;
      p := p.(x := Clamp(p.x, 15.0, WorldW - 15.0));
      p := p.(y := Clamp(p.y, 15.0, WorldH - 15.0));
      playerPos := p;
    }

    // ------------------------------------------------------------ normal-phase emitters

    method FireSpiral()
      modifies this`spiralR, this`bullets
      ensures spiralR == old(spiralR) + 20.0
      ensures bullets == old(bullets) + SpiralVolley(env, bossPos, spiralR)
    {
      spiralR := spiralR + 20.0;
      var at, r := bossPos, spiralR;
      ghost var volley := SpiralVolley(env, at, r);
      var i := 0;
      ghost var n := 0;
      while i < 360
        invariant 0 <= n <= 12 && i == 30 * n
        invariant bullets == old(bullets) + volley[..n]
        modifies this`bullets
      {
        assert volley[..n + 1] == volley[..n] + [SpiralShot(env, at, r, i)];
        bullets := bullets + [SpiralShot(env, at, r, i)];
        i := i + 30;
        n := n + 1;
      }
      assert volley[..12] == volley;
    }

    /** Each drop takes two draws, its x and then its speed. */
    method FireRain()
      modifies this`bullets, this`randCursor
      ensures randCursor == old(randCursor) + 24
      ensures bullets == old(bullets) + RainVolley(env, rand, old(randCursor))
    {
      ghost var volley := RainVolley(env, rand, randCursor);
      var i := 0;
      while i < 12
        invariant 0 <= i <= 12
        invariant randCursor == old(randCursor) + 2 * i
        invariant bullets == old(bullets) + volley[..i]
        modifies this`bullets, this`randCursor
      {
        var x := rand(randCursor) % 1920;
        randCursor := randCursor + 1;
        var speed := 7.0 + (rand(randCursor) % 4) as real;
        randCursor := randCursor + 1;
        assert volley[..i + 1] == volley[..i] + [RainDrop(env, x, speed)];
        bullets := bullets + [RainDrop(env, x, speed)];
        i := i + 1;
      }
      assert volley[..12] == volley;
    }

    /** The ring skips the headings within 15 degrees of the player's bearing. */
    method FireGapRing()
      modifies this`bullets
      ensures bullets == old(bullets) + GapRing(env, bossPos, BearingDeg(env, bossPos, playerPos))
    {
      var at := bossPos;
      var aP := BearingDeg(env, at, playerPos);
      var i := 0;
      ghost var n := 0;
      while i < 360
        invariant 0 <= n <= 36 && i == 10 * n
        invariant bullets == old(bullets) + GapShots(env, at, GapSlots(aP, n))
        modifies this`bullets
      {
        GapShotsAppend(env, at, GapSlots(aP, n), n);
        if Abs(FMod360(i as real - aP + 540.0) - 180.0) > 15.0 {
          bullets := bullets + [GapShot(env, at, i)];
        }
        i := i + 10;
        n := n + 1;
      }
    }

    /** Each spoke fires a fast and then a slow bullet. */
    method FireCross()
      modifies this`crossR, this`bullets
      ensures crossR == old(crossR) + 15.0
      ensures bullets == old(bullets) + CrossVolley(env, bossPos, crossR)
    {
      crossR := crossR + 15.0;
      var at, r := bossPos, crossR;
      var i := 0;
      ghost var n := 0;
      while i < 360
        invariant 0 <= n <= 6 && i == 60 * n
        invariant bullets == old(bullets) + CrossSpokes(env, at, r, n)
        modifies this`bullets
      {
        bullets := bullets + [CrossShot(env, at, r, i, 13.0)];
        bullets := bullets + [CrossShot(env, at, r, i, 8.0)];
        i := i + 60;
        n := n + 1;
      }
    }

    method FireShotgun()
      modifies this`bullets
      ensures bullets == old(bullets) + ShotgunFan(env, bossPos, BearingDeg(env, bossPos, playerPos))
    {
      var at := bossPos;
      var a := BearingDeg(env, at, playerPos);
      ghost var fan := ShotgunFan(env, at, a);
      var i := -3;
      while i <= 3
        invariant -3 <= i <= 4
        invariant bullets == old(bullets) + fan[..i + 3]
        modifies this`bullets
      {
        assert fan[..i + 4] == fan[..i + 3] + [ShotgunShot(env, at, a, i)];
        bullets := bullets + [ShotgunShot(env, at, a, i)];
        i := i + 1;
      }
      assert fan[..7] == fan;
    }

    method FireStream()
      modifies this`bullets
      ensures bullets == old(bullets) + StreamFan(env, bossPos, BearingDeg(env, bossPos, playerPos))
    {
      var at := bossPos;
      var a := BearingDeg(env, at, playerPos);
      ghost var fan := StreamFan(env, at, a);
      var i := -1;
      while i <= 1
        invariant -1 <= i <= 2
        invariant bullets == old(bullets) + fan[..i + 1]
        modifies this`bullets
      {
        assert fan[..i + 2] == fan[..i + 1] + [StreamShot(env, at, a, i)];
        bullets := bullets + [StreamShot(env, at, a, i)];
        i := i + 1;
      }
      assert fan[..3] == fan;
    }

    /** A normal phase's spawn timer and volley for the frame. */
    twostate predicate NormalAdvanced(dt: real)
      reads this
    {
      var s := old(spawnTimer) + dt;
      var fires := s > SpawnCadence;
      spawnTimer == (if fires then SpawnReset(currentPhase) else s)
      && spiralR == old(spiralR) + (if fires && currentPhase == 1 then 20.0 else 0.0)
      && crossR == old(crossR) + (if fires && currentPhase == 4 then 15.0 else 0.0)
      && randCursor == old(randCursor) + (if fires && currentPhase == 2 then 24 else 0)
      && bullets == old(bullets) + (if fires then PhaseVolley(env, currentPhase, bossPos, playerPos, spiralR, crossR, rand, old(randCursor)) else [])
    }

    /** NORMAL ATTACK PHASES. */
    method EmitNormal(dt: real)
      requires Wf()
      modifies this`spawnTimer, this`spiralR, this`crossR, this`bullets, this`randCursor
      ensures NormalAdvanced(dt)
    {
      spawnTimer := spawnTimer + dt;
      if spawnTimer > 0.12 {
        if currentPhase == 1 {
          FireSpiral();
          spawnTimer := -0.28;
        } else if currentPhase == 2 {
          FireRain();
          spawnTimer := -0.03;
        } else if currentPhase == 3 {
          FireGapRing();
          spawnTimer := -0.05;
        } else if currentPhase == 4 {
          FireCross();
          spawnTimer := -0.18;
        } else if currentPhase == 5 {
          FireShotgun();
          spawnTimer := -0.38;
        } else if currentPhase == 6 {
          FireStream();
          spawnTimer := 0.0;
        }
      }
    }

    // ------------------------------------------------------------ survival emitters

    /** The wall leaves out the two slots gS and gS + 1. */
    method FireKnifeWall(gS: nat)
      modifies this`bullets
      ensures bullets == old(bullets) + KnifeWall(env, bossPos.y, gS)
    {
      var y := bossPos.y;
      var i := 0;
      while i < 12
        invariant 0 <= i <= 12
        invariant bullets == old(bullets) + KnifeShots(env, y, KnifeSlots(gS, i))
        modifies this`bullets
      {
        KnifeShotsAppend(env, y, KnifeSlots(gS, i), i);
        if !(i == gS || i == gS + 1) {
          bullets := bullets + [KnifeShot(env, y, i)];
        }
        i := i + 1;
      }
    }

    /** Four arms of 33 flashes each, the cross turned 2 degrees further. */
    method FireDenseCross()
      modifies this`cR, this`bullets
      ensures cR == old(cR) + 2.0
      ensures bullets == old(bullets) + Arms(env, bossPos, cR, 4)
    {
      cR := cR + 2.0;
      var at, c := bossPos, cR;
      var i := 0;
      while i < 4
        invariant 0 <= i <= 4
        invariant bullets == old(bullets) + Arms(env, at, c, i)
        modifies this`bullets
      {
        var a := c + i as real * 90.0;
        ghost var arm := Arm(env, at, a);
        ghost var before := bullets;
        ghost var k := 0;
        var d := 60.0;
        while d < 1200.0
          invariant 0 <= k <= 33 && d == 60.0 + 35.0 * k as real
          invariant bullets == before + arm[..k]
          modifies this`bullets
          decreases 33 - k
        {
          assert arm[..k + 1] == arm[..k] + [ArmShot(env, at, a, d)];
          bullets := bullets + [ArmShot(env, at, a, d)];
          d := d + 35.0;
          k := k + 1;
        }
        assert arm[..k] == arm;
        i := i + 1;
      }
    }

    /** The four side streams; the four draws are made in the order left, right, top, bottom. */
    method FireSideStreams()
      modifies this`bullets, this`randCursor
      ensures randCursor == old(randCursor) + 4
      ensures bullets == old(bullets) + SideStreams(env, rand, old(randCursor))
    {
      var c := randCursor;
      var spawns := SideSpawns(rand, c);
      randCursor := c + 4;
      var angles := SideAngles;
      ghost var streams := SideStreams(env, rand, c);
      var k := 0;
      while k < 4
        invariant 0 <= k <= 4
        invariant bullets == old(bullets) + streams[..k]
        modifies this`bullets
      {
        assert streams[..k + 1] == streams[..k] + [SideShot(env, spawns[k], angles[k])];
        bullets := bullets + [SideShot(env, spawns[k], angles[k])];
        k := k + 1;
      }
      assert streams[..4] == streams;
    }

    /** The four miasma arms, turned 2 degrees further, each with its wobble. */
    method FireMiasma()
      modifies this`tR, this`bullets
      ensures tR == old(tR) + 2.0
      ensures bullets == old(bullets) + Miasma(env, bossPos, tR, survivalTimer)
    {
      tR := tR + 2.0;
      var at, r, t := bossPos, tR, survivalTimer;
      ghost var arms := Miasma(env, at, r, t);
      var i := 0;
      while i < 4
        invariant 0 <= i <= 4
        invariant bullets == old(bullets) + arms[..i]
        modifies this`bullets
      {
        assert arms[..i + 1] == arms[..i] + [MiasmaShot(env, at, r, t, i)];
        bullets := bullets + [MiasmaShot(env, at, r, t, i)];
        i := i + 1;
      }
      assert arms[..4] == arms;
    }

    /** Six bullets from each corner tower, the towers in the order of TowerPos. */
    method FireTowers()
      modifies this`bullets
      ensures bullets == old(bullets) + TowerBurst(env, towerR)
    {
      var r := towerR;
      var t := 0;
      while t < 4
        invariant 0 <= t <= 4
        invariant bullets == old(bullets) + Towers(env, r, t)
        modifies this`bullets
      {
        var tp := TowerPos(t);
        ghost var fan := TowerFan(env, tp, r);
        ghost var before := bullets;
        var j := 0;
        ghost var m := 0;
        while j < 360
          invariant 0 <= m <= 6 && j == 60 * m
          invariant bullets == before + fan[..m]
          modifies this`bullets
        {
          assert fan[..m + 1] == fan[..m] + [TowerShot(env, tp, r, j)];
          bullets := bullets + [TowerShot(env, tp, r, j)];
          j := j + 60;
          m := m + 1;
        }
        assert fan[..6] == fan;
        t := t + 1;
      }
    }

    /** Survival 1, the knife wall: the player dies outside the corridor; every
        1.1 s a wall of ten knives falls, with its two-slot gap drawn at random. */
    twostate predicate KnifeWallAdvanced(dt: real)
      reads this
    {
      var w := old(wT) + dt;
      var fires := w > 1.1;
      survivalSpawnTimer == old(survivalSpawnTimer) + dt
      && playerHealth == (if InCorridor(playerPos) then old(playerHealth) else 0.0)
      && wT == (if fires then 0.0 else w)
      && randCursor == old(randCursor) + (if fires then 1 else 0)
      && bullets == old(bullets) + (if fires then KnifeWall(env, bossPos.y, rand(old(randCursor)) % 10) else [])
      && cR == old(cR) && tR == old(tR) && prT == old(prT) && towerT == old(towerT) && towerR == old(towerR)
    }

    /** Survival 2: every 0.08 s the dense cross turns by 2 degrees, and four side
        streams come in from the edges. */
    twostate predicate DenseCrossAdvanced(dt: real)
      reads this
    {
      var s := old(survivalSpawnTimer) + dt;
      var fires := s > 0.08;
      survivalSpawnTimer == (if fires then 0.0 else s)
      && cR == old(cR) + (if fires then 2.0 else 0.0)
      && randCursor == old(randCursor) + (if fires then 4 else 0)
      && bullets == old(bullets) + (if fires then Arms(env, bossPos, cR, 4) + SideStreams(env, rand, old(randCursor)) else [])
      && playerHealth == old(playerHealth) && wT == old(wT)
      && tR == old(tR) && prT == old(prT) && towerT == old(towerT) && towerR == old(towerR)
    }

    /** Survival 3: every 0.05 s the miasma turns by 2 degrees; the time since the
        last firing also feeds the poprock timer (a poprock past 0.7 s) and the
        tower timer (a tower burst past 0.65 s), and the towers turn by 2.5 degrees. */
    twostate predicate MiasmaAdvanced(dt: real)
      reads this
    {
      var s := old(survivalSpawnTimer) + dt;
      var fires := s > 0.05;
      var p := old(prT) + s;
      var pops := fires && p > 0.7;
      var tw := old(towerT) + s;
      var towers := fires && tw > 0.65;
      survivalSpawnTimer == (if fires then 0.0 else s)
      && tR == old(tR) + (if fires then 2.0 else 0.0)
      && prT == (if !fires then old(prT) else if pops then 0.0 else p)
      && towerT == (if !fires then old(towerT) else if towers then 0.0 else tw)
      && towerR == old(towerR) + (if fires then 2.5 else 0.0)
      && randCursor == old(randCursor) + (if pops then 1 else 0)
      && bullets == old(bullets)
           + (if fires then Miasma(env, bossPos, tR, survivalTimer) else [])
           + (if pops then [Poprock(env, bossPos, rand(old(randCursor)))] else [])
           + (if towers then TowerBurst(env, towerR) else [])
      && playerHealth == old(playerHealth) && wT == old(wT) && cR == old(cR)
    }

    /** SHOOTING LOGIC during a survival interlude, by the interlude's number.
        The only health it takes is the knife wall's instant death. */
    method EmitSurvival(dt: real)
      requires Wf() && isSurvival
      modifies this`survivalSpawnTimer, this`wT, this`playerHealth, this`randCursor, this`bullets,
               this`cR, this`tR, this`prT, this`towerT, this`towerR
      ensures nextThreshold == 2 ==> KnifeWallAdvanced(dt)
      ensures nextThreshold == 3 ==> DenseCrossAdvanced(dt)
      ensures nextThreshold == 4 ==> MiasmaAdvanced(dt)
      ensures playerHealth == old(playerHealth) || playerHealth == 0.0
    {
      if nextThreshold == 2 {
        EmitKnifeWall(dt);
      } else if nextThreshold == 3 {
        EmitDenseCross(dt);
      } else if nextThreshold == 4 {
        EmitMiasma(dt);
      }
    }

    method EmitKnifeWall(dt: real)
      modifies this`survivalSpawnTimer, this`wT, this`playerHealth, this`randCursor, this`bullets
      ensures KnifeWallAdvanced(dt)
    {
      survivalSpawnTimer := survivalSpawnTimer + dt;
      wT := wT + dt;
      if playerPos.x < CorridorLeft || playerPos.x > CorridorRight {
        playerHealth := 0.0;
      }
      if wT > 1.1 {
        var gS := rand(randCursor) % 10;
        randCursor := randCursor + 1;
        FireKnifeWall(gS);
        wT := 0.0;
      }
    }

    method EmitDenseCross(dt: real)
      modifies this`survivalSpawnTimer, this`randCursor, this`bullets, this`cR
      ensures DenseCrossAdvanced(dt)
    {
      survivalSpawnTimer := survivalSpawnTimer + dt;
      if survivalSpawnTimer > 0.08 {
        FireDenseCross();
        FireSideStreams();
        survivalSpawnTimer := 0.0;
      }
    }

    method EmitMiasma(dt: real)
      modifies this`survivalSpawnTimer, this`randCursor, this`bullets, this`tR, this`prT,
               this`towerT, this`towerR
      ensures MiasmaAdvanced(dt)
    {
      survivalSpawnTimer := survivalSpawnTimer + dt;
      if survivalSpawnTimer > 0.05 {
        FireMiasma();
        EmitPoprock(survivalSpawnTimer);
        EmitTowers(survivalSpawnTimer);
        survivalSpawnTimer := 0.0;
      }
    }

    /** The poprock timer gains the time since the last miasma; past 0.7 s a
        poprock leaves the boss at a random angle. */
    method EmitPoprock(elapsed: real)
      modifies this`prT, this`bullets, this`randCursor
      ensures var p := old(prT) + elapsed;
        prT == (if p > 0.7 then 0.0 else p)
        && randCursor == old(randCursor) + (if p > 0.7 then 1 else 0)
        && bullets == old(bullets) + (if p > 0.7 then [Poprock(env, bossPos, rand(old(randCursor)))] else [])
    {
      prT := prT + elapsed;
      if prT > 0.7 {
        bullets := bullets + [Poprock(env, bossPos, rand(randCursor))];
        randCursor := randCursor + 1;
        prT := 0.0;
      }
    }

    /** The tower timer gains the time since the last miasma and the towers
        turn by 2.5 degrees; past 0.65 s the four towers fire. */
    method EmitTowers(elapsed: real)
      modifies this`towerT, this`towerR, this`bullets
      ensures var tw := old(towerT) + elapsed;
        towerT == (if tw > 0.65 then 0.0 else tw)
        && towerR == old(towerR) + 2.5
        && bullets == old(bullets) + (if tw > 0.65 then TowerBurst(env, towerR) else [])
    {
      towerT := towerT + elapsed;
      towerR := towerR + 2.5;
      if towerT > 0.65 {
        FireTowers();
        towerT := 0.0;
      }
    }

    // ------------------------------------------------------------ the sweeps

    /** The player-bullet loop: each moves once; one touching the boss is
        erased and costs it 15 health (none during survival), one outside the
        arena is erased. */
    method SweepPlayerBullets()
      modifies this`playerBullets, this`bossCurrentHP
      ensures playerBullets == ShotSurvivors(old(playerBullets), BossBounds(bossPos))
      ensures bossCurrentHP == BossHPAfterSweep(old(bossCurrentHP), old(playerBullets), BossBounds(bossPos), isSurvival)
    {
      var boss := BossBounds(bossPos);
      var pbs := playerBullets;
      var kept: seq<PlayerBullet> := [];
      var i := 0;
      while i < |pbs|
        invariant 0 <= i <= |pbs|
        invariant kept == ShotSurvivors(pbs[..i], boss)
        invariant bossCurrentHP == BossHPAfterSweep(old(bossCurrentHP), pbs[..i], boss, isSurvival)
        modifies this`bossCurrentHP
      {
        assert pbs[..i + 1][..i] == pbs[..i];
        var pb := PlayerBulletUpdate(pbs[i]);
        if Overlaps(PlayerBulletBounds(pb), boss) {
          if !isSurvival {
            bossCurrentHP := bossCurrentHP - 15.0;
          }
        } else if pb.pos.x < 0.0 || pb.pos.x > WorldW || pb.pos.y < 0.0 || pb.pos.y > WorldH {
        } else {
          kept := kept + [pb];
        }
        i := i + 1;
      }
      assert pbs[..i] == pbs;
      playerBullets := kept;
    }

    /** The bullet sweep: every bullet is updated once and its removal rules
        are tried in order; poprock shards are collected and appended after
        the survivors; a contact costs 10 health only if the hit timer shows
        more than 0.15 s, and then restarts it. */
    method SweepBullets(dt: real, now: real)
      modifies this`bullets, this`playerHealth, this`lastHit
      ensures bullets == Sweep(env, old(bullets), dt, PlayerBounds(playerPos))
      ensures playerHealth == HealthAfterSweep(old(playerHealth), old(bullets), dt, PlayerBounds(playerPos), now - old(lastHit))
      ensures lastHit == if HitLands(old(bullets), dt, PlayerBounds(playerPos), now - old(lastHit)) then now else old(lastHit)
    {
      var player := PlayerBounds(playerPos);
      var bs := bullets;
      var kept: seq<Bullet> := [];
      var shards: seq<Bullet> := [];
      var i := 0;
      while i < |bs|
        invariant 0 <= i <= |bs|
        invariant kept == Survivors(bs[..i], dt, player)
        invariant shards == Shards(env, bs[..i], dt, player)
        invariant playerHealth == HealthAfterSweep(old(playerHealth), bs[..i], dt, player, now - old(lastHit))
        invariant lastHit == if HitLands(bs[..i], dt, player, now - old(lastHit)) then now else old(lastHit)
        modifies this`playerHealth, this`lastHit
      {
        assert bs[..i + 1][..i] == bs[..i];
        var b := Update(bs[i], dt);
        var removed: bool;
        if b.isPoprock && SqDist(b.pos, b.startPos) > 400.0 * 400.0 {
          ghost var before := shards;
          var j := 0;
          while j < 360
            invariant 0 <= j <= 360 && j % 30 == 0
            invariant shards == before + ShardBurst(env, b.pos)[..j / 30]
            modifies {}
          {
            shards := shards + [NewBullet(env, b.pos, j as real, 5.0, 6.0)];
            j := j + 30;
          }
          removed := true;
        } else if b.lifeTime > 0.0 && b.aliveTime >= b.lifeTime {
          removed := true;
        } else if b.isPhase3Shot && SqDist(b.pos, b.startPos) > 850.0 * 850.0 {
          removed := true;
        } else if Overlaps(Bounds(b), player) {
          if now - lastHit > 0.15 {
            playerHealth := playerHealth - 10.0;
            lastHit := now;
          }
          removed := true;
        } else {
          removed := b.pos.x < -150.0 || b.pos.x > WorldW + 150.0 || b.pos.y < -150.0 || b.pos.y > WorldH + 150.0;
        }
        if !removed {
          kept := kept + [b];
        }
        i := i + 1;
      }
      assert bs[..i] == bs;
      bullets := kept + shards;
    }

    // ------------------------------------------------------------ the frame

    /** One live frame, in the source's order. Health pools only fall, and the
        boss takes no damage in a frame that ends in survival. */
    method Step(dt: real, now: real, input: Input)
      requires Valid() && !Terminal()
      modifies this
      ensures Valid()
      ensures playerHealth <= old(playerHealth) && bossCurrentHP <= old(bossCurrentHP)
      ensures isSurvival ==> bossCurrentHP == old(bossCurrentHP)
    {
      UpdateBoss(dt);
      UpdatePlayer(dt, input);
      ShootAndSweep(dt, now);
    }

    /** The boss's shooting, then the sweeps and the outcome. */
    method ShootAndSweep(dt: real, now: real)
      requires Wf() && !isGameOver && !isVictory && playerHealth > 0.0
      modifies this`spawnTimer, this`spiralR, this`crossR, this`bullets, this`randCursor,
               this`survivalSpawnTimer, this`wT, this`playerHealth, this`cR, this`tR,
               this`prT, this`towerT, this`towerR,
               this`playerBullets, this`bossCurrentHP, this`lastHit, this`isGameOver, this`isVictory
      ensures playerHealth <= old(playerHealth) && bossCurrentHP <= old(bossCurrentHP)
      ensures isSurvival ==> bossCurrentHP == old(bossCurrentHP)
      ensures isGameOver == (playerHealth <= 0.0)
      ensures isVictory == (bossCurrentHP <= 0.0)
    {
      Emit(dt);
      Resolve(dt, now);
    }

    /** The survival trigger, the phase clock and the boss's sub-state branch. */
    method UpdateBoss(dt: real)
      requires Varies(rand) && Wf() && bossCurrentHP > 0.0
      modifies this`isSurvivalWarning, this`warningTimer, this`bullets, this`survivalSpawnTimer,
               this`patternTimer, this`isWarning, this`randCursor, this`currentPhase,
               this`isSurvival, this`survivalTimer, this`nextThreshold, this`bossTimer,
               this`spawnTimer, this`bossPos, this`cp, this`cpInit
      ensures Wf()
    {
      CheckSurvivalTrigger();
      AdvancePatternClock(dt);
      AdvanceBoss(dt);
    }

    /** PLAYER MOVEMENT and shooting: the shots leave from where the player
        stood before moving, and the move is then clamped to the arena. */
    method UpdatePlayer(dt: real, input: Input)
      modifies this`playerPos, this`playerBullets
      ensures playerPos == ClampToArena(old(playerPos).Plus(Movement(dt, input)), WorldW, WorldH, PlayerRadius)
      ensures playerBullets == old(playerBullets)
        + (if input.fire then [NewPlayerBullet(env, old(playerPos), input.aim)] else [])
        + (if input.spread then PlayerSpread(env, old(playerPos)) else [])
    {
      var origin := playerPos;
      MovePlayer(dt, input);
      FirePlayerShots(origin, input);
      ClampPlayer();
    }

    /** The boss's shooting for the frame: the interlude's emitter during
        survival, the phase's emitter in an active phase, none during a warning. */
    method Emit(dt: real)
      requires Wf()
      modifies this`spawnTimer, this`spiralR, this`crossR, this`bullets, this`randCursor,
               this`survivalSpawnTimer, this`wT, this`playerHealth, this`cR, this`tR,
               this`prT, this`towerT, this`towerR
      ensures playerHealth == old(playerHealth) || playerHealth == 0.0
      ensures old(SubState()) == Active ==> NormalAdvanced(dt)
      ensures old(SubState()) == Warning || old(SubState()) == SurvivalWarning ==> unchanged(this)
    {
      if isSurvival {
        EmitSurvival(dt);
      } else if !isWarning && !isSurvivalWarning {
        EmitNormal(dt);
      }
    }

    /** The two sweeps and the outcome check that end the frame. */
    method Resolve(dt: real, now: real)
      modifies this`playerBullets, this`bossCurrentHP, this`bullets, this`playerHealth,
               this`lastHit, this`isGameOver, this`isVictory
      ensures playerHealth <= old(playerHealth) && bossCurrentHP <= old(bossCurrentHP)
      ensures isSurvival ==> bossCurrentHP == old(bossCurrentHP)
      ensures isGameOver == (old(isGameOver) || playerHealth <= 0.0)
      ensures isVictory == (old(isVictory) || bossCurrentHP <= 0.0)
    {
      SweepPlayerBullets();
      SweepBullets(dt, now);
      CheckOutcome();
    }

    /** A whole frame: the R key first, then the simulation, which does not
        run at all once the encounter is over. */
    method Frame(dt: real, now: real, input: Input)
      requires Valid()
      modifies this
      ensures Valid()
      ensures old(Terminal()) && !input.resetPressed ==> unchanged(this)
      ensures !old(Terminal()) ==> playerHealth <= old(playerHealth) && bossCurrentHP <= old(bossCurrentHP)
    {
      if input.resetPressed {
        PressReset();
      }
      if !isGameOver && !isVictory {
        Step(dt, now, input);
      }
    }
  }
}
