/** What each emitter appends to the bullet store in one firing: the normal
    phases' volleys and the survival interludes' patterns. The emitting loops
    live in Game.GameState; these functions say what they must produce. */
module Patterns {
  import opened Geometry
  import opened Projectiles

  // ---------------------------------------------------------------- normal phases

  /** Phase 1, spiral: 12 bullets at headings 0, 30, ..., 330 turned by the rotation r. */
  function SpiralShot(env: Trig, at: Vec, r: real, heading: int): Bullet {
    NewBullet(env, at, heading as real + r, 5.0, 7.0)
  }

  function SpiralVolley(env: Trig, at: Vec, r: real): (v: seq<Bullet>)
    ensures |v| == 12
    ensures forall k :: 0 <= k < 12 ==> Launched(env, v[k], at, r + (30 * k) as real, 5.0, 7.0) && Plain(v[k])
  {
    seq(12, k => SpiralShot(env, at, r, 30 * k))
  }

  /** Phase 2, rain: 12 drops falling from y = -20, each taking two draws: an x in
      [0, 1920) and then a speed of 7 + (0..3). */
  function RainDrop(env: Trig, x: int, speed: real): Bullet {
    NewBullet(env, Vec(x as real, -20.0), 90.0, speed, 7.0)
  }

  /** The drop fired with the k-th pair of draws from the cursor on. */
  function RainDropAt(env: Trig, rand: nat -> nat, cursor: nat, k: nat): Bullet {
    RainDrop(env, rand(cursor + 2 * k) % 1920, 7.0 + (rand(cursor + 2 * k + 1) % 4) as real)
  }

  function RainVolley(env: Trig, rand: nat -> nat, cursor: nat): (v: seq<Bullet>)
    ensures |v| == 12
    ensures forall k :: 0 <= k < 12 ==>
      Launched(env, v[k], Vec((rand(cursor + 2 * k) % 1920) as real, -20.0), 90.0,
               7.0 + (rand(cursor + 2 * k + 1) % 4) as real, 7.0) && Plain(v[k])
  {
    seq(12, k requires 0 <= k => RainDropAt(env, rand, cursor, k))
  }

  /** Every drop starts on the row y = -20, above the arena, inside its width. */
  lemma RainStartsAboveArena(env: Trig, rand: nat -> nat, cursor: nat, k: nat)
    ensures 0.0 <= RainDropAt(env, rand, cursor, k).pos.x < WorldW
    ensures RainDropAt(env, rand, cursor, k).pos.y == -20.0
  {
  }

  /** Phase 3, aimed-gap ring: slot s is the heading 10 * s; it is fired only when
      |fmod(10 s - aP + 540, 360) - 180| > 15 for the player bearing aP. */
  predicate GapOpen(s: nat, aP: real) {
    Abs(FMod360((10 * s) as real - aP + 540.0) - 180.0) > 15.0
  }

  /** The slots below n that the ring fires, in increasing order. */
  function GapSlots(aP: real, n: nat): seq<nat> {
    if n == 0 then [] else GapSlots(aP, n - 1) + (if GapOpen(n - 1, aP) then [n - 1] else [])
  }

  /** The shot at a heading, flagged as a phase-3 shot. */
  function GapShot(env: Trig, at: Vec, heading: int): Bullet {
    NewBullet(env, at, heading as real, 16.0, 7.0, false).(isPhase3Shot := true)
  }

  function GapShots(env: Trig, at: Vec, slots: seq<nat>): (v: seq<Bullet>)
    ensures |v| == |slots|
    ensures forall k :: 0 <= k < |slots| ==>
      Launched(env, v[k], at, (10 * slots[k]) as real, 16.0, 7.0)
      && v[k].isPhase3Shot && !v[k].isPoprock && v[k].scale == Vec(1.0, 1.0) && v[k].lifeTime <= 0.0
  {
    seq(|slots|, k requires 0 <= k < |slots| => GapShot(env, at, 10 * slots[k]))
  }

  function GapRing(env: Trig, at: Vec, aP: real): seq<Bullet> {
    GapShots(env, at, GapSlots(aP, 36))
  }

  /** Firing one more slot appends its shot to the ring built so far. */
  lemma GapShotsAppend(env: Trig, at: Vec, slots: seq<nat>, s: nat)
    ensures GapShots(env, at, slots + [s]) == GapShots(env, at, slots) + [GapShot(env, at, 10 * s)]
  {
    var l, r := GapShots(env, at, slots + [s]), GapShots(env, at, slots) + [GapShot(env, at, 10 * s)];
    assert |l| == |r|;
    forall k | 0 <= k < |l| ensures l[k] == r[k] {
      if k < |slots| {
        assert (slots + [s])[k] == slots[k];
      }
    }
  }

  /** GapSlots(aP, n) holds exactly the open slots below n, each once, in increasing order. */
  lemma {:induction false} GapSlotsExact(aP: real, n: nat)
    ensures forall s: nat :: s in GapSlots(aP, n) <==> s < n && GapOpen(s, aP)
    ensures forall j, k :: 0 <= j < k < |GapSlots(aP, n)| ==> GapSlots(aP, n)[j] < GapSlots(aP, n)[k]
  {
    if n > 0 {
      GapSlotsExact(aP, n - 1);
      var prev := GapSlots(aP, n - 1);
      forall j | 0 <= j < |prev| ensures prev[j] < n - 1 {
        assert prev[j] in prev;
      }
    }
  }

  /** For any bearing atan2 can produce (at most 180 degrees, so certainly at most 540),
      the ring fires the heading 10 s exactly when it is more than 15 degrees from
      the bearing, measured the short way round. */
  lemma GapRingAvoidsBearing(aP: real, s: nat)
    requires aP <= 540.0
    ensures s in GapSlots(aP, 36) <==> s < 36 && CircularDistance((10 * s) as real, aP) > 15.0
  {
    GapSlotsExact(aP, 36);
    GapFilterIsCircularDistance((10 * s) as real, aP);
  }

  /** The gap is never empty: the slot just below the bearing is within 10 degrees
      of it, so it is left out. */
  lemma GapRingHasGap(aP: real) returns (s: nat)
    requires aP <= 540.0
    ensures s < 36 && s !in GapSlots(aP, 36)
  {
    var m := Wrap360(aP);
    s := (m / 10.0).Floor;
    assert 10.0 * s as real <= m < 10.0 * s as real + 10.0;
    var q := (aP / 360.0).Floor;
    assert aP == m + 360.0 * q as real;
    var e := (10 * s) as real - aP;
    if (10 * s) as real == m {
      FloorUnique(e / 360.0, -q);
      assert Wrap360(e) == 0.0;
    } else {
      FloorUnique(e / 360.0, -q - 1);
      assert Wrap360(e) == (10 * s) as real - m + 360.0;
    }
    assert CircularDistance((10 * s) as real, aP) < 10.0;
    GapRingAvoidsBearing(aP, s);
  }

  /** Phase 4, dual-speed cross: headings 0, 60, ..., 300 turned by r, each fired
      at speed 13 and then at speed 8. */
  function CrossShot(env: Trig, at: Vec, r: real, heading: int, speed: real): Bullet {
    NewBullet(env, at, heading as real + r, speed, 7.0)
  }

  /** The first n spokes of the cross, in firing order; spoke j is the pair at heading 60 j. */
  function CrossSpokes(env: Trig, at: Vec, r: real, n: nat): (v: seq<Bullet>)
    ensures |v| == 2 * n
  {
    if n == 0 then []
    else CrossSpokes(env, at, r, n - 1) + [CrossShot(env, at, r, 60 * (n - 1), 13.0), CrossShot(env, at, r, 60 * (n - 1), 8.0)]
  }

  function CrossVolley(env: Trig, at: Vec, r: real): (v: seq<Bullet>)
    ensures |v| == 12
  {
    CrossSpokes(env, at, r, 6)
  }

  /** Bullet k of the cross is the fast (even k) or slow (odd k) shot of spoke k / 2. */
  lemma {:induction false} CrossSpokesExact(env: Trig, at: Vec, r: real, n: nat)
    ensures forall k :: 0 <= k < 2 * n ==>
      CrossSpokes(env, at, r, n)[k] == CrossShot(env, at, r, 60 * (k / 2), if k % 2 == 0 then 13.0 else 8.0)
  {
    if n > 0 {
      CrossSpokesExact(env, at, r, n - 1);
      forall k | 0 <= k < 2 * n
        ensures CrossSpokes(env, at, r, n)[k] == CrossShot(env, at, r, 60 * (k / 2), if k % 2 == 0 then 13.0 else 8.0)
      {
        if k >= 2 * (n - 1) {
          assert k / 2 == n - 1;
        }
      }
    }
  }

  /** Phase 5, shotgun: 7 bullets at a - 45, a - 30, ..., a + 45 around the player bearing a. */
  function ShotgunShot(env: Trig, at: Vec, a: real, offset: int): Bullet {
    NewBullet(env, at, a + offset as real * 15.0, 14.0, 25.0)
  }

  function ShotgunFan(env: Trig, at: Vec, a: real): (v: seq<Bullet>)
    ensures |v| == 7
    ensures forall k :: 0 <= k < 7 ==> Plain(v[k])
    ensures Launched(env, v[3], at, a, 14.0, 25.0)
    ensures forall k :: 3 <= k < 7 ==> Launched(env, v[k], at, a + 15.0 * (k - 3) as real, 14.0, 25.0)
    ensures forall k :: 0 <= k < 3 ==> Launched(env, v[k], at, a - 15.0 * (3 - k) as real, 14.0, 25.0)
  {
    seq(7, k => ShotgunShot(env, at, a, k - 3))
  }

  /** Phase 6, stream: 3 bullets at a - 10, a, a + 10 around the player bearing a. */
  function StreamShot(env: Trig, at: Vec, a: real, offset: int): Bullet {
    NewBullet(env, at, a + offset as real * 10.0, 14.0, 9.0)
  }

  function StreamFan(env: Trig, at: Vec, a: real): (v: seq<Bullet>)
    ensures |v| == 3
    ensures forall k :: 0 <= k < 3 ==> Plain(v[k])
    ensures Launched(env, v[1], at, a, 14.0, 9.0)
    ensures Launched(env, v[0], at, a - 10.0, 14.0, 9.0) && Launched(env, v[2], at, a + 10.0, 14.0, 9.0)
  {
    seq(3, k => StreamShot(env, at, a, k - 1))
  }

  /** spawnTimer's value after a phase fires: a negative value is a cooldown. */
  function SpawnReset(phase: int): real {
    match phase
    case 1 => -0.28
    case 2 => -0.03
    case 3 => -0.05
    case 4 => -0.18
    case 5 => -0.38
    case _ => 0.0
  }

  /** The normal phases fire once spawnTimer passes 0.12 seconds. */
  const SpawnCadence: real := 0.12

  /** What a normal phase appends when it fires, from the boss's position `at`
      toward the player at `player`; the spiral and the cross use their
      rotations already advanced, the rain takes its draws from `cursor` on.
      The spiral, the rain and the cross fire 12 bullets, the shotgun 7 and
      the stream 3. */
  function PhaseVolley(env: Trig, phase: int, at: Vec, player: Vec, spiralR: real, crossR: real,
                       rand: nat -> nat, cursor: nat): (v: seq<Bullet>)
    ensures phase == 1 || phase == 2 || phase == 4 ==> |v| == 12
    ensures phase == 5 ==> |v| == 7
    ensures phase == 6 ==> |v| == 3
    ensures phase == 3 ==> forall b :: b in v ==> b.isPhase3Shot && b.pos == at
    ensures phase < 1 || phase > 6 ==> v == []
  {
    match phase
    case 1 => SpiralVolley(env, at, spiralR)
    case 2 => RainVolley(env, rand, cursor)
    case 3 => GapRing(env, at, BearingDeg(env, at, player))
    case 4 => CrossVolley(env, at, crossR)
    case 5 => ShotgunFan(env, at, BearingDeg(env, at, player))
    case 6 => StreamFan(env, at, BearingDeg(env, at, player))
    case _ => []
  }

  // ---------------------------------------------------------------- survival interludes

  /** Left and right edges of the knife wall's safe corridor: worldW/2 -+ (12 * 55) / 2. */
  const CorridorLeft: real := WorldW / 2.0 - (12.0 * 55.0) / 2.0
  const CorridorRight: real := WorldW / 2.0 + (12.0 * 55.0) / 2.0

  /** Survival 1, knife wall: slot i is a tall narrow knife at x = 630 + 55 i on the boss's row. */
  function KnifeShot(env: Trig, bossY: real, i: nat): Bullet {
    NewBullet(env, Vec(CorridorLeft + (i as real) * 55.0, bossY), 90.0, 8.0, 15.0).(scale := Vec(0.6, 1.8))
  }

  /** The slots below n other than the gap gS, gS + 1, in increasing order. */
  function KnifeSlots(gS: nat, n: nat): seq<nat> {
    if n == 0 then [] else KnifeSlots(gS, n - 1) + (if n - 1 == gS || n - 1 == gS + 1 then [] else [n - 1])
  }

  function KnifeShots(env: Trig, bossY: real, slots: seq<nat>): (v: seq<Bullet>)
    ensures |v| == |slots|
    ensures forall k :: 0 <= k < |slots| ==>
      Launched(env, v[k], Vec(CorridorLeft + 55.0 * slots[k] as real, bossY), 90.0, 8.0, 15.0)
      && v[k].scale == Vec(0.6, 1.8) && !v[k].isPoprock && !v[k].isPhase3Shot && v[k].lifeTime <= 0.0
    ensures forall k :: 0 <= k < |slots| && slots[k] < 12 ==> CorridorLeft <= v[k].pos.x <= CorridorRight
  {
    seq(|slots|, k requires 0 <= k < |slots| => KnifeShot(env, bossY, slots[k]))
  }

  function KnifeWall(env: Trig, bossY: real, gS: nat): seq<Bullet> {
    KnifeShots(env, bossY, KnifeSlots(gS, 12))
  }

  /** Firing one more slot appends its knife to the wall built so far. */
  lemma KnifeShotsAppend(env: Trig, bossY: real, slots: seq<nat>, s: nat)
    ensures KnifeShots(env, bossY, slots + [s]) == KnifeShots(env, bossY, slots) + [KnifeShot(env, bossY, s)]
  {
    var l, r := KnifeShots(env, bossY, slots + [s]), KnifeShots(env, bossY, slots) + [KnifeShot(env, bossY, s)];
    assert |l| == |r|;
    forall k | 0 <= k < |l| ensures l[k] == r[k] {
      if k < |slots| {
        assert (slots + [s])[k] == slots[k];
      }
    }
  }

  lemma {:induction false} KnifeSlotsExact(gS: nat, n: nat)
    ensures forall s: nat :: s in KnifeSlots(gS, n) <==> s < n && s != gS && s != gS + 1
    ensures |KnifeSlots(gS, n)| == n - (if gS < n then 1 else 0) - (if gS + 1 < n then 1 else 0)
  {
    if n > 0 {
      KnifeSlotsExact(gS, n - 1);
    }
  }

  /** With a gap start below 10, the wall fires exactly 10 of its 12 slots: all but gS and gS + 1. */
  lemma KnifeWallLeavesTwoSlotGap(env: Trig, bossY: real, gS: nat)
    requires gS < 10
    ensures |KnifeWall(env, bossY, gS)| == 10
    ensures forall s: nat :: s in KnifeSlots(gS, 12) <==> s < 12 && s != gS && s != gS + 1
  {
    KnifeSlotsExact(gS, 12);
  }

  /** The void kill: outside the corridor the player dies at once. */
  predicate InCorridor(p: Vec) {
    !(p.x < CorridorLeft || p.x > CorridorRight)
  }

  /** Survival 2, dense cross: along heading a, a flash bullet (speed 0, lifetime 0.12)
      every 35 units from 60 to 1180, 33 in all. */
  function ArmShot(env: Trig, at: Vec, a: real, d: real): Bullet {
    NewBullet(env, Reach(env, at, a, d), a, 0.0, 11.0, false, 0.12)
  }

  /** The point d units from `at` along heading a degrees. */
  function Reach(env: Trig, at: Vec, a: real, d: real): Vec {
    var rad := a * PI / 180.0;
    at.Plus(Vec(env.cos(rad) * d, env.sin(rad) * d))
  }

  function Arm(env: Trig, at: Vec, a: real): (v: seq<Bullet>)
    ensures |v| == 33
    ensures forall k :: 0 <= k < 33 ==>
      v[k].pos == v[k].startPos == Reach(env, at, a, 60.0 + 35.0 * k as real) && v[k].aliveTime == 0.0
      && v[k].velocity == Zero && v[k].lifeTime == 0.12 && v[k].radius == 11.0
      && v[k].scale == Vec(1.0, 1.0) && !v[k].isPoprock && !v[k].isPhase3Shot
  {
    seq(33, k => ArmShot(env, at, a, 60.0 + 35.0 * k as real))
  }

  /** The first n arms of the cross turned by cR: headings cR, cR + 90, .... */
  function Arms(env: Trig, at: Vec, cR: real, n: nat): (v: seq<Bullet>)
    ensures |v| == 33 * n
  {
    if n == 0 then [] else Arms(env, at, cR, n - 1) + Arm(env, at, cR + (n - 1) as real * 90.0)
  }

  /** Every bullet of the dense cross is a stationary flash that expires after 0.12 s. */
  lemma {:induction false} ArmsAreFlashes(env: Trig, at: Vec, cR: real, n: nat)
    ensures forall k :: 0 <= k < |Arms(env, at, cR, n)| ==>
      Arms(env, at, cR, n)[k].velocity == Zero && Arms(env, at, cR, n)[k].lifeTime == 0.12
  {
    if n > 0 {
      ArmsAreFlashes(env, at, cR, n - 1);
    }
  }

  /** Survival 2, side streams: one bullet from each edge (left, right, top,
      bottom) at a drawn offset, heading inward. */
  function SideSpawns(rand: nat -> nat, cursor: nat): (v: seq<Vec>)
    ensures |v| == 4
    ensures v[0].x == 0.0 && v[1].x == WorldW && v[2].y == 0.0 && v[3].y == WorldH
    ensures 0.0 <= v[0].y < WorldH && 0.0 <= v[1].y < WorldH && 0.0 <= v[2].x < WorldW && 0.0 <= v[3].x < WorldW
    ensures v[0].y == (rand(cursor) % 1080) as real && v[1].y == (rand(cursor + 1) % 1080) as real
    ensures v[2].x == (rand(cursor + 2) % 1920) as real && v[3].x == (rand(cursor + 3) % 1920) as real
  {
    [Vec(0.0, (rand(cursor) % 1080) as real), Vec(WorldW, (rand(cursor + 1) % 1080) as real),
     Vec((rand(cursor + 2) % 1920) as real, 0.0), Vec((rand(cursor + 3) % 1920) as real, WorldH)]
  }

  const SideAngles: seq<real> := [0.0, 180.0, 90.0, 270.0]

  function SideShot(env: Trig, at: Vec, angle: real): Bullet {
    NewBullet(env, at, angle, 7.0, 7.0)
  }

  function SideStreams(env: Trig, rand: nat -> nat, cursor: nat): (v: seq<Bullet>)
    ensures |v| == 4
    ensures forall k :: 0 <= k < 4 ==> Launched(env, v[k], SideSpawns(rand, cursor)[k], SideAngles[k], 7.0, 7.0) && Plain(v[k])
  {
    seq(4, k requires 0 <= k < 4 => SideShot(env, SideSpawns(rand, cursor)[k], SideAngles[k]))
  }

  /** Survival 3, miasma: four arms at tR + 90 i, each wobbling by 15 sin(5 t + i). */
  function MiasmaShot(env: Trig, at: Vec, tR: real, t: real, i: int): Bullet {
    var w := env.sin(t * 5.0 + i as real) * 15.0;
    NewBullet(env, at, tR + i as real * 90.0 + w, 7.0, 7.0)
  }

  function Miasma(env: Trig, at: Vec, tR: real, t: real): (v: seq<Bullet>)
    ensures |v| == 4
    ensures forall k :: 0 <= k < 4 ==>
      Launched(env, v[k], at, tR + 90.0 * k as real + 15.0 * env.sin(5.0 * t + k as real), 7.0, 7.0) && Plain(v[k])
  {
    seq(4, k => MiasmaShot(env, at, tR, t, k))
  }

  /** Survival 3, poprock: a slow bullet at a drawn heading that bursts 400 units out. */
  function Poprock(env: Trig, at: Vec, draw: nat): (b: Bullet)
    ensures Launched(env, b, at, (draw % 360) as real, 4.0, 15.0)
    ensures b.isPoprock && !b.isPhase3Shot && b.scale == Vec(1.0, 1.0) && b.lifeTime <= 0.0
  {
    NewBullet(env, at, (draw % 360) as real, 4.0, 15.0, true)
  }

  /** The four corner towers of survival 3. */
  function TowerPos(t: int): Vec {
    match t
    case 0 => Vec(100.0, 100.0)
    case 1 => Vec(WorldW - 100.0, 100.0)
    case 2 => Vec(100.0, WorldH - 100.0)
    case _ => Vec(WorldW - 100.0, WorldH - 100.0)
  }

  /** Survival 3, tower burst: from each tower, six bullets at 0, 60, ..., 300 turned by towerR. */
  function TowerShot(env: Trig, at: Vec, towerR: real, heading: int): Bullet {
    NewBullet(env, at, heading as real + towerR, 4.5, 9.0)
  }

  function TowerFan(env: Trig, at: Vec, towerR: real): (v: seq<Bullet>)
    ensures |v| == 6
    ensures forall j :: 0 <= j < 6 ==> Launched(env, v[j], at, towerR + (60 * j) as real, 4.5, 9.0) && Plain(v[j])
  {
    seq(6, j => TowerShot(env, at, towerR, 60 * j))
  }

  /** The fans of the first n towers, in firing order. */
  function Towers(env: Trig, towerR: real, n: nat): (v: seq<Bullet>)
    ensures |v| == 6 * n
  {
    if n == 0 then [] else Towers(env, towerR, n - 1) + TowerFan(env, TowerPos(n - 1), towerR)
  }

  function TowerBurst(env: Trig, towerR: real): (v: seq<Bullet>)
    ensures |v| == 24
  {
    Towers(env, towerR, 4)
  }

  /** Bullet k of the burst leaves tower k / 6 at heading 60 (k % 6) + towerR. */
  lemma {:induction false} TowersExact(env: Trig, towerR: real, n: nat)
    ensures forall k :: 0 <= k < 6 * n ==>
      Towers(env, towerR, n)[k] == TowerShot(env, TowerPos(k / 6), towerR, 60 * (k % 6))
  {
    if n > 0 {
      TowersExact(env, towerR, n - 1);
      forall k | 0 <= k < 6 * n
        ensures Towers(env, towerR, n)[k] == TowerShot(env, TowerPos(k / 6), towerR, 60 * (k % 6))
      {
        if k >= 6 * (n - 1) {
          assert k / 6 == n - 1 && k % 6 == k - 6 * (n - 1);
        }
      }
    }
  }
}
