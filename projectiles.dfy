/** The two projectile structures (Bullet and PlayerBullet): construction,
    the per-frame update, their bounds, and the removal rule the bullet sweep
    applies to each updated bullet. */
module Projectiles {
  import opened Geometry

  /** A boss bullet. `pos` is the shape's position, `scale` its setScale factors
      (they widen or narrow its bounds); `lifeTime <= 0` means no time limit. */
  datatype Bullet = Bullet(
    pos: Vec, velocity: Vec, startPos: Vec, radius: real, scale: Vec,
    isPoprock: bool, isPhase3Shot: bool, lifeTime: real, aliveTime: real)

  /** Bullet(position, angle, speed, radius, pop, life). */
  function NewBullet(env: Trig, position: Vec, angle: real, speed: real, radius: real,
                     pop: bool := false, life: real := -1.0): (b: Bullet)
    ensures b.pos == b.startPos == position && b.aliveTime == 0.0
    ensures speed == 0.0 ==> b.velocity == Zero
  {
    Bullet(position, Polar(env, angle, speed), position, radius, Vec(1.0, 1.0), pop, false, life, 0.0)
  }

  /** A bullet as the constructor leaves it: standing at its start point `at`,
      age 0, of the given radius, moving at `speed` along `heading` degrees. */
  predicate Launched(env: Trig, b: Bullet, at: Vec, heading: real, speed: real, radius: real) {
    b.pos == at && b.startPos == at && b.aliveTime == 0.0 && b.radius == radius
    && b.velocity == Polar(env, heading, speed)
  }

  /** An ordinary bullet: unscaled, neither a poprock nor an aimed-gap shot,
      and with no time limit. */
  predicate Plain(b: Bullet) {
    b.scale == Vec(1.0, 1.0) && !b.isPoprock && !b.isPhase3Shot && b.lifeTime <= 0.0
  }

  /** Bullet::update(dt): move by velocity * dt * 60 and age by dt. */
  function Update(b: Bullet, dt: real): Bullet {
    b.(pos := b.pos.Plus(b.velocity.Scale(dt).Scale(60.0)), aliveTime := b.aliveTime + dt)
  }

  function Sum(dts: seq<real>): real {
    if dts == [] then 0.0 else Sum(dts[..|dts| - 1]) + dts[|dts| - 1]
  }

  /** The bullet after one update per frame, with the given frame times. */
  function Advance(b: Bullet, dts: seq<real>): Bullet {
    if dts == [] then b else Update(Advance(b, dts[..|dts| - 1]), dts[|dts| - 1])
  }

  /** Motion is scaled by elapsed time, not by frame count: however the time is
      cut into frames, a bullet ends up where the total elapsed time puts it. */
  lemma {:induction false} AdvanceDependsOnTotalTime(b: Bullet, dts: seq<real>)
    ensures Advance(b, dts) == b.(pos := b.pos.Plus(b.velocity.Scale(Sum(dts) * 60.0)),
                                  aliveTime := b.aliveTime + Sum(dts))
  {
    if dts != [] {
      var init, dt := dts[..|dts| - 1], dts[|dts| - 1];
      AdvanceDependsOnTotalTime(b, init);
      var s := Sum(init);
      assert b.velocity.x * (s * 60.0) + b.velocity.x * dt * 60.0 == b.velocity.x * ((s + dt) * 60.0);
      assert b.velocity.y * (s * 60.0) + b.velocity.y * dt * 60.0 == b.velocity.y * ((s + dt) * 60.0);
    }
  }

  /** The bullet's global bounds: its circle's box, stretched by its scale. */
  function Bounds(b: Bullet): Box {
    CenteredBox(b.pos, b.radius * b.scale.x, b.radius * b.scale.y)
  }

  /** The player is a circle of radius 15 centred on its position. */
  const PlayerRadius: real := 15.0

  function PlayerBounds(p: Vec): Box { CenteredBox(p, PlayerRadius, PlayerRadius) }

  /** The boss is an 80 x 80 square centred on its position. */
  function BossBounds(p: Vec): Box { CenteredBox(p, 40.0, 40.0) }

  /** What the bullet sweep does with an updated bullet. Its removal rules are
      tried in this order; the first that applies decides. */
  datatype Fate =
    | Burst       // a poprock more than 400 from where it started: replaced by shards
    | Expired     // its lifetime ran out
    | OutOfReach  // an aimed-gap shot more than 850 from where it started
    | Contact     // it touches the player: removed, and may cost health
    | Offscreen   // more than 150 outside the arena
    | Kept

  function FateOf(b: Bullet, player: Box): Fate {
    if b.isPoprock && SqDist(b.pos, b.startPos) > 400.0 * 400.0 then Burst
    else if b.lifeTime > 0.0 && b.aliveTime >= b.lifeTime then Expired
    else if b.isPhase3Shot && SqDist(b.pos, b.startPos) > 850.0 * 850.0 then OutOfReach
    else if Overlaps(Bounds(b), player) then Contact
    else if b.pos.x < -150.0 || b.pos.x > WorldW + 150.0 || b.pos.y < -150.0 || b.pos.y > WorldH + 150.0 then Offscreen
    else Kept
  }

  /** A kept bullet touches neither the player nor the outer margin, and no
      time or range limit of it has run out. */
  lemma KeptBulletIsHarmless(b: Bullet, player: Box)
    requires FateOf(b, player) == Kept
    ensures !Overlaps(Bounds(b), player)
    ensures -150.0 <= b.pos.x <= WorldW + 150.0 && -150.0 <= b.pos.y <= WorldH + 150.0
    ensures b.lifeTime > 0.0 ==> b.aliveTime < b.lifeTime
  {
  }

  /** A bullet with a lifetime L that is not a poprock is removed for age at the
      first sweep after which it has lived L seconds in total, and not before. */
  lemma LifetimeExpiry(b: Bullet, dts: seq<real>, player: Box)
    requires b.lifeTime > 0.0 && !b.isPoprock
    ensures FateOf(Advance(b, dts), player) == Expired <==> b.aliveTime + Sum(dts) >= b.lifeTime
  {
    AdvanceDependsOnTotalTime(b, dts);
  }

  /** The 12 shards a poprock bursts into: headings 0, 30, ..., 330, speed 5, radius 6. */
  function ShardBurst(env: Trig, at: Vec): (shards: seq<Bullet>)
    ensures |shards| == 12
    ensures forall k :: 0 <= k < 12 ==> shards[k].pos == at && !shards[k].isPoprock
  {
    seq(12, k requires 0 <= k < 12 => NewBullet(env, at, (30 * k) as real, 5.0, 6.0))
  }

  /** A player bullet: radius 5, moving 15 units per frame toward its target. */
  datatype PlayerBullet = PlayerBullet(pos: Vec, velocity: Vec)

  const PlayerShotSpeed: real := 15.0

  /** PlayerBullet(pos, target); a target at the spawn point gives a bullet that stays put. */
  function NewPlayerBullet(env: Trig, pos: Vec, target: Vec): (pb: PlayerBullet)
    ensures pb.pos == pos
    ensures env.sqrt(SqDist(target, pos)) == 0.0 ==> pb.velocity == Zero
    ensures env.sqrt(SqDist(target, pos)) != 0.0 ==>
      pb.velocity.Scale(env.sqrt(SqDist(target, pos))) == target.Minus(pos).Scale(PlayerShotSpeed)
  {
    var dir := target.Minus(pos);
    var mag := env.sqrt(SqDist(target, pos));
    var v := if mag != 0.0 then Vec(dir.x / mag * PlayerShotSpeed, dir.y / mag * PlayerShotSpeed) else Zero;
    assert mag != 0.0 ==> v.x * mag == dir.x * PlayerShotSpeed && v.y * mag == dir.y * PlayerShotSpeed;
    PlayerBullet(pos, v)
  }

  /** The right-button spread: twelve player bullets aimed at points 100 units
      away at headings 0, 30, ..., 330 degrees (converted to radians as i * PI / 180). */
  function SpreadShot(env: Trig, at: Vec, heading: int): PlayerBullet {
    NewPlayerBullet(env, at, at.Plus(SpreadOffset(env, heading)))
  }

  /** The point 100 units from the origin at a heading in degrees. */
  function SpreadOffset(env: Trig, heading: int): Vec {
    var r := heading as real * PI / 180.0;
    Vec(env.cos(r) * 100.0, env.sin(r) * 100.0)
  }

  /** The player bullet moves along `offset`, 15 units per unit of the offset's
      length as `sqrt` measures it; an offset measured as 0 leaves it at rest. */
  predicate AimsAlong(env: Trig, pb: PlayerBullet, offset: Vec) {
    var m := env.sqrt(SqDist(offset, Zero));
    (m == 0.0 ==> pb.velocity == Zero) && (m != 0.0 ==> pb.velocity.Scale(m) == offset.Scale(PlayerShotSpeed))
  }

  function PlayerSpread(env: Trig, at: Vec): (v: seq<PlayerBullet>)
    ensures |v| == 12
    ensures forall k :: 0 <= k < 12 ==> v[k].pos == at && AimsAlong(env, v[k], SpreadOffset(env, 30 * k))
  {
    SpreadShotsAim(env, at);
    seq(12, k => SpreadShot(env, at, 30 * k))
  }

  /** Every spread shot leaves from `at` along its own offset. */
  lemma SpreadShotsAim(env: Trig, at: Vec)
    ensures forall h :: SpreadShot(env, at, h).pos == at && AimsAlong(env, SpreadShot(env, at, h), SpreadOffset(env, h))
  {
    forall h ensures AimsAlong(env, SpreadShot(env, at, h), SpreadOffset(env, h)) {
      var o := SpreadOffset(env, h);
      assert at.Plus(o).Minus(at) == o;
      assert SqDist(at.Plus(o), at) == SqDist(o, Zero);
    }
  }

  /** PlayerBullet::update(): one step of `velocity` per frame, whatever the frame time. */
  function PlayerBulletUpdate(pb: PlayerBullet): PlayerBullet {
    pb.(pos := pb.pos.Plus(pb.velocity))
  }

  function PlayerBulletBounds(pb: PlayerBullet): Box { CenteredBox(pb.pos, 5.0, 5.0) }

  /** What the player-bullet loop does with an updated player bullet. */
  datatype ShotFate = HitsBoss | LeavesArena | Flies

  function ShotFateOf(pb: PlayerBullet, boss: Box): ShotFate {
    if Overlaps(PlayerBulletBounds(pb), boss) then HitsBoss
    else if pb.pos.x < 0.0 || pb.pos.x > WorldW || pb.pos.y < 0.0 || pb.pos.y > WorldH then LeavesArena
    else Flies
  }
}
