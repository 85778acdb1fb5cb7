/** What the two end-of-frame sweeps do to the projectile stores, as functions
    of the store before the sweep. The sweeping loops live in Game.GameState;
    these functions say what they must produce, and the lemmas below say what
    that means: order, counts, shard bursts and the rate-limited damage. */
module Lifecycle {
  import opened Geometry
  import opened Projectiles

  // ---------------------------------------------------------------- boss bullets

  /** The bullets the sweep keeps, each updated once, in their original order. */
  function Survivors(bs: seq<Bullet>, dt: real, player: Box): seq<Bullet> {
    if bs == [] then []
    else
      var b := Update(bs[|bs| - 1], dt);
      Survivors(bs[..|bs| - 1], dt, player) + (if FateOf(b, player) == Kept then [b] else [])
  }

  /** The shards collected during the sweep: one burst per poprock that flew too far. */
  function Shards(env: Trig, bs: seq<Bullet>, dt: real, player: Box): seq<Bullet> {
    if bs == [] then []
    else
      var b := Update(bs[|bs| - 1], dt);
      Shards(env, bs[..|bs| - 1], dt, player) + (if FateOf(b, player) == Burst then ShardBurst(env, b.pos) else [])
  }

  /** How many bullets meet the given fate in the sweep. */
  function CountFate(bs: seq<Bullet>, dt: real, player: Box, f: Fate): nat {
    if bs == [] then 0
    else CountFate(bs[..|bs| - 1], dt, player, f) + (if FateOf(Update(bs[|bs| - 1], dt), player) == f then 1 else 0)
  }

  /** The store after the sweep: the survivors, then every shard. */
  function Sweep(env: Trig, bs: seq<Bullet>, dt: real, player: Box): seq<Bullet> {
    Survivors(bs, dt, player) + Shards(env, bs, dt, player)
  }

  /** The player's re-hit interval: a contact costs health only when more than
      this many seconds have passed since the hit timer last restarted. */
  const RehitInterval: real := 0.15

  const HitDamage: real := 10.0

  /** Whether the sweep takes health: some bullet touches the player and the
      hit timer shows more than the re-hit interval. */
  predicate HitLands(bs: seq<Bullet>, dt: real, player: Box, sinceLastHit: real) {
    CountFate(bs, dt, player, Contact) > 0 && sinceLastHit > RehitInterval
  }

  /** Health after the sweep: however many bullets touch the player, at most
      one hit of 10 is taken, and none when the hit timer is still running. */
  function HealthAfterSweep(health: real, bs: seq<Bullet>, dt: real, player: Box, sinceLastHit: real): (h: real)
    ensures health - HitDamage <= h <= health
    ensures h < health <==> CountFate(bs, dt, player, Contact) > 0 && sinceLastHit > RehitInterval
  {
    if HitLands(bs, dt, player, sinceLastHit) then health - HitDamage else health
  }

  /** Survivors and shards of two stretches of the store are those of each,
      in order: the sweep keeps the relative order of what it keeps. */
  lemma {:induction false} SweepDistributes(env: Trig, a: seq<Bullet>, b: seq<Bullet>, dt: real, player: Box)
    ensures Survivors(a + b, dt, player) == Survivors(a, dt, player) + Survivors(b, dt, player)
    ensures Shards(env, a + b, dt, player) == Shards(env, a, dt, player) + Shards(env, b, dt, player)
    ensures CountFate(a + b, dt, player, Contact) == CountFate(a, dt, player, Contact) + CountFate(b, dt, player, Contact)
    decreases |b|
  {
    if b == [] {
      assert a + b == a;
    } else {
      var init := b[..|b| - 1];
      assert (a + b)[..|a + b| - 1] == a + init;
      assert (a + b)[|a + b| - 1] == b[|b| - 1];
      SweepDistributes(env, a, init, dt, player);
    }
  }

  /** A bullet is a survivor exactly when it is the update of some bullet of
      the store whose fate is to be kept: nothing is added, nothing kept twice
      over, and every kept bullet has been updated once. */
  lemma {:induction false} SurvivorsExact(bs: seq<Bullet>, dt: real, player: Box)
    ensures forall x :: x in Survivors(bs, dt, player) <==>
      exists i :: 0 <= i < |bs| && x == Update(bs[i], dt) && FateOf(x, player) == Kept
    ensures |Survivors(bs, dt, player)| == CountFate(bs, dt, player, Kept)
  {
    if bs != [] {
      var init := bs[..|bs| - 1];
      SurvivorsExact(init, dt, player);
      forall x | x in Survivors(bs, dt, player)
        ensures exists i :: 0 <= i < |bs| && x == Update(bs[i], dt) && FateOf(x, player) == Kept
      {
        if x in Survivors(init, dt, player) {
          var i :| 0 <= i < |init| && x == Update(init[i], dt) && FateOf(x, player) == Kept;
          assert bs[i] == init[i];
        }
      }
      forall x | exists i :: 0 <= i < |bs| && x == Update(bs[i], dt) && FateOf(x, player) == Kept
        ensures x in Survivors(bs, dt, player)
      {
        var i :| 0 <= i < |bs| && x == Update(bs[i], dt) && FateOf(x, player) == Kept;
        if i < |init| {
          assert bs[i] == init[i];
        }
      }
    }
  }

  /** Nothing that touches the player survives the sweep, and every survivor
      is still within 150 of the arena. */
  lemma SurvivorsAreClear(bs: seq<Bullet>, dt: real, player: Box)
    ensures forall x :: x in Survivors(bs, dt, player) ==>
      !Overlaps(Bounds(x), player) &&
      -150.0 <= x.pos.x <= WorldW + 150.0 && -150.0 <= x.pos.y <= WorldH + 150.0
  {
    SurvivorsExact(bs, dt, player);
    forall x | x in Survivors(bs, dt, player)
      ensures !Overlaps(Bounds(x), player)
      ensures -150.0 <= x.pos.x <= WorldW + 150.0 && -150.0 <= x.pos.y <= WorldH + 150.0
    {
      KeptBulletIsHarmless(x, player);
    }
  }

  /** Each poprock that bursts is replaced by exactly 12 shards, all at the
      position the poprock had reached. */
  lemma {:induction false} ShardsAreBursts(env: Trig, bs: seq<Bullet>, dt: real, player: Box)
    ensures |Shards(env, bs, dt, player)| == 12 * CountFate(bs, dt, player, Burst)
    ensures forall x :: x in Shards(env, bs, dt, player) ==>
      !x.isPoprock && exists i :: 0 <= i < |bs| && FateOf(Update(bs[i], dt), player) == Burst && x.pos == Update(bs[i], dt).pos
  {
    if bs != [] {
      var init := bs[..|bs| - 1];
      var last := Update(bs[|bs| - 1], dt);
      ShardsAreBursts(env, init, dt, player);
      forall x | x in Shards(env, bs, dt, player)
        ensures !x.isPoprock && exists i :: 0 <= i < |bs| && FateOf(Update(bs[i], dt), player) == Burst && x.pos == Update(bs[i], dt).pos
      {
        if x in Shards(env, init, dt, player) {
          var i :| 0 <= i < |init| && FateOf(Update(init[i], dt), player) == Burst && x.pos == Update(init[i], dt).pos;
          assert bs[i] == init[i];
        } else {
          var k :| 0 <= k < 12 && ShardBurst(env, last.pos)[k] == x;
          assert bs[|bs| - 1] == bs[|bs| - 1];
        }
      }
    }
  }

  /** Every bullet of the store meets exactly one fate. */
  lemma {:induction false} FatesPartitionStore(bs: seq<Bullet>, dt: real, player: Box)
    ensures CountFate(bs, dt, player, Burst) + CountFate(bs, dt, player, Expired)
          + CountFate(bs, dt, player, OutOfReach) + CountFate(bs, dt, player, Contact)
          + CountFate(bs, dt, player, Offscreen) + CountFate(bs, dt, player, Kept) == |bs|
  {
    if bs != [] {
      FatesPartitionStore(bs[..|bs| - 1], dt, player);
    }
  }

  /** The bullets the sweep takes out: every one but the survivors. */
  lemma RemovedCount(bs: seq<Bullet>, dt: real, player: Box)
    ensures |bs| - |Survivors(bs, dt, player)| ==
      CountFate(bs, dt, player, Burst) + CountFate(bs, dt, player, Expired)
      + CountFate(bs, dt, player, OutOfReach) + CountFate(bs, dt, player, Contact)
      + CountFate(bs, dt, player, Offscreen)
  {
    SurvivorsExact(bs, dt, player);
    FatesPartitionStore(bs, dt, player);
  }

  /** Bullets that only pass the player, one frame apart, and the damage they do:
      within one re-hit window the second sweep takes nothing. */
  lemma RehitWindowAbsorbsSecondContact(health: real, bs1: seq<Bullet>, bs2: seq<Bullet>,
                                        dt: real, player: Box, sinceLastHit: real, gap: real)
    requires CountFate(bs1, dt, player, Contact) > 0 && sinceLastHit > RehitInterval
    requires 0.0 <= gap <= RehitInterval
    ensures HealthAfterSweep(health, bs1, dt, player, sinceLastHit) == health - HitDamage
    ensures HealthAfterSweep(health - HitDamage, bs2, dt, player, gap) == health - HitDamage
  {
  }

  // ---------------------------------------------------------------- player bullets

  /** The player bullets that fly on, each moved once, in their original order. */
  function ShotSurvivors(pbs: seq<PlayerBullet>, boss: Box): seq<PlayerBullet> {
    if pbs == [] then []
    else
      var pb := PlayerBulletUpdate(pbs[|pbs| - 1]);
      ShotSurvivors(pbs[..|pbs| - 1], boss) + (if ShotFateOf(pb, boss) == Flies then [pb] else [])
  }

  /** How many player bullets strike the boss in the sweep. */
  function BossHits(pbs: seq<PlayerBullet>, boss: Box): nat {
    if pbs == [] then 0
    else BossHits(pbs[..|pbs| - 1], boss) + (if ShotFateOf(PlayerBulletUpdate(pbs[|pbs| - 1]), boss) == HitsBoss then 1 else 0)
  }

  const ShotDamage: real := 15.0

  /** Boss health after the player-bullet sweep: 15 per hit, nothing while the
      boss is in a survival interlude. */
  function BossHPAfterSweep(hp: real, pbs: seq<PlayerBullet>, boss: Box, survival: bool): (r: real)
    ensures r <= hp
    ensures survival ==> r == hp
    ensures !survival ==> hp - r == ShotDamage * BossHits(pbs, boss) as real
  {
    if survival then hp else hp - ShotDamage * BossHits(pbs, boss) as real
  }

  /** Every player bullet is either still flying, inside the arena and clear of
      the boss, or gone; those that struck the boss are exactly the removed
      ones that were not lost off the edge. */
  lemma {:induction false} ShotSweepAccounts(pbs: seq<PlayerBullet>, boss: Box)
    ensures |ShotSurvivors(pbs, boss)| + BossHits(pbs, boss) <= |pbs|
    ensures forall pb :: pb in ShotSurvivors(pbs, boss) ==>
      !Overlaps(PlayerBulletBounds(pb), boss) && 0.0 <= pb.pos.x <= WorldW && 0.0 <= pb.pos.y <= WorldH
  {
    if pbs != [] {
      ShotSweepAccounts(pbs[..|pbs| - 1], boss);
    }
  }
}
