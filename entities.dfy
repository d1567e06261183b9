/** The records the simulation keeps in its lists (game.js:5-47, 295-309, 323-338,
    341-358, 368-383, 386, 502, 814): enemies, the boss, both kinds of bullet,
    power-ups, chain arcs and explosions, with the overlap test that every collision
    uses (game.js:168-170). */
module Entities {
  import opened Numeric

  datatype Option<T> = None | Some(value: T)

  /** The x, y, w, h that every collidable record carries. */
  datatype Box = Box(x: real, y: real, w: real, h: real)
  {
    function CenterX(): real { x + w / 2.0 }
    function CenterY(): real { y + h / 2.0 }
  }

  /** rectHit(a, b): the open boxes overlap. */
  predicate RectHit(a: Box, b: Box)
  {
    a.x < b.x + b.w && a.x + a.w > b.x && a.y < b.y + b.h && a.y + a.h > b.y
  }

  /** The overlap test is the intersection of the two boxes' x-intervals and
      y-intervals being non-empty, so it does not depend on argument order. */
  lemma RectHitIsIntervalOverlap(a: Box, b: Box)
    requires a.w > 0.0 && a.h > 0.0 && b.w > 0.0 && b.h > 0.0
    ensures RectHit(a, b) <==>
      Max(a.x, b.x) < Min(a.x + a.w, b.x + b.w) && Max(a.y, b.y) < Min(a.y + a.h, b.y + b.h)
    ensures RectHit(a, b) == RectHit(b, a)
  {
  }

  /** Squared distance; the source's Math.hypot(dx, dy) < k is dx*dx + dy*dy < k*k. */
  function Dist2(x1: real, y1: real, x2: real, y2: real): (d: real)
    ensures d >= 0.0
  {
    (x1 - x2) * (x1 - x2) + (y1 - y2) * (y1 - y2)
  }

  /** The keys of state.effects (game.js:27-41). */
  datatype Gear = Shield | Wingman | Reflect | Laser | Beam | Flame | Missile
                | Explosive | Homing | Giant | Ricochet | Chain | Rapid

  type Effects = map<Gear, nat>

  const AllGear: set<Gear> :=
    {Shield, Wingman, Reflect, Laser, Beam, Flame, Missile, Explosive, Homing, Giant, Ricochet, Chain, Rapid}

  /** Every gear kind at tier 0 (game.js:155). */
  const NoEffects: Effects :=
    map[Shield := 0, Wingman := 0, Reflect := 0, Laser := 0, Beam := 0, Flame := 0, Missile := 0,
        Explosive := 0, Homing := 0, Giant := 0, Ricochet := 0, Chain := 0, Rapid := 0]

  /** state.effects[g] || 0 */
  function Tier(fx: Effects, g: Gear): nat
  {
    if g in fx then fx[g] else 0
  }

  /** POWERUP_POOL and BOSS_REWARD_POOL (game.js:57-72). */
  const PowerupPool: seq<Gear> := [Shield, Wingman, Laser, Missile, Shield, Laser, Missile]
  const BossRewardPool: seq<Gear> := [Shield, Missile, Laser, Wingman]

  /** pool[Math.floor(r * pool.length)] for a draw r in [0, 1). */
  function Pick(pool: seq<Gear>, r: real): (g: Gear)
    requires |pool| > 0 && 0.0 <= r < 1.0
    ensures g in pool
  {
    var n := |pool| as real;
    assert n * (1.0 - r) > 0.0;
    var k := (r * n).Floor;
    assert 0 <= k < |pool|;
    pool[k]
  }

  datatype Motion = Sine | Zigzag | Dive

  /** An enemy. `id` stands for the identity of the JavaScript object, which the
      chain's visited set and indexOf compare; the oscillation phase, used only by
      the sinusoidal motion, is not kept. */
  datatype Enemy = Enemy(id: nat, box: Box, hp: real, maxHp: int, speed: real,
                         fireCooldown: real, age: real, motion: Motion, vx: real,
                         shadeTier: int)

  datatype BossMode = ShieldMode | LaserMode | MissileMode | HomingMode

  /** The boss; its drift phase, used only by the hover sway, is not kept. */
  datatype Boss = Boss(box: Box, hp: real, maxHp: int, age: real, shootCooldown: real,
                       dashCooldown: real, targetX: real, modeIndex: nat, modeTimer: real,
                       modes: seq<BossMode>)

  datatype ShotKind = NormalShot | LaserShot | MissileShot | WingShot | ReflectedShot

  datatype PlayerBullet = PlayerBullet(box: Box, vx: real, vy: real, damage: real,
                                       kind: ShotKind, pierce: int, bounces: int,
                                       explosive: bool, ttl: real)

  datatype EnemyShotKind = SprayShot | BossShot | BossLaserShot | BossMissileShot | HomingShot

  /** An enemy bullet; `homing` is 0 where the source leaves the property undefined. */
  datatype EnemyBullet = EnemyBullet(box: Box, vx: real, vy: real, ttl: real,
                                     kind: EnemyShotKind, damage: int, pierce: int,
                                     homing: real)

  datatype Powerup = Powerup(box: Box, vy: real, kind: Gear, tier: nat, bossReward: bool)

  datatype ChainArc = ChainArc(x1: real, y1: real, x2: real, y2: real)
  datatype Explosion = Explosion(x: real, y: real, radius: real)

  /** A short-lived record with its countdown (chain arcs, explosions). */
  datatype Timed<T> = Timed(item: T, ttl: real)
}
