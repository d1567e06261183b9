/** The difficulty model (game.js:128-134, 176-280, 312-321, 585-587, 641-660,
    766, 922): every curve is a pure reading of the game state, steered by one
    bounded "gap factor" between the player's power and a target power. */
module Balance {
  import opened Numeric
  import opened Entities

  /** The fields of `state` that the curves read. */
  datatype Stats = Stats(level: int, time: real, kills: int, bossLevel: int, effects: Effects)

  // BALANCE (game.js:128-134)
  const BaseDropChance: real := 0.085
  const MaxDropChance: real := 0.14
  const WeaponKillStep: int := 12
  const EarlyGameSeconds: real := 45.0
  const StartSpawnDelay: real := 1.15

  /** The equipment kinds whose tiers make up the player's power. */
  const Equipment: seq<Gear> := [Shield, Missile, Laser, Wingman]

  /** The summed tiers of the kinds `gs`. */
  function TierSum(fx: Effects, gs: seq<Gear>): nat
  {
    if gs == [] then 0 else Tier(fx, gs[0]) + TierSum(fx, gs[1..])
  }

  /** The equipment sum of getPlayerPowerLevel: shield, missile, laser and wingman tiers. */
  function EquipSum(fx: Effects): nat
  {
    TierSum(fx, Equipment)
  }

  /** getPlayerPowerLevel */
  function PlayerPower(s: Stats): real
  {
    1.0 + s.level as real * 0.95 + EquipSum(s.effects) as real * 0.9
  }

  /** getTargetPowerLevel: expected power by survival time, bosses met and kills. */
  function TargetPower(s: Stats): real
  {
    2.0 + s.time * 0.048 + s.bossLevel as real * 0.9 + s.kills as real * 0.012
  }

  /** getPowerGapFactor: whatever the power levels, the factor stays in [-0.8, 0.9]. */
  function GapFactor(s: Stats): (g: real)
    ensures -0.8 <= g <= 0.9
  {
    Clamp((PlayerPower(s) - TargetPower(s)) / 8.0, -0.8, 0.9)
  }

  /** The factor is positive exactly when the player is ahead of the target curve,
      and negative exactly when behind it. */
  lemma GapFactorSign(s: Stats)
    ensures GapFactor(s) > 0.0 <==> PlayerPower(s) > TargetPower(s)
    ensures GapFactor(s) < 0.0 <==> PlayerPower(s) < TargetPower(s)
  {
  }

  /** With everything else fixed, the factor never rises as time passes. */
  lemma GapFactorFallsWithTime(s: Stats, later: real)
    requires s.time <= later
    ensures GapFactor(s.(time := later)) <= GapFactor(s)
  {
    ClampMonotone((PlayerPower(s) - TargetPower(s.(time := later))) / 8.0,
                  (PlayerPower(s) - TargetPower(s)) / 8.0, -0.8, 0.9);
  }

  /** calcEnemyHpByScaleAndShade: rounded, and never below 1. */
  function EnemyHp(s: Stats, size: real, shadeTier: int): (hp: int)
    ensures hp >= 1
  {
    IMax(1, Round(EnemyHpRaw(s, size, shadeTier)))
  }

  function EnemyHpRaw(s: Stats, size: real, shadeTier: int): real
  {
    var t := s.time;
    var earlyEase := if t < EarlyGameSeconds then (EarlyGameSeconds - t) / EarlyGameSeconds else 0.0;
    var playerScale := PlayerPower(s) * (0.18 + Min(0.22, t * 0.0025));
    var timeScale := t * 0.013;
    var anchorScale := GapFactor(s) * 1.15;
    var easedBase := 1.4 - earlyEase * 0.8;
    easedBase + (size - 26.0) / 6.0 + shadeTier as real * 0.9 + playerScale + timeScale + anchorScale
  }

  /** A bigger or darker enemy never has fewer hit points. */
  lemma EnemyHpMonotone(s: Stats, size1: real, shade1: int, size2: real, shade2: int)
    requires size1 <= size2 && shade1 <= shade2
    ensures EnemyHp(s, size1, shade1) <= EnemyHp(s, size2, shade2)
  {
    RoundMonotone(EnemyHpRaw(s, size1, shade1), EnemyHpRaw(s, size2, shade2));
  }

  /** getPowerupDropChance(mult): clamped to [0.045, 0.14] before the multiplier,
      capped at 0.14 after it. */
  function DropChance(s: Stats, mult: real): (p: real)
    ensures p <= MaxDropChance
    ensures 0.0 <= mult ==> 0.0 <= p
    ensures 1.0 <= mult ==> 0.045 <= p
  {
    Min(MaxDropChance, Max(0.045, DropChanceRaw(s)) * mult)
  }

  function DropChanceRaw(s: Stats): real
  {
    var tBonus := Min(0.025, s.time * 0.0003);
    var powerPenalty := Min(0.045, PlayerPower(s) * 0.0024);
    var anchorAdjust := -GapFactor(s) * 0.03;
    BaseDropChance + tBonus - powerPenalty + anchorAdjust
  }

  /** The floor is applied before the multiplier: a splash kill (multiplier 0.75)
      of a strong player early in the game has a chance below 0.045. */
  lemma DropChanceBelowFloor()
    ensures DropChance(Stats(4, 0.0, 0, 0, NoEffects[Shield := 4][Missile := 4][Laser := 4][Wingman := 4]), 0.75) < 0.045
  {
    var s := Stats(4, 0.0, 0, 0, NoEffects[Shield := 4][Missile := 4][Laser := 4][Wingman := 4]);
    assert TierSum(s.effects, Equipment[3..]) == 4;
    assert TierSum(s.effects, Equipment[2..]) == 8;
    assert TierSum(s.effects, Equipment[1..]) == 12;
    assert EquipSum(s.effects) == 16;
    assert GapFactor(s) == 0.9;
  }

  /** A smaller multiplier never gives a larger chance. */
  lemma DropChanceMonotoneInMult(s: Stats, m1: real, m2: real)
    requires 0.0 <= m1 <= m2
    ensures DropChance(s, m1) <= DropChance(s, m2)
  {
    var raw := Max(0.045, DropChanceRaw(s));
    var gap := m2 - m1;
    assert raw * gap >= 0.0;
    assert raw * m2 == raw * m1 + raw * gap;
  }

  /** rollPowerupTier(minTier) with the draw r = Math.random(). */
  function RollTier(time: real, minTier: int, r: real): (tier: int)
    ensures minTier <= tier <= IMax(minTier, 4)
  {
    var t2 := if r < Min(0.22, 0.08 + time * 0.0014) then IMax(minTier, 2) else minTier;
    var t3 := if r < Min(0.09, 0.02 + time * 0.0007) then IMax(t2, 3) else t2;
    if r < Min(0.03, 0.005 + time * 0.00025) then IMax(t3, 4) else t3
  }

  /** A smaller draw never yields a lower tier. */
  lemma RollTierMonotoneInDraw(time: real, minTier: int, r1: real, r2: real)
    requires r1 <= r2
    ensures RollTier(time, minTier, r2) <= RollTier(time, minTier, r1)
  {
  }

  /** The same draw later in the game never yields a lower tier. */
  lemma RollTierMonotoneInTime(t1: real, t2: real, minTier: int, r: real)
    requires t1 <= t2
    ensures RollTier(t1, minTier, r) <= RollTier(t2, minTier, r)
  {
  }

  /** A draw at or above 0.22 never upgrades. */
  lemma RollTierHighDrawKeepsMinimum(time: real, minTier: int, r: real)
    requires r >= 0.22
    ensures RollTier(time, minTier, r) == minTier
  {
  }

  /** The success chance of tryUpgradeEffect (game.js:243-244). */
  function UpgradeChance(current: int, gap: real): (p: real)
    ensures 0.38 <= p <= 0.95
  {
    Clamp(1.0 - current as real * 0.1 - gap * 0.18, 0.38, 0.95)
  }

  /** A higher current tier, or a player further ahead, never upgrades more easily. */
  lemma UpgradeChanceMonotone(c1: int, c2: int, g1: real, g2: real)
    requires c1 <= c2 && g1 <= g2
    ensures UpgradeChance(c2, g2) <= UpgradeChance(c1, g1)
  {
    ClampMonotone(1.0 - c2 as real * 0.1 - g2 * 0.18, 1.0 - c1 as real * 0.1 - g1 * 0.18, 0.38, 0.95);
  }

  /** getEnemySpeedScale: positive from the start of the game on. */
  function EnemySpeedScale(s: Stats): (k: real)
    ensures 0.0 <= s.time ==> k >= 0.464
  {
    var t := s.time;
    var anchor := 1.0 + GapFactor(s) * 0.25;
    var base := if t < 45.0 then 0.58 + t * 0.0046 else 0.79 + (t - 45.0) * 0.0066;
    assert 0.0 <= t ==> base * anchor >= 0.58 * 0.8 by {
      if 0.0 <= t {
        assert base >= 0.58 && anchor >= 0.8;
        assert base * anchor - 0.58 * 0.8 == (base - 0.58) * anchor + 0.58 * (anchor - 0.8);
      }
    }
    base * anchor
  }

  /** getSpawnInterval: always within [0.24, 1.0] seconds. */
  function SpawnInterval(s: Stats): (dt: real)
    ensures 0.24 <= dt <= 1.0
  {
    var t := s.time;
    var anchor := 1.0 - GapFactor(s) * 0.26;
    var base := if t < 40.0 then 1.08 - t * 0.011
                else if t < 110.0 then 0.64 - (t - 40.0) * 0.003
                else 0.38 - (t - 110.0) * 0.0009;
    Clamp(base * anchor, 0.24, 1.0)
  }

  /** getEnemyCap: between 2 and 6 standing enemies. */
  function EnemyCap(time: real): (n: int)
    ensures 2 <= n <= 6
  {
    if time < 20.0 then 2
    else if time < 45.0 then 3
    else if time < 80.0 then 4
    else if time < 130.0 then 5
    else 6
  }

  /** The cap never shrinks as time passes. */
  lemma EnemyCapMonotone(t1: real, t2: real)
    requires t1 <= t2
    ensures EnemyCap(t1) <= EnemyCap(t2)
  {
  }

  /** The player's shot cooldown (game.js:585-587): within [0.06, 0.25] seconds. */
  function PlayerShotCooldown(level: int, wingman: int, laser: int): (cd: real)
    ensures 0.06 <= cd <= 0.25
  {
    var cd := 0.24 - (level - 1) as real * 0.016 - wingman as real * 0.007;
    Clamp(if laser > 0 then cd + 0.015 else cd, 0.06, 0.25)
  }

  /** The boss's hit points (game.js:316-318), read after bossLevel was raised. */
  function BossMaxHp(s: Stats): (hp: int)
    ensures 1 <= s.level && 1 <= s.bossLevel && 0.0 <= s.time ==> hp >= 316
  {
    var anchorHp := 1.0 + GapFactor(s) * 0.22;
    var base := 200.0 + s.bossLevel as real * 125.0 + PlayerPower(s) * 30.0 + s.time * 0.42;
    assert 1 <= s.level && 1 <= s.bossLevel && 0.0 <= s.time ==> base * anchorHp >= 383.5 * 0.824 by {
      if 1 <= s.level && 1 <= s.bossLevel && 0.0 <= s.time {
        assert PlayerPower(s) >= 1.95;
        assert base >= 383.5;
        MulMonotone(base, anchorHp, 383.5, 0.824);
      }
    }
    Round(base * anchorHp)
  }

  /** The boss's attack modes (game.js:319-321): shield and laser always, missile
      from the second boss on, homing from the third on. */
  function BossModes(bossLevel: int): (modes: seq<BossMode>)
    ensures |modes| == 2 + (if bossLevel >= 2 then 1 else 0) + (if bossLevel >= 3 then 1 else 0)
    ensures modes[0] == ShieldMode && modes[1] == LaserMode
    ensures MissileMode in modes <==> bossLevel >= 2
    ensures HomingMode in modes <==> bossLevel >= 3
  {
    [ShieldMode, LaserMode]
      + (if bossLevel >= 2 then [MissileMode] else [])
      + (if bossLevel >= 3 then [HomingMode] else [])
  }

  /** Boss timers (game.js:641, 660). */
  function BossDashCooldown(bossLevel: int): (cd: real)
    ensures cd >= 1.2
  {
    Max(1.2, 3.0 - bossLevel as real * 0.2)
  }

  function BossShootCooldown(bossLevel: int): (cd: real)
    ensures cd >= 0.45
  {
    Max(0.45, 1.0 - bossLevel as real * 0.08)
  }

  /** The laser beam's width (game.js:540): 8 px, a pulse of up to 2 px either way,
      and 1.8 px per laser level, that part capped at 10 px. */
  function BeamWidth(laser: int, wave: real): (w: real)
    ensures 0 <= laser && -1.0 <= wave <= 1.0 ==> 6.0 <= w <= 20.0
  {
    8.0 + wave * 2.0 + Min(10.0, laser as real * 1.8)
  }

  /** The beam's damage over dt seconds (game.js:544): 8 per second plus 2.2 per
      second and laser level. */
  function BeamDamage(laser: int, dt: real): (d: real)
    ensures 0 <= laser && 0.0 <= dt ==> 8.0 * dt <= d
  {
    (8.0 + laser as real * 2.2) * dt
  }

  /** Shield and reflect cooldowns (game.js:766, 922). */
  function ShieldBlockCooldown(shield: int): (cd: real)
    ensures 0.18 <= cd
    ensures 0 <= shield ==> cd <= 0.7
  {
    Max(0.18, 0.7 - shield as real * 0.06)
  }

  function ReflectCooldown(reflect: int): (cd: real)
    ensures cd >= 0.1
  {
    Max(0.1, 0.52 - reflect as real * 0.05)
  }
}
