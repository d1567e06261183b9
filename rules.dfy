/** Pure forms of the state transitions of game.js: player damage (762-779), the
    upgrade roll (237-250), equipping (231-235), power-up creation (341-358), boss
    creation and mode cycling (312-339, 651-655), the explosion's effect on the enemy
    list (385-401), the chain's target search (790-799), list ageing (944-958) and
    pickups (931-941). The Game class is proved against these functions. */
module Rules {
  import opened Numeric
  import opened Entities
  import opened Balance

  // ---------------------------------------------------------------- damagePlayer

  /** The part of `state` that damagePlayer changes. */
  datatype Vitals = Vitals(lives: int, running: bool, hitCooldown: real, shieldBlockCooldown: real)

  /** The amount after the shield's reduction (game.js:770): floor(shield / 3) less,
      but at least 1. */
  function Reduced(amount: int, shield: nat): (a: int)
    ensures shield > 0 ==> 1 <= a && a <= IMax(1, amount)
    ensures shield == 0 ==> a == amount
  {
    if shield > 0 then IMax(1, amount - shield / 3) else amount
  }

  /** damagePlayer(amount) with the shield tier `shield`. */
  function Damage(v: Vitals, shield: nat, amount: int): (w: Vitals)
    ensures v.hitCooldown > 0.0 ==> w == v
    ensures w == v || w.hitCooldown > 0.0
    ensures 0 <= v.lives ==> 0 <= w.lives
    ensures 0 <= v.lives && 1 <= amount ==> w.lives <= v.lives
    ensures w.lives != v.lives ==> w.running == (v.running && w.lives > 0)
  {
    if v.hitCooldown > 0.0 then v
    else if shield > 0 && v.shieldBlockCooldown <= 0.0 then
      v.(shieldBlockCooldown := ShieldBlockCooldown(shield), hitCooldown := 0.16)
    else
      var lives := v.lives - Reduced(amount, shield);
      if lives <= 0 then v.(lives := 0, hitCooldown := 0.5, running := false)
      else v.(lives := lives, hitCooldown := 0.5)
  }

  /** With shield gear and the block ready, the hit is absorbed: no life is lost,
      the block cooldown restarts and the player is briefly invulnerable. */
  lemma DamageShieldBlocks(v: Vitals, shield: nat, amount: int)
    requires v.hitCooldown <= 0.0 && shield > 0 && v.shieldBlockCooldown <= 0.0
    ensures Damage(v, shield, amount).lives == v.lives
    ensures Damage(v, shield, amount).running == v.running
    ensures Damage(v, shield, amount).shieldBlockCooldown == Max(0.18, 0.7 - shield as real * 0.06)
    ensures Damage(v, shield, amount).hitCooldown == 0.16
  {
  }

  /** Otherwise the (shield-reduced) amount is lost, floored at 0, and the game
      stops exactly when no life is left. */
  lemma DamageTakesLives(v: Vitals, shield: nat, amount: int)
    requires v.hitCooldown <= 0.0 && !(shield > 0 && v.shieldBlockCooldown <= 0.0)
    ensures Damage(v, shield, amount).lives == IMax(0, v.lives - Reduced(amount, shield))
    ensures Damage(v, shield, amount).running == (v.running && v.lives - Reduced(amount, shield) > 0)
    ensures Damage(v, shield, amount).hitCooldown == 0.5
    ensures Damage(v, shield, amount).shieldBlockCooldown == v.shieldBlockCooldown
  {
  }

  /** A second hit right after the first changes nothing: every hit that has an
      effect leaves the player invulnerable. */
  lemma DamageOncePerWindow(v: Vitals, shield: nat, a: int, b: int)
    ensures Damage(Damage(v, shield, a), shield, b) == Damage(v, shield, a)
  {
  }

  /** Shield tier 2 with the block ready: blocked, block cooldown 0.58, no life lost. */
  lemma ShieldTierTwoBlocks()
    ensures Damage(Vitals(8, true, 0.0, 0.0), 2, 1) == Vitals(8, true, 0.16, 0.58)
  {
  }

  // ---------------------------------------------------------------- gear

  /** The parts of `state` that pickups change. */
  datatype Loadout = Loadout(effects: Effects, score: int, lives: int)

  /** equipGear(g, tier): the tier is overwritten (a lower pickup lowers it), and the
      score rises by 16 for a higher tier, by 8 otherwise. */
  function Equip(l: Loadout, g: Gear, tier: nat): (m: Loadout)
    ensures Tier(m.effects, g) == tier
    ensures forall h :: h != g ==> Tier(m.effects, h) == Tier(l.effects, h)
    ensures m.effects.Keys == l.effects.Keys + {g}
    ensures m.score - l.score == (if tier > Tier(l.effects, g) then 16 else 8)
    ensures m.lives == l.lives
  {
    Loadout(l.effects[g := tier], l.score + (if tier > Tier(l.effects, g) then 16 else 8), l.lives)
  }

  /** Equipping a lower tier than the one held lowers the held tier. */
  lemma EquipCanLowerTier(l: Loadout, g: Gear, tier: nat)
    requires tier < Tier(l.effects, g)
    ensures Tier(Equip(l, g, tier).effects, g) < Tier(l.effects, g)
    ensures Equip(l, g, tier).score == l.score + 8
  {
  }

  datatype Upgrade = Upgrade(tier: int, scoreGain: int)

  /** tryUpgradeEffect for a gear at tier `current`, with gap factor `gap` and the
      draw `r` (only taken below maxLevel). */
  function TryUpgrade(current: int, maxLevel: int, gap: real, r: real): (u: Upgrade)
    ensures current >= maxLevel ==> u == Upgrade(current, 6)
    ensures current < maxLevel ==> u == Upgrade(current + 1, 0) || u == Upgrade(current, 4)
    ensures current < maxLevel ==> (u.tier == current + 1 <==> r < UpgradeChance(current, gap))
  {
    if current >= maxLevel then Upgrade(current, 6)
    else if r < UpgradeChance(current, gap) then Upgrade(current + 1, 0)
    else Upgrade(current, 4)
  }

  /** A draw below 0.38 always upgrades; one at or above 0.95 never does. */
  lemma UpgradeDrawThresholds(current: int, maxLevel: int, gap: real, r: real)
    requires current < maxLevel
    ensures r < 0.38 ==> TryUpgrade(current, maxLevel, gap, r).tier == current + 1
    ensures r >= 0.95 ==> TryUpgrade(current, maxLevel, gap, r) == Upgrade(current, 4)
  {
  }

  // ---------------------------------------------------------------- power-ups

  /** spawnPowerup(x, y): a falling 18x18 power-up of a pool gear, tier at least 1. */
  function DropPowerup(x: real, y: real, kindDraw: real, tierDraw: real, time: real): (p: Powerup)
    requires 0.0 <= kindDraw < 1.0
    ensures p.kind in PowerupPool && !p.bossReward
    ensures 1 <= p.tier <= 4
    ensures p.box == Box(x, y, 18.0, 18.0) && p.vy == 90.0
  {
    Powerup(Box(x, y, 18.0, 18.0), 90.0, Pick(PowerupPool, kindDraw), RollTier(time, 1, tierDraw), false)
  }

  /** spawnBossReward(x, y): a boss reward of tier 3 or 4, centred on (x, y). */
  function BossReward(x: real, y: real, kindDraw: real, tierDraw: real, time: real): (p: Powerup)
    requires 0.0 <= kindDraw < 1.0
    ensures p.kind in BossRewardPool && p.bossReward
    ensures 3 <= p.tier <= 4
    ensures p.box.CenterX() == x && p.box.CenterY() == y
  {
    Powerup(Box(x - 11.0, y - 11.0, 22.0, 22.0), 86.0, Pick(BossRewardPool, kindDraw),
            RollTier(time, 3, tierDraw), true)
  }

  /** The number of boss rewards in a power-up list. */
  function RewardCount(ps: seq<Powerup>): (n: nat)
    ensures n <= |ps|
  {
    if ps == [] then 0 else (if ps[|ps| - 1].bossReward then 1 else 0) + RewardCount(ps[..|ps| - 1])
  }

  lemma {:induction false} RewardCountAppend(ps: seq<Powerup>, qs: seq<Powerup>)
    ensures RewardCount(ps + qs) == RewardCount(ps) + RewardCount(qs)
  {
    if qs != [] {
      assert (ps + qs)[..|ps + qs| - 1] == ps + qs[..|qs| - 1];
      RewardCountAppend(ps, qs[..|qs| - 1]);
    } else {
      assert ps + qs == ps;
    }
  }

  /** The part of the game a drop roll changes: the power-ups on the field and the
      number of draws taken from the stream. */
  datatype Drops = Drops(powerups: seq<Powerup>, drawn: nat)

  /** maybeDropPowerup(x, y, mult) (game.js:215-219) on the stream `rolls`, with the
      balance inputs `s`: the next draw decides against the drop chance, and a drop
      takes two more draws for the power-up's kind and tier. */
  function DropRoll(rolls: nat -> Draw, t: Drops, s: Stats, x: real, y: real, mult: real): (u: Drops)
    ensures t.powerups <= u.powerups && |u.powerups| <= |t.powerups| + 1
    ensures u.drawn == t.drawn + 1 + 2 * (|u.powerups| - |t.powerups|)
    ensures |u.powerups| > |t.powerups| <==> rolls(t.drawn) < DropChance(s, mult)
  {
    if rolls(t.drawn) < DropChance(s, mult) then
      Drops(t.powerups + [DropPowerup(x, y, rolls(t.drawn + 1), rolls(t.drawn + 2), s.time)], t.drawn + 3)
    else Drops(t.powerups, t.drawn + 1)
  }

  /** The drop rolls of a run of kills, in kill order: the kill of the enemy in box b
      rolls at (b.x + 7, b.y + dy) with the multiplier `mult`, once the kill counter
      of `s` has counted it and every kill before it. */
  function KillDrops(rolls: nat -> Draw, t: Drops, s: Stats, killed: seq<Box>, mult: real, dy: real): Drops
    decreases |killed|, 1
  {
    if killed == [] then t else LastRoll(rolls, t, s, killed, mult, dy)
  }

  /** The roll of the last kill of `killed`, after the rolls of the kills before it. */
  function LastRoll(rolls: nat -> Draw, t: Drops, s: Stats, killed: seq<Box>, mult: real, dy: real): Drops
    requires killed != []
    decreases |killed|, 0
  {
    var n := |killed| - 1;
    DropRoll(rolls, KillDrops(rolls, t, s, killed[..n], mult, dy), s.(kills := s.kills + |killed|),
             killed[n].x + 7.0, killed[n].y + dy, mult)
  }

  /** A boss defeat's reward after the rolls `t` (game.js:346-357, 363): two draws, for
      its kind and tier, and the reward centred on (x, y). */
  function RewardRoll(rolls: nat -> Draw, t: Drops, x: real, y: real, time: real): Drops
  {
    Drops(t.powerups + [BossReward(x, y, rolls(t.drawn), rolls(t.drawn + 1), time)], t.drawn + 2)
  }

  /** One more kill rolls after all the kills before it, with the counter at their
      number plus one. */
  lemma KillDropsSnoc(rolls: nat -> Draw, t: Drops, s: Stats, killed: seq<Box>, b: Box, mult: real, dy: real)
    ensures KillDrops(rolls, t, s, killed + [b], mult, dy)
         == DropRoll(rolls, KillDrops(rolls, t, s, killed, mult, dy), s.(kills := s.kills + |killed + [b]|),
                     b.x + 7.0, b.y + dy, mult)
  {
    assert (killed + [b])[..|killed|] == killed;
  }

  /** KillDropsSnoc with the states named: `u`, one roll after the rolls `prev` of
      `killed` with the counter `now` past them, is the rolls of killed + [b]. */
  lemma KillDropsStep(rolls: nat -> Draw, t: Drops, s: Stats, killed: seq<Box>, b: Box, mult: real, dy: real,
                      prev: Drops, now: Stats, u: Drops)
    requires prev == KillDrops(rolls, t, s, killed, mult, dy)
    requires now == s.(kills := s.kills + |killed| + 1)
    requires u == DropRoll(rolls, prev, now, b.x + 7.0, b.y + dy, mult)
    ensures u == KillDrops(rolls, t, s, killed + [b], mult, dy)
  {
    KillDropsSnoc(rolls, t, s, killed, b, mult, dy);
  }

  /** The rolls of a single kill are one roll, with the counter past it. */
  lemma KillDropsOne(rolls: nat -> Draw, t: Drops, s: Stats, b: Box, mult: real, dy: real)
    ensures KillDrops(rolls, t, s, [b], mult, dy)
         == DropRoll(rolls, t, s.(kills := s.kills + 1), b.x + 7.0, b.y + dy, mult)
  {
    KillDropsSnoc(rolls, t, s, [], b, mult, dy);
    assert [] + [b] == [b];
  }

  /** KillDropsOne with the states named: `u`, the roll made with the counter `now`
      past one kill, is the rolls of that kill. */
  lemma KillDropsOneAt(rolls: nat -> Draw, t: Drops, s: Stats, b: Box, mult: real, dy: real, now: Stats, u: Drops)
    requires now == s.(kills := s.kills + 1)
    requires u == DropRoll(rolls, t, now, b.x + 7.0, b.y + dy, mult)
    ensures u == KillDrops(rolls, t, s, [b], mult, dy)
  {
    KillDropsOne(rolls, t, s, b, mult, dy);
  }

  /** The rolls of `killed`, then those of one more kill with the counter past them,
      are the rolls of killed + [b]. */
  lemma KillDropsThen(rolls: nat -> Draw, t: Drops, s: Stats, killed: seq<Box>, b: Box, mult: real, dy: real,
                      prev: Drops, mid: Stats, u: Drops)
    requires prev == KillDrops(rolls, t, s, killed, mult, dy)
    requires mid == s.(kills := s.kills + |killed|)
    requires u == KillDrops(rolls, prev, mid, [b], mult, dy)
    ensures u == KillDrops(rolls, t, s, killed + [b], mult, dy)
  {
    KillDropsOne(rolls, prev, mid, b, mult, dy);
    KillDropsStep(rolls, t, s, killed, b, mult, dy, prev, mid.(kills := mid.kills + 1), u);
  }

  /** Every kill takes one draw, and two more when it drops; the power-ups already on
      the field stay, and each new one is an ordinary power-up (never a boss reward)
      lying at the drop point of an enemy killed; a multiplier of 0 or less never
      drops. */
  lemma KillDropsBounds(rolls: nat -> Draw, t: Drops, s: Stats, killed: seq<Box>, mult: real, dy: real)
    ensures var u := KillDrops(rolls, t, s, killed, mult, dy);
      && t.powerups <= u.powerups && |u.powerups| - |t.powerups| <= |killed|
      && u.drawn == t.drawn + |killed| + 2 * (|u.powerups| - |t.powerups|)
      && RewardCount(u.powerups) == RewardCount(t.powerups)
      && (forall p :: p in u.powerups[|t.powerups|..] ==>
            && p.kind in PowerupPool && !p.bossReward
            && exists b :: b in killed && p.box == Box(b.x + 7.0, b.y + dy, 18.0, 18.0))
      && (mult <= 0.0 ==> u == Drops(t.powerups, t.drawn + |killed|))
  {
    KillDropsCount(rolls, t, s, killed, mult, dy);
    KillDropsPlain(rolls, t, s, killed, mult, dy);
    var u := KillDrops(rolls, t, s, killed, mult, dy);
    assert u.powerups == t.powerups + u.powerups[|t.powerups|..];
    RewardCountAppend(t.powerups, u.powerups[|t.powerups|..]);
    NoRewards(u.powerups[|t.powerups|..]);
    KillDropsAt(rolls, t, s, killed, mult, dy);
    if mult <= 0.0 {
      KillDropsNone(rolls, t, s, killed, mult, dy);
    }
  }

  lemma {:induction false} KillDropsCount(rolls: nat -> Draw, t: Drops, s: Stats, killed: seq<Box>, mult: real, dy: real)
    ensures var u := KillDrops(rolls, t, s, killed, mult, dy);
      && t.powerups <= u.powerups && |u.powerups| - |t.powerups| <= |killed|
      && u.drawn == t.drawn + |killed| + 2 * (|u.powerups| - |t.powerups|)
    decreases |killed|
  {
    if killed != [] {
      KillDropsCount(rolls, t, s, killed[..|killed| - 1], mult, dy);
    }
  }

  lemma {:induction false} KillDropsPlain(rolls: nat -> Draw, t: Drops, s: Stats, killed: seq<Box>, mult: real, dy: real)
    ensures var u := KillDrops(rolls, t, s, killed, mult, dy);
      t.powerups <= u.powerups && forall p :: p in u.powerups[|t.powerups|..] ==> p.kind in PowerupPool && !p.bossReward
    decreases |killed|
  {
    if killed != [] {
      var n := |killed| - 1;
      KillDropsPlain(rolls, t, s, killed[..n], mult, dy);
      var v := KillDrops(rolls, t, s, killed[..n], mult, dy);
      var u := KillDrops(rolls, t, s, killed, mult, dy);
      forall p | p in u.powerups[|t.powerups|..]
        ensures p.kind in PowerupPool && !p.bossReward
      {
        if p !in v.powerups[|t.powerups|..] {
          assert u.powerups[|t.powerups|..] == v.powerups[|t.powerups|..] + u.powerups[|v.powerups|..];
        }
      }
    }
  }

  /** A list with no boss reward counts none. */
  lemma {:induction false} NoRewards(ps: seq<Powerup>)
    requires forall p :: p in ps ==> !p.bossReward
    ensures RewardCount(ps) == 0
  {
    if ps != [] {
      assert ps[|ps| - 1] in ps;
      NoRewards(ps[..|ps| - 1]);
    }
  }

  lemma {:induction false} KillDropsAt(rolls: nat -> Draw, t: Drops, s: Stats, killed: seq<Box>, mult: real, dy: real)
    ensures var u := KillDrops(rolls, t, s, killed, mult, dy);
      t.powerups <= u.powerups &&
      forall p :: p in u.powerups[|t.powerups|..] ==>
        exists b :: b in killed && p.box == Box(b.x + 7.0, b.y + dy, 18.0, 18.0)
    decreases |killed|
  {
    if killed != [] {
      var n := |killed| - 1;
      KillDropsAt(rolls, t, s, killed[..n], mult, dy);
      var v := KillDrops(rolls, t, s, killed[..n], mult, dy);
      var u := KillDrops(rolls, t, s, killed, mult, dy);
      forall p | p in u.powerups[|t.powerups|..]
        ensures exists b :: b in killed && p.box == Box(b.x + 7.0, b.y + dy, 18.0, 18.0)
      {
        assert u.powerups[|t.powerups|..] == v.powerups[|t.powerups|..] + u.powerups[|v.powerups|..];
        if p in v.powerups[|t.powerups|..] {
          var b :| b in killed[..n] && p.box == Box(b.x + 7.0, b.y + dy, 18.0, 18.0);
          assert b in killed;
        } else {
          assert killed[n] in killed;
        }
      }
    }
  }

  lemma {:induction false} KillDropsNone(rolls: nat -> Draw, t: Drops, s: Stats, killed: seq<Box>, mult: real, dy: real)
    requires mult <= 0.0
    ensures KillDrops(rolls, t, s, killed, mult, dy) == Drops(t.powerups, t.drawn + |killed|)
    decreases |killed|
  {
    if killed != [] {
      KillDropsNone(rolls, t, s, killed[..|killed| - 1], mult, dy);
      DropChanceNonPositive(s.(kills := s.kills + |killed|), mult);
    }
  }

  /** A multiplier of 0 or less gives no chance at all. */
  lemma DropChanceNonPositive(s: Stats, mult: real)
    requires mult <= 0.0
    ensures DropChance(s, mult) <= 0.0
  {
    var raw := Max(0.045, DropChanceRaw(s));
    assert raw * mult <= 0.0;
  }

  /** One pickup (game.js:935-938): a gear power-up is equipped at its tier (0 read
      as 1) and a boss reward gives back a life, up to maxLives. */
  function Pickup(l: Loadout, p: Powerup, maxLives: int): (m: Loadout)
    ensures l.lives <= maxLives ==> m.lives <= maxLives
    ensures m.lives >= IMin(l.lives, maxLives)
    ensures m.score >= l.score
  {
    if p.kind in {Shield, Missile, Laser, Wingman} then
      var e := Equip(l, p.kind, if p.tier == 0 then 1 else p.tier);
      e.(lives := IMin(maxLives, l.lives + (if p.bossReward then 1 else 0)))
    else l
  }

  /** The pickup loop over `ps`, which runs from the last power-up to the first. */
  function Collect(l: Loadout, ps: seq<Powerup>, player: Box, maxLives: int): Loadout
  {
    if ps == [] then l
    else
      var rest := Collect(l, ps[1..], player, maxLives);
      if RectHit(player, ps[0].box) then Pickup(rest, ps[0], maxLives) else rest
  }

  /** The power-ups the player does not touch. */
  function Untouched(ps: seq<Powerup>, player: Box): (qs: seq<Powerup>)
    ensures |qs| <= |ps|
  {
    if ps == [] then []
    else (if RectHit(player, ps[0].box) then [] else [ps[0]]) + Untouched(ps[1..], player)
  }

  /** Picking up power-ups keeps lives within [0, maxLives], never lowers the score,
      and keeps every gear kind present. */
  lemma {:induction false} CollectKeepsBounds(l: Loadout, ps: seq<Powerup>, player: Box, maxLives: int)
    requires 0 <= l.lives <= maxLives
    ensures 0 <= Collect(l, ps, player, maxLives).lives <= maxLives
    ensures Collect(l, ps, player, maxLives).score >= l.score
    ensures Collect(l, ps, player, maxLives).effects.Keys >= l.effects.Keys
  {
    if ps != [] {
      CollectKeepsBounds(l, ps[1..], player, maxLives);
    }
  }

  /** Every power-up left behind is one the player does not touch. */
  lemma {:induction false} UntouchedMisses(ps: seq<Powerup>, player: Box)
    ensures forall p :: p in Untouched(ps, player) ==> p in ps && !RectHit(player, p.box)
    ensures forall p :: p in ps && !RectHit(player, p.box) ==> p in Untouched(ps, player)
  {
    if ps != [] {
      UntouchedMisses(ps[1..], player);
    }
  }

  // ---------------------------------------------------------------- boss

  /** spawnBoss's record (game.js:314-338) for the state `s` whose bossLevel was
      already raised: full health, first mode, modes by boss tier. */
  function NewBoss(s: Stats, width: real): (b: Boss)
    ensures b.hp == b.maxHp as real && b.maxHp == BossMaxHp(s)
    ensures b.modeIndex == 0 && b.modes == BossModes(s.bossLevel) && b.modeIndex < |b.modes|
    ensures b.box.w == 102.0 && b.box.h == 84.0 && b.box.CenterX() == width / 2.0
  {
    var w := 102.0;
    var h := 84.0;
    var maxHp := BossMaxHp(s);
    Boss(Box(width / 2.0 - w / 2.0, -h - 10.0, w, h), maxHp as real, maxHp, 0.0, 1.1, 3.2,
         width / 2.0 - w / 2.0, 0, 5.0, BossModes(s.bossLevel))
  }

  /** (modeIndex + 1) % modes.length */
  function NextMode(i: nat, n: nat): (j: nat)
    requires n > 0
    ensures j < n
  {
    (i + 1) % n
  }

  function CycleMode(i: nat, n: nat, steps: nat): (j: nat)
    requires n > 0
  {
    if steps == 0 then i else NextMode(CycleMode(i, n, steps - 1), n)
  }

  /** From mode i < n the next index is i + 1, or 0 after the last mode. */
  lemma NextModeWraps(i: nat, n: nat)
    requires i < n
    ensures NextMode(i, n) == if i + 1 < n then i + 1 else 0
  {
  }

  /** Within two rounds, switching `steps` times advances the index by `steps`,
      wrapping once past the end. */
  lemma {:induction false} CycleModeAdvances(i: nat, n: nat, steps: nat)
    requires i < n && i + steps < 2 * n
    ensures CycleMode(i, n, steps) == if i + steps < n then i + steps else i + steps - n
  {
    if steps > 0 {
      CycleModeAdvances(i, n, steps - 1);
      NextModeWraps(CycleMode(i, n, steps - 1), n);
    }
  }

  /** After as many switches as there are modes, the boss is back at its mode. */
  lemma ModesCycleBack(i: nat, n: nat)
    requires i < n
    ensures CycleMode(i, n, n) == i
  {
    CycleModeAdvances(i, n, n);
  }

  // ---------------------------------------------------------------- boss movement

  /** One tick of a boss that has reached its hover height (game.js:633-661), for a
      player centred at `playerCx` on a field `width` wide; `sway` is the sine of the
      hover phase and `r` the draw that jitters a new target when the dash
      countdown runs out. The boss sways, retargets, moves towards its target by
      at most `(110 + 18 * bossLevel) * dt`, is kept 8 px inside the field, and
      counts down its mode and shot timers. */
  function BossStep(b: Boss, dt: real, sway: real, playerCx: real, width: real, bossLevel: int, r: Draw): (c: Boss)
    requires b.modeIndex < |b.modes|
    ensures c.hp == b.hp && c.maxHp == b.maxHp && c.modes == b.modes && c.age == b.age + dt
    ensures c.box == b.box.(x := c.box.x) && c.modeIndex < |c.modes|
    ensures 8.0 <= c.box.x && (16.0 + b.box.w <= width ==> c.box.x <= width - b.box.w - 8.0)
    ensures b.dashCooldown - dt <= 0.0 ==>
      c.dashCooldown >= 1.2 && (16.0 + b.box.w <= width ==> 8.0 <= c.targetX <= width - b.box.w - 8.0)
    ensures b.dashCooldown - dt > 0.0 ==> c.dashCooldown == b.dashCooldown - dt && c.targetX == b.targetX
    ensures b.modeTimer - dt <= 0.0 ==> c.modeIndex == NextMode(b.modeIndex, |b.modes|) && c.modeTimer == 4.5
    ensures b.modeTimer - dt > 0.0 ==> c.modeIndex == b.modeIndex && c.modeTimer == b.modeTimer - dt
    ensures b.shootCooldown - dt <= 0.0 ==> c.shootCooldown >= 0.45
    ensures b.shootCooldown - dt > 0.0 ==> c.shootCooldown == b.shootCooldown - dt
  {
    var hi := width - b.box.w - 8.0;
    var swayed := b.box.x + sway * 24.0 * dt;
    var dash := b.dashCooldown - dt <= 0.0;
    var targetX := if dash then Clamp(playerCx - b.box.w / 2.0 + (r - 0.5) * 70.0, 8.0, hi) else b.targetX;
    var step := (110.0 + bossLevel as real * 18.0) * dt;
    var turn := b.modeTimer - dt <= 0.0;
    b.(age := b.age + dt,
       box := b.box.(x := Clamp(swayed + Clamp(targetX - swayed, -step, step), 8.0, hi)),
       targetX := targetX,
       dashCooldown := if dash then BossDashCooldown(bossLevel) else b.dashCooldown - dt,
       modeIndex := if turn then NextMode(b.modeIndex, |b.modes|) else b.modeIndex,
       modeTimer := if turn then 4.5 else b.modeTimer - dt,
       shootCooldown := if b.shootCooldown - dt <= 0.0 then BossShootCooldown(bossLevel) else b.shootCooldown - dt)
  }

  /** The chase has no teleport-like snapping: a boss inside the field whose target
      is inside the field ends the tick between its swayed position and the
      target, at most one step from where it swayed to. */
  lemma BossStepSmooth(b: Boss, dt: real, sway: real, playerCx: real, width: real, bossLevel: int, r: Draw)
    requires b.modeIndex < |b.modes| && 0.0 <= dt && 0 <= bossLevel
    requires 16.0 + b.box.w <= width && 8.0 <= b.targetX <= width - b.box.w - 8.0
    requires 8.0 <= b.box.x + sway * 24.0 * dt <= width - b.box.w - 8.0
    ensures var c, swayed := BossStep(b, dt, sway, playerCx, width, bossLevel, r), b.box.x + sway * 24.0 * dt;
      && Min(swayed, c.targetX) <= c.box.x <= Max(swayed, c.targetX)
      && Abs(c.box.x - swayed) <= (110.0 + bossLevel as real * 18.0) * dt
  {
    var hi := width - b.box.w - 8.0;
    var swayed := b.box.x + sway * 24.0 * dt;
    var c := BossStep(b, dt, sway, playerCx, width, bossLevel, r);
    var step := (110.0 + bossLevel as real * 18.0) * dt;
    assert 8.0 <= c.targetX <= hi;
    var moved := Clamp(c.targetX - swayed, -step, step);
    assert 0.0 <= step;
    assert Min(swayed, c.targetX) <= swayed + moved <= Max(swayed, c.targetX);
    assert c.box.x == Clamp(swayed + moved, 8.0, hi);
  }

  /** A boss whose target sits still reaches it: once within a step of the target
      (and swayed to inside the field), one tick puts it exactly there. */
  lemma BossStepArrives(b: Boss, dt: real, sway: real, playerCx: real, width: real, bossLevel: int, r: Draw)
    requires b.modeIndex < |b.modes| && 0.0 <= dt && 0 <= bossLevel && b.dashCooldown - dt > 0.0
    requires 16.0 + b.box.w <= width && 8.0 <= b.targetX <= width - b.box.w - 8.0
    requires Abs(b.targetX - (b.box.x + sway * 24.0 * dt)) <= (110.0 + bossLevel as real * 18.0) * dt
    ensures BossStep(b, dt, sway, playerCx, width, bossLevel, r).box.x == b.targetX
  {
  }

  // ---------------------------------------------------------------- boss fire

  /** fireBoss's spread (game.js:511): four bullets, one more per boss level up to seven. */
  function FanSize(bossLevel: int): (n: int)
    ensures 0 <= bossLevel ==> 4 <= n <= 7
    ensures bossLevel <= 3 ==> n == 4 + bossLevel
  {
    4 + IMin(3, bossLevel)
  }

  /** Bullet k of a spread of n (game.js:512-515): t runs evenly from -0.5 to 0.5,
      steering the bullet sideways and slowing the outer ones less. */
  function FanShot(cx: real, y: real, k: nat, n: nat): EnemyBullet
    requires n >= 2
  {
    var t := k as real / (n - 1) as real - 0.5;
    EnemyBullet(Box(cx - 3.0 + t * 20.0, y, 6.0, 10.0), t * 220.0, 180.0 + Abs(t) * 40.0,
                5.0, BossShot, 1, 0, 0.0)
  }

  function Fan(cx: real, y: real, n: nat): (f: seq<EnemyBullet>)
    requires n >= 2
    ensures |f| == n && forall k :: 0 <= k < n ==> f[k] == FanShot(cx, y, k, n)
  {
    seq(n, k requires 0 <= k < n => FanShot(cx, y, k, n))
  }

  /** The spread is mirror-symmetric about the boss's centre: bullets k and n - 1 - k
      fly sideways at opposite speeds, downwards at the same speed, and start at
      mirrored offsets. */
  lemma FanSymmetric(cx: real, y: real, n: nat, k: nat)
    requires n >= 2 && k < n
    ensures FanShot(cx, y, n - 1 - k, n).vx == -FanShot(cx, y, k, n).vx
    ensures FanShot(cx, y, n - 1 - k, n).vy == FanShot(cx, y, k, n).vy
    ensures FanShot(cx, y, n - 1 - k, n).box.x - (cx - 3.0) == -(FanShot(cx, y, k, n).box.x - (cx - 3.0))
  {
    var m := (n - 1) as real;
    var t := k as real / m - 0.5;
    var u := (n - 1 - k) as real / m - 0.5;
    assert (n - 1 - k) as real == m - k as real;
    Complement(k as real, m);
    assert u == -t;
  }

  /** Dividing the complement: (m - a) / m is 1 - a / m. */
  lemma Complement(a: real, m: real)
    requires m > 0.0
    ensures (m - a) / m == 1.0 - a / m
  {
    assert m / m == 1.0;
    assert (m - a) / m == m / m - a / m;
  }

  /** The outermost bullets of the spread fly sideways at 110 px/s either way, the
      slowest downward speed being in the middle. */
  lemma FanEdges(cx: real, y: real, n: nat)
    requires n >= 2
    ensures FanShot(cx, y, 0, n).vx == -110.0 && FanShot(cx, y, n - 1, n).vx == 110.0
    ensures FanShot(cx, y, 0, n).vy == 200.0 && FanShot(cx, y, n - 1, n).vy == 200.0
    ensures forall k :: 0 <= k < n ==> 180.0 <= FanShot(cx, y, k, n).vy <= 200.0
  {
    forall k | 0 <= k < n
      ensures 180.0 <= FanShot(cx, y, k, n).vy <= 200.0
    {
      var m := (n - 1) as real;
      assert 0.0 <= k as real / m <= 1.0 by {
        assert k as real <= m;
      }
    }
  }

  /** fireEnemyBullet(x, y, 220, "homing") (game.js:488-502): aimed at the player
      with velocity `v`, five seconds to live, one point of damage. */
  function Aimed(x: real, y: real, v: (real, real)): (b: EnemyBullet)
    ensures b.kind == HomingShot && b.damage == 1 && b.box.CenterX() == x + 1.0
  {
    EnemyBullet(Box(x - 2.0, y, 6.0, 10.0), v.0, v.1, 5.0, HomingShot, 1, 0, 0.0)
  }

  /** The shots a boss mode adds to the spread (game.js:517-528); `left` and `right`
      are the velocities the two homing shots are aimed with. */
  function ModeShots(mode: BossMode, cx: real, y: real, left: (real, real), right: (real, real)): (s: seq<EnemyBullet>)
    ensures |s| == match mode
      case ShieldMode => 0
      case LaserMode => 1
      case MissileMode => 1
      case HomingMode => 2
    ensures forall b :: b in s ==> b.damage >= 1
  {
    match mode
    case ShieldMode => []
    case LaserMode =>
      [EnemyBullet(Box(cx - 6.0, y + 2.0, 12.0, 46.0), 0.0, 260.0, 1.4, BossLaserShot, 2, 99, 0.0)]
    case MissileMode =>
      [EnemyBullet(Box(cx - 4.0, y, 8.0, 12.0), 0.0, 160.0, 7.0, BossMissileShot, 2, 0, 2.8)]
    case HomingMode => [Aimed(cx - 14.0, y, left), Aimed(cx + 14.0, y, right)]
  }

  /** One volley of fireBoss (game.js:505-529): the spread from just above the
      boss's bottom edge, then the shots of its current mode. */
  function Volley(b: Boss, bossLevel: int, left: (real, real), right: (real, real)): (s: seq<EnemyBullet>)
    requires 0 <= bossLevel && b.modeIndex < |b.modes|
    ensures 4 + IMin(3, bossLevel) <= |s| <= 6 + IMin(3, bossLevel)
    ensures forall e :: e in s ==> e.damage >= 1
    ensures forall k :: 0 <= k < FanSize(bossLevel) ==> s[k].kind == BossShot
  {
    var cx := b.box.CenterX();
    var y := b.box.y + b.box.h - 8.0;
    Fan(cx, y, FanSize(bossLevel)) + ModeShots(b.modes[b.modeIndex], cx, y, left, right)
  }

  // ---------------------------------------------------------------- area damage

  /** A box's centre is within `radius` of (x, y) (Math.hypot(..) <= radius). */
  predicate InBlast(b: Box, x: real, y: real, radius: real)
  {
    Dist2(b.CenterX(), b.CenterY(), x, y) <= radius * radius
  }

  /** What an effect reaches: an explosion's circle (game.js:392), the beam's
      rectangle (game.js:548), or the enemies a chain hops to, by identity
      (game.js:826-835). */
  datatype Zone = Blast(x: real, y: real, radius: real) | Beam(rect: Box) | Marked(ids: set<nat>)

  predicate InZone(z: Zone, e: Enemy)
  {
    match z
    case Blast(x, y, radius) => InBlast(e.box, x, y, radius)
    case Beam(rect) => RectHit(rect, e.box)
    case Marked(ids) => e.id in ids
  }

  /** The enemy after an area effect's damage. */
  function Harmed(e: Enemy, zone: Zone, damage: real): (f: Enemy)
    ensures f.id == e.id && f.box == e.box
  {
    if InZone(zone, e) then e.(hp := e.hp - damage) else e
  }

  predicate KilledBy(e: Enemy, zone: Zone, damage: real)
  {
    InZone(zone, e) && e.hp - damage <= 0.0
  }

  /** The enemies left after an area effect's reverse loop (game.js:388-401 and
      546-556): every enemy in the zone loses `damage`, and those brought to 0 or
      below are removed. */
  function Harm(es: seq<Enemy>, zone: Zone, damage: real): (rs: seq<Enemy>)
    ensures |rs| <= |es|
  {
    if es == [] then []
    else
      (if KilledBy(es[0], zone, damage) then [] else [Harmed(es[0], zone, damage)])
        + Harm(es[1..], zone, damage)
  }

  /** The number of enemies an area effect kills. */
  function HarmKills(es: seq<Enemy>, zone: Zone, damage: real): nat
  {
    if es == [] then 0
    else (if KilledBy(es[0], zone, damage) then 1 else 0) + HarmKills(es[1..], zone, damage)
  }

  /** The boxes of the enemies an area effect kills, in the order its reverse loop
      kills them (the last enemy of the list first). */
  function Killed(es: seq<Enemy>, zone: Zone, damage: real): (bs: seq<Box>)
    ensures |bs| == HarmKills(es, zone, damage)
  {
    if es == [] then []
    else Killed(es[1..], zone, damage) + (if KilledBy(es[0], zone, damage) then [es[0].box] else [])
  }

  /** An area effect that finishes every enemy it is given leaves none and counts
      them all. */
  lemma {:induction false} AllKilled(es: seq<Enemy>, zone: Zone, damage: real)
    requires forall k :: 0 <= k < |es| ==> KilledBy(es[k], zone, damage)
    ensures Harm(es, zone, damage) == [] && HarmKills(es, zone, damage) == |es|
  {
    if es != [] {
      AllKilled(es[1..], zone, damage);
    }
  }

  /** No enemy at index n or after it overlaps the box p. */
  predicate ClearFrom(es: seq<Enemy>, p: Box, n: nat)
    decreases |es| - n
  {
    n >= |es| || (!RectHit(p, es[n].box) && ClearFrom(es, p, n + 1))
  }

  /** ClearFrom is the overlap test on every enemy from index n on. */
  lemma {:induction false} ClearFromAll(es: seq<Enemy>, p: Box, n: nat)
    ensures ClearFrom(es, p, n) <==> forall k :: n <= k < |es| ==> !RectHit(p, es[k].box)
    decreases |es| - n
  {
    if n < |es| {
      ClearFromAll(es, p, n + 1);
    }
  }

  /** An area effect only removes enemies and lowers hit points, so a list clear of
      p from index n on stays clear from n on. */
  /** The boxes the enemies occupy. */
  function Boxes(es: seq<Enemy>): set<Box>
  {
    set e | e in es :: e.box
  }

  /** An area effect moves no enemy and adds none: the boxes after it are among the
      boxes before it. */
  lemma {:induction false} HarmBoxes(es: seq<Enemy>, zone: Zone, damage: real)
    ensures Boxes(Harm(es, zone, damage)) <= Boxes(es)
  {
    if es != [] {
      HarmBoxes(es[1..], zone, damage);
      var head := if KilledBy(es[0], zone, damage) then [] else [Harmed(es[0], zone, damage)];
      assert Harm(es, zone, damage) == head + Harm(es[1..], zone, damage);
      forall b | b in Boxes(Harm(es, zone, damage))
        ensures b in Boxes(es)
      {
        var e :| e in head + Harm(es[1..], zone, damage) && e.box == b;
        if e in head {
          assert es[0] in es;
        } else {
          assert b in Boxes(es[1..]);
          var o :| o in es[1..] && o.box == b;
          assert o in es;
        }
      }
    }
  }

  /** A list whose boxes are among those of a list clear of p is clear of p. */
  lemma BoxesClear(es: seq<Enemy>, rs: seq<Enemy>, p: Box)
    requires Boxes(rs) <= Boxes(es)
    ensures ClearFrom(es, p, 0) ==> ClearFrom(rs, p, 0)
  {
    if ClearFrom(es, p, 0) {
      ClearFromAll(es, p, 0);
      ClearFromAll(rs, p, 0);
      forall k | 0 <= k < |rs|
        ensures !RectHit(p, rs[k].box)
      {
        assert rs[k].box in Boxes(rs);
        var j :| 0 <= j < |es| && es[j].box == rs[k].box;
      }
    }
  }

  lemma {:induction false} HarmClear(es: seq<Enemy>, zone: Zone, damage: real, p: Box, n: nat)
    ensures ClearFrom(es, p, n) ==> ClearFrom(Harm(es, zone, damage), p, n)
  {
    if es != [] && ClearFrom(es, p, n) {
      var m: nat := if n == 0 then 0 else n - 1;
      var rs, tail := Harm(es, zone, damage), Harm(es[1..], zone, damage);
      ClearFromAll(es, p, n);
      ClearFromAll(es[1..], p, m);
      assert ClearFrom(es[1..], p, m) by {
        forall k | m <= k < |es[1..]|
          ensures !RectHit(p, es[1..][k].box)
        {
          assert es[1..][k] == es[k + 1];
        }
      }
      HarmClear(es[1..], zone, damage, p, m);
      ClearFromAll(tail, p, m);
      ClearFromAll(rs, p, n);
      if KilledBy(es[0], zone, damage) {
        assert rs == tail;
      } else {
        assert rs == [Harmed(es[0], zone, damage)] + tail;
        forall k | n <= k < |rs|
          ensures !RectHit(p, rs[k].box)
        {
          if k > 0 {
            assert rs[k] == tail[k - 1];
          }
        }
      }
    }
  }

  /** Splicing out enemy i keeps a list clear of p from n on clear from n on, and one
      clear after i clear from i on. */
  lemma SpliceClear(es: seq<Enemy>, i: nat, p: Box, n: nat)
    requires i < |es|
    ensures ClearFrom(es, p, n) ==> ClearFrom(es[..i] + es[i + 1..], p, n)
    ensures ClearFrom(es, p, i + 1) ==> ClearFrom(es[..i] + es[i + 1..], p, i)
  {
    var rs := es[..i] + es[i + 1..];
    ClearFromAll(es, p, n);
    ClearFromAll(rs, p, n);
    if ClearFrom(es, p, n) {
      forall k | n <= k < |rs|
        ensures !RectHit(p, rs[k].box)
      {
        if k >= i {
          assert rs[k] == es[k + 1];
        }
      }
    }
    ClearFromAll(es, p, i + 1);
    ClearFromAll(rs, p, i);
    if ClearFrom(es, p, i + 1) {
      forall k | i <= k < |rs|
        ensures !RectHit(p, rs[k].box)
      {
        assert rs[k] == es[k + 1];
      }
    }
  }

  /** Changing an enemy in place without moving it keeps a list clear of p. */
  lemma ReplaceClear(es: seq<Enemy>, i: nat, e: Enemy, p: Box, n: nat)
    requires i < |es| && e.box == es[i].box
    ensures ClearFrom(es, p, n) ==> ClearFrom(es[i := e], p, n)
  {
    ClearFromAll(es, p, n);
    ClearFromAll(es[i := e], p, n);
  }

  function IdSet(es: seq<Enemy>): set<nat>
  {
    set e | e in es :: e.id
  }

  predicate UniqueIds(es: seq<Enemy>)
  {
    forall j, k :: 0 <= j < k < |es| ==> es[j].id != es[k].id
  }

  /** The index of the enemy with the given identity, if it is still on the field. */
  function IndexOfId(es: seq<Enemy>, id: nat): (k: Option<nat>)
    ensures k.Some? ==> k.value < |es| && es[k.value].id == id
    ensures k.None? <==> id !in IdSet(es)
  {
    if es == [] then None
    else if es[0].id == id then Some(0)
    else
      var k := IndexOfId(es[1..], id);
      assert id in IdSet(es[1..]) ==> id in IdSet(es) by {
        if id in IdSet(es[1..]) {
          var f :| f in es[1..] && f.id == id;
          assert f in es;
        }
      }
      assert id in IdSet(es) ==> id in IdSet(es[1..]) by {
        if id in IdSet(es) {
          var f :| f in es && f.id == id;
          if f != es[0] {
            assert f in es[1..];
          }
        }
      }
      if k.Some? then Some(k.value + 1) else None
  }

  /** An enemy of a list with unique identities is the one its identity finds. */
  lemma IndexOfMember(es: seq<Enemy>, e: Enemy)
    requires UniqueIds(es) && e in es
    ensures IndexOfId(es, e.id).Some? && es[IndexOfId(es, e.id).value] == e
  {
    assert e.id in IdSet(es);
    var m :| 0 <= m < |es| && es[m] == e;
    var k := IndexOfId(es, e.id).value;
    assert !(m < k) && !(k < m);
  }

  /** Every identity in the list is below n. */
  predicate IdsBelow(es: seq<Enemy>, n: nat)
  {
    forall k :: 0 <= k < |es| ==> es[k].id < n
  }

  /** The identities of a list with a head are the head's and the tail's; with
      unique identities the head's is not among the tail's. */
  lemma IdSetCons(es: seq<Enemy>)
    requires es != []
    ensures IdSet(es) == {es[0].id} + IdSet(es[1..])
    ensures UniqueIds(es) ==> UniqueIds(es[1..]) && es[0].id !in IdSet(es[1..])
  {
    assert forall e :: e in es <==> e == es[0] || e in es[1..];
    if UniqueIds(es) {
      forall j, k | 0 <= j < k < |es[1..]|
        ensures es[1..][j].id != es[1..][k].id
      {
        assert es[1..][j] == es[j + 1] && es[1..][k] == es[k + 1];
      }
      forall f | f in es[1..]
        ensures f.id != es[0].id
      {
        var m :| 0 <= m < |es[1..]| && es[1..][m] == f;
        assert es[m + 1] == f;
      }
    }
  }

  /** The identities of a concatenation are those of its parts. */
  lemma IdSetConcat(xs: seq<Enemy>, ys: seq<Enemy>)
    ensures IdSet(xs + ys) == IdSet(xs) + IdSet(ys)
  {
    assert forall f :: f in xs + ys <==> f in xs || f in ys;
  }

  /** Every enemy is either killed (and counted) or kept: one outside the zone is kept
      as it was, one in the zone that survives is kept having lost exactly `damage`,
      and, identities being unique, one the effect kills is gone. Conversely every
      enemy left is one of these: an original outside the zone, or an original in it
      with `damage` taken and hit points left. */
  lemma HarmAccounting(es: seq<Enemy>, zone: Zone, damage: real)
    ensures |Harm(es, zone, damage)| + HarmKills(es, zone, damage) == |es|
    ensures forall e :: e in es && !InZone(zone, e) ==> e in Harm(es, zone, damage)
    ensures forall e :: e in es && InZone(zone, e) && !KilledBy(e, zone, damage) ==>
              e.(hp := e.hp - damage) in Harm(es, zone, damage)
    ensures UniqueIds(es) ==> forall e :: e in es && KilledBy(e, zone, damage) ==>
              e.id !in IdSet(Harm(es, zone, damage))
    ensures forall f :: f in Harm(es, zone, damage) && InZone(zone, f) ==>
              f.hp > 0.0 && f.(hp := f.hp + damage) in es
    ensures forall f :: f in Harm(es, zone, damage) && !InZone(zone, f) ==> f in es
    ensures IdSet(Harm(es, zone, damage)) <= IdSet(es)
  {
    HarmCounts(es, zone, damage);
    HarmKeeps(es, zone, damage);
    HarmOrigins(es, zone, damage);
    if UniqueIds(es) {
      HarmRemoves(es, zone, damage);
    }
  }

  lemma {:induction false} HarmCounts(es: seq<Enemy>, zone: Zone, damage: real)
    ensures |Harm(es, zone, damage)| + HarmKills(es, zone, damage) == |es|
  {
    if es != [] {
      HarmCounts(es[1..], zone, damage);
    }
  }

  /** An enemy the effect does not kill stays, with `damage` taken when in the zone. */
  lemma {:induction false} HarmKeeps(es: seq<Enemy>, zone: Zone, damage: real)
    ensures forall e :: e in es && !KilledBy(e, zone, damage) ==>
              Harmed(e, zone, damage) in Harm(es, zone, damage)
    ensures forall e :: e in es && !InZone(zone, e) ==> e in Harm(es, zone, damage)
    ensures forall e :: e in es && InZone(zone, e) && !KilledBy(e, zone, damage) ==>
              e.(hp := e.hp - damage) in Harm(es, zone, damage)
  {
    if es != [] {
      HarmKeeps(es[1..], zone, damage);
      assert forall e :: e in es ==> e == es[0] || e in es[1..];
    }
  }

  /** Every enemy left is an original, with `damage` taken and hit points left when
      in the zone. */
  lemma {:induction false} HarmOrigins(es: seq<Enemy>, zone: Zone, damage: real)
    ensures forall f :: f in Harm(es, zone, damage) && InZone(zone, f) ==>
              f.hp > 0.0 && f.(hp := f.hp + damage) in es
    ensures forall f :: f in Harm(es, zone, damage) && !InZone(zone, f) ==> f in es
    ensures IdSet(Harm(es, zone, damage)) <= IdSet(es)
  {
    if es != [] {
      HarmOrigins(es[1..], zone, damage);
      IdSetCons(es);
      var e0 := es[0];
      var head := if KilledBy(e0, zone, damage) then [] else [Harmed(e0, zone, damage)];
      var tail := Harm(es[1..], zone, damage);
      assert Harm(es, zone, damage) == head + tail;
      IdSetConcat(head, tail);
      assert IdSet(head) <= {e0.id};
      assert forall g :: g in es[1..] ==> g in es;
      if head != [] {
        var f := head[0];
        assert InZone(zone, f) == InZone(zone, e0);
        if InZone(zone, e0) {
          assert f.(hp := f.hp + damage) == e0;
        }
      }
    }
  }

  /** Harm only removes: every identity it keeps was there, and each one it drops is
      a kill. */
  lemma HarmShrinks(es: seq<Enemy>, zone: Zone, damage: real)
    ensures IdSet(Harm(es, zone, damage)) <= IdSet(es)
    ensures |es| - |Harm(es, zone, damage)| == HarmKills(es, zone, damage)
  {
    HarmCounts(es, zone, damage);
    HarmOrigins(es, zone, damage);
  }

  /** With unique identities, an enemy the effect kills leaves no trace. */
  lemma {:induction false} HarmRemoves(es: seq<Enemy>, zone: Zone, damage: real)
    requires UniqueIds(es)
    ensures forall e :: e in es && KilledBy(e, zone, damage) ==> e.id !in IdSet(Harm(es, zone, damage))
  {
    if es != [] {
      IdSetCons(es);
      HarmRemoves(es[1..], zone, damage);
      HarmOrigins(es[1..], zone, damage);
      var e0 := es[0];
      var head := if KilledBy(e0, zone, damage) then [] else [Harmed(e0, zone, damage)];
      var tail := Harm(es[1..], zone, damage);
      assert Harm(es, zone, damage) == head + tail;
      IdSetConcat(head, tail);
      assert IdSet(head) <= {e0.id};
      forall e | e in es && KilledBy(e, zone, damage)
        ensures e.id !in IdSet(head + tail)
      {
        if e != e0 {
          assert e in es[1..];
          assert e.id in IdSet(es[1..]);
        }
      }
    }
  }

  /** The boss after an effect that takes `damage` from it when `hit` (game.js:403-412,
      558-565 and 816-822): None once its hit points reach 0, since the effect then
      defeats it. */
  function BossAfter(b: Option<Boss>, hit: bool, damage: real): Option<Boss>
  {
    if b.Some? && hit then
      (if b.value.hp - damage <= 0.0 then None else Some(b.value.(hp := b.value.hp - damage)))
    else b
  }

  /** The effect defeats the boss. */
  predicate Defeats(b: Option<Boss>, hit: bool, damage: real)
  {
    b.Some? && hit && b.value.hp - damage <= 0.0
  }

  /** A boss survives an effect exactly when the effect does not defeat it, and the
      survivor keeps everything but its hit points, which are still positive. */
  lemma BossAfterDefeats(b: Option<Boss>, hit: bool, damage: real)
    requires b.Some?
    ensures BossAfter(b, hit, damage).None? <==> Defeats(b, hit, damage)
    ensures BossAfter(b, hit, damage).Some? ==>
      BossAfter(b, hit, damage).value == b.value.(hp := BossAfter(b, hit, damage).value.hp)
    ensures hit && BossAfter(b, hit, damage).Some? ==> BossAfter(b, hit, damage).value.hp > 0.0
    ensures !hit ==> BossAfter(b, hit, damage) == b
  {
  }

  /** An explosion at (x, y) reaches the boss when its centre is within radius + 32
      (game.js:405). */
  predicate BlastReachesBoss(b: Option<Boss>, x: real, y: real, radius: real)
  {
    b.Some? && InBlast(b.value.box, x, y, radius + 32.0)
  }

  // ---------------------------------------------------------------- player bullets

  /** A bullet used up by its hit that is explosive sets off an explosion at its
      centre (game.js:855-860 and 885-890). */
  predicate Bursts(b: PlayerBullet)
  {
    b.pierce <= 0 && b.explosive
  }

  function BurstZone(b: PlayerBullet, radius: real): Zone
  {
    Blast(b.box.CenterX(), b.box.CenterY(), radius)
  }

  /** The struck enemy's hit points as game.js:866 reads them from the object it
      holds: the bullet's damage, and 3 more when the bullet's own explosion reaches
      it. */
  function StruckHp(e: Enemy, b: PlayerBullet): real
  {
    e.hp - b.damage - (if Bursts(b) && InZone(BurstZone(b, 58.0), e) then 3.0 else 0.0)
  }

  /** The boss's hit points after bullet b strikes it (game.js:885-889): the bullet's
      damage, and twice the explosion's 3 more when the bullet bursts within reach. */
  function BossStruckHp(boss: Boss, b: PlayerBullet): real
  {
    boss.hp - b.damage
      - (if Bursts(b) && BlastReachesBoss(Some(boss), b.box.CenterX(), b.box.CenterY(), 64.0) then 6.0 else 0.0)
  }

  // ---------------------------------------------------------------- enemy bullets

  /** bullet.damage || 1 */
  function HitAmount(b: EnemyBullet): (a: int)
    ensures 0 <= b.damage ==> 1 <= a
  {
    if b.damage == 0 then 1 else b.damage
  }

  /** The player bullet a reflected enemy bullet becomes (game.js:908-921): it flies
      upwards at 80 or more and does at least 1 damage. */
  function Deflect(b: EnemyBullet, r: real, ricochet: nat): (p: PlayerBullet)
    ensures p.kind == ReflectedShot && p.vy <= -80.0 && p.damage >= 1.0
    ensures p.box.x == b.box.x && p.box.y == b.box.y && p.box.w >= 4.0 && p.box.h >= 6.0
    ensures p.pierce == 0 && !p.explosive && p.ttl == 2.4
    ensures p.bounces == (if ricochet > 0 then 1 else 0)
  {
    PlayerBullet(Box(b.box.x, b.box.y, Max(4.0, b.box.w - 1.0), Max(6.0, b.box.h - 1.0)),
                 b.vx * 0.6 + (r - 0.5) * 90.0, -Abs(b.vy) - 80.0,
                 Max(1.0, HitAmount(b) as real), ReflectedShot, 0,
                 if ricochet > 0 then 1 else 0, false, 2.4)
  }

  /** What the enemy-bullet loop changes. */
  datatype Guard = Guard(v: Vitals, reflectCooldown: real, reflected: seq<PlayerBullet>, drawn: nat)

  /** One enemy bullet of handleHits' loop (game.js:905-928): one touching the player
      is reflected (reflect gear, cooldown elapsed; one draw) or damages the player. */
  function Fend(h: Guard, b: EnemyBullet, player: Box, shield: nat, reflect: nat,
                ricochet: nat, rolls: nat -> Draw): Guard
  {
    if !RectHit(player, b.box) then h
    else if reflect > 0 && h.reflectCooldown <= 0.0 then
      Guard(h.v, ReflectCooldown(reflect), h.reflected + [Deflect(b, rolls(h.drawn), ricochet)], h.drawn + 1)
    else h.(v := Damage(h.v, shield, HitAmount(b)))
  }

  /** The enemy-bullet loop of handleHits (game.js:904-929) over `bs`, run from the
      last bullet to the first. */
  function Incoming(g: Guard, bs: seq<EnemyBullet>, player: Box, shield: nat, reflect: nat,
                    ricochet: nat, rolls: nat -> Draw): Guard
  {
    if bs == [] then g
    else Fend(Incoming(g, bs[1..], player, shield, reflect, ricochet, rolls), bs[0], player, shield,
              reflect, ricochet, rolls)
  }

  /** The enemy bullets that do not touch the player. */
  function Unhit(bs: seq<EnemyBullet>, player: Box): (cs: seq<EnemyBullet>)
    ensures |cs| <= |bs|
  {
    if bs == [] then []
    else (if RectHit(player, bs[0].box) then [] else [bs[0]]) + Unhit(bs[1..], player)
  }

  /** Every enemy bullet left behind is one that does not touch the player. */
  lemma {:induction false} UnhitMisses(bs: seq<EnemyBullet>, player: Box)
    ensures forall b :: b in Unhit(bs, player) ==> b in bs && !RectHit(player, b.box)
    ensures forall b :: b in bs && !RectHit(player, b.box) ==> b in Unhit(bs, player)
  {
    if bs != [] {
      UnhitMisses(bs[1..], player);
    }
  }

  /** Over one pass: lives stay within [0, maxLives] and never rise, at most one
      bullet is reflected (the reflect cooldown is at least 0.1 afterwards), none
      when the cooldown is still running, and draws are taken only for reflections. */
  lemma {:induction false} IncomingBounds(g: Guard, bs: seq<EnemyBullet>, player: Box, shield: nat,
                                          reflect: nat, ricochet: nat, rolls: nat -> Draw, maxLives: int)
    requires 0 <= g.v.lives <= maxLives
    requires forall b :: b in bs ==> b.damage >= 1
    ensures var h := Incoming(g, bs, player, shield, reflect, ricochet, rolls);
      && 0 <= h.v.lives <= g.v.lives
      && g.reflected <= h.reflected
      && |h.reflected| <= |g.reflected| + 1
      && h.drawn == g.drawn + |h.reflected| - |g.reflected|
      && (|h.reflected| > |g.reflected| ==> h.reflectCooldown > 0.0)
      && (g.reflectCooldown > 0.0 ==> h.reflected == g.reflected && h.reflectCooldown == g.reflectCooldown)
  {
    if bs != [] {
      IncomingBounds(g, bs[1..], player, shield, reflect, ricochet, rolls, maxLives);
    }
  }

  // ---------------------------------------------------------------- enemies

  /** spawnEnemy's record (game.js:283-309) from its nine draws, in source order:
      motion, size, shade, x, y, speed, fire cooldown, phase (not kept), direction. */
  function NewEnemy(s: Stats, width: real, id: nat, d: seq<real>): (e: Enemy)
    requires |d| == 9 && forall k :: 0 <= k < 9 ==> 0.0 <= d[k] < 1.0
    ensures e.id == id && e.maxHp >= 1 && e.hp == e.maxHp as real
    ensures e.maxHp == EnemyHp(s, 26.0 + d[1] * 18.0, e.shadeTier)
    ensures 0 <= e.shadeTier <= 2
    ensures 26.0 <= e.box.w <= 44.0
    ensures e.motion == (if d[0] > 0.67 then Dive else if d[0] > 0.34 then Zigzag else Sine)
    ensures e.vx == 95.0 || e.vx == -95.0
  {
    var motion := if d[0] > 0.67 then Dive else if d[0] > 0.34 then Zigzag else Sine;
    var level := (s.time / 24.0).Floor + 1;
    var speedScale := EnemySpeedScale(s);
    var size := 26.0 + d[1] * 18.0;
    assert 26.0 <= size < 44.0;
    var w := Round(size) as real;
    assert 26.0 <= w <= 44.0;
    var h := Round(size * 0.9) as real;
    assert 0.0 <= d[2] * 3.0 < 3.0;
    var shade := (d[2] * 3.0).Floor;
    var hp := EnemyHp(s, size, shade);
    Enemy(id, Box(d[3] * (width - w), -h - d[4] * 70.0, w, h), hp as real, hp,
          (70.0 + d[5] * 45.0 + level as real * 6.0) * speedScale, 1.0 + d[6] * 1.6, 0.0,
          motion, if d[8] < 0.5 then -95.0 else 95.0, shade)
  }

  // ---------------------------------------------------------------- chain

  /** What the chain's visited set holds: enemies by identity, or the boss. */
  datatype Ident = EnemyRef(id: nat) | BossRef

  const ChainReach2: real := 14400.0      // 120 * 120
  const ChainBossReach2: real := 19600.0  // 140 * 140

  function CenterDist2(b: Box, x: real, y: real): real
  {
    Dist2(b.CenterX(), b.CenterY(), x, y)
  }

  /** Enemy k may take the next chain hop from (x, y). */
  predicate Hoppable(es: seq<Enemy>, visited: set<Ident>, x: real, y: real, k: int)
  {
    0 <= k < |es| && EnemyRef(es[k].id) !in visited && CenterDist2(es[k].box, x, y) < ChainReach2
  }

  /** The squared length of a chain arc. */
  function ArcLength2(a: ChainArc): real
  {
    Dist2(a.x2, a.y2, a.x1, a.y1)
  }

  /** The chain arc `a` reaches the target `h`: it lives 0.12 seconds and is shorter
      than 120 (an enemy) or 140 (the boss). */
  predicate Reaches(a: Timed<ChainArc>, h: Ident)
  {
    && a.ttl == 0.12
    && ArcLength2(a.item) < (if h == BossRef then ChainBossReach2 else ChainReach2)
  }

  /** Arc `a` ends at the centre of box `b`. */
  predicate EndsAt(a: ChainArc, b: Box)
  {
    a.x2 == b.CenterX() && a.y2 == b.CenterY()
  }

  /** Arc `a` ends at the centre of the target `h`: the enemy of `es` with h's
      identity, or the boss. */
  predicate Lands(a: ChainArc, h: Ident, es: seq<Enemy>, boss: Option<Boss>)
  {
    match h
    case EnemyRef(id) => exists e :: e in es && e.id == id && EndsAt(a, e.box)
    case BossRef => boss.Some? && EndsAt(a, boss.value.box)
  }

  /** The arcs a chain leaves: one per hop, each reaching its target and ending at
      its centre (an enemy of `es`, or `boss`), the first drawn from (x, y) and each
      later one from where the previous one ended. */
  predicate Chained(arcs: seq<Timed<ChainArc>>, hops: seq<Ident>, x: real, y: real,
                    es: seq<Enemy>, boss: Option<Boss>)
    decreases |hops|
  {
    && |arcs| == |hops|
    && (hops != [] ==>
          var n := |hops| - 1;
          && Chained(arcs[..n], hops[..n], x, y, es, boss)
          && Reaches(arcs[n], hops[n]) && Lands(arcs[n].item, hops[n], es, boss)
          && (arcs[n].item.x1, arcs[n].item.y1) == Tip(arcs[..n], x, y))
  }

  /** Where a chain that started at (x, y) and drew `arcs` stands. */
  function Tip(arcs: seq<Timed<ChainArc>>, x: real, y: real): (real, real)
  {
    if arcs == [] then (x, y) else (arcs[|arcs| - 1].item.x2, arcs[|arcs| - 1].item.y2)
  }

  /** No target is hit twice. */
  predicate Distinct(hops: seq<Ident>)
  {
    forall a, b :: 0 <= a < b < |hops| ==> hops[a] != hops[b]
  }

  /** The chain's visited set: its start and every target hit so far. */
  function Visited(start: Ident, hops: seq<Ident>): set<Ident>
  {
    {start} + set h | h in hops
  }

  /** The identities of the enemies among the hops. */
  function HopIds(hops: seq<Ident>): set<nat>
  {
    set h | h in hops && h.EnemyRef? :: h.id
  }

  /** The boxes of the enemies the hops killed, in hop order: a hop to an enemy of
      `es` kills it when its 2 damage brings it to 0 (game.js:824-836); a hop to the
      boss kills no enemy. */
  function ChainKilled(es: seq<Enemy>, hops: seq<Ident>): seq<Box>
    decreases |hops|, 1
  {
    if hops == [] then [] else ChainKilledLast(es, hops)
  }

  /** ChainKilled of the hops before the last, then the last hop's kill, if any. */
  function ChainKilledLast(es: seq<Enemy>, hops: seq<Ident>): seq<Box>
    requires hops != []
    decreases |hops|, 0
  {
    var n := |hops| - 1;
    var k := if hops[n].EnemyRef? then IndexOfId(es, hops[n].id) else None;
    ChainKilled(es, hops[..n]) + (if k.Some? && es[k.value].hp - 2.0 <= 0.0 then [es[k.value].box] else [])
  }

  /** A hop to an enemy of the chain's starting field kills it exactly when its 2
      damage brings it to 0, and adds its box to the kills. */
  lemma ChainKilledEnemy(es: seq<Enemy>, hops: seq<Ident>, e: Enemy)
    requires UniqueIds(es) && e in es
    ensures ChainKilled(es, hops + [EnemyRef(e.id)])
         == ChainKilled(es, hops) + (if e.hp - 2.0 <= 0.0 then [e.box] else [])
  {
    IndexOfMember(es, e);
    assert (hops + [EnemyRef(e.id)])[..|hops|] == hops;
  }

  /** A boss hop after the enemy hops `hops` adds no kill to the chain's rolls `u`,
      only the boss's reward when the hop defeats it. */
  lemma ChainBossDrops(rolls: nat -> Draw, t0: Drops, s0: Stats, es: seq<Enemy>, hops: seq<Ident>, hops': seq<Ident>,
                       u: Drops, boss: Option<Boss>, time: real, v: Drops)
    requires u == KillDrops(rolls, t0, s0, ChainKilled(es, hops), 0.72, 7.0)
    requires BossRef !in hops && (hops' == hops || hops' == hops + [BossRef])
    requires v == if Defeats(boss, BossRef in hops' && BossRef !in hops, 5.0)
                  then RewardRoll(rolls, u, boss.value.box.CenterX(), boss.value.box.CenterY(), time)
                  else u
    ensures v == if Defeats(boss, BossRef in hops', 5.0)
                 then RewardRoll(rolls, KillDrops(rolls, t0, s0, ChainKilled(es, hops'), 0.72, 7.0),
                                 boss.value.box.CenterX(), boss.value.box.CenterY(), time)
                 else KillDrops(rolls, t0, s0, ChainKilled(es, hops'), 0.72, 7.0)
  {
    ChainKilledBoss(es, hops);
  }

  /** The rolls of a chain's kills, extended by the rolls of one more enemy hop `e`
      made with the counter past them, are the rolls of the longer chain's kills. */
  lemma ChainDropStep(rolls: nat -> Draw, t0: Drops, s0: Stats, es: seq<Enemy>, hops: seq<Ident>, e: Enemy,
                      t: Drops, mid: Stats, u: Drops)
    requires UniqueIds(es) && e in es
    requires t == KillDrops(rolls, t0, s0, ChainKilled(es, hops), 0.72, 7.0)
    requires mid == s0.(kills := s0.kills + |ChainKilled(es, hops)|)
    requires u == KillDrops(rolls, t, mid, if e.hp - 2.0 <= 0.0 then [e.box] else [], 0.72, 7.0)
    ensures u == KillDrops(rolls, t0, s0, ChainKilled(es, hops + [EnemyRef(e.id)]), 0.72, 7.0)
  {
    ChainKilledEnemy(es, hops, e);
    if e.hp - 2.0 <= 0.0 {
      KillDropsThen(rolls, t0, s0, ChainKilled(es, hops), e.box, 0.72, 7.0, t, mid, u);
    } else {
      assert ChainKilled(es, hops + [EnemyRef(e.id)]) == ChainKilled(es, hops);
    }
  }

  /** A hop to the boss kills no enemy. */
  lemma ChainKilledBoss(es: seq<Enemy>, hops: seq<Ident>)
    ensures ChainKilled(es, hops + [BossRef]) == ChainKilled(es, hops)
  {
    assert (hops + [BossRef])[..|hops|] == hops;
  }

  /** The hop along arc `a` to `h` took the nearest target: no enemy of `es` outside
      `visited` lay within 120 of the hop's start and nearer than where the hop
      ended, and a hop to the boss found no such enemy within 120 at all. */
  predicate NearestAt(a: ChainArc, h: Ident, visited: set<Ident>, es: seq<Enemy>)
  {
    forall f :: f in es && EnemyRef(f.id) !in visited && CenterDist2(f.box, a.x1, a.y1) < ChainReach2 ==>
      h.EnemyRef? && ArcLength2(a) <= CenterDist2(f.box, a.x1, a.y1)
  }

  /** Each hop took the nearest target among the enemies of `es` it had not yet
      visited. */
  predicate Nearest(arcs: seq<Timed<ChainArc>>, hops: seq<Ident>, start: Ident, es: seq<Enemy>)
    decreases |hops|
  {
    && |arcs| == |hops|
    && (hops != [] ==>
          var n := |hops| - 1;
          && Nearest(arcs[..n], hops[..n], start, es)
          && NearestAt(arcs[n].item, hops[n], Visited(start, hops[..n]), es))
  }

  /** No enemy from index n on may take the next hop from (x, y). */
  predicate NoneHoppable(es: seq<Enemy>, visited: set<Ident>, x: real, y: real, n: nat)
    decreases |es| - n
  {
    n >= |es| || (!Hoppable(es, visited, x, y, n) && NoneHoppable(es, visited, x, y, n + 1))
  }

  /** NoneHoppable from 0 is the search of NearestInRange coming back empty. */
  lemma {:induction false} NoneHoppableAll(es: seq<Enemy>, visited: set<Ident>, x: real, y: real, n: nat)
    ensures NoneHoppable(es, visited, x, y, n) <==> forall k :: n <= k < |es| ==> !Hoppable(es, visited, x, y, k)
    decreases |es| - n
  {
    if n < |es| {
      NoneHoppableAll(es, visited, x, y, n + 1);
    }
  }

  /** The boss may take the next hop from (x, y): it is on the field, the chain has
      not visited it, and its centre lies within 140. */
  predicate BossInReach(boss: Option<Boss>, visited: set<Ident>, x: real, y: real)
  {
    boss.Some? && BossRef !in visited && CenterDist2(boss.value.box, x, y) < ChainBossReach2
  }

  /** A hop that reaches its target, ends at its centre and starts where the chain
      stands extends it. */
  lemma ChainedExtend(arcs: seq<Timed<ChainArc>>, hops: seq<Ident>, x: real, y: real,
                      es: seq<Enemy>, boss: Option<Boss>, a: Timed<ChainArc>, h: Ident)
    requires Chained(arcs, hops, x, y, es, boss) && Reaches(a, h) && Lands(a.item, h, es, boss)
    requires (a.item.x1, a.item.y1) == Tip(arcs, x, y)
    ensures Chained(arcs + [a], hops + [h], x, y, es, boss)
    ensures Tip(arcs + [a], x, y) == (a.item.x2, a.item.y2)
  {
    assert (arcs + [a])[..|arcs|] == arcs && (hops + [h])[..|hops|] == hops;
  }

  /** A hop that took the nearest target keeps every hop the nearest. */
  lemma NearestExtend(arcs: seq<Timed<ChainArc>>, hops: seq<Ident>, start: Ident, es: seq<Enemy>,
                      a: Timed<ChainArc>, h: Ident)
    requires Nearest(arcs, hops, start, es)
    requires NearestAt(a.item, h, Visited(start, hops), es)
    ensures Nearest(arcs + [a], hops + [h], start, es)
  {
    assert (arcs + [a])[..|arcs|] == arcs && (hops + [h])[..|hops|] == hops;
  }

  /** A target outside the visited set keeps the hops distinct and joins the set. */
  lemma VisitedExtend(start: Ident, hops: seq<Ident>, h: Ident)
    requires start !in hops && Distinct(hops) && h !in Visited(start, hops)
    ensures start !in hops + [h] && Distinct(hops + [h])
    ensures Visited(start, hops + [h]) == Visited(start, hops) + {h}
  {
    assert h != start && h !in hops;
    forall a, b | 0 <= a < b < |hops + [h]|
      ensures (hops + [h])[a] != (hops + [h])[b]
    {
      if b < |hops| {
        assert (hops + [h])[a] == hops[a] && (hops + [h])[b] == hops[b];
      } else {
        assert (hops + [h])[a] == hops[a];
      }
    }
  }

  /** An enemy the chain has not visited is still on the field as it was. */
  lemma UnvisitedRemain(es: seq<Enemy>, start: Ident, hops: seq<Ident>, damage: real)
    ensures forall f :: f in es && EnemyRef(f.id) !in Visited(start, hops) ==>
              f in Harm(es, Marked(HopIds(hops)), damage)
  {
    HarmKeeps(es, Marked(HopIds(hops)), damage);
    forall f | f in es && EnemyRef(f.id) !in Visited(start, hops)
      ensures !InZone(Marked(HopIds(hops)), f)
    {
      assert forall h :: h in hops && h.EnemyRef? ==> h.id != f.id;
    }
  }

  /** Marking one more enemy's identity adds it to the hops' identities. */
  lemma HopIdsExtend(hops: seq<Ident>, h: Ident)
    ensures HopIds(hops + [h]) == HopIds(hops) + (if h.EnemyRef? then {h.id} else {})
  {
    assert forall g :: g in hops + [h] <==> g in hops || g == h;
  }

  /** Marking no identity changes nothing. */
  lemma {:induction false} MarkNone(es: seq<Enemy>, damage: real)
    ensures Harm(es, Marked({}), damage) == es && HarmKills(es, Marked({}), damage) == 0
  {
    if es != [] {
      MarkNone(es[1..], damage);
    }
  }

  /** Marking an identity that no enemy of the list has changes nothing. */
  lemma {:induction false} MarkAbsent(es: seq<Enemy>, ids: set<nat>, x: nat, damage: real)
    requires x !in IdSet(es)
    ensures Harm(es, Marked(ids + {x}), damage) == Harm(es, Marked(ids), damage)
    ensures HarmKills(es, Marked(ids + {x}), damage) == HarmKills(es, Marked(ids), damage)
  {
    if es != [] {
      IdSetCons(es);
      MarkAbsent(es[1..], ids, x, damage);
    }
  }

  /** The effect of one more chain hop, to the enemy at index k of what the hops
      so far left: the enemy is an original, untouched until now; `damage` more
      removes it, one more kill, when that brings it to 0, and otherwise leaves it in
      place with `damage` taken. */
  predicate MarksOneMore(es: seq<Enemy>, ids: set<nat>, k: nat, damage: real)
    requires k < |Harm(es, Marked(ids), damage)|
  {
    var cur := Harm(es, Marked(ids), damage);
    var e := cur[k];
    var marked := Marked(ids + {e.id});
    && e in es
    && (e.hp - damage <= 0.0 ==>
          && Harm(es, marked, damage) == cur[..k] + cur[k + 1..]
          && HarmKills(es, marked, damage) == HarmKills(es, Marked(ids), damage) + 1)
    && (e.hp - damage > 0.0 ==>
          && Harm(es, marked, damage) == cur[k := e.(hp := e.hp - damage)]
          && HarmKills(es, marked, damage) == HarmKills(es, Marked(ids), damage))
  }

  /** One more chain hop, to an enemy the hops so far have not marked, is the effect
      of the hops so far with that enemy's identity marked too. */
  lemma {:induction false} MarkStep(es: seq<Enemy>, ids: set<nat>, k: nat, damage: real)
    requires UniqueIds(es)
    requires k < |Harm(es, Marked(ids), damage)|
    requires Harm(es, Marked(ids), damage)[k].id !in ids
    ensures MarksOneMore(es, ids, k, damage)
    decreases |es|, 1
  {
    IdSetCons(es);
    HarmOrigins(es[1..], Marked(ids), damage);
    if es[0].id in ids {
      MarkStepPast(es, ids, k, damage);
    } else if es[0].id == Harm(es, Marked(ids), damage)[k].id {
      MarkStepHead(es, ids, k, damage);
    } else {
      MarkStepPast(es, ids, k, damage);
    }
  }

  /** MarkStep when the list's first enemy is not the one hit. */
  lemma {:induction false} MarkStepPast(es: seq<Enemy>, ids: set<nat>, k: nat, damage: real)
    requires UniqueIds(es)
    requires k < |Harm(es, Marked(ids), damage)|
    requires Harm(es, Marked(ids), damage)[k].id !in ids
    requires es[0].id in ids || es[0].id != Harm(es, Marked(ids), damage)[k].id
    ensures MarksOneMore(es, ids, k, damage)
    decreases |es|, 0
  {
    var cur := Harm(es, Marked(ids), damage);
    var e := cur[k];
    var marked := Marked(ids + {e.id});
    var e0 := es[0];
    var tail := Harm(es[1..], Marked(ids), damage);
    IdSetCons(es);
    var head := if KilledBy(e0, Marked(ids), damage) then [] else [Harmed(e0, Marked(ids), damage)];
    assert cur == head + tail;
    assert head != [] ==> cur[0].id == e0.id;
    var k' := k - |head|;
    assert e == tail[k'];
    MarkStep(es[1..], ids, k', damage);
    assert forall g :: g in es[1..] ==> g in es;
    MarkedElsewhere(e0, ids, e.id, damage);
    assert Harm(es, marked, damage) == head + Harm(es[1..], marked, damage);
    if e.hp - damage <= 0.0 {
      RemoveBehind(head, tail, k');
    } else {
      UpdateBehind(head, tail, k', e.(hp := e.hp - damage));
    }
  }

  /** Marking one more identity, other than an enemy's own or one already marked,
      leaves what the hit does to that enemy as it was. */
  lemma MarkedElsewhere(e: Enemy, ids: set<nat>, id: nat, damage: real)
    requires e.id in ids || e.id != id
    ensures KilledBy(e, Marked(ids + {id}), damage) == KilledBy(e, Marked(ids), damage)
    ensures Harmed(e, Marked(ids + {id}), damage) == Harmed(e, Marked(ids), damage)
  {
  }

  /** Removing or replacing the element at j of the second part of a concatenation. */
  lemma RemoveBehind<T>(head: seq<T>, tail: seq<T>, j: nat)
    requires j < |tail|
    ensures var k := |head| + j;
      (head + tail)[..k] + (head + tail)[k + 1..] == head + (tail[..j] + tail[j + 1..])
  {
    var k := |head| + j;
    assert (head + tail)[..k] == head + tail[..j];
    assert (head + tail)[k + 1..] == tail[j + 1..];
  }

  lemma UpdateBehind<T>(head: seq<T>, tail: seq<T>, j: nat, v: T)
    requires j < |tail|
    ensures (head + tail)[|head| + j := v] == head + tail[j := v]
  {
  }

  /** MarkStep when the list's first enemy is the one hit. */
  lemma {:induction false} MarkStepHead(es: seq<Enemy>, ids: set<nat>, k: nat, damage: real)
    requires UniqueIds(es)
    requires k < |Harm(es, Marked(ids), damage)|
    requires es[0].id !in ids && es[0].id == Harm(es, Marked(ids), damage)[k].id
    ensures MarksOneMore(es, ids, k, damage)
  {
    var cur := Harm(es, Marked(ids), damage);
    var e0 := es[0];
    var tail := Harm(es[1..], Marked(ids), damage);
    IdSetCons(es);
    HarmShrinks(es[1..], Marked(ids), damage);
    assert cur == [e0] + tail;
    forall m | 0 < m < |cur|
      ensures cur[m].id != e0.id
    {
      assert cur[m] == tail[m - 1];
      assert cur[m].id in IdSet(tail);
    }
    assert k == 0;
    MarkAbsent(es[1..], ids, e0.id, damage);
    assert Harm(es, Marked(ids + {e0.id}), damage)
        == (if e0.hp - damage <= 0.0 then [] else [e0.(hp := e0.hp - damage)]) + tail;
    assert cur[1..] == tail;
  }

  /** The arc of a chain hop from (x, y) to the centre of box b (game.js:809-813). */
  function Arc(x: real, y: real, b: Box): Timed<ChainArc>
  {
    Timed(ChainArc(x, y, b.CenterX(), b.CenterY()), 0.12)
  }

  /** A hop from where the chain stands to the nearest enemy in reach, at index k of
      the field the hops so far left, extends the chain: its arc ends at the centre of
      an original enemy, every hop is still the nearest, the target joins the visited
      set, and the field and the kills become those of the hops with that enemy
      marked too. */
  lemma EnemyHop(es: seq<Enemy>, start: Ident, hops: seq<Ident>, made: seq<Timed<ChainArc>>,
                 x: real, y: real, boss: Option<Boss>, k: nat)
    requires UniqueIds(es) && start !in hops && Distinct(hops)
    requires Chained(made, hops, x, y, es, boss) && Nearest(made, hops, start, es)
    requires var cur := Harm(es, Marked(HopIds(hops)), 2.0);
      var tip := Tip(made, x, y);
      && Hoppable(cur, Visited(start, hops), tip.0, tip.1, k)
      && forall m :: Hoppable(cur, Visited(start, hops), tip.0, tip.1, m) ==>
           CenterDist2(cur[k].box, tip.0, tip.1) <= CenterDist2(cur[m].box, tip.0, tip.1)
    ensures var cur := Harm(es, Marked(HopIds(hops)), 2.0);
      var tip := Tip(made, x, y);
      var e := cur[k];
      var a := Arc(tip.0, tip.1, e.box);
      var hops' := hops + [EnemyRef(e.id)];
      && Chained(made + [a], hops', x, y, es, boss) && Nearest(made + [a], hops', start, es)
      && Tip(made + [a], x, y) == (e.box.CenterX(), e.box.CenterY())
      && start !in hops' && Distinct(hops')
      && Visited(start, hops') == Visited(start, hops) + {EnemyRef(e.id)}
      && HopIds(hops') == HopIds(hops) + {e.id}
      && MarksOneMore(es, HopIds(hops), k, 2.0)
  {
    var cur := Harm(es, Marked(HopIds(hops)), 2.0);
    var tip := Tip(made, x, y);
    var e := cur[k];
    var h := EnemyRef(e.id);
    var a := Arc(tip.0, tip.1, e.box);
    assert forall g :: g in hops && g.EnemyRef? ==> g.id != e.id;
    MarkStep(es, HopIds(hops), k, 2.0);
    assert Lands(a.item, h, es, boss) by {
      assert e in es && e.id == h.id && EndsAt(a.item, e.box);
    }
    ChainedExtend(made, hops, x, y, es, boss, a, h);
    UnvisitedRemain(es, start, hops, 2.0);
    forall f | f in es && EnemyRef(f.id) !in Visited(start, hops) && CenterDist2(f.box, tip.0, tip.1) < ChainReach2
      ensures ArcLength2(a.item) <= CenterDist2(f.box, tip.0, tip.1)
    {
      var m :| 0 <= m < |cur| && cur[m] == f;
      assert Hoppable(cur, Visited(start, hops), tip.0, tip.1, m);
    }
    NearestExtend(made, hops, start, es, a, h);
    VisitedExtend(start, hops, h);
    HopIdsExtend(hops, h);
  }

  /** A hop from where the chain stands to the boss, within 140, when no enemy the
      chain has not visited is within 120, extends the chain and keeps every hop the
      nearest; the hops' enemy identities stay the same. */
  lemma BossHop(es: seq<Enemy>, start: Ident, hops: seq<Ident>, made: seq<Timed<ChainArc>>,
                x: real, y: real, boss: Boss)
    requires start !in hops && Distinct(hops) && BossRef !in Visited(start, hops)
    requires Chained(made, hops, x, y, es, Some(boss)) && Nearest(made, hops, start, es)
    requires var tip := Tip(made, x, y);
      && NoneHoppable(Harm(es, Marked(HopIds(hops)), 2.0), Visited(start, hops), tip.0, tip.1, 0)
      && CenterDist2(boss.box, tip.0, tip.1) < ChainBossReach2
    ensures var tip := Tip(made, x, y);
      var a := Arc(tip.0, tip.1, boss.box);
      var hops' := hops + [BossRef];
      && Chained(made + [a], hops', x, y, es, Some(boss)) && Nearest(made + [a], hops', start, es)
      && start !in hops' && Distinct(hops') && HopIds(hops') == HopIds(hops)
  {
    var cur := Harm(es, Marked(HopIds(hops)), 2.0);
    var tip := Tip(made, x, y);
    var a := Arc(tip.0, tip.1, boss.box);
    ChainedExtend(made, hops, x, y, es, Some(boss), a, BossRef);
    UnvisitedRemain(es, start, hops, 2.0);
    NoneHoppableAll(cur, Visited(start, hops), tip.0, tip.1, 0);
    forall f | f in es && EnemyRef(f.id) !in Visited(start, hops)
      ensures CenterDist2(f.box, tip.0, tip.1) >= ChainReach2
    {
      var m :| 0 <= m < |cur| && cur[m] == f;
      assert !Hoppable(cur, Visited(start, hops), tip.0, tip.1, m);
    }
    NearestExtend(made, hops, start, es, a, BossRef);
    VisitedExtend(start, hops, BossRef);
    HopIdsExtend(hops, BossRef);
  }

  /** The search of game.js:787-799: the nearest unvisited enemy closer than 120,
      the first one in list order among equally near ones, or none. */
  method NearestInRange(es: seq<Enemy>, visited: set<Ident>, x: real, y: real) returns (best: Option<nat>)
    ensures best.None? ==> forall k :: 0 <= k < |es| ==> !Hoppable(es, visited, x, y, k)
    ensures best.Some? ==> Hoppable(es, visited, x, y, best.value)
    ensures best.Some? ==> forall k :: Hoppable(es, visited, x, y, k) ==>
              CenterDist2(es[best.value].box, x, y) <= CenterDist2(es[k].box, x, y)
    ensures best.Some? ==> forall k :: 0 <= k < best.value && Hoppable(es, visited, x, y, k) ==>
              CenterDist2(es[best.value].box, x, y) < CenterDist2(es[k].box, x, y)
  {
    best := None;
    var bestDist := 0.0;  // stands for Infinity while best is None
    for n := 0 to |es|
      invariant best.None? ==> forall k :: 0 <= k < n ==> !Hoppable(es, visited, x, y, k)
      invariant best.Some? ==> best.value < n && Hoppable(es, visited, x, y, best.value)
      invariant best.Some? ==> bestDist == CenterDist2(es[best.value].box, x, y)
      invariant best.Some? ==> forall k :: 0 <= k < n && Hoppable(es, visited, x, y, k) ==>
                  bestDist <= CenterDist2(es[k].box, x, y)
      invariant best.Some? ==> forall k :: 0 <= k < best.value && Hoppable(es, visited, x, y, k) ==>
                  bestDist < CenterDist2(es[k].box, x, y)
    {
      if EnemyRef(es[n].id) !in visited {
        var d := CenterDist2(es[n].box, x, y);
        if d < ChainReach2 && (best.None? || d < bestDist) {
          best := Some(n);
          bestDist := d;
        }
      }
    }
  }

  // ---------------------------------------------------------------- ageing

  /** The loops of game.js:950-958: every countdown drops by dt and the records whose
      countdown reaches 0 are removed. */
  function Expire<T>(xs: seq<Timed<T>>, dt: real): (ys: seq<Timed<T>>)
    ensures |ys| <= |xs|
  {
    if xs == [] then []
    else
      var y := xs[0].(ttl := xs[0].ttl - dt);
      (if y.ttl <= 0.0 then [] else [y]) + Expire(xs[1..], dt)
  }

  /** What survives is exactly the aged records whose countdown is still positive. */
  lemma {:induction false} ExpireKeepsLive<T>(xs: seq<Timed<T>>, dt: real)
    ensures forall y :: y in Expire(xs, dt) ==> y.ttl > 0.0 && y.(ttl := y.ttl + dt) in xs
  {
    if xs != [] {
      ExpireKeepsLive(xs[1..], dt);
      var y0 := xs[0].(ttl := xs[0].ttl - dt);
      var head := if y0.ttl <= 0.0 then [] else [y0];
      assert Expire(xs, dt) == head + Expire(xs[1..], dt);
      forall y | y in Expire(xs, dt)
        ensures y.ttl > 0.0 && y.(ttl := y.ttl + dt) in xs
      {
        if y in head {
          assert y.(ttl := y.ttl + dt) == xs[0];
        } else {
          assert y.(ttl := y.ttl + dt) in xs[1..];
        }
      }
    }
  }

  lemma {:induction false} ExpireKeepsUnexpired<T>(xs: seq<Timed<T>>, dt: real)
    ensures forall x :: x in xs && x.ttl > dt ==> x.(ttl := x.ttl - dt) in Expire(xs, dt)
  {
    if xs != [] {
      ExpireKeepsUnexpired(xs[1..], dt);
      var y0 := xs[0].(ttl := xs[0].ttl - dt);
      var head := if y0.ttl <= 0.0 then [] else [y0];
      assert Expire(xs, dt) == head + Expire(xs[1..], dt);
      forall x | x in xs && x.ttl > dt
        ensures x.(ttl := x.ttl - dt) in Expire(xs, dt)
      {
        if x != xs[0] {
          assert x in xs[1..];
        }
      }
    }
  }

  /** The reverse-index loop with in-place decrement and splice. */
  method AgeTimed<T>(xs: seq<Timed<T>>, dt: real) returns (ys: seq<Timed<T>>)
    ensures ys == Expire(xs, dt)
  {
    ys := xs;
    var i := |xs|;
    while i > 0
      invariant 0 <= i <= |xs|
      invariant ys == xs[..i] + Expire(xs[i..], dt)
    {
      i := i - 1;
      assert xs[i..][1..] == xs[i + 1..];
      ys := ys[i := ys[i].(ttl := ys[i].ttl - dt)];
      if ys[i].ttl <= 0.0 {
        ys := ys[..i] + ys[i + 1..];
      }
    }
    assert xs[0..] == xs;
  }

  /** The power-up after falling for dt (game.js:945). */
  function Fallen(p: Powerup, dt: real): Powerup
  {
    p.(box := p.box.(y := p.box.y + p.vy * dt))
  }

  /** Every power-up after falling for dt, in order. */
  function AllFallen(ps: seq<Powerup>, dt: real): (qs: seq<Powerup>)
    ensures |qs| == |ps| && forall k :: 0 <= k < |ps| ==> qs[k].box.y == ps[k].box.y + ps[k].vy * dt
  {
    seq(|ps|, k requires 0 <= k < |ps| => Fallen(ps[k], dt))
  }

  /** The power-ups still on the field: those not below `bottom` (game.js:946-948). */
  function OnField(ps: seq<Powerup>, bottom: real): (qs: seq<Powerup>)
    ensures |qs| <= |ps|
  {
    if ps == [] then [] else (if ps[0].box.y > bottom then [] else [ps[0]]) + OnField(ps[1..], bottom)
  }

  lemma {:induction false} OnFieldKeeps(ps: seq<Powerup>, bottom: real)
    ensures forall p :: p in OnField(ps, bottom) <==> p in ps && p.box.y <= bottom
  {
    if ps != [] {
      OnFieldKeeps(ps[1..], bottom);
    }
  }

  /** updatePowerups' power-up part: every power-up falls, then those below the
      field are removed. */
  method SettlePowerups(ps: seq<Powerup>, dt: real, bottom: real) returns (qs: seq<Powerup>)
    ensures |qs| <= |ps|
    ensures qs == OnField(AllFallen(ps, dt), bottom)
  {
    qs := ps;
    for k := 0 to |ps|
      invariant |qs| == |ps|
      invariant forall j :: 0 <= j < k ==> qs[j] == Fallen(ps[j], dt)
      invariant forall j :: k <= j < |ps| ==> qs[j] == ps[j]
    {
      qs := qs[k := Fallen(qs[k], dt)];
    }
    ghost var moved := qs;
    assert moved == AllFallen(ps, dt);
    var i := |qs|;
    while i > 0
      invariant 0 <= i <= |moved|
      invariant qs == moved[..i] + OnField(moved[i..], bottom)
    {
      i := i - 1;
      assert moved[i..][1..] == moved[i + 1..];
      if qs[i].box.y > bottom {
        qs := qs[..i] + qs[i + 1..];
      }
    }
    assert moved[0..] == moved;
  }
}
