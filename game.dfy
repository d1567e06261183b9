/** The mutable game state of game.js (the `state` record, the player and the six
    entity lists, lines 5-48) and the per-tick operations that update it in place.
    Math.random() is the stream `rolls`: each call in the source takes the next
    value, `drawn` counts the values taken so far. */
module Game {
  import opened Numeric
  import opened Entities
  import opened Balance
  import opened Rules

  const MaxLives: int := 8
  /** BALANCE.weaponKillStep: the weapon level rises every 12 kills. */
  const KillStep: int := 12
  const PlayerSize: real := 44.0
  const PlayerSpeed: real := 210.0

  /** What one enemy's turn in handleHits' first loop found: the player rammed it,
      no bullet touched it, or a bullet struck it; `hp` is the struck enemy's hit
      points after the bullet and any explosion it set off. */
  datatype Strike = Contact | Missed | Struck(id: nat, box: Box, hp: real)

  /** The last bullet in list order that overlaps `target`: the one the reverse loop
      of game.js:851-872 stops at, or None when no bullet touches it. */
  function LastHit(bs: seq<PlayerBullet>, target: Box): (j: Option<nat>)
    ensures j.Some? ==> j.value < |bs| && RectHit(bs[j.value].box, target)
    ensures j.Some? ==> forall m :: j.value < m < |bs| ==> !RectHit(bs[m].box, target)
    ensures j.None? <==> forall m :: 0 <= m < |bs| ==> !RectHit(bs[m].box, target)
  {
    if bs == [] then None
    else if RectHit(bs[|bs| - 1].box, target) then Some(|bs| - 1)
    else LastHit(bs[..|bs| - 1], target)
  }

  /** The bullet list after bullet j struck: a piercing bullet loses one pierce,
      any other is removed. */
  function Spend(bs: seq<PlayerBullet>, j: nat): (cs: seq<PlayerBullet>)
    requires j < |bs|
    ensures bs[j].pierce > 0 ==>
      && |cs| == |bs| && cs[j] == bs[j].(pierce := bs[j].pierce - 1)
      && forall k :: 0 <= k < |bs| && k != j ==> cs[k] == bs[k]
    ensures bs[j].pierce <= 0 ==> |cs| == |bs| - 1 && cs == bs[..j] + bs[j + 1..]
  {
    if bs[j].pierce > 0 then bs[j := bs[j].(pierce := bs[j].pierce - 1)]
    else bs[..j] + bs[j + 1..]
  }

  /** The search of the reverse bullet loops (game.js:851-853 and 880-882): the last
      bullet in list order that overlaps `target`. */
  method FindHit(bs: seq<PlayerBullet>, target: Box) returns (j: Option<nat>)
    ensures j == LastHit(bs, target)
  {
    var k := |bs|;
    assert bs[..k] == bs;
    while k > 0
      invariant 0 <= k <= |bs|
      invariant LastHit(bs, target) == LastHit(bs[..k], target)
    {
      k := k - 1;
      assert bs[..k + 1][..k] == bs[..k];
      if RectHit(bs[k].box, target) {
        return Some(k);
      }
    }
    return None;
  }

  /** Appending an enemy that takes the next identity keeps identities unique and
      below the new counter, and adds exactly that identity. */
  lemma AppendKeepsIds(es: seq<Enemy>, e: Enemy, n: nat)
    requires UniqueIds(es) && IdsBelow(es, n) && e.id == n
    ensures UniqueIds(es + [e]) && IdsBelow(es + [e], n + 1)
    ensures IdSet(es + [e]) == IdSet(es) + {n}
  {
    assert forall f :: f in es + [e] <==> f in es || f == e;
  }

  /** Removing one enemy keeps identities unique and adds none. */
  lemma RemoveKeepsIds(es: seq<Enemy>, k: nat)
    requires k < |es| && UniqueIds(es)
    ensures UniqueIds(es[..k] + es[k + 1..])
    ensures IdSet(es[..k] + es[k + 1..]) == IdSet(es) - {es[k].id}
  {
    var rs := es[..k] + es[k + 1..];
    forall f | f in rs
      ensures f in es && f.id != es[k].id
    {
      var m :| 0 <= m < |rs| && rs[m] == f;
      if m < k {
        assert rs[m] == es[m];
      } else {
        assert rs[m] == es[m + 1];
      }
    }
    forall f | f in es && f.id != es[k].id
      ensures f in rs
    {
      var m :| 0 <= m < |es| && es[m] == f;
      if m < k {
        assert rs[m] == f;
      } else {
        assert m != k;
        assert rs[m - 1] == f;
      }
    }
  }

  /** Replacing an enemy by an update of itself keeps the identities. */
  lemma ReplaceKeepsIds(es: seq<Enemy>, k: nat, f: Enemy)
    requires k < |es| && UniqueIds(es) && f.id == es[k].id
    ensures UniqueIds(es[k := f])
    ensures IdSet(es[k := f]) == IdSet(es)
  {
    forall g | g in es[k := f]
      ensures g.id in IdSet(es)
    {
      var m :| 0 <= m < |es| && es[k := f][m] == g;
      assert es[m] in es;
    }
    forall g | g in es
      ensures g.id in IdSet(es[k := f])
    {
      var m :| 0 <= m < |es| && es[m] == g;
      assert es[k := f][m] in es[k := f];
    }
  }

  /** One step of a reverse splice loop: removing or replacing element i of a
      processed prefix followed by a processed suffix. */
  lemma SpliceStep<T>(xs: seq<T>, tail: seq<T>, i: nat, x: T)
    requires i < |xs|
    ensures (xs[..i + 1] + tail)[..i] + (xs[..i + 1] + tail)[i + 1..] == xs[..i] + tail
    ensures (xs[..i + 1] + tail)[i := x] == xs[..i] + ([x] + tail)
    ensures xs[..i + 1] + tail == xs[..i] + ([xs[i]] + tail)
  {
    assert (xs[..i + 1] + tail)[..i] == xs[..i];
    assert (xs[..i + 1] + tail)[i + 1..] == tail;
    assert xs[..i + 1] == xs[..i] + [xs[i]];
  }

  /** `points` scored n times, one kill at a time. */
  function Scored(points: int, n: nat): int
  {
    if n == 0 then 0 else Scored(points, n - 1) + points
  }

  lemma {:induction false} ScoredIsProduct(points: int, n: nat)
    ensures Scored(points, n) == points * n
  {
    if n > 0 {
      ScoredIsProduct(points, n - 1);
    }
  }

  /** What Sweep's loop has done once it has processed es[i..]. */
  predicate SweptFrom(es: seq<Enemy>, i: nat, zone: Zone, damage: real, points: int,
                      enemies: seq<Enemy>, gainedKills: int, gainedScore: int)
    requires i <= |es|
  {
    && enemies == es[..i] + Harm(es[i..], zone, damage)
    && gainedKills == HarmKills(es[i..], zone, damage)
    && gainedScore == Scored(points, HarmKills(es[i..], zone, damage))
  }

  /** One pass of Sweep's loop keeps SweptFrom. */
  lemma SweepStep(es: seq<Enemy>, i: nat, zone: Zone, damage: real, points: int,
                  enemies: seq<Enemy>, gainedKills: int, gainedScore: int,
                  enemies': seq<Enemy>, gainedKills': int, gainedScore': int)
    requires i < |es|
    requires SweptFrom(es, i + 1, zone, damage, points, enemies, gainedKills, gainedScore)
    requires i < |enemies| && enemies[i] == es[i]
    requires KilledBy(es[i], zone, damage) ==>
      enemies' == enemies[..i] + enemies[i + 1..] && gainedKills' == gainedKills + 1
      && gainedScore' == gainedScore + points
    requires !KilledBy(es[i], zone, damage) ==>
      enemies' == enemies[i := Harmed(es[i], zone, damage)] && gainedKills' == gainedKills
      && gainedScore' == gainedScore
    ensures SweptFrom(es, i, zone, damage, points, enemies', gainedKills', gainedScore')
  {
    HarmStep(es, i, zone, damage);
    SpliceStep(es, Harm(es[i + 1..], zone, damage), i, Harmed(es[i], zone, damage));
  }

  /** Harm and HarmKills on a suffix, unfolded once. */
  lemma HarmStep(es: seq<Enemy>, i: nat, zone: Zone, damage: real)
    requires i < |es|
    ensures Harm(es[i..], zone, damage)
      == (if KilledBy(es[i], zone, damage) then [] else [Harmed(es[i], zone, damage)])
         + Harm(es[i + 1..], zone, damage)
    ensures HarmKills(es[i..], zone, damage)
      == (if KilledBy(es[i], zone, damage) then 1 else 0) + HarmKills(es[i + 1..], zone, damage)
  {
    assert es[i..][1..] == es[i + 1..];
  }

  /** The drop rolls of an area effect's loop on a suffix, unfolded once: the rolls
      `u` of enemy i's pass, made after every kill of the enemies behind it (`t`)
      with the kill counter counting them (`mid`), are those of the suffix from i. */
  lemma SweepDropStep(rolls: nat -> Draw, t0: Drops, s0: Stats, es: seq<Enemy>, i: nat, zone: Zone,
                      damage: real, mult: real, dy: real, t: Drops, mid: Stats, u: Drops)
    requires i < |es|
    requires t == KillDrops(rolls, t0, s0, Killed(es[i + 1..], zone, damage), mult, dy)
    requires mid == s0.(kills := s0.kills + HarmKills(es[i + 1..], zone, damage))
    requires u == KillDrops(rolls, t, mid, if KilledBy(es[i], zone, damage) then [es[i].box] else [], mult, dy)
    ensures u == KillDrops(rolls, t0, s0, Killed(es[i..], zone, damage), mult, dy)
  {
    assert es[i..][1..] == es[i + 1..];
    var ks := Killed(es[i + 1..], zone, damage);
    if KilledBy(es[i], zone, damage) {
      assert Killed(es[i..], zone, damage) == ks + [es[i].box];
      KillDropsThen(rolls, t0, s0, ks, es[i].box, mult, dy, t, mid, u);
    } else {
      assert Killed(es[i..], zone, damage) == ks;
    }
  }

  class Game {
    const width: real
    const height: real
    const rolls: nat -> Draw
    var drawn: nat
    var nextId: nat

    var running: bool
    var score: int
    var lives: int
    var time: real
    var kills: int
    var level: int
    var shootCooldown: real
    var spawnTimer: real
    var hitCooldown: real
    var bossLevel: int
    var boss: Option<Boss>
    var nextBossAt: int
    var effects: Effects
    var beamActive: bool
    var beamWidth: real
    var beamPulse: real
    var shieldBlockCooldown: real
    var reflectCooldown: real
    var player: Box

    var enemies: seq<Enemy>
    var playerBullets: seq<PlayerBullet>
    var enemyBullets: seq<EnemyBullet>
    var powerups: seq<Powerup>
    var chainArcs: seq<Timed<ChainArc>>
    var explosions: seq<Timed<Explosion>>

    /** What every operation keeps: the counters are in range, countdowns are never
        negative, a game with no lives is over, enemy identities are unique and older
        than `nextId`, enemy bullets do damage, and the boss's mode index is inside
        its mode list. */
    ghost predicate Valid()
      reads this`lives, this`running, this`level, this`kills, this`bossLevel, this`time,
            this`hitCooldown, this`shieldBlockCooldown, this`reflectCooldown,
            this`enemies, this`nextId, this`enemyBullets, this`boss
    {
      CountersValid() && EnemiesValid() && ShotsValid() && BossValid()
    }

    ghost predicate CountersValid()
      reads this`lives, this`running, this`level, this`kills, this`bossLevel, this`time,
            this`hitCooldown, this`shieldBlockCooldown, this`reflectCooldown
    {
      && 0 <= lives <= MaxLives
      && (lives == 0 ==> !running)
      && 1 <= level <= 4
      && 0 <= kills
      && 0 <= bossLevel
      && 0.0 <= time
      && 0.0 <= hitCooldown && 0.0 <= shieldBlockCooldown && 0.0 <= reflectCooldown
    }

    ghost predicate EnemiesValid()
      reads this`enemies, this`nextId
    {
      UniqueIds(enemies) && IdsBelow(enemies, nextId)
    }

    ghost predicate ShotsValid()
      reads this`enemyBullets
    {
      forall b :: b in enemyBullets ==> b.damage >= 1
    }

    ghost predicate BossValid()
      reads this`boss
    {
      boss.Some? ==> boss.value.modeIndex < |boss.value.modes|
    }

    /** The state reset() leaves (game.js:136-166): the counters of a new game, the
        countdowns and the beam at rest, no gear, the player at the bottom centre
        and every list empty. */
    ghost predicate Initial()
      reads this
    {
      CountersInitial() && TimersInitial() && FieldInitial()
    }

    ghost predicate CountersInitial()
      reads this`running, this`score, this`lives, this`time, this`kills, this`level,
            this`bossLevel, this`boss, this`nextBossAt, this`effects
    {
      && running && score == 0 && lives == MaxLives && time == 0.0 && kills == 0
      && level == 1 && bossLevel == 0 && boss.None? && nextBossAt == 18
      && effects == NoEffects
    }

    ghost predicate TimersInitial()
      reads this`shootCooldown, this`spawnTimer, this`hitCooldown, this`beamActive,
            this`beamWidth, this`beamPulse, this`shieldBlockCooldown, this`reflectCooldown
    {
      && shootCooldown == 0.0 && spawnTimer == StartSpawnDelay && hitCooldown == 0.0
      && !beamActive && beamWidth == 12.0 && beamPulse == 0.0
      && shieldBlockCooldown == 0.0 && reflectCooldown == 0.0
    }

    ghost predicate FieldInitial()
      reads this`player, this`enemies, this`playerBullets, this`enemyBullets, this`powerups,
            this`chainArcs, this`explosions
    {
      && player == Box(width / 2.0 - PlayerSize / 2.0, height - PlayerSize - 20.0, PlayerSize, PlayerSize)
      && enemies == [] && playerBullets == [] && enemyBullets == [] && powerups == []
      && chainArcs == [] && explosions == []
    }

    /** The inputs of the balance curves. */
    function Snapshot(): Stats
      reads this
    {
      Stats(level, time, kills, bossLevel, effects)
    }

    function Health(): Vitals
      reads this
    {
      Vitals(lives, running, hitCooldown, shieldBlockCooldown)
    }

    function Equipment(): Loadout
      reads this
    {
      Loadout(effects, score, lives)
    }

    /** A new game on a canvas of the given size (the script's start-up call of
        reset(), game.js:1259). */
    constructor (width: real, height: real, rolls: nat -> Draw)
      ensures Valid() && Initial()
      ensures this.width == width && this.height == height && this.rolls == rolls
      ensures drawn == 0 && nextId == 0
    {
      this.width := width;
      this.height := height;
      this.rolls := rolls;
      drawn := 0;
      nextId := 0;
      new;
      Reset();
    }

    method Reset()
      modifies this`running, this`score, this`lives, this`time, this`kills, this`level,
               this`bossLevel, this`boss, this`nextBossAt, this`effects,
               this`shootCooldown, this`spawnTimer, this`hitCooldown, this`beamActive,
               this`beamWidth, this`beamPulse, this`shieldBlockCooldown, this`reflectCooldown,
               this`player, this`enemies, this`playerBullets, this`enemyBullets, this`powerups,
               this`chainArcs, this`explosions
      ensures Valid() && Initial()
    {
      ResetCounters();
      ResetField();
      ResetTimers();
    }

    /** A new game satisfies the invariant. */
    lemma InitialIsValid()
      requires Initial()
      ensures Valid()
    {
    }

    method ResetCounters()
      modifies this`running, this`score, this`lives, this`time, this`kills, this`level,
               this`bossLevel, this`boss, this`nextBossAt, this`effects
      ensures CountersInitial()
    {
      running := true;
      score := 0;
      lives := MaxLives;
      time := 0.0;
      kills := 0;
      level := 1;
      bossLevel := 0;
      boss := None;
      nextBossAt := 18;
      effects := NoEffects;
    }

    method ResetTimers()
      modifies this`shootCooldown, this`spawnTimer, this`hitCooldown, this`beamActive,
               this`beamWidth, this`beamPulse, this`shieldBlockCooldown, this`reflectCooldown
      ensures TimersInitial()
    {
      shootCooldown := 0.0;
      spawnTimer := StartSpawnDelay;
      hitCooldown := 0.0;
      beamActive := false;
      beamWidth := 12.0;
      beamPulse := 0.0;
      shieldBlockCooldown := 0.0;
      reflectCooldown := 0.0;
    }

    method ResetField()
      modifies this`player, this`enemies, this`playerBullets, this`enemyBullets, this`powerups,
               this`chainArcs, this`explosions
      ensures FieldInitial()
    {
      player := Box(width / 2.0 - PlayerSize / 2.0, height - PlayerSize - 20.0, PlayerSize, PlayerSize);
      playerBullets := [];
      enemyBullets := [];
      enemies := [];
      powerups := [];
      chainArcs := [];
      explosions := [];
    }

    /** The restart key (game.js:1246-1249) starts a new game only once the current
        one is over. */
    method Restart()
      requires Valid()
      modifies this
      ensures Valid()
      ensures old(running) ==> unchanged(this)
      ensures !old(running) ==> Initial()
      ensures drawn == old(drawn) && nextId == old(nextId)
    {
      if !running {
        Reset();
      }
    }

    /** Math.random(): the next value of the stream. */
    method Roll() returns (r: Draw)
      modifies this`drawn
      ensures r == rolls(old(drawn)) && drawn == old(drawn) + 1
    {
      r := rolls(drawn);
      drawn := drawn + 1;
    }

    /** The countdowns at the head of update() (game.js:972-977). */
    method AdvanceTimers(dt: real)
      requires Valid() && 0.0 <= dt
      modifies this`time, this`spawnTimer, this`shootCooldown, this`hitCooldown,
               this`shieldBlockCooldown, this`reflectCooldown
      ensures Valid()
      ensures time == old(time) + dt
      ensures spawnTimer == old(spawnTimer) - dt && shootCooldown == old(shootCooldown) - dt
      ensures hitCooldown == Max(0.0, old(hitCooldown) - dt)
      ensures shieldBlockCooldown == Max(0.0, old(shieldBlockCooldown) - dt)
      ensures reflectCooldown == Max(0.0, old(reflectCooldown) - dt)
    {
      time := time + dt;
      spawnTimer := spawnTimer - dt;
      shootCooldown := shootCooldown - dt;
      hitCooldown := Max(0.0, hitCooldown - dt);
      shieldBlockCooldown := Max(0.0, shieldBlockCooldown - dt);
      reflectCooldown := Max(0.0, reflectCooldown - dt);
    }

    /** equipGear (game.js:231-235). */
    method EquipGear(g: Gear, tier: nat)
      requires Valid()
      modifies this`effects, this`score
      ensures Valid()
      ensures Equipment() == Equip(old(Equipment()), g, tier)
    {
      var oldTier := Tier(effects, g);
      effects := effects[g := tier];
      score := score + (if tier > oldTier then 16 else 8);
    }

    /** tryUpgradeEffect (game.js:237-250): one draw unless the gear is at its cap. */
    method TryUpgradeEffect(g: Gear, maxLevel: int)
      requires Valid()
      modifies this`effects, this`score, this`drawn
      ensures Valid()
      ensures var u := TryUpgrade(old(Tier(effects, g)), maxLevel, GapFactor(old(Snapshot())), rolls(old(drawn)));
        Tier(effects, g) == u.tier && score == old(score) + u.scoreGain
      ensures forall h :: h != g ==> Tier(effects, h) == old(Tier(effects, h))
      ensures drawn == old(drawn) + (if old(Tier(effects, g)) >= maxLevel then 0 else 1)
    {
      var current := Tier(effects, g);
      if current >= maxLevel {
        score := score + 6;
        return;
      }
      var chance := UpgradeChance(current, GapFactor(Snapshot()));
      var r := Roll();
      if r < chance {
        effects := effects[g := current + 1];
      } else {
        score := score + 4;
      }
    }

    /** damagePlayer (game.js:762-779). */
    method DamagePlayer(amount: int)
      requires Valid() && amount >= 1
      modifies this`lives, this`running, this`hitCooldown, this`shieldBlockCooldown
      ensures Valid()
      ensures Health() == Damage(old(Health()), Tier(effects, Shield), amount)
    {
      if hitCooldown > 0.0 {
        return;
      }
      var shield := Tier(effects, Shield);
      var hit := amount;
      if shield > 0 {
        if shieldBlockCooldown <= 0.0 {
          shieldBlockCooldown := ShieldBlockCooldown(shield);
          hitCooldown := 0.16;
          return;
        }
        hit := IMax(1, amount - shield / 3);
      }
      lives := lives - hit;
      hitCooldown := 0.5;
      if lives <= 0 {
        lives := 0;
        running := false;
      }
    }

    /** spawnBoss (game.js:312-339): one draw, for the hover phase. */
    method SpawnBoss()
      requires Valid()
      modifies this`bossLevel, this`boss, this`drawn
      ensures Valid()
      ensures bossLevel == old(bossLevel) + 1 && drawn == old(drawn) + 1
      ensures boss == Some(NewBoss(Snapshot(), width))
    {
      bossLevel := bossLevel + 1;
      var phase := Roll();
      boss := Some(NewBoss(Snapshot(), width));
    }

    /** maybeSpawnBoss (game.js:961-967): once the kill count reaches the threshold
        and no boss is up, the field is cleared and the next boss arrives. */
    method MaybeSpawnBoss()
      requires Valid()
      modifies this`enemies, this`bossLevel, this`boss, this`drawn
      ensures Valid()
      ensures old(boss).None? && kills >= nextBossAt ==>
        && enemies == [] && bossLevel == old(bossLevel) + 1 && drawn == old(drawn) + 1
        && boss == Some(NewBoss(Snapshot(), width))
      ensures !(old(boss).None? && kills >= nextBossAt) ==>
        enemies == old(enemies) && bossLevel == old(bossLevel) && boss == old(boss) && drawn == old(drawn)
    {
      if boss.Some? {
        return;
      }
      if kills >= nextBossAt {
        enemies := [];
        SpawnBoss();
      }
    }

    /** defeatBoss (game.js:360-366): only a live boss is defeated; the defeat scores,
        drops one boss reward (two draws) and moves the next boss threshold. */
    method DefeatBoss(dropX: real, dropY: real, bonus: int)
      requires Valid()
      modifies this`score, this`powerups, this`boss, this`nextBossAt, this`drawn
      ensures Valid()
      ensures boss.None?
      ensures old(boss).None? ==>
        score == old(score) && powerups == old(powerups) && nextBossAt == old(nextBossAt) && drawn == old(drawn)
      ensures old(boss).Some? ==>
        && score == old(score) + 520 + 160 * bossLevel + bonus
        && powerups == old(powerups) + [BossReward(dropX, dropY, rolls(old(drawn)), rolls(old(drawn) + 1), time)]
        && nextBossAt == old(nextBossAt) + 18 + 8 * bossLevel
        && drawn == old(drawn) + 2
      ensures old(powerups) <= powerups
      ensures RewardCount(powerups) == RewardCount(old(powerups)) + (if old(boss).Some? then 1 else 0)
    {
      if boss.None? {
        return;
      }
      score := score + 520 + bossLevel * 160 + bonus;
      var kindDraw := Roll();
      var tierDraw := Roll();
      var p := BossReward(dropX, dropY, kindDraw, tierDraw, time);
      RewardCountAppend(powerups, [p]);
      powerups := powerups + [p];
      boss := None;
      nextBossAt := nextBossAt + 18 + bossLevel * 8;
    }

    /** maybeDropPowerup (game.js:215-219): one draw decides, two more make the
        power-up; never a boss reward. */
    method MaybeDrop(x: real, y: real, mult: real)
      requires Valid()
      modifies this`powerups, this`drawn
      ensures Valid()
      ensures rolls(old(drawn)) < DropChance(Snapshot(), mult) ==>
        && drawn == old(drawn) + 3
        && powerups == old(powerups) + [DropPowerup(x, y, rolls(old(drawn) + 1), rolls(old(drawn) + 2), time)]
      ensures rolls(old(drawn)) >= DropChance(Snapshot(), mult) ==>
        drawn == old(drawn) + 1 && powerups == old(powerups)
      ensures Drops(powerups, drawn) == DropRoll(rolls, Drops(old(powerups), old(drawn)), Snapshot(), x, y, mult)
      ensures old(powerups) <= powerups
      ensures RewardCount(powerups) == RewardCount(old(powerups))
    {
      var r := Roll();
      if r < DropChance(Snapshot(), mult) {
        var kindDraw := Roll();
        var tierDraw := Roll();
        var p := DropPowerup(x, y, kindDraw, tierDraw, time);
        RewardCountAppend(powerups, [p]);
        powerups := powerups + [p];
      }
    }

    /** The roll of one kill, made once the kill is counted: maybeDropPowerup at
        (b.x + 7, b.y + dy), with the game as in `before` but for that kill. */
    method KillDrop(b: Box, mult: real, dy: real, ghost before: Stats)
      requires Valid() && Snapshot() == before.(kills := before.kills + 1)
      modifies this`powerups, this`drawn
      ensures Valid()
      ensures Drops(powerups, drawn) == KillDrops(rolls, Drops(old(powerups), old(drawn)), before, [b], mult, dy)
      ensures old(powerups) <= powerups
      ensures RewardCount(powerups) == RewardCount(old(powerups))
    {
      ghost var now := Snapshot();
      MaybeDrop(b.x + 7.0, b.y + dy, mult);
      assert Snapshot() == now;
      KillDropsOneAt(rolls, Drops(old(powerups), old(drawn)), before, b, mult, dy, now, Drops(powerups, drawn));
    }

    /** The reverse loop shared by addExplosion (game.js:388-401) and
        updateBeamDamage (game.js:546-556): every enemy in the zone loses `damage`;
        one brought to 0 or below is removed, counted, scored `points` and may drop a
        power-up at (x + 7, y + dropDy). */
    method Sweep(zone: Zone, damage: real, points: int, dropMult: real, dropDy: real)
      requires Valid()
      modifies this`enemies, this`kills, this`score, this`powerups, this`drawn
      ensures Valid()
      ensures enemies == Harm(old(enemies), zone, damage)
      ensures kills == old(kills) + HarmKills(old(enemies), zone, damage)
      ensures kills - old(kills) == |old(enemies)| - |enemies|
      ensures score == old(score) + points * HarmKills(old(enemies), zone, damage)
      ensures Drops(powerups, drawn)
        == KillDrops(rolls, Drops(old(powerups), old(drawn)), old(Snapshot()), Killed(old(enemies), zone, damage), dropMult, dropDy)
      ensures IdSet(enemies) <= IdSet(old(enemies))
      ensures old(powerups) <= powerups
      ensures RewardCount(powerups) == RewardCount(old(powerups))
    {
      ghost var es := enemies;
      var i := |enemies|;
      assert es[i..] == [];
      while i > 0
        invariant 0 <= i <= |es|
        invariant SweptFrom(es, i, zone, damage, points, enemies, kills - old(kills), score - old(score))
        invariant IdSet(enemies) <= IdSet(es)
        invariant old(powerups) <= powerups && RewardCount(powerups) == RewardCount(old(powerups))
        invariant Drops(powerups, drawn)
          == KillDrops(rolls, Drops(old(powerups), old(drawn)), old(Snapshot()), Killed(es[i..], zone, damage), dropMult, dropDy)
        invariant Valid()
      {
        i := i - 1;
        ghost var before := enemies;
        ghost var k, sc := kills - old(kills), score - old(score);
        ghost var t := Drops(powerups, drawn);
        ghost var mid := old(Snapshot()).(kills := old(Snapshot()).kills + HarmKills(es[i + 1..], zone, damage));
        assert Snapshot() == mid;
        assert (es[..i + 1] + Harm(es[i + 1..], zone, damage))[i] == es[i];
        SweepOne(i, zone, damage, points, dropMult, dropDy);
        SweepStep(es, i, zone, damage, points, before, k, sc, enemies, kills - old(kills), score - old(score));
        SweepDropStep(rolls, Drops(old(powerups), old(drawn)), old(Snapshot()), es, i, zone, damage, dropMult, dropDy,
                      t, mid, Drops(powerups, drawn));
      }
      assert es[0..] == es;
      HarmShrinks(es, zone, damage);
      ScoredIsProduct(points, HarmKills(es, zone, damage));
    }

    /** Enemy k loses `damage`; at 0 or below it is removed, counted, scored `points`
        and may drop a power-up at (x + 7, y + dropDy) with the multiplier dropMult
        (game.js:394-399, 549-555 and 826-835). */
    method Wound(k: nat, damage: real, points: int, dropMult: real, dropDy: real)
      requires Valid() && k < |enemies|
      modifies this`enemies, this`kills, this`score, this`powerups, this`drawn
      ensures Valid()
      ensures var e := old(enemies[k]);
        if e.hp - damage <= 0.0 then
          && enemies == old(enemies[..k] + enemies[k + 1..])
          && kills == old(kills) + 1 && score == old(score) + points
        else
          && enemies == old(enemies[k := e.(hp := e.hp - damage)])
          && kills == old(kills) && score == old(score)
      ensures var e := old(enemies[k]);
        if e.hp - damage <= 0.0 then
          Drops(powerups, drawn)
            == DropRoll(rolls, Drops(old(powerups), old(drawn)), Snapshot(), e.box.x + 7.0, e.box.y + dropDy, dropMult)
        else powerups == old(powerups) && drawn == old(drawn)
      ensures IdSet(enemies) <= IdSet(old(enemies))
      ensures old(powerups) <= powerups && RewardCount(powerups) == RewardCount(old(powerups))
    {
      var hit := enemies[k].(hp := enemies[k].hp - damage);
      if hit.hp <= 0.0 {
        RemoveKeepsIds(enemies, k);
        enemies := enemies[..k] + enemies[k + 1..];
        kills := kills + 1;
        score := score + points;
        MaybeDrop(hit.box.x + 7.0, hit.box.y + dropDy, dropMult);
      } else {
        ReplaceKeepsIds(enemies, k, hit);
        enemies := enemies[k := hit];
      }
    }

    /** One pass of Sweep's loop, at index i. */
    method SweepOne(i: nat, zone: Zone, damage: real, points: int, dropMult: real, dropDy: real)
      requires Valid() && i < |enemies|
      modifies this`enemies, this`kills, this`score, this`powerups, this`drawn
      ensures Valid()
      ensures var e := old(enemies[i]);
        if KilledBy(e, zone, damage) then
          && enemies == old(enemies[..i] + enemies[i + 1..])
          && kills == old(kills) + 1 && score == old(score) + points
        else
          && enemies == old(enemies[i := Harmed(e, zone, damage)])
          && kills == old(kills) && score == old(score)
      ensures var e := old(enemies[i]);
        Drops(powerups, drawn)
          == KillDrops(rolls, Drops(old(powerups), old(drawn)), old(Snapshot()),
                       if KilledBy(e, zone, damage) then [e.box] else [], dropMult, dropDy)
      ensures IdSet(enemies) <= IdSet(old(enemies))
      ensures old(powerups) <= powerups
      ensures RewardCount(powerups) == RewardCount(old(powerups))
    {
      if InZone(zone, enemies[i]) {
        var e := enemies[i];
        Wound(i, damage, points, dropMult, dropDy);
        if KilledBy(e, zone, damage) {
          KillDropsOneAt(rolls, Drops(old(powerups), old(drawn)), old(Snapshot()), e.box, dropMult, dropDy,
                         Snapshot(), Drops(powerups, drawn));
        }
      } else {
        assert enemies[i := Harmed(enemies[i], zone, damage)] == enemies;
      }
    }

    /** The boss's share of an area effect or a chain hop (game.js:403-412, 558-565 and
        816-822): `damage` when `hit`, and defeat at the boss's centre, with `bonus`,
        once its hit points reach 0. */
    method HarmBoss(hit: bool, damage: real, bonus: int)
      requires Valid()
      modifies this`boss, this`score, this`powerups, this`nextBossAt, this`drawn
      ensures Valid()
      ensures boss == BossAfter(old(boss), hit, damage)
      ensures Defeats(old(boss), hit, damage) ==>
        (var b := old(boss).value;
         && score == old(score) + 520 + 160 * bossLevel + bonus
         && nextBossAt == old(nextBossAt) + 18 + 8 * bossLevel
         && powerups == old(powerups)
            + [BossReward(b.box.CenterX(), b.box.CenterY(), rolls(old(drawn)), rolls(old(drawn) + 1), time)]
         && drawn == old(drawn) + 2)
      ensures !Defeats(old(boss), hit, damage) ==>
        (score == old(score) && powerups == old(powerups) && nextBossAt == old(nextBossAt) && drawn == old(drawn))
      ensures Drops(powerups, drawn)
        == if Defeats(old(boss), hit, damage)
           then RewardRoll(rolls, Drops(old(powerups), old(drawn)), old(boss).value.box.CenterX(), old(boss).value.box.CenterY(), time)
           else Drops(old(powerups), old(drawn))
      ensures old(powerups) <= powerups
      ensures RewardCount(powerups) == RewardCount(old(powerups)) + (if Defeats(old(boss), hit, damage) then 1 else 0)
    {
      if boss.Some? && hit {
        var b := boss.value;
        boss := Some(b.(hp := b.hp - damage));
        if b.hp - damage <= 0.0 {
          DefeatBoss(b.box.CenterX(), b.box.CenterY(), bonus);
        }
      }
    }

    /** addExplosion (game.js:385-413): every enemy whose centre is within `radius`
        loses `damage`, those brought to 0 are removed and scored 15; a boss whose
        centre is within radius + 32 loses twice the damage and may be defeated. */
    method AddExplosion(x: real, y: real, radius: real, damage: real)
      requires Valid()
      modifies this`explosions, this`enemies, this`kills, this`score, this`powerups,
               this`drawn, this`boss, this`nextBossAt
      ensures Valid()
      ensures explosions == old(explosions) + [Timed(Explosion(x, y, radius), 0.26)]
      ensures enemies == Harm(old(enemies), Blast(x, y, radius), damage)
      ensures kills == old(kills) + HarmKills(old(enemies), Blast(x, y, radius), damage)
      ensures IdSet(enemies) <= IdSet(old(enemies))
      ensures boss == BossAfter(old(boss), BlastReachesBoss(old(boss), x, y, radius), damage * 2.0)
      ensures var defeated := Defeats(old(boss), BlastReachesBoss(old(boss), x, y, radius), damage * 2.0);
        && score == old(score) + 15 * HarmKills(old(enemies), Blast(x, y, radius), damage)
                    + (if defeated then 520 + 160 * bossLevel else 0)
        && nextBossAt == old(nextBossAt) + (if defeated then 18 + 8 * bossLevel else 0)
        && RewardCount(powerups) == RewardCount(old(powerups)) + (if defeated then 1 else 0)
      ensures var defeated := Defeats(old(boss), BlastReachesBoss(old(boss), x, y, radius), damage * 2.0);
        var u := KillDrops(rolls, Drops(old(powerups), old(drawn)), old(Snapshot()),
                           Killed(old(enemies), Blast(x, y, radius), damage), 0.75, 6.0);
        Drops(powerups, drawn)
          == if defeated then RewardRoll(rolls, u, old(boss).value.box.CenterX(), old(boss).value.box.CenterY(), time) else u
      ensures old(powerups) <= powerups
    {
      explosions := explosions + [Timed(Explosion(x, y, radius), 0.26)];
      Sweep(Blast(x, y, radius), damage, 15, 0.75, 6.0);
      HarmBoss(BlastReachesBoss(boss, x, y, radius), damage * 2.0, 0);
    }

    /** One enemy hop of chainDamage (game.js:809-838): the arc from (sx, sy) to enemy
        k's centre, then 2 damage, and the kill (18 points and a drop chance at 0.72)
        when that brings it to 0. */
    method ChainStrike(k: nat, sx: real, sy: real)
      requires Valid() && k < |enemies|
      modifies this`chainArcs, this`enemies, this`kills, this`score, this`powerups, this`drawn
      ensures Valid()
      ensures var e := old(enemies[k]);
        chainArcs == old(chainArcs) + [Timed(ChainArc(sx, sy, e.box.CenterX(), e.box.CenterY()), 0.12)]
      ensures var e := old(enemies[k]);
        if e.hp - 2.0 <= 0.0 then
          && enemies == old(enemies[..k] + enemies[k + 1..])
          && kills == old(kills) + 1 && score == old(score) + 18
        else
          && enemies == old(enemies[k := e.(hp := e.hp - 2.0)])
          && kills == old(kills) && score == old(score)
      ensures var e := old(enemies[k]);
        Drops(powerups, drawn)
          == KillDrops(rolls, Drops(old(powerups), old(drawn)), old(Snapshot()),
                       if e.hp - 2.0 <= 0.0 then [e.box] else [], 0.72, 7.0)
      ensures IdSet(enemies) <= IdSet(old(enemies))
      ensures old(powerups) <= powerups && RewardCount(powerups) == RewardCount(old(powerups))
    {
      var e := enemies[k];
      chainArcs := chainArcs + [Timed(ChainArc(sx, sy, e.box.CenterX(), e.box.CenterY()), 0.12)];
      Wound(k, 2.0, 18, 0.72, 7.0);
      if e.hp - 2.0 <= 0.0 {
        assert Snapshot() == old(Snapshot()).(kills := old(Snapshot()).kills + 1);
        KillDropsOne(rolls, Drops(old(powerups), old(drawn)), old(Snapshot()), e.box, 0.72, 7.0);
      }
    }

    /** The chain so far: from `start`, at `from`, over the field `es` it began
        with and the boss `b`, it made the hops `hops` with the arcs `made`, each to
        the nearest target and ending at its centre; the enemies hit are exactly
        those marked by identity, each having lost 2 and been removed at 0, and every
        such kill is counted from k0. */
    ghost predicate Chaining(es: seq<Enemy>, k0: int, start: Ident, from: Box, b: Option<Boss>,
                             hops: seq<Ident>, made: seq<Timed<ChainArc>>)
      reads this`enemies, this`kills
    {
      && UniqueIds(es) && start !in hops && Distinct(hops)
      && Chained(made, hops, from.CenterX(), from.CenterY(), es, b)
      && Nearest(made, hops, start, es)
      && enemies == Harm(es, Marked(HopIds(hops)), 2.0)
      && kills == k0 + HarmKills(es, Marked(HopIds(hops)), 2.0)
    }

    /** Chaining, with the arcs `made` appended to `arcs0`, the chain's visited set,
        and its tip (sx, sy), where the last arc ends (or the centre of `from` before
        any hop). */
    ghost predicate ChainAt(es: seq<Enemy>, k0: int, arcs0: seq<Timed<ChainArc>>, start: Ident, from: Box,
                            hops: seq<Ident>, made: seq<Timed<ChainArc>>, visited: set<Ident>, sx: real, sy: real)
      reads this`enemies, this`kills, this`boss, this`chainArcs
    {
      && Chaining(es, k0, start, from, boss, hops, made)
      && chainArcs == arcs0 + made
      && visited == Visited(start, hops)
      && (sx, sy) == Tip(made, from.CenterX(), from.CenterY())
    }

    /** One enemy hop of chainDamage (game.js:786-799 and 809-838) from (sx, sy),
        where the hops so far left the chain: the nearest enemy not in `visited`
        within 120 takes the hop, or, when there is none, nothing changes. The hop's
        target is an enemy of the chain's starting field, and a kill makes its drop
        roll at 0.72. */
    method ChainHop(ghost es: seq<Enemy>, ghost k0: int, ghost arcs0: seq<Timed<ChainArc>>, start: Ident, from: Box,
                    ghost hops: seq<Ident>, ghost made: seq<Timed<ChainArc>>,
                    visited: set<Ident>, sx: real, sy: real)
      returns (target: Option<Enemy>)
      requires Valid() && ChainAt(es, k0, arcs0, start, from, hops, made, visited, sx, sy)
      modifies this`chainArcs, this`enemies, this`kills, this`score, this`powerups, this`drawn
      ensures Valid()
      ensures target.None? ==> NoneHoppable(enemies, visited, sx, sy, 0) && unchanged(this)
      ensures target.Some? ==>
        var e := target.value;
        var h := EnemyRef(e.id);
        var a := Arc(sx, sy, e.box);
        && chainArcs == old(chainArcs) + [a]
        && ChainAt(es, k0, arcs0, start, from, hops + [h], made + [a], visited + {h}, e.box.CenterX(), e.box.CenterY())
        && e in es
        && kills == old(kills) + (if e.hp - 2.0 <= 0.0 then 1 else 0)
        && Drops(powerups, drawn)
             == KillDrops(rolls, Drops(old(powerups), old(drawn)), old(Snapshot()),
                          if e.hp - 2.0 <= 0.0 then [e.box] else [], 0.72, 7.0)
      ensures score == old(score) + 18 * (kills - old(kills))
      ensures old(powerups) <= powerups && RewardCount(powerups) == RewardCount(old(powerups))
    {
      var best := NearestInRange(enemies, visited, sx, sy);
      if best.None? {
        NoneHoppableAll(enemies, visited, sx, sy, 0);
        return None;
      }
      var k := best.value;
      var e := enemies[k];
      EnemyHop(es, start, hops, made, from.CenterX(), from.CenterY(), boss, k);
      ghost var marked := Marked(HopIds(hops + [EnemyRef(e.id)]));
      assert marked == Marked(HopIds(hops) + {e.id});
      ChainStrike(k, sx, sy);
      if e.hp - 2.0 <= 0.0 {
        assert enemies == Harm(es, marked, 2.0) && kills == k0 + HarmKills(es, marked, 2.0);
      } else {
        assert enemies == Harm(es, marked, 2.0) && kills == k0 + HarmKills(es, marked, 2.0);
      }
      return Some(e);
    }

    /** The enemy hops of chainDamage (game.js:786-799 and 809-838): up to three,
        each to the nearest enemy not yet visited within 120 of where the chain
        stands (Chaining). `stopped` says the loop ended because no enemy qualified,
        which leaves the chain at (sx, sy) free to reach for the boss. */
    method ChainEnemies(start: Ident, from: Box)
      returns (hops: seq<Ident>, sx: real, sy: real, stopped: bool, ghost made: seq<Timed<ChainArc>>)
      requires Valid()
      modifies this`chainArcs, this`enemies, this`kills, this`score, this`powerups, this`drawn
      ensures Valid()
      ensures |hops| <= 3 && (stopped <==> |hops| < 3) && BossRef !in hops
      ensures chainArcs == old(chainArcs) + made
      ensures Chaining(old(enemies), old(kills), start, from, boss, hops, made)
      ensures (sx, sy) == Tip(made, from.CenterX(), from.CenterY())
      ensures stopped ==> NoneHoppable(enemies, Visited(start, hops), sx, sy, 0)
      ensures IdSet(enemies) <= IdSet(old(enemies)) && kills - old(kills) == |old(enemies)| - |enemies|
      ensures score == old(score) + 18 * (kills - old(kills))
      ensures Drops(powerups, drawn)
        == KillDrops(rolls, Drops(old(powerups), old(drawn)), old(Snapshot()), ChainKilled(old(enemies), hops), 0.72, 7.0)
      ensures old(powerups) <= powerups && RewardCount(powerups) == RewardCount(old(powerups))
    {
      ghost var es0, k0, s0, t0 := enemies, kills, Snapshot(), Drops(powerups, drawn);
      hops := [];
      var visited := {start};
      sx, sy := from.CenterX(), from.CenterY();
      stopped := false;
      made := [];
      MarkNone(es0, 2.0);
      assert HopIds(hops) == {};
      while |hops| < 3 && !stopped
        invariant |hops| <= 3 && (stopped ==> |hops| < 3) && BossRef !in hops
        invariant Valid()
        invariant ChainAt(es0, k0, old(chainArcs), start, from, hops, made, visited, sx, sy)
        invariant kills == k0 + |ChainKilled(es0, hops)|
        invariant Drops(powerups, drawn) == KillDrops(rolls, t0, s0, ChainKilled(es0, hops), 0.72, 7.0)
        invariant stopped ==> NoneHoppable(enemies, visited, sx, sy, 0)
        invariant score == old(score) + 18 * (kills - old(kills))
        invariant old(powerups) <= powerups && RewardCount(powerups) == RewardCount(old(powerups))
        decreases 3 - |hops|, if stopped then 0 else 1
      {
        ghost var t, mid := Drops(powerups, drawn), s0.(kills := s0.kills + |ChainKilled(es0, hops)|);
        assert Snapshot() == mid;
        var target := ChainHop(es0, k0, old(chainArcs), start, from, hops, made, visited, sx, sy);
        if target.None? {
          stopped := true;
        } else {
          var e := target.value;
          ChainKilledEnemy(es0, hops, e);
          ChainDropStep(rolls, t0, s0, es0, hops, e, t, mid, Drops(powerups, drawn));
          made := made + [Arc(sx, sy, e.box)];
          visited := visited + {EnemyRef(e.id)};
          hops := hops + [EnemyRef(e.id)];
          sx, sy := e.box.CenterX(), e.box.CenterY();
        }
      }
      HarmShrinks(es0, Marked(HopIds(hops)), 2.0);
    }

    /** The boss hop of chainDamage (game.js:801-807 and 809-822): when no enemy is
        in reach of the chain's tip (sx, sy), a boss the chain has not visited within
        140 of it takes the hop, which ends the chain; otherwise nothing changes. */
    method ChainToBoss(ghost es: seq<Enemy>, ghost k0: int, ghost s0: Stats, ghost t0: Drops,
                       start: Ident, from: Box, hops: seq<Ident>,
                       ghost made: seq<Timed<ChainArc>>, sx: real, sy: real)
      returns (hops': seq<Ident>)
      requires Valid() && Chaining(es, k0, start, from, boss, hops, made)
      requires BossRef !in hops
      requires Drops(powerups, drawn) == KillDrops(rolls, t0, s0, ChainKilled(es, hops), 0.72, 7.0)
      requires (sx, sy) == Tip(made, from.CenterX(), from.CenterY())
      requires NoneHoppable(enemies, Visited(start, hops), sx, sy, 0)
      modifies this`chainArcs, this`boss, this`score, this`powerups, this`nextBossAt, this`drawn
      ensures Valid()
      ensures !old(BossInReach(boss, Visited(start, hops), sx, sy)) ==> hops' == hops && unchanged(this)
      ensures old(BossInReach(boss, Visited(start, hops), sx, sy)) ==>
        var a := Arc(sx, sy, old(boss).value.box);
        && hops' == hops + [BossRef]
        && chainArcs == old(chainArcs) + [a]
        && Chaining(es, k0, start, from, old(boss), hops', made + [a])
      ensures boss == BossAfter(old(boss), BossRef in hops' && BossRef !in hops, 5.0)
      ensures var defeated := Defeats(old(boss), BossRef in hops' && BossRef !in hops, 5.0);
        && score == old(score) + (if defeated then 420 + 160 * bossLevel else 0)
        && nextBossAt == old(nextBossAt) + (if defeated then 18 + 8 * bossLevel else 0)
        && RewardCount(powerups) == RewardCount(old(powerups)) + (if defeated then 1 else 0)
      ensures var defeated := Defeats(old(boss), BossRef in hops', 5.0);
        var u := KillDrops(rolls, t0, s0, ChainKilled(es, hops'), 0.72, 7.0);
        Drops(powerups, drawn)
          == if defeated then RewardRoll(rolls, u, old(boss).value.box.CenterX(), old(boss).value.box.CenterY(), time) else u
      ensures old(powerups) <= powerups
    {
      hops' := hops;
      if BossInReach(boss, Visited(start, hops), sx, sy) {
        ghost var a := Arc(sx, sy, boss.value.box);
        BossHop(es, start, hops, made, from.CenterX(), from.CenterY(), boss.value);
        hops' := hops + [BossRef];
        assert Chaining(es, k0, start, from, boss, hops', made + [a]);
        ChainBoss(sx, sy);
      }
      ChainBossDrops(rolls, t0, s0, es, hops, hops', old(Drops(powerups, drawn)), old(boss), time, Drops(powerups, drawn));
    }

    /** The jump loop of chainDamage (game.js:786-838): up to three hops, each from
        the previous target's centre (the first from `from`, the box of `start`) to
        the centre of the nearest enemy not yet visited within 120, or, when there is
        none, to the boss within 140, which ends the chain (Chaining). Each enemy hit
        loses 2 and is removed, counted and scored 18 at 0; no other enemy changes. A
        chain that stops short of three hops without reaching the boss found no enemy
        in reach and no boss it could reach. Returns the targets hit, in order, and
        the arcs drawn. */
    method ChainJumps(start: Ident, from: Box) returns (hops: seq<Ident>, ghost made: seq<Timed<ChainArc>>)
      requires Valid()
      modifies this`chainArcs, this`enemies, this`kills, this`score, this`powerups,
               this`drawn, this`boss, this`nextBossAt
      ensures Valid()
      ensures |hops| <= 3 && start !in hops && forall k :: 0 <= k < |hops| - 1 ==> hops[k].EnemyRef?
      ensures chainArcs == old(chainArcs) + made
      ensures Chaining(old(enemies), old(kills), start, from, old(boss), hops, made)
      ensures |hops| < 3 && BossRef !in hops ==>
        var tip := Tip(made, from.CenterX(), from.CenterY());
        && NoneHoppable(enemies, Visited(start, hops), tip.0, tip.1, 0)
        && !BossInReach(old(boss), Visited(start, hops), tip.0, tip.1)
      ensures IdSet(enemies) <= IdSet(old(enemies))
      ensures kills - old(kills) == |old(enemies)| - |enemies|
      ensures boss == BossAfter(old(boss), BossRef in hops, 5.0)
      ensures var defeated := Defeats(old(boss), BossRef in hops, 5.0);
        && score == old(score) + 18 * (kills - old(kills)) + (if defeated then 420 + 160 * bossLevel else 0)
        && nextBossAt == old(nextBossAt) + (if defeated then 18 + 8 * bossLevel else 0)
        && RewardCount(powerups) == RewardCount(old(powerups)) + (if defeated then 1 else 0)
      ensures var defeated := Defeats(old(boss), BossRef in hops, 5.0);
        var u := KillDrops(rolls, Drops(old(powerups), old(drawn)), old(Snapshot()), ChainKilled(old(enemies), hops), 0.72, 7.0);
        Drops(powerups, drawn)
          == if defeated then RewardRoll(rolls, u, old(boss).value.box.CenterX(), old(boss).value.box.CenterY(), time) else u
      ensures old(powerups) <= powerups
    {
      var sx, sy, stopped;
      hops, sx, sy, stopped, made := ChainEnemies(start, from);
      if stopped {
        hops := ChainToBoss(old(enemies), old(kills), old(Snapshot()), Drops(old(powerups), old(drawn)),
                            start, from, hops, made, sx, sy);
        if BossRef in hops {
          made := made + [Arc(sx, sy, old(boss).value.box)];
        }
      }
    }

    /** chainDamage (game.js:781-840): without chain gear nothing happens; with it,
        the jump loop runs (ChainJumps). */
    method ChainDamage(start: Ident, from: Box) returns (hops: seq<Ident>, ghost made: seq<Timed<ChainArc>>)
      requires Valid()
      modifies this`chainArcs, this`enemies, this`kills, this`score, this`powerups,
               this`drawn, this`boss, this`nextBossAt
      ensures Valid()
      ensures Tier(effects, Chain) <= 0 ==> hops == [] && unchanged(this)
      ensures |hops| <= 3 && start !in hops && forall k :: 0 <= k < |hops| - 1 ==> hops[k].EnemyRef?
      ensures chainArcs == old(chainArcs) + made
      ensures Chaining(old(enemies), old(kills), start, from, old(boss), hops, made)
      ensures Tier(effects, Chain) > 0 && |hops| < 3 && BossRef !in hops ==>
        (var tip := Tip(made, from.CenterX(), from.CenterY());
         && NoneHoppable(enemies, Visited(start, hops), tip.0, tip.1, 0)
         && !BossInReach(old(boss), Visited(start, hops), tip.0, tip.1))
      ensures IdSet(enemies) <= IdSet(old(enemies))
      ensures kills - old(kills) == |old(enemies)| - |enemies|
      ensures boss == BossAfter(old(boss), BossRef in hops, 5.0)
      ensures var defeated := Defeats(old(boss), BossRef in hops, 5.0);
        && score == old(score) + 18 * (kills - old(kills)) + (if defeated then 420 + 160 * bossLevel else 0)
        && nextBossAt == old(nextBossAt) + (if defeated then 18 + 8 * bossLevel else 0)
        && RewardCount(powerups) == RewardCount(old(powerups)) + (if defeated then 1 else 0)
      ensures var defeated := Defeats(old(boss), BossRef in hops, 5.0);
        var u := KillDrops(rolls, Drops(old(powerups), old(drawn)), old(Snapshot()), ChainKilled(old(enemies), hops), 0.72, 7.0);
        Drops(powerups, drawn)
          == if defeated then RewardRoll(rolls, u, old(boss).value.box.CenterX(), old(boss).value.box.CenterY(), time) else u
      ensures old(powerups) <= powerups
    {
      if Tier(effects, Chain) <= 0 {
        hops, made := [], [];
        MarkNone(enemies, 2.0);
        assert HopIds(hops) == {};
        return;
      }
      hops, made := ChainJumps(start, from);
    }

    /** chainDamage as the hit loops use it (game.js:864 and 894): enemies only leave
        the field, each one counted, and a chain from the boss leaves the boss as it
        was, since a chain never comes back to its start. */
    method ChainFrom(start: Ident, from: Box, ghost n: nat)
      requires Valid()
      modifies this`chainArcs, this`enemies, this`kills, this`score, this`powerups,
               this`drawn, this`boss, this`nextBossAt
      ensures Valid()
      ensures IdSet(enemies) <= IdSet(old(enemies)) && kills - old(kills) == |old(enemies)| - |enemies|
      ensures old(powerups) <= powerups
      ensures start == BossRef ==>
        && boss == old(boss) && nextBossAt == old(nextBossAt)
        && RewardCount(powerups) == RewardCount(old(powerups))
      ensures Boxes(enemies) <= Boxes(old(enemies))
      ensures ClearFrom(old(enemies), player, n) ==> ClearFrom(enemies, player, n)
    {
      var hops, made := ChainDamage(start, from);
      HarmBoxes(old(enemies), Marked(HopIds(hops)), 2.0);
      HarmClear(old(enemies), Marked(HopIds(hops)), 2.0, player, n);
    }

    /** The boss hop of chainDamage (game.js:801-822): the arc from (sx, sy) to the
        boss's centre, 5 damage, and the defeat, with a bonus of -100, once that brings
        it to 0. */
    method ChainBoss(sx: real, sy: real)
      requires Valid() && boss.Some?
      modifies this`chainArcs, this`boss, this`score, this`powerups, this`nextBossAt, this`drawn
      ensures Valid()
      ensures var b := old(boss).value;
        chainArcs == old(chainArcs) + [Timed(ChainArc(sx, sy, b.box.CenterX(), b.box.CenterY()), 0.12)]
      ensures boss == BossAfter(old(boss), true, 5.0)
      ensures var defeated := Defeats(old(boss), true, 5.0);
        && score == old(score) + (if defeated then 420 + 160 * bossLevel else 0)
        && nextBossAt == old(nextBossAt) + (if defeated then 18 + 8 * bossLevel else 0)
        && RewardCount(powerups) == RewardCount(old(powerups)) + (if defeated then 1 else 0)
        && Drops(powerups, drawn)
           == if defeated
              then RewardRoll(rolls, Drops(old(powerups), old(drawn)), old(boss).value.box.CenterX(), old(boss).value.box.CenterY(), time)
              else Drops(old(powerups), old(drawn))
      ensures old(powerups) <= powerups
    {
      var b := boss.value;
      chainArcs := chainArcs + [Timed(ChainArc(sx, sy, b.box.CenterX(), b.box.CenterY()), 0.12)];
      HarmBoss(true, 5.0, -100);
    }

    /** A bullet's hit on enemy i (game.js:855-862): the bullet's damage, then the
        bullet loses a pierce or is used up, setting off an explosion of radius 58 and
        damage 3 when explosive. Returns the struck enemy's hit points as the object
        the loop holds sees them. */
    method Impact(i: nat, j: nat) returns (hp: real)
      requires Valid() && i < |enemies| && j < |playerBullets|
      modifies this`enemies, this`playerBullets, this`explosions, this`kills, this`score,
               this`powerups, this`drawn, this`boss, this`nextBossAt
      ensures Valid()
      ensures playerBullets == Spend(old(playerBullets), j)
      ensures hp == StruckHp(old(enemies[i]), old(playerBullets[j]))
      ensures var e, b := old(enemies[i]), old(playerBullets[j]);
        var wounded := old(enemies)[i := e.(hp := e.hp - b.damage)];
        var defeated := Defeats(old(boss), BlastReachesBoss(old(boss), b.box.CenterX(), b.box.CenterY(), 58.0), 6.0);
        var u := KillDrops(rolls, Drops(old(powerups), old(drawn)), old(Snapshot()),
                           Killed(wounded, BurstZone(b, 58.0), 3.0), 0.75, 6.0);
        if Bursts(b) then
          && enemies == Harm(wounded, BurstZone(b, 58.0), 3.0)
          && kills == old(kills) + HarmKills(wounded, BurstZone(b, 58.0), 3.0)
          && explosions == old(explosions) + [Timed(Explosion(b.box.CenterX(), b.box.CenterY(), 58.0), 0.26)]
          && boss == BossAfter(old(boss), BlastReachesBoss(old(boss), b.box.CenterX(), b.box.CenterY(), 58.0), 6.0)
          && score == old(score) + 15 * HarmKills(wounded, BurstZone(b, 58.0), 3.0)
                      + (if defeated then 520 + 160 * bossLevel else 0)
          && nextBossAt == old(nextBossAt) + (if defeated then 18 + 8 * bossLevel else 0)
          && Drops(powerups, drawn)
             == if defeated then RewardRoll(rolls, u, old(boss).value.box.CenterX(), old(boss).value.box.CenterY(), time) else u
        else
          && enemies == wounded && kills == old(kills) && score == old(score)
          && explosions == old(explosions) && boss == old(boss)
          && powerups == old(powerups) && drawn == old(drawn) && nextBossAt == old(nextBossAt)
      ensures IdSet(enemies) <= IdSet(old(enemies))
      ensures kills - old(kills) == |old(enemies)| - |enemies|
      ensures old(powerups) <= powerups
    {
      var e, b := enemies[i], playerBullets[j];
      var wounded := e.(hp := e.hp - b.damage);
      ReplaceKeepsIds(enemies, i, wounded);
      enemies := enemies[i := wounded];
      hp := wounded.hp;
      if b.pierce > 0 {
        playerBullets := playerBullets[j := b.(pierce := b.pierce - 1)];
      } else {
        if b.explosive {
          HarmShrinks(enemies, BurstZone(b, 58.0), 3.0);
          AddExplosion(b.box.CenterX(), b.box.CenterY(), 58.0, 3.0);
          if InZone(BurstZone(b, 58.0), e) {
            hp := hp - 3.0;
          }
        }
        playerBullets := playerBullets[..j] + playerBullets[j + 1..];
      }
    }

    /** The part of one turn of handleHits' enemy loop (game.js:843-862) before the
        chain: the player rams enemy i, which is removed and costs one life; or no
        bullet touches it; or the last bullet touching it strikes it. */
    method BulletStrike(i: nat) returns (r: Strike)
      requires Valid() && i < |enemies|
      modifies this`enemies, this`lives, this`running, this`hitCooldown, this`shieldBlockCooldown,
               this`playerBullets, this`explosions, this`kills, this`score, this`powerups,
               this`drawn, this`boss, this`nextBossAt
      ensures Valid()
      ensures var e := old(enemies[i]);
        && (r.Contact? <==> RectHit(player, e.box))
        && (r.Missed? <==> !RectHit(player, e.box) && LastHit(old(playerBullets), e.box).None?)
      ensures r.Contact? ==>
        && enemies == old(enemies[..i] + enemies[i + 1..])
        && Health() == Damage(old(Health()), Tier(effects, Shield), 1)
        && kills == old(kills) && playerBullets == old(playerBullets)
      ensures r.Missed? ==> unchanged(this)
      ensures r.Struck? ==>
        var e := old(enemies[i]);
        var j := LastHit(old(playerBullets), e.box).value;
        && r == Struck(e.id, e.box, StruckHp(e, old(playerBullets[j])))
        && playerBullets == Spend(old(playerBullets), j)
        && Health() == old(Health())
      ensures r.Struck? && !Bursts(old(playerBullets[LastHit(playerBullets, enemies[i].box).value])) ==>
        var e := old(enemies[i]);
        var b := old(playerBullets[LastHit(playerBullets, enemies[i].box).value]);
        enemies == old(enemies[i := e.(hp := e.hp - b.damage)]) && kills == old(kills)
      ensures r.Struck? && Bursts(old(playerBullets[LastHit(playerBullets, enemies[i].box).value])) ==>
        var e := old(enemies[i]);
        var b := old(playerBullets[LastHit(playerBullets, enemies[i].box).value]);
        var wounded := old(enemies)[i := e.(hp := e.hp - b.damage)];
        && enemies == Harm(wounded, BurstZone(b, 58.0), 3.0)
        && kills == old(kills) + HarmKills(wounded, BurstZone(b, 58.0), 3.0)
      ensures IdSet(enemies) <= IdSet(old(enemies))
      ensures r.Contact? ==> kills - old(kills) + 1 == |old(enemies)| - |enemies|
      ensures !r.Contact? ==> kills - old(kills) == |old(enemies)| - |enemies|
      ensures ClearFrom(old(enemies), player, i + 1) ==> ClearFrom(enemies, player, i)
      ensures old(powerups) <= powerups
    {
      var e := enemies[i];
      if RectHit(player, e.box) {
        RemoveKeepsIds(enemies, i);
        SpliceClear(enemies, i, player, i);
        enemies := enemies[..i] + enemies[i + 1..];
        DamagePlayer(1);
        return Contact;
      }
      var j := FindHit(playerBullets, e.box);
      if j.None? {
        return Missed;
      }
      ghost var b := playerBullets[j.value];
      assert b == old(playerBullets[LastHit(playerBullets, enemies[i].box).value]);
      ghost var wounded := enemies[i := e.(hp := e.hp - b.damage)];
      ReplaceClear(enemies, i, e.(hp := e.hp - b.damage), player, i);
      HarmClear(wounded, BurstZone(b, 58.0), 3.0, player, i);
      var hp := Impact(i, j.value);
      return Struck(e.id, e.box, hp);
    }

    /** game.js:866-872 as written: a struck enemy at or below 0 is spliced out at the
        loop's index i, whichever enemy that now is (nothing when i is past the end),
        and counted again even when the explosion already removed and counted it. */
    method CountStruckAsWritten(i: nat, box: Box, hp: real)
      requires Valid()
      modifies this`enemies, this`kills, this`score, this`powerups, this`drawn, this`level
      ensures Valid()
      ensures hp <= 0.0 ==>
        && enemies == (if i < |old(enemies)| then old(enemies[..i] + enemies[i + 1..]) else old(enemies))
        && kills == old(kills) + 1 && score == old(score) + 15
        && level == (if kills % KillStep == 0 then IMin(4, old(level) + 1) else old(level))
        && Drops(powerups, drawn) == KillDrops(rolls, Drops(old(powerups), old(drawn)), old(Snapshot()), [box], 1.0, 6.0)
      ensures hp > 0.0 ==> unchanged(this)
      ensures IdSet(enemies) <= IdSet(old(enemies))
      ensures ClearFrom(old(enemies), player, i) ==> ClearFrom(enemies, player, i)
      ensures old(powerups) <= powerups
    {
      if hp <= 0.0 {
        if i < |enemies| {
          RemoveKeepsIds(enemies, i);
          SpliceClear(enemies, i, player, i);
          enemies := enemies[..i] + enemies[i + 1..];
        }
        kills := kills + 1;
        score := score + 15;
        KillDrop(box, 1.0, 6.0, old(Snapshot()));
        if kills % KillStep == 0 {
          level := IMin(4, level + 1);
        }
      }
    }

    /** game.js:866-872 as intended: the struck enemy, found by identity as
        chainDamage finds its targets (game.js:828-830), is removed and counted once
        its hit points are at or below 0, unless something already removed it. */
    method CountStruck(id: nat, box: Box, hp: real, ghost n: nat)
      requires Valid()
      modifies this`enemies, this`kills, this`score, this`powerups, this`drawn, this`level
      ensures Valid()
      ensures var k := IndexOfId(old(enemies), id);
        if hp <= 0.0 && k.Some? then
          && enemies == old(enemies[..k.value] + enemies[k.value + 1..])
          && kills == old(kills) + 1 && score == old(score) + 15
          && level == (if kills % KillStep == 0 then IMin(4, old(level) + 1) else old(level))
          && Drops(powerups, drawn) == KillDrops(rolls, Drops(old(powerups), old(drawn)), old(Snapshot()), [box], 1.0, 6.0)
        else unchanged(this)
      ensures hp <= 0.0 ==> id !in IdSet(enemies)
      ensures IdSet(enemies) <= IdSet(old(enemies))
      ensures kills - old(kills) == |old(enemies)| - |enemies|
      ensures ClearFrom(old(enemies), player, n) ==> ClearFrom(enemies, player, n)
      ensures old(powerups) <= powerups
    {
      var k := IndexOfId(enemies, id);
      if hp <= 0.0 && k.Some? {
        RemoveKeepsIds(enemies, k.value);
        SpliceClear(enemies, k.value, player, n);
        enemies := enemies[..k.value] + enemies[k.value + 1..];
        kills := kills + 1;
        score := score + 15;
        KillDrop(box, 1.0, 6.0, old(Snapshot()));
        if kills % KillStep == 0 {
          level := IMin(4, level + 1);
        }
      }
    }

    /** One turn of handleHits' enemy loop at index i as written (game.js:844-874):
        the ram or the strike, the chain from the struck enemy, then the count. */
    method EnemyTurnAsWritten(i: nat) returns (r: Strike)
      requires Valid() && i < |enemies|
      modifies this`enemies, this`lives, this`running, this`hitCooldown, this`shieldBlockCooldown,
               this`playerBullets, this`explosions, this`chainArcs, this`kills, this`score,
               this`level, this`powerups, this`drawn, this`boss, this`nextBossAt
      ensures Valid()
      ensures r.Contact? <==> RectHit(player, old(enemies[i]).box)
      ensures r.Contact? ==> Health() == Damage(old(Health()), Tier(effects, Shield), 1)
      ensures !r.Contact? ==> Health() == old(Health())
      ensures r.Missed? ==> unchanged(this)
      ensures r.Struck? ==> r.id == old(enemies[i]).id
      ensures IdSet(enemies) <= IdSet(old(enemies))
      ensures kills - old(kills) + (if r.Contact? then 1 else 0) >= |old(enemies)| - |enemies|
      ensures old(powerups) <= powerups
      ensures ClearFrom(old(enemies), player, i + 1) ==> ClearFrom(enemies, player, i)
    {
      r := BulletStrike(i);
      if r.Struck? {
        ChainFrom(EnemyRef(r.id), r.box, i);
        CountStruckAsWritten(i, r.box, r.hp);
      }
    }

    /** One turn of handleHits' enemy loop at index i as intended: as
        EnemyTurnAsWritten, but the count finds the struck enemy by identity, so
        every enemy that leaves the field is counted exactly once and a struck
        enemy at or below 0 hit points is gone afterwards. */
    method EnemyTurn(i: nat) returns (r: Strike)
      requires Valid() && i < |enemies|
      modifies this`enemies, this`lives, this`running, this`hitCooldown, this`shieldBlockCooldown,
               this`playerBullets, this`explosions, this`chainArcs, this`kills, this`score,
               this`level, this`powerups, this`drawn, this`boss, this`nextBossAt
      ensures Valid()
      ensures r.Contact? <==> RectHit(player, old(enemies[i]).box)
      ensures r.Contact? ==> Health() == Damage(old(Health()), Tier(effects, Shield), 1)
      ensures !r.Contact? ==> Health() == old(Health())
      ensures r.Missed? ==> unchanged(this)
      ensures r.Struck? ==> r.id == old(enemies[i]).id
      ensures r.Struck? && r.hp <= 0.0 ==> r.id !in IdSet(enemies)
      ensures IdSet(enemies) <= IdSet(old(enemies))
      ensures kills - old(kills) + (if r.Contact? then 1 else 0) == |old(enemies)| - |enemies|
      ensures old(powerups) <= powerups
      ensures ClearFrom(old(enemies), player, i + 1) ==> ClearFrom(enemies, player, i)
    {
      ghost var clear := ClearFrom(enemies, player, i + 1);
      r := BulletStrike(i);
      if r.Struck? {
        ghost var (struck, dead) := (enemies, kills);
        ChainFrom(EnemyRef(r.id), r.box, i);
        ghost var (chained, chainDead) := (enemies, kills);
        CountStruck(r.id, r.box, r.hp, i);
        assert kills - old(kills) == (kills - chainDead) + (chainDead - dead) + (dead - old(kills));
        assert clear ==> ClearFrom(struck, player, i) ==> ClearFrom(chained, player, i);
      }
    }

    /** handleHits' enemy loop as written (game.js:843-875): from the last index down,
        re-reading enemies[i] at each turn. Once the turns before have removed enough
        enemies that i is past the end, enemies[i] is undefined and rectHit throws:
        `crashed` reports that, and the rest of the frame does not run. */
    method HitEnemiesAsWritten() returns (rams: nat, crashed: bool)
      requires Valid()
      modifies this`enemies, this`lives, this`running, this`hitCooldown, this`shieldBlockCooldown,
               this`playerBullets, this`explosions, this`chainArcs, this`kills, this`score,
               this`level, this`powerups, this`drawn, this`boss, this`nextBossAt
      ensures Valid()
      ensures IdSet(enemies) <= IdSet(old(enemies))
      ensures kills - old(kills) + rams >= |old(enemies)| - |enemies|
      ensures crashed ==> |enemies| < |old(enemies)|
      ensures !crashed ==> forall e :: e in enemies ==> !RectHit(player, e.box)
      ensures old(powerups) <= powerups
    {
      rams, crashed := 0, false;
      var i: nat := |enemies|;
      while 0 < i
        invariant Valid() && i <= |old(enemies)|
        invariant ClearFrom(enemies, player, i)
        invariant IdSet(enemies) <= IdSet(old(enemies))
        invariant kills - old(kills) + rams >= |old(enemies)| - |enemies|
        invariant old(powerups) <= powerups
        decreases i
      {
        i := i - 1;
        if i >= |enemies| {
          crashed := true;
          return;
        }
        var r := EnemyTurnAsWritten(i);
        if r.Contact? {
          rams := rams + 1;
        }
      }
      ClearFromAll(enemies, player, 0);
    }

    /** handleHits' enemy loop as intended: the index never passes the end of the
        list, no turn can crash, and every enemy that leaves the field is either a
        ram or a counted kill, once. */
    method HitEnemies() returns (rams: nat)
      requires Valid()
      modifies this`enemies, this`lives, this`running, this`hitCooldown, this`shieldBlockCooldown,
               this`playerBullets, this`explosions, this`chainArcs, this`kills, this`score,
               this`level, this`powerups, this`drawn, this`boss, this`nextBossAt
      ensures Valid()
      ensures IdSet(enemies) <= IdSet(old(enemies))
      ensures kills - old(kills) + rams == |old(enemies)| - |enemies|
      ensures rams == 0 ==> Health() == old(Health())
      ensures forall e :: e in enemies ==> !RectHit(player, e.box)
      ensures old(powerups) <= powerups
    {
      rams := 0;
      var i: nat := |enemies|;
      while 0 < i
        invariant Valid() && i <= |enemies|
        invariant ClearFrom(enemies, player, i)
        invariant IdSet(enemies) <= IdSet(old(enemies))
        invariant kills - old(kills) + rams == |old(enemies)| - |enemies|
        invariant rams == 0 ==> Health() == old(Health())
        invariant old(powerups) <= powerups
        decreases i
      {
        i := i - 1;
        var r := EnemyTurn(i);
        if r.Contact? {
          rams := rams + 1;
        }
        i := IMin(i, |enemies|);
      }
      ClearFromAll(enemies, player, 0);
    }

    /** A bullet's hit on the boss (game.js:885-892): the bullet's damage, then the
        bullet loses a pierce or is used up, setting off an explosion of radius 64 and
        damage 3 when explosive. */
    method BossHit(i: nat)
      requires Valid() && boss.Some? && i < |playerBullets|
      modifies this`boss, this`playerBullets, this`explosions, this`enemies, this`kills,
               this`score, this`powerups, this`drawn, this`nextBossAt
      ensures Valid()
      ensures playerBullets == Spend(old(playerBullets), i)
      ensures var s, b := old(playerBullets[i]), old(boss).value;
        var hit := Some(b.(hp := b.hp - s.damage));
        var defeated := Defeats(hit, BlastReachesBoss(hit, s.box.CenterX(), s.box.CenterY(), 64.0), 6.0);
        var u := KillDrops(rolls, Drops(old(powerups), old(drawn)), old(Snapshot()),
                           Killed(old(enemies), BurstZone(s, 64.0), 3.0), 0.75, 6.0);
        if Bursts(s) then
          && enemies == Harm(old(enemies), BurstZone(s, 64.0), 3.0)
          && kills == old(kills) + HarmKills(old(enemies), BurstZone(s, 64.0), 3.0)
          && explosions == old(explosions) + [Timed(Explosion(s.box.CenterX(), s.box.CenterY(), 64.0), 0.26)]
          && boss == BossAfter(hit, BlastReachesBoss(hit, s.box.CenterX(), s.box.CenterY(), 64.0), 6.0)
          && score == old(score) + 15 * HarmKills(old(enemies), BurstZone(s, 64.0), 3.0)
                      + (if defeated then 520 + 160 * bossLevel else 0)
          && nextBossAt == old(nextBossAt) + (if defeated then 18 + 8 * bossLevel else 0)
          && Drops(powerups, drawn)
             == if defeated then RewardRoll(rolls, u, b.box.CenterX(), b.box.CenterY(), time) else u
        else
          && boss == hit && enemies == old(enemies) && kills == old(kills)
          && explosions == old(explosions) && powerups == old(powerups)
          && score == old(score) && drawn == old(drawn) && nextBossAt == old(nextBossAt)
      ensures RewardCount(powerups) == RewardCount(old(powerups)) + (if boss.None? then 1 else 0)
      ensures IdSet(enemies) <= IdSet(old(enemies))
      ensures kills - old(kills) == |old(enemies)| - |enemies|
      ensures Boxes(enemies) <= Boxes(old(enemies))
      ensures old(powerups) <= powerups
    {
      var s, b := playerBullets[i], boss.value;
      boss := Some(b.(hp := b.hp - s.damage));
      if s.pierce > 0 {
        playerBullets := playerBullets[i := s.(pierce := s.pierce - 1)];
      } else {
        if s.explosive {
          BossAfterDefeats(boss, BlastReachesBoss(boss, s.box.CenterX(), s.box.CenterY(), 64.0), 6.0);
          HarmShrinks(enemies, BurstZone(s, 64.0), 3.0);
          HarmBoxes(enemies, Blast(s.box.CenterX(), s.box.CenterY(), 64.0), 3.0);
          AddExplosion(s.box.CenterX(), s.box.CenterY(), 64.0, 3.0);
        }
        playerBullets := playerBullets[..i] + playerBullets[i + 1..];
      }
    }

    /** One hit of the boss's bullet loop (game.js:885-899): the hit, the chain from the
        boss, then the defeat at the boss's centre once its hit points are at or below
        0 (which does nothing when the explosion has already defeated it). */
    method BossImpact(i: nat) returns (defeated: bool)
      requires Valid() && boss.Some? && i < |playerBullets|
      modifies this`boss, this`playerBullets, this`explosions, this`chainArcs, this`enemies,
               this`kills, this`score, this`powerups, this`drawn, this`nextBossAt
      ensures Valid()
      ensures playerBullets == Spend(old(playerBullets), i)
      ensures var hp := BossStruckHp(old(boss).value, old(playerBullets[i]));
        && (defeated <==> hp <= 0.0)
        && (defeated ==> boss.None?)
        && (!defeated ==> boss == Some(old(boss).value.(hp := hp)))
      ensures RewardCount(powerups) == RewardCount(old(powerups)) + (if defeated then 1 else 0)
      ensures IdSet(enemies) <= IdSet(old(enemies))
      ensures kills - old(kills) == |old(enemies)| - |enemies|
      ensures old(powerups) <= powerups
      ensures Boxes(enemies) <= Boxes(old(enemies))
    {
      var box := boss.value.box;
      BossHit(i);
      ghost var (hit, dead) := (enemies, kills);
      ChainFrom(BossRef, box, 0);
      assert kills - old(kills) == (kills - dead) + (dead - old(kills));
      assert Boxes(enemies) <= Boxes(hit) <= Boxes(old(enemies));
      defeated := boss.None? || boss.value.hp <= 0.0;
      if defeated {
        DefeatBoss(box.CenterX(), box.CenterY(), 0);
      }
    }

    /** The bullet loop against the boss (game.js:881-901), from the last bullet to the
        first: every bullet touching the boss hits it, until one brings it to 0. The
        boss is defeated at most once, and a boss still up afterwards has hit points
        left unless no bullet touched it. */
    method BossVolley()
      requires Valid() && boss.Some?
      modifies this`boss, this`playerBullets, this`explosions, this`chainArcs, this`enemies,
               this`kills, this`score, this`powerups, this`drawn, this`nextBossAt
      ensures Valid()
      ensures boss.Some? ==> boss.value == old(boss).value.(hp := boss.value.hp)
      ensures boss.Some? ==> boss.value.hp > 0.0 || boss == old(boss)
      ensures RewardCount(powerups) == RewardCount(old(powerups)) + (if boss.None? then 1 else 0)
      ensures |playerBullets| <= |old(playerBullets)|
      ensures IdSet(enemies) <= IdSet(old(enemies))
      ensures kills - old(kills) == |old(enemies)| - |enemies|
      ensures Boxes(enemies) <= Boxes(old(enemies))
      ensures old(powerups) <= powerups
    {
      var i := |playerBullets|;
      while 0 < i
        invariant Valid() && i <= |playerBullets| && boss.Some?
        invariant Boxes(enemies) <= Boxes(old(enemies))
        invariant boss.value == old(boss).value.(hp := boss.value.hp)
        invariant boss.value.hp > 0.0 || boss == old(boss)
        invariant RewardCount(powerups) == RewardCount(old(powerups))
        invariant |playerBullets| <= |old(playerBullets)|
        invariant IdSet(enemies) <= IdSet(old(enemies))
        invariant kills - old(kills) == |old(enemies)| - |enemies|
        invariant old(powerups) <= powerups
        decreases i
      {
        i := i - 1;
        if RectHit(playerBullets[i].box, boss.value.box) {
          var defeated := BossImpact(i);
          if defeated {
            break;
          }
        }
      }
    }

    /** The boss part of handleHits (game.js:877-902): touching the boss costs 2, then
        the bullet loop. */
    method HitBoss()
      requires Valid()
      modifies this`lives, this`running, this`hitCooldown, this`shieldBlockCooldown,
               this`boss, this`playerBullets, this`explosions, this`chainArcs, this`enemies,
               this`kills, this`score, this`powerups, this`drawn, this`nextBossAt
      ensures Valid()
      ensures old(boss).None? ==> unchanged(this)
      ensures Health() == (if old(boss).Some? && RectHit(player, old(boss).value.box)
                           then Damage(old(Health()), Tier(effects, Shield), 2) else old(Health()))
      ensures boss.Some? ==> old(boss).Some? && boss.value == old(boss).value.(hp := boss.value.hp)
      ensures boss.Some? ==> boss.value.hp > 0.0 || boss == old(boss)
      ensures RewardCount(powerups) == RewardCount(old(powerups)) + (if old(boss).Some? && boss.None? then 1 else 0)
      ensures IdSet(enemies) <= IdSet(old(enemies))
      ensures kills - old(kills) == |old(enemies)| - |enemies|
      ensures Boxes(enemies) <= Boxes(old(enemies))
      ensures old(powerups) <= powerups
    {
      if boss.None? {
        return;
      }
      if RectHit(player, boss.value.box) {
        DamagePlayer(2);
      }
      BossVolley();
    }

    /** One enemy bullet touching the player (game.js:906-927): with reflect gear and
        the reflect cooldown elapsed it comes back as a player bullet (one draw) and
        the cooldown restarts; otherwise it damages the player. */
    method FendOff(b: EnemyBullet)
      requires Valid() && b.damage >= 1
      modifies this`playerBullets, this`reflectCooldown, this`drawn,
               this`lives, this`running, this`hitCooldown, this`shieldBlockCooldown
      ensures Valid()
      ensures Guard(Health(), reflectCooldown, playerBullets, drawn)
        == Fend(Guard(old(Health()), old(reflectCooldown), old(playerBullets), old(drawn)), b, player,
                Tier(effects, Shield), Tier(effects, Reflect), Tier(effects, Ricochet), rolls)
    {
      if !RectHit(player, b.box) {
        return;
      }
      var reflect := Tier(effects, Reflect);
      if reflect > 0 && reflectCooldown <= 0.0 {
        var r := Roll();
        playerBullets := playerBullets + [Deflect(b, r, Tier(effects, Ricochet))];
        reflectCooldown := ReflectCooldown(reflect);
      } else {
        DamagePlayer(HitAmount(b));
      }
    }

    /** The enemy-bullet loop of handleHits (game.js:904-929), proved against the
        Incoming and Unhit functions, which take the list in the same order: reflected
        bullets are appended to the player's bullets. */
    method HitEnemyBullets()
      requires Valid()
      modifies this`enemyBullets, this`playerBullets, this`reflectCooldown, this`drawn,
               this`lives, this`running, this`hitCooldown, this`shieldBlockCooldown
      ensures Valid()
      ensures enemyBullets == Unhit(old(enemyBullets), player)
      ensures Guard(Health(), reflectCooldown, playerBullets, drawn)
        == Incoming(Guard(old(Health()), old(reflectCooldown), old(playerBullets), old(drawn)),
                    old(enemyBullets), player, Tier(effects, Shield), Tier(effects, Reflect),
                    Tier(effects, Ricochet), rolls)
    {
      ghost var bs := enemyBullets;
      ghost var g0 := Guard(Health(), reflectCooldown, playerBullets, drawn);
      var i := |enemyBullets|;
      assert bs[i..] == [];
      while 0 < i
        invariant 0 <= i <= |bs| && Valid()
        invariant enemyBullets == bs[..i] + Unhit(bs[i..], player)
        invariant Guard(Health(), reflectCooldown, playerBullets, drawn)
          == Incoming(g0, bs[i..], player, Tier(effects, Shield), Tier(effects, Reflect),
                      Tier(effects, Ricochet), rolls)
        decreases i
      {
        i := i - 1;
        assert bs[i..][1..] == bs[i + 1..];
        SpliceStep(bs, Unhit(bs[i + 1..], player), i, bs[i]);
        var b := enemyBullets[i];
        assert b in bs;
        FendOff(b);
        if RectHit(player, b.box) {
          enemyBullets := enemyBullets[..i] + enemyBullets[i + 1..];
        }
      }
      assert bs[0..] == bs;
    }

    /** The pickup loop of handleHits (game.js:931-941): proved against the Collect and
        Untouched functions, which run over the list in the same order. */
    method CollectPowerups()
      requires Valid()
      modifies this`powerups, this`effects, this`score, this`lives
      ensures Valid()
      ensures powerups == Untouched(old(powerups), player)
      ensures Equipment() == Collect(old(Equipment()), old(powerups), player, MaxLives)
    {
      ghost var ps := powerups;
      ghost var l0 := Equipment();
      var i := |powerups|;
      assert ps[i..] == [];
      while 0 < i
        invariant 0 <= i <= |ps| && Valid()
        invariant powerups == ps[..i] + Untouched(ps[i..], player)
        invariant Equipment() == Collect(l0, ps[i..], player, MaxLives)
        decreases i
      {
        i := i - 1;
        assert ps[i..][1..] == ps[i + 1..];
        SpliceStep(ps, Untouched(ps[i + 1..], player), i, ps[i]);
        var p := powerups[i];
        if RectHit(player, p.box) {
          if p.kind in {Shield, Missile, Laser, Wingman} {
            EquipGear(p.kind, if p.tier == 0 then 1 else p.tier);
            lives := IMin(MaxLives, lives + (if p.bossReward then 1 else 0));
          }
          powerups := powerups[..i] + powerups[i + 1..];
        }
      }
      assert ps[0..] == ps;
    }

    /** handleHits (game.js:842-942) with the enemy loop as intended: every enemy that
        leaves the field is a ram or a kill counted once, and afterwards no enemy
        bullet and no power-up touches the player. */
    method HandleHits() returns (rams: nat)
      requires Valid()
      modifies this`enemies, this`lives, this`running, this`hitCooldown, this`shieldBlockCooldown,
               this`playerBullets, this`explosions, this`chainArcs, this`kills, this`score,
               this`level, this`powerups, this`drawn, this`boss, this`nextBossAt,
               this`enemyBullets, this`reflectCooldown, this`effects
      ensures Valid()
      ensures IdSet(enemies) <= IdSet(old(enemies))
      ensures kills - old(kills) + rams == |old(enemies)| - |enemies|
      ensures enemyBullets == Unhit(old(enemyBullets), player)
      ensures forall b :: b in enemyBullets ==> !RectHit(player, b.box)
      ensures forall p :: p in powerups ==> !RectHit(player, p.box)
      ensures forall e :: e in enemies ==> !RectHit(player, e.box)
    {
      rams := HitEnemies();
      ClearFromAll(enemies, player, 0);
      ghost var cleared := enemies;
      HitBoss();
      BoxesClear(cleared, enemies, player);
      HitEnemyBullets();
      UnhitMisses(old(enemyBullets), player);
      ghost var ps := powerups;
      CollectPowerups();
      UntouchedMisses(ps, player);
      ClearFromAll(enemies, player, 0);
    }

    /** fireBoss (game.js:505-529): a live boss adds one volley to the enemy bullets. */
    method FireBoss(left: (real, real), right: (real, real))
      requires Valid()
      modifies this`enemyBullets
      ensures Valid()
      ensures enemyBullets == old(enemyBullets) + (if boss.Some? then Volley(boss.value, bossLevel, left, right) else [])
    {
      if boss.None? {
        return;
      }
      var b := boss.value;
      var cx := b.box.CenterX();
      var y := b.box.y + b.box.h - 8.0;
      var spread := 4 + IMin(3, bossLevel);
      for k := 0 to spread
        invariant enemyBullets == old(enemyBullets) + Fan(cx, y, spread)[..k]
        invariant ShotsValid()
      {
        assert Fan(cx, y, spread)[..k + 1] == Fan(cx, y, spread)[..k] + [FanShot(cx, y, k, spread)];
        enemyBullets := enemyBullets + [FanShot(cx, y, k, spread)];
      }
      enemyBullets := enemyBullets + ModeShots(b.modes[b.modeIndex], cx, y, left, right);
    }

    /** updateBoss (game.js:624-662). `sway` is the sine of the boss's hover phase,
        which the model takes as an input; `left` and `right` aim the homing shots of
        a volley. A boss still entering only descends; a settled one takes a
        BossStep, drawing once when its dash countdown runs out, and fires a volley
        (after its mode switch) when its shot countdown runs out. */
    method UpdateBoss(dt: real, sway: real, left: (real, real), right: (real, real))
      requires Valid()
      modifies this`boss, this`drawn, this`enemyBullets
      ensures Valid()
      ensures old(boss).None? ==> boss == old(boss) && drawn == old(drawn) && enemyBullets == old(enemyBullets)
      ensures old(boss).Some? && old(boss).value.box.y < 36.0 ==>
        var b := old(boss).value;
        && boss == Some(b.(age := b.age + dt, box := b.box.(y := b.box.y + 65.0 * dt)))
        && drawn == old(drawn) && enemyBullets == old(enemyBullets)
      ensures old(boss).Some? && old(boss).value.box.y >= 36.0 ==>
        var b := old(boss).value;
        && boss == Some(BossStep(b, dt, sway, player.CenterX(), width, bossLevel, rolls(old(drawn))))
        && drawn == old(drawn) + (if b.dashCooldown - dt <= 0.0 then 1 else 0)
        && enemyBullets == old(enemyBullets) + (if b.shootCooldown - dt <= 0.0 then Volley(boss.value, bossLevel, left, right) else [])
    {
      if boss.None? {
        return;
      }
      var b := boss.value;
      if b.box.y < 36.0 {
        boss := Some(b.(age := b.age + dt, box := b.box.(y := b.box.y + 65.0 * dt)));
        return;
      }
      var fire := b.shootCooldown - dt <= 0.0;
      b := SteerBoss(b, dt, sway);
      boss := Some(b);
      if fire {
        FireBoss(left, right);
      }
    }

    /** The settled boss's movement and countdowns (game.js:633-661) on the record
        `b`, drawing the target jitter from the random stream when the dash
        countdown runs out. The shot countdown is reset here; the volley it
        triggers depends only on the boss's position and mode. */
    method SteerBoss(b: Boss, dt: real, sway: real) returns (c: Boss)
      requires b.modeIndex < |b.modes|
      modifies this`drawn
      ensures c == BossStep(b, dt, sway, player.CenterX(), width, bossLevel, rolls(old(drawn)))
      ensures drawn == old(drawn) + (if b.dashCooldown - dt <= 0.0 then 1 else 0)
    {
      c := b.(age := b.age + dt);
      c := c.(box := c.box.(x := c.box.x + sway * 24.0 * dt), dashCooldown := c.dashCooldown - dt);
      if c.dashCooldown <= 0.0 {
        var px := player.CenterX() - c.box.w / 2.0;
        var r := Roll();
        var jitter := (r as real - 0.5) * 70.0;
        c := c.(targetX := Clamp(px + jitter, 8.0, width - c.box.w - 8.0), dashCooldown := BossDashCooldown(bossLevel));
      }
      var maxStep := (110.0 + bossLevel as real * 18.0) * dt;
      c := c.(box := c.box.(x := c.box.x + Clamp(c.targetX - c.box.x, -maxStep, maxStep)));
      c := c.(box := c.box.(x := Clamp(c.box.x, 8.0, width - c.box.w - 8.0)));
      c := c.(modeTimer := c.modeTimer - dt);
      if c.modeTimer <= 0.0 {
        c := c.(modeIndex := NextMode(c.modeIndex, |c.modes|), modeTimer := 4.5);
      }
      c := c.(shootCooldown := c.shootCooldown - dt);
      if c.shootCooldown <= 0.0 {
        c := c.(shootCooldown := BossShootCooldown(bossLevel));
      }
    }

    /** `n` draws of the random stream from position `from`. */
    function Draws(from: nat, n: nat): (d: seq<real>)
      ensures |d| == n && forall k :: 0 <= k < n ==> d[k] == rolls(from + k) && 0.0 <= d[k] < 1.0
    {
      seq(n, k requires 0 <= k < n => rolls(from + k) as real)
    }

    /** The nine draws spawnEnemy makes (game.js:283-307), in order. */
    method RollEnemy() returns (d: seq<real>)
      modifies this`drawn
      ensures d == Draws(old(drawn), 9) && drawn == old(drawn) + 9
    {
      var d0 := Roll();
      var d1 := Roll();
      var d2 := Roll();
      var d3 := Roll();
      var d4 := Roll();
      var d5 := Roll();
      var d6 := Roll();
      var d7 := Roll();
      var d8 := Roll();
      d := [d0, d1, d2, d3, d4, d5, d6, d7, d8];
    }

    /** spawnEnemy (game.js:282-310): nine draws shape a new enemy, which takes the
        next identity, so identities stay unique. */
    method SpawnEnemy()
      requires Valid()
      modifies this`enemies, this`nextId, this`drawn
      ensures Valid()
      ensures enemies == old(enemies) + [NewEnemy(Snapshot(), width, old(nextId), Draws(old(drawn), 9))]
      ensures nextId == old(nextId) + 1 && drawn == old(drawn) + 9
      ensures IdSet(enemies) == IdSet(old(enemies)) + {old(nextId)}
    {
      var d := RollEnemy();
      var e := NewEnemy(Snapshot(), width, nextId, d);
      AppendKeepsIds(enemies, e, nextId);
      enemies := enemies + [e];
      nextId := nextId + 1;
    }

    /** The beam's rectangle (game.js:542-543): `w` wide, centred on the player, from
        the top of the field down to the player. */
    function BeamRect(w: real): (r: Box)
      reads this`player
      ensures r.CenterX() == player.CenterX() && r.y == 0.0 && r.y + r.h == player.y
    {
      Box(player.CenterX() - w / 2.0, 0.0, w, player.y)
    }

    /** updateBeamDamage (game.js:531-566). `shooting` is whether the fire key is held,
        `wave` the sine of the beam's pulse after it advances. With laser gear and the
        key held, the beam is on and sweeps its rectangle: enemies lose the tick's
        damage and score 14 when destroyed, the boss loses 90% of it. */
    method BeamTick(dt: real, shooting: bool, wave: real)
      requires Valid()
      modifies this`beamActive, this`beamPulse, this`beamWidth, this`enemies, this`kills, this`score,
               this`powerups, this`drawn, this`boss, this`nextBossAt
      ensures Valid()
      ensures beamActive <==> Tier(effects, Laser) > 0 && shooting
      ensures !beamActive ==>
        && enemies == old(enemies) && kills == old(kills) && score == old(score) && boss == old(boss)
        && powerups == old(powerups) && drawn == old(drawn) && nextBossAt == old(nextBossAt)
        && beamPulse == old(beamPulse) && beamWidth == old(beamWidth)
      ensures beamActive ==>
        && beamPulse == old(beamPulse) + dt * 16.0
        && beamWidth == BeamWidth(Tier(effects, Laser), wave)
        && Burned(old(enemies), old(boss), old(score), Drops(old(powerups), old(drawn)), old(Snapshot()),
                 BeamRect(beamWidth), BeamDamage(Tier(effects, Laser), dt))
      ensures kills - old(kills) == |old(enemies)| - |enemies|
      ensures IdSet(enemies) <= IdSet(old(enemies))
      ensures old(powerups) <= powerups
    {
      beamActive := false;
      var beamLevel := Tier(effects, Laser);
      if beamLevel <= 0 {
        return;
      }
      if !shooting {
        return;
      }
      beamActive := true;
      beamPulse := beamPulse + dt * 16.0;
      beamWidth := BeamWidth(beamLevel, wave);
      Burn(BeamRect(beamWidth), BeamDamage(beamLevel, dt));
    }

    /** What one tick of the beam over `rect` does to a field that had the enemies
        `es`, the boss `b` and the score `sc`: enemies inside lose `damage` and are
        scored 14 when destroyed; the boss, when inside, loses 90% of it and is
        scored as a defeat when that finishes it. */
    ghost predicate Burned(es: seq<Enemy>, b: Option<Boss>, sc: int, t: Drops, s: Stats, rect: Box, damage: real)
      reads this`enemies, this`boss, this`score, this`bossLevel, this`powerups, this`drawn, this`time
    {
      var hit := b.Some? && RectHit(rect, b.value.box);
      var u := KillDrops(rolls, t, s, Killed(es, Zone.Beam(rect), damage), 0.7, 7.0);
      && enemies == Harm(es, Zone.Beam(rect), damage)
      && boss == BossAfter(b, hit, damage * 0.9)
      && score == sc + 14 * HarmKills(es, Zone.Beam(rect), damage)
                  + (if Defeats(b, hit, damage * 0.9) then 520 + 160 * bossLevel else 0)
      && Drops(powerups, drawn)
         == if Defeats(b, hit, damage * 0.9) then RewardRoll(rolls, u, b.value.box.CenterX(), b.value.box.CenterY(), time) else u
    }

    /** The damage pass of updateBeamDamage (game.js:546-565). */
    method Burn(rect: Box, damage: real)
      requires Valid()
      modifies this`enemies, this`kills, this`score, this`powerups, this`drawn, this`boss, this`nextBossAt
      ensures Valid()
      ensures Burned(old(enemies), old(boss), old(score), Drops(old(powerups), old(drawn)), old(Snapshot()), rect, damage)
      ensures kills - old(kills) == |old(enemies)| - |enemies|
      ensures IdSet(enemies) <= IdSet(old(enemies))
      ensures old(powerups) <= powerups
    {
      Sweep(Zone.Beam(rect), damage, 14, 0.7, 7.0);
      HarmBoss(boss.Some? && RectHit(rect, boss.value.box), damage * 0.9, 0);
    }

    /** updatePowerups (game.js:944-959): power-ups fall and those more than 30 px
        below the field are dropped; chain arcs and explosions age and expire. */
    method UpdatePowerups(dt: real)
      modifies this`powerups, this`chainArcs, this`explosions
      ensures powerups == OnField(AllFallen(old(powerups), dt), height + 30.0)
      ensures chainArcs == Expire(old(chainArcs), dt) && explosions == Expire(old(explosions), dt)
    {
      powerups := SettlePowerups(powerups, dt, height + 30.0);
      chainArcs := AgeTimed(chainArcs, dt);
      explosions := AgeTimed(explosions, dt);
    }

    /** update (game.js:969-994): a game that is over does not change; a running
        one advances by one Tick. */
    method Update(dt: real, sway: real, left: (real, real), right: (real, real), shooting: bool, wave: real)
      returns (rams: nat)
      requires Valid() && 0.0 <= dt
      modifies this
      ensures Valid()
      ensures !old(running) ==> unchanged(this) && rams == 0
      ensures old(running) ==> time == old(time) + dt
      ensures nextId <= old(nextId) + 1
      ensures old(boss).Some? ==> nextId == old(nextId)
      ensures old(running) ==> forall b :: b in enemyBullets ==> !RectHit(player, b.box)
      ensures old(running) ==> forall p :: p in powerups ==> !RectHit(player, p.box)
      ensures old(running) ==> forall e :: e in enemies ==> !RectHit(player, e.box)
      ensures old(running) ==>
        (nextId == old(nextId) + 1 <==>
          && old(boss).None? && old(kills) < old(nextBossAt) && old(spawnTimer) - dt <= 0.0
          && |old(enemies)| < EnemyCap(old(time) + dt))
    {
      rams := 0;
      if !running {
        return;
      }
      rams := Tick(dt, sway, left, right, shooting, wave);
    }

    /** The body of update for a running game, with the steps this model covers in
        the source's order: the countdowns, the spawns, the boss, the beam, the
        falling power-ups and fading effects, and the hits. The player's and the
        enemies' movement and the bullets' flight are not part of this model. At
        most one enemy spawns per tick, none while a boss is up, and afterwards
        nothing the enemies fired and no power-up touches the player. */
    method Tick(dt: real, sway: real, left: (real, real), right: (real, real), shooting: bool, wave: real)
      returns (rams: nat)
      requires Valid() && 0.0 <= dt
      modifies this
      ensures Valid()
      ensures time == old(time) + dt
      ensures nextId <= old(nextId) + 1
      ensures old(boss).Some? ==> nextId == old(nextId)
      ensures forall b :: b in enemyBullets ==> !RectHit(player, b.box)
      ensures forall p :: p in powerups ==> !RectHit(player, p.box)
      ensures forall e :: e in enemies ==> !RectHit(player, e.box)
      ensures nextId == old(nextId) + 1 <==>
        && old(boss).None? && old(kills) < old(nextBossAt) && old(spawnTimer) - dt <= 0.0
        && |old(enemies)| < EnemyCap(old(time) + dt)
    {
      AdvanceTimers(dt);
      SpawnStep();
      Advance(dt, sway, left, right, shooting, wave);
      rams := HandleHits();
    }

    /** The moving parts of update this model covers (game.js:988, 991-992): the
        boss, the beam, the falling power-ups and the fading effects. */
    method Advance(dt: real, sway: real, left: (real, real), right: (real, real), shooting: bool, wave: real)
      requires Valid()
      modifies this`boss, this`drawn, this`enemyBullets, this`beamActive, this`beamPulse, this`beamWidth,
               this`enemies, this`kills, this`score, this`powerups, this`nextBossAt,
               this`chainArcs, this`explosions
      ensures Valid()
      ensures IdSet(enemies) <= IdSet(old(enemies))
      ensures kills - old(kills) == |old(enemies)| - |enemies|
      ensures beamActive <==> Tier(effects, Laser) > 0 && shooting
      ensures !beamActive ==>
        && enemies == old(enemies) && kills == old(kills) && score == old(score)
        && nextBossAt == old(nextBossAt)
        && powerups == OnField(AllFallen(old(powerups), dt), height + 30.0)
      ensures old(boss).None? ==> enemyBullets == old(enemyBullets)
      ensures old(boss).None? && !beamActive ==> boss.None? && drawn == old(drawn)
      ensures chainArcs == Expire(old(chainArcs), dt) && explosions == Expire(old(explosions), dt)
    {
      UpdateBoss(dt, sway, left, right);
      BeamTick(dt, shooting, wave);
      UpdatePowerups(dt);
    }

    /** The spawning part of update (game.js:981-985): the boss arrives once enough
        enemies were destroyed; otherwise, with no boss up, an enemy spawns when the
        spawn countdown has run out and the field holds fewer enemies than the cap,
        and the countdown restarts. */
    method SpawnStep()
      requires Valid()
      modifies this`enemies, this`bossLevel, this`boss, this`drawn, this`nextId, this`spawnTimer
      ensures Valid()
      ensures nextId <= old(nextId) + 1
      ensures old(boss).Some? ==>
        nextId == old(nextId) && enemies == old(enemies) && boss == old(boss) && spawnTimer == old(spawnTimer)
      ensures nextId == old(nextId) + 1 <==>
        old(boss).None? && kills < nextBossAt && old(spawnTimer) <= 0.0 && |old(enemies)| < EnemyCap(time)
      ensures nextId == old(nextId) + 1 ==>
        |enemies| == |old(enemies)| + 1 <= EnemyCap(time) && spawnTimer == SpawnInterval(Snapshot())
    {
      MaybeSpawnBoss();
      if boss.None? && spawnTimer <= 0.0 && |enemies| < EnemyCap(time) {
        SpawnEnemy();
        spawnTimer := SpawnInterval(Snapshot());
      }
    }
  }
}
