/** Two small fields on which handleHits' enemy loop, as written, miscounts and
    crashes, next to the same turns with the intended count. */
module Findings {
  import opened Numeric
  import opened Entities
  import opened Rules
  import Game

  /** A random stream that always gives 0.5: no power-up drops on these fields. */
  function Half(n: nat): Draw
  {
    0.5
  }

  /** An enemy with `hp` hit points in a 30 by 27 box at (x, 10), near the top of the
      field and far from the player. */
  function Target(id: nat, x: real, hp: real): (e: Enemy)
    ensures e.id == id && e.hp == hp && e.box.CenterX() == x + 15.0
  {
    Enemy(id, Box(x, 10.0, 30.0, 27.0), hp, 1, 80.0, 1.0, 0.0, Sine, 95.0, 0)
  }

  /** An explosive missile doing 2 damage, with no pierce left, lying on `target`. */
  function Grenade(target: Box): (b: PlayerBullet)
    ensures Bursts(b) && b.damage == 2.0 && b.box == target
  {
    PlayerBullet(target, 0.0, -400.0, 2.0, MissileShot, 0, 0, true, 1.0)
  }

  /** A new 400 by 600 game whose field holds the enemies `es` and the bullets `bs`. */
  method Field(es: seq<Enemy>, bs: seq<PlayerBullet>) returns (g: Game.Game)
    requires UniqueIds(es) && IdsBelow(es, |es|)
    ensures fresh(g) && g.Valid()
    ensures g.enemies == es && g.playerBullets == bs && g.kills == 0 && g.effects == NoEffects
    ensures g.player == Box(178.0, 536.0, 44.0, 44.0)
  {
    g := new Game.Game(400.0, 600.0, Half);
    g.enemies := es;
    g.nextId := |es|;
    g.playerBullets := bs;
  }

  /** game.js:855-872 as written, one enemy with 1 hit point and an explosive bullet
      on it: the explosion finishes it, removes it and counts it, and the loop then
      counts it a second time. One enemy left the field; two kills are scored. */
  method DoubleCountAsWritten() returns (g: Game.Game)
    ensures g.enemies == [] && g.kills == 2
  {
    var e := Target(0, 10.0, 1.0);
    g := Field([e], [Grenade(e.box)]);
    var r := StrikeAlone(g, e);
    var hops, made := g.ChainDamage(EnemyRef(r.id), r.box);
    g.CountStruckAsWritten(0, r.box, r.hp);
  }

  /** The same turn with the count as intended: the enemy is counted once. */
  method DoubleCountCorrected() returns (g: Game.Game)
    ensures g.enemies == [] && g.kills == 1
  {
    var e := Target(0, 10.0, 1.0);
    g := Field([e], [Grenade(e.box)]);
    var r := StrikeAlone(g, e);
    var hops, made := g.ChainDamage(EnemyRef(r.id), r.box);
    g.CountStruck(r.id, r.box, r.hp, 0);
  }

  /** The bullet strike of the turn on a field holding only `e`, with a grenade on it. */
  method StrikeAlone(g: Game.Game, e: Enemy) returns (r: Game.Strike)
    requires g.Valid() && g.enemies == [e] && g.playerBullets == [Grenade(e.box)] && g.kills == 0
    requires g.effects == NoEffects && g.player == Box(178.0, 536.0, 44.0, 44.0)
    requires e == Target(0, 10.0, 1.0)
    modifies g
    ensures g.Valid() && g.effects == NoEffects
    ensures r.Struck? && r.id == 0 && r.hp <= 0.0 && g.enemies == [] && g.kills == 1
  {
    var shot := Grenade(e.box);
    assert !RectHit(g.player, e.box);
    assert Game.LastHit([shot], e.box) == Some(0);
    var wounded := [e.(hp := -1.0)];
    assert [e][0 := e.(hp := e.hp - shot.damage)] == wounded;
    assert KilledBy(wounded[0], BurstZone(shot, 58.0), 3.0);
    AllKilled(wounded, BurstZone(shot, 58.0), 3.0);
    r := g.BulletStrike(0);
  }

  /** game.js:843-875 as written, two neighbouring enemies with 1 hit point and an
      explosive bullet on the second: the turn at index 1 leaves no enemy on the
      field (three kills scored for two enemies), so the turn at index 0 reads past
      the end of the list, where rectHit throws. */
  method CrashAsWritten() returns (g: Game.Game)
    ensures g.enemies == [] && g.kills == 3
  {
    var a, b := Target(0, 10.0, 1.0), Target(1, 40.0, 1.0);
    g := Field([a, b], [Grenade(b.box)]);
    var r := StrikePair(g, a, b);
    var hops, made := g.ChainDamage(EnemyRef(r.id), r.box);
    g.CountStruckAsWritten(1, r.box, r.hp);
  }

  /** The same turn with the count as intended: two enemies, two kills. */
  method CrashCorrected() returns (g: Game.Game)
    ensures g.enemies == [] && g.kills == 2
  {
    var a, b := Target(0, 10.0, 1.0), Target(1, 40.0, 1.0);
    g := Field([a, b], [Grenade(b.box)]);
    var r := StrikePair(g, a, b);
    var hops, made := g.ChainDamage(EnemyRef(r.id), r.box);
    g.CountStruck(r.id, r.box, r.hp, 0);
  }

  /** The bullet strike of the turn at index 1 on a field holding `a` and `b`, with a
      grenade on `b` whose blast reaches `a`. */
  method StrikePair(g: Game.Game, a: Enemy, b: Enemy) returns (r: Game.Strike)
    requires g.Valid() && g.enemies == [a, b] && g.playerBullets == [Grenade(b.box)] && g.kills == 0
    requires g.effects == NoEffects && g.player == Box(178.0, 536.0, 44.0, 44.0)
    requires a == Target(0, 10.0, 1.0) && b == Target(1, 40.0, 1.0)
    modifies g
    ensures g.Valid() && g.effects == NoEffects
    ensures r.Struck? && r.id == 1 && r.hp <= 0.0 && g.enemies == [] && g.kills == 2
  {
    var shot := Grenade(b.box);
    assert !RectHit(g.player, b.box);
    assert Game.LastHit([shot], b.box) == Some(0);
    var wounded := [a, b.(hp := -1.0)];
    assert [a, b][1 := b.(hp := b.hp - shot.damage)] == wounded;
    assert KilledBy(wounded[0], BurstZone(shot, 58.0), 3.0);
    assert KilledBy(wounded[1], BurstZone(shot, 58.0), 3.0);
    AllKilled(wounded, BurstZone(shot, 58.0), 3.0);
    r := g.BulletStrike(1);
  }
}
