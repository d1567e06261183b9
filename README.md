# Combat simulation core of the arcade shooter, modelled in Dafny

`game.js` runs a vertically scrolling shooter. Each frame it calls `update(dt)`.
That call advances one mutable `state` record, the player's box and six entity
lists: enemies, player bullets, enemy bullets, power-ups, chain arcs and
explosions. This project models the per-tick rules of that simulation:

- the dynamic-difficulty curves;
- gear, upgrades and power-ups;
- player damage with shield and invulnerability windows;
- the boss's life cycle, movement and volleys;
- explosions, the laser beam and the chain lightning;
- the collision pass `handleHits`;
- ageing of the short-lived lists, and `reset`.

The model has six modules. The first five are proved on their own terms:

- `Numeric` (numeric.dfy) holds `clamp`, `Math.round`, min/max and the type of a
  `Math.random()` draw.
- `Entities` (entities.dfy) holds the records (boxes, enemies, the boss, both
  kinds of bullet, power-ups, arcs, explosions), the gear kinds, the power-up pools
  and `rectHit`.
- `Balance` (balance.dfy) holds the difficulty curves as pure functions of the
  state's level, time, kills, boss tier and gear.
- `Rules` (rules.dfy) gives each state transition as a pure function, with the
  lemmas about it:
  - player damage, equipping, upgrade rolls and power-up creation;
  - boss creation, mode cycling, movement and volleys;
  - area damage, the chain's target search and ageing;
  - the pickup and enemy-bullet loops.
- `Game` (game.dfy) is the class `Game`. It has one field per `state` entry and one
  `seq` per entity list. Its methods update them in place, as the source does:
  - reverse-index loops that splice;
  - counters and cooldowns;
  - the boss record.

  The `ensures` of each single step ties its new state to the `Rules` functions.
  The composite steps (`HitEnemies`, `HandleHits`, `Advance`, `Tick`, `Update` and
  the boss loop) state only part of their new state; "## Left out" names, for each,
  what its contract leaves open and which member states it. The class
  invariant `Valid()` holds these facts:
  - lives are in 0..8, and a game with no lives is not running;
  - the weapon level is in 1..4;
  - the hit, shield-block and reflect cooldowns are never negative;
  - enemy identities are unique;
  - enemy bullets do damage;
  - the boss's mode index lies inside its mode list.

  Every method keeps `Valid()`.

The sixth module, `Findings` (findings.dfy), builds two small concrete fields. On
them, the enemy loop of `handleHits` miscounts kills and reads past the end of the
list (see "## Findings").

Modelling conventions:

- JavaScript numbers are mathematical reals. Counters (score, lives, kills, levels,
  tiers) are integers, because every value the source assigns them is integral.
- `Math.random()` is a stream `rolls: nat -> Draw` fixed when a game is created,
  plus a cursor `drawn`. Each call in the source takes the next value, in source
  order. Pure functions take their draws as parameters.
- `Math.hypot(dx, dy) < k` is compared as `dx*dx + dy*dy < k*k`.
- `Math.round(x)` is `Floor(x + 0.5)`.
- JavaScript object identity matters in three places: the chain's `visited` set,
  `enemies.indexOf` and the enemy `e` that `handleHits` holds. It is modelled by a
  unique `id` on each enemy, handed out by a counter `nextId`.
- Three inputs come in as parameters:
  - the canvas size, to the constructor;
  - whether the fire key is held, to `Update`;
  - the sines of the boss's hover and of the beam's pulse, to `Update`.

Where the code and its written description disagree, the model follows the code:

- `equipGear` overwrites the tier, so a lower-tier pickup lowers the held tier
  (`Rules.EquipCanLowerTier`).
- The drop-chance floor of 0.045 is applied before the multiplier. An explosion kill
  rolls with the multiplier 0.75, a beam kill with 0.7 and a chain kill with 0.72
  (`Rules.KillDrops` in the contracts of `Game.Game.AddExplosion`, `Game.Game.Burn`
  and `Game.Game.ChainDamage`). So these kills can have a chance below 0.045
  (`Balance.DropChanceBelowFloor`).
- The enemy loop of `handleHits` can count one kill twice and can throw (see
  "## Findings"). The description promises neither double counting nor exceptions.
- A boss reward picked up in the same pass as the fatal hit gives a life back while
  the game stays over. The model keeps this: `Valid()` requires only that a game with
  no lives is not running.
- Bullets fired with kind `"homing"` carry no `homing` strength, so they do not
  steer. The model gives them strength 0.

## Model

| member | source | states |
|---|---|---|
| Numeric.Clamp | game.js:172-174 | the result lies in [lo, hi] when lo <= hi; it is v inside the bounds, lo at or below lo, and hi at or above hi |
| Numeric.Round | game.js:203 | Math.round's result n satisfies n - 0.5 <= x < n + 0.5 |
| Entities.RectHitIsIntervalOverlap | game.js:168-170 | for boxes of positive size, rectHit is non-empty overlap of both the x- and y-intervals, and it is symmetric |
| Entities.Pick | game.js:342 | pool[floor(r * length)] for a draw r in [0, 1) is always an element of the pool |
| Balance.GapFactor | game.js:186-190 | the power gap factor lies in [-0.8, 0.9], whatever the power levels |
| Balance.GapFactorSign | game.js:186-190 | the factor is positive exactly when player power exceeds target power, and negative exactly when it is below |
| Balance.GapFactorFallsWithTime | game.js:181-190 | with everything else fixed, the factor never rises as time passes |
| Balance.EnemyHp | game.js:192-204 | enemy hit points are at least 1 |
| Balance.EnemyHpMonotone | game.js:192-204 | a larger or darker enemy never has fewer hit points |
| Balance.DropChance | game.js:206-213 | the drop chance never exceeds 0.14; it is non-negative for a non-negative multiplier, and at least 0.045 for a multiplier of 1 or more |
| Balance.DropChanceBelowFloor | game.js:212 | a strong player's splash kill (multiplier 0.75) at time 0 has a drop chance below 0.045 |
| Balance.DropChanceMonotoneInMult | game.js:212 | a smaller multiplier never gives a larger chance |
| Balance.RollTier | game.js:221-229 | the rolled tier lies between minTier and max(minTier, 4) |
| Balance.RollTierMonotoneInDraw | game.js:224-227 | a smaller draw never yields a lower tier |
| Balance.RollTierMonotoneInTime | game.js:222-227 | the same draw later in the game never yields a lower tier |
| Balance.RollTierHighDrawKeepsMinimum | game.js:225-227 | a draw of 0.22 or more always yields minTier |
| Balance.UpgradeChance | game.js:243-244 | the upgrade success chance lies in [0.38, 0.95] |
| Balance.UpgradeChanceMonotone | game.js:243-244 | a higher current tier, or a larger gap factor, never gives a larger chance |
| Balance.EnemySpeedScale | game.js:252-259 | the enemy speed scale is at least 0.464 from time 0 on |
| Balance.SpawnInterval | game.js:261-271 | the spawn interval lies in [0.24, 1.0] seconds |
| Balance.EnemyCap | game.js:273-280 | the enemy cap lies between 2 and 6 |
| Balance.EnemyCapMonotone | game.js:273-280 | the cap never shrinks as time passes |
| Balance.PlayerShotCooldown | game.js:585-587 | the player's shot cooldown lies in [0.06, 0.25] |
| Balance.BossMaxHp | game.js:316-318 | a boss met at weapon level 1 or more, boss tier 1 or more and time 0 or more has at least 316 hit points |
| Balance.BossModes | game.js:319-321 | the mode list is shield, laser, then missile exactly from tier 2 and homing exactly from tier 3; its length is 2 + [tier >= 2] + [tier >= 3] |
| Balance.BossDashCooldown | game.js:641 | the dash cooldown is at least 1.2 |
| Balance.BossShootCooldown | game.js:660 | the boss's shot cooldown is at least 0.45 |
| Balance.BeamWidth | game.js:540 | for a sine in [-1, 1] and a laser tier of 0 or more, the beam is 6 to 20 px wide |
| Balance.BeamDamage | game.js:544 | the beam does at least 8 damage per second |
| Balance.ShieldBlockCooldown | game.js:766 | the shield block cooldown lies in [0.18, 0.7] for a non-negative shield tier |
| Balance.ReflectCooldown | game.js:922 | the reflect cooldown is at least 0.1 |
| Rules.Reduced | game.js:770 | with a shield, the amount is reduced but stays at least 1 and at most max(1, amount); without one it is unchanged |
| Rules.Damage | game.js:762-779 | a hit during invulnerability changes nothing; any other hit starts invulnerability; lives stay non-negative and never rise; when lives change, running becomes false exactly when none are left |
| Rules.DamageShieldBlocks | game.js:764-768 | with shield gear and the block ready, no life is lost, the block cooldown becomes max(0.18, 0.7 - 0.06 * tier) and invulnerability lasts 0.16 |
| Rules.DamageTakesLives | game.js:770-778 | otherwise lives become max(0, lives - reduced amount), running becomes false exactly when they reach 0, and invulnerability lasts 0.5 |
| Rules.DamageOncePerWindow | game.js:763 | a second hit right after a first one has no effect |
| Rules.ShieldTierTwoBlocks | game.js:764-768 | shield tier 2 with the block ready: the block cooldown becomes 0.58, invulnerability lasts 0.16, and no life is lost |
| Rules.Equip | game.js:231-235 | the gear's tier becomes exactly `tier`; other gear is untouched; the score rises by 16 when the tier exceeds the old one, else by 8; lives are unchanged |
| Rules.EquipCanLowerTier | game.js:233-234 | equipping a lower tier lowers the held tier and scores 8 |
| Rules.TryUpgrade | game.js:237-250 | at or above maxLevel, the tier is unchanged and the score rises by 6; below it, exactly one of two things happens: the tier rises by 1 (exactly when the draw is below the success chance) or the score rises by 4 |
| Rules.UpgradeDrawThresholds | game.js:244-249 | below maxLevel, a draw below 0.38 always upgrades and a draw of 0.95 or more never does |
| Rules.DropPowerup | game.js:341-344 | a dropped power-up is an 18x18 pool gear falling at 90, of tier 1 to 4, and not a boss reward |
| Rules.BossReward | game.js:346-358 | a boss reward is a reward-pool gear of tier 3 or 4, centred on the drop point |
| Rules.RewardCountAppend | game.js:346-358 | the boss-reward count of a concatenation is the sum of the counts |
| Rules.DropRoll | game.js:215-219 | one maybeDropPowerup: the power-ups already there stay and at most one is added, exactly when the next draw is below DropChance; the roll takes one draw, and two more when it drops |
| Rules.Killed | game.js:388-401 | the enemies an area effect kills, in the order its reverse loop kills them, number exactly HarmKills |
| Rules.KillDropsSnoc | game.js:394-399 | the rolls of one more kill are one DropRoll at its drop point, after the rolls of the kills before it, with the kill counter counting it and them |
| Rules.KillDropsOne | game.js:215-219 | the rolls of a single kill are one DropRoll at (x + 7, y + dy), with the counter counting that kill |
| Rules.KillDropsThen | game.js:394-399 | a kill rolled after the rolls of earlier kills, with the counter past them, extends their rolls by that kill |
| Rules.KillDropsBounds | game.js:215-219 | over any run of kills: every kill takes one draw, and two more when it drops, so kills <= draws <= 3 * kills; the power-ups already there stay; each new one is an ordinary pool power-up, never a boss reward, lying at the drop point of a killed enemy; a multiplier of 0 or less never drops |
| Rules.NoRewards | game.js:341-344 | a list without boss rewards counts none |
| Rules.DropChanceNonPositive | game.js:212 | a multiplier of 0 or less gives no drop chance |
| Rules.Pickup | game.js:934-938 | a pickup never lowers the score, keeps lives at or below maxLives, and never lowers them below min(lives, maxLives) |
| Rules.CollectKeepsBounds | game.js:931-941 | the pickup loop keeps lives within [0, maxLives], never lowers the score, and drops no gear kind |
| Rules.UntouchedMisses | game.js:931-941 | the power-ups left are exactly those the player does not touch |
| Rules.NewBoss | game.js:314-338 | a new boss is at full health with mode index 0; its modes are BossModes of the raised tier; it is 102x84 and centred on the field |
| Rules.NextMode | game.js:653 | the next mode index is inside the mode list |
| Rules.NextModeWraps | game.js:653 | the next index is i + 1, or 0 after the last mode |
| Rules.CycleModeAdvances | game.js:651-655 | within two rounds, `steps` switches advance the index by `steps`, wrapping once |
| Rules.ModesCycleBack | game.js:651-655 | after as many switches as there are modes, the boss is back at its mode |
| Rules.BossStep | game.js:633-661 | a settled boss's tick keeps its hit points and modes and ages it by dt; only x moves, staying 8 px inside the field; a dash re-targets inside the field and resets the dash cooldown to at least 1.2; the mode advances with the timer reset to 4.5 exactly when the mode timer runs out; the shot cooldown resets to at least 0.45 exactly when it runs out |
| Rules.BossStepSmooth | game.js:645-649 | the chase does not snap: the boss ends between its swayed position and its target, at most one step from where it swayed to |
| Rules.BossStepArrives | game.js:645-649 | a boss within one step of a still target reaches it exactly |
| Rules.FanSize | game.js:511 | the spread has 4 + bossLevel bullets up to tier 3, and always 4 to 7 |
| Rules.Fan | game.js:512-515 | the spread has n bullets, bullet k with t = k/(n-1) - 0.5 |
| Rules.FanSymmetric | game.js:512-515 | the spread mirrors about the boss's centre: bullets k and n-1-k have opposite sideways speeds, equal downward speeds and mirrored offsets |
| Rules.FanEdges | game.js:512-515 | the outermost bullets fly sideways at -110 and 110, downwards at 200, and every bullet's downward speed lies in [180, 200] |
| Rules.Aimed | game.js:488-502 | an aimed shot has kind homing, 1 damage, and is centred 1 px right of its source |
| Rules.ModeShots | game.js:517-528 | the extra shots number 0 for shield, 1 for laser, 1 for missile and 2 for homing, each doing at least 1 damage |
| Rules.Volley | game.js:505-529 | a volley has between 4 + min(3, tier) and 6 + min(3, tier) bullets, every one doing damage, with the spread first |
| Rules.Harm | game.js:388-401 | area damage never adds enemies |
| Rules.AllKilled | game.js:388-401 | an area effect that finishes every enemy it is given leaves none and counts them all |
| Rules.HarmAccounting | game.js:388-401 | every enemy is either kept or killed and counted (kept + kills = before); an enemy outside the zone is kept unchanged; one in the zone that survives is kept with `damage` less; with unique identities, a killed enemy's identity is gone; every enemy kept is an original, and one in the zone has hit points left; no identity appears |
| Rules.HarmShrinks | game.js:388-401 | every identity left was there before, and the enemies removed are exactly the kills |
| Rules.ClearFromAll | game.js:843-848 | the enemies from index n on miss the box p exactly when each of them does, the test the enemy loop makes against the player |
| Rules.HarmClear | game.js:388-401 | area damage keeps enemies that missed a box from index n on clear of it: survivors keep their boxes and killed enemies leave |
| Rules.SpliceClear | game.js:846-867 | removing enemy i keeps a clear tail clear, and removing the enemy at index i leaves clear from i the list that was clear after i |
| Rules.HarmBoxes | game.js:388-401 | an area effect moves no enemy and adds none: the boxes after it are among those before |
| Rules.BoxesClear | game.js:843-848 | a list whose boxes are among those of a list with no enemy touching the player has none touching it either |
| Rules.BossAfterDefeats | game.js:403-412 | the boss disappears exactly when the effect hits it and takes its hit points to 0; a survivor keeps everything but its hit points, which stay positive when hit; an effect that misses leaves it unchanged |
| Rules.HitAmount | game.js:926 | a bullet's damage, read as 1 when it is 0 or missing, is at least 1 for non-negative damage |
| Rules.Deflect | game.js:908-921 | a reflected bullet is a player bullet flying upwards at 80 or more, doing at least 1 damage, at the enemy bullet's position, with no pierce, ttl 2.4, and one bounce exactly with ricochet gear |
| Rules.Unhit | game.js:904-929 | the enemy-bullet loop never adds bullets |
| Rules.UnhitMisses | game.js:904-929 | the enemy bullets left are exactly those not touching the player |
| Rules.IncomingBounds | game.js:904-929 | over one pass: lives stay within [0, maxLives] and never rise; reflected bullets are only appended, at most one per pass, each taking one draw and leaving a running reflect cooldown; none are reflected while the cooldown runs |
| Rules.NewEnemy | game.js:282-310 | a new enemy takes the given identity, has full hit points of at least 1 (from the curve at its size and shade), a shade 0 to 2, a width 26 to 44, a motion from the first draw's thresholds, and a sideways speed of +-95 |
| Rules.NoneHoppableAll | game.js:787-799 | the recursive "no enemy qualifies" is the same as every index failing the hop test |
| Rules.ChainedExtend | game.js:809-813 | an arc that reaches its target, ends at its centre and starts where the chain stands extends a valid chain, whose tip moves to the arc's end |
| Rules.NearestExtend | game.js:787-799 | a hop that took the nearest unvisited target extends a chain of nearest hops |
| Rules.UnvisitedRemain | game.js:826-835 | an enemy the chain has not visited is still on the field, unchanged |
| Rules.MarkStep | game.js:826-835 | one more enemy hop on top of the hops so far, to an enemy on the field as it stands: that enemy is an original not hit before; it loses the damage in place, or at 0 is removed and counted once more; no other enemy changes |
| Rules.EnemyHop | game.js:786-799 | the nearest unvisited enemy within 120 of the tip, as hop: extends the chain of nearest hops with an arc from the tip to its centre, keeps the hops distinct and off the start, adds it to the visited set, and marks it for 2 damage (MarkStep) |
| Rules.BossHop | game.js:801-813 | when no enemy qualifies and the unvisited boss is within 140 of the tip, the hop to it extends the chain of nearest hops with an arc to its centre and marks no enemy |
| Rules.VisitedExtend | game.js:837 | adding an unvisited target keeps the hops distinct and adds it to the visited set |
| Rules.NearestInRange | game.js:787-799 | the search returns an unvisited enemy closer than 120 that no other qualifying enemy beats (the first among equals), or none exactly when no enemy qualifies |
| Rules.Expire | game.js:950-958 | ageing never adds records |
| Rules.ExpireKeepsLive | game.js:950-958 | every record that survives has a positive countdown and is an aged original |
| Rules.ExpireKeepsUnexpired | game.js:950-958 | every record whose countdown exceeds dt survives, aged by dt |
| Rules.AgeTimed | game.js:950-958 | the reverse decrement-and-splice loop computes Expire |
| Rules.AllFallen | game.js:945 | every power-up falls by vy * dt, in order |
| Rules.OnField | game.js:946-948 | removing fallen power-ups never adds any |
| Rules.OnFieldKeeps | game.js:946-948 | the power-ups kept are exactly those not below the bottom limit |
| Rules.SettlePowerups | game.js:944-948 | the fall-then-splice loop computes OnField(AllFallen(ps, dt), bottom) |
| Game.LastHit | game.js:851-853 | the reverse search finds the last bullet overlapping the target, none after it overlaps, and it finds none exactly when no bullet overlaps |
| Game.Spend | game.js:856-861 | a piercing bullet loses one pierce and keeps its place, and every other bullet is unchanged; any other bullet is removed, the rest keeping their order |
| Game.FindHit | game.js:851-853 | the reverse bullet loop stops at LastHit |
| Rules.IndexOfId | game.js:828-829 | indexOf finds the enemy with that identity, or none exactly when no enemy has it |
| Rules.IndexOfMember | game.js:828-829 | in a field with unique identities, an enemy's own identity finds that enemy |
| Rules.ChainKilledEnemy | game.js:824-836 | a hop to an enemy of the starting field kills it exactly when its 2 damage brings it to 0, adding its box to the chain's kills |
| Rules.ChainKilledBoss | game.js:801-822 | a hop to the boss kills no enemy |
| Rules.ChainDropStep | game.js:824-836 | one more enemy hop's roll, made with the counter past the earlier kills, extends the chain's rolls |
| Rules.ChainBossDrops | game.js:801-822 | the boss hop adds no kill roll to the chain's rolls, only the boss reward on a defeat |
| Game.AppendKeepsIds | game.js:295 | appending an enemy with the next identity keeps identities unique and adds exactly that one |
| Game.RemoveKeepsIds | game.js:846 | splicing out an enemy keeps identities unique and removes exactly its identity |
| Game.ScoredIsProduct | game.js:396-397 | scoring `points` per kill over n kills adds points * n |
| Game.SweepDropStep | game.js:394-399 | one enemy's pass of the area loop, rolled after the kills behind it, extends their rolls to the rolls of the suffix from that enemy |
| Game.Game.constructor | game.js:1259 | a new game satisfies Valid and is in the reset state with no draws taken |
| Game.Game.Reset | game.js:136-166 | reset leaves the counters of a new game, resting timers and beam, no gear, the player at the bottom centre and every list empty |
| Game.Game.InitialIsValid | game.js:136-166 | the reset state satisfies the invariant |
| Game.Game.Restart | game.js:1246-1249 | the restart key resets only a game that is over, and leaves a running game unchanged; the random stream's cursor and the identity counter carry over either way |
| Game.Game.Roll | game.js:224 | Math.random() returns the next value of the stream and advances the cursor by one |
| Game.Game.AdvanceTimers | game.js:972-977 | time and the spawn and shot countdowns drop by dt; the hit, shield-block and reflect cooldowns drop by dt, floored at 0 |
| Game.Game.EquipGear | game.js:231-235 | the gear and score change as Equip says, and nothing else changes |
| Game.Game.TryUpgradeEffect | game.js:237-250 | the tier and score change as TryUpgrade says with the next draw; other gear is untouched; a draw is taken exactly below maxLevel |
| Game.Game.DamagePlayer | game.js:762-779 | lives, running and both cooldowns change as Damage says |
| Game.Game.SpawnBoss | game.js:312-339 | the boss tier rises by 1, one draw is taken, and the boss is NewBoss at the raised tier |
| Game.Game.MaybeSpawnBoss | game.js:961-967 | with no boss and kills at the threshold: the enemies are cleared, the tier rises by 1, and a full-health boss in mode 0 with the tier's modes arrives; otherwise nothing changes |
| Game.Game.DefeatBoss | game.js:360-366 | with no boss, nothing changes; otherwise the boss is removed, the score rises by 520 + 160 * tier + bonus, the threshold by 18 + 8 * tier, and exactly one boss reward (tier at least 3) is appended |
| Game.Game.MaybeDrop | game.js:215-219 | a draw below the drop chance appends one DropPowerup made with the next two draws; otherwise only the draw is taken; never a boss reward; the outcome is DropRoll of the stream at the current balance inputs |
| Game.Game.KillDrop | game.js:870 | a counted kill's roll: DropRoll at (x + 7, y + dy) with the counter counting that kill, no boss reward |
| Game.Game.Sweep | game.js:388-401 | the enemies become Harm of the old ones; kills rise by the kills of Harm, which is the number of enemies removed; the score rises by points per kill; no identity appears; power-ups and draws are KillDrops: one roll per kill at (x + 7, y + dy), in the loop's kill order, each with the counter counting that kill |
| Game.Game.Wound | game.js:826-835 | an enemy brought to 0 is spliced out, counted and scored, and then makes its DropRoll at (x + 7, y + dy) with the counter counting it; a survivor keeps its place with the damage taken off its hit points, and kills, score, power-ups and draws are unchanged |
| Game.Game.SweepOne | game.js:390-400 | one pass of the area loop: an enemy killed by the zone is removed, counted and scored, and makes its roll (KillDrops of its box); any other enemy becomes Harmed and no draw is taken |
| Game.Game.HarmBoss | game.js:403-412 | the boss becomes BossAfter; a defeat scores 520 + 160 * tier + bonus, moves the threshold and appends one boss reward at the boss's centre with the next two draws (RewardRoll); otherwise nothing else changes |
| Game.Game.AddExplosion | game.js:385-413 | one explosion record is appended; the enemies become Harm of the blast, with 15 per kill; the boss within radius + 32 loses twice the damage, and a defeat scores 520 + 160 * tier and moves the threshold once; the drops are each kill's roll at multiplier 0.75 and (x + 7, y + 6) in kill order (KillDrops), then the boss reward on a defeat |
| Game.Game.ChainStrike | game.js:809-838 | one arc to the enemy's centre is appended; the enemy loses 2 and at 0 is removed, counted and scored 18, and makes its roll at multiplier 0.72 and (x + 7, y + 7); a survivor takes no draw |
| Game.Game.ChainHop | game.js:786-799 | one enemy hop: the nearest unvisited enemy within 120 of the tip takes it, with one arc to its centre, 2 damage and the kill at 0 (Chaining carries over); the target is an enemy of the chain's starting field, and its kill adds one to kills and makes its roll at 0.72; when none qualifies, nothing changes |
| Game.Game.ChainEnemies | game.js:786-838 | up to 3 enemy hops, stopping early exactly when no unvisited enemy is within 120 of the tip. The state is Chaining: the appended arcs run from the start's centre hop by hop, each to the centre of the nearest unvisited target; the enemies become the field with exactly the hop targets hit for 2 and removed at 0; each kill is counted and scored 18; the drops are KillDrops over ChainKilled, the targets killed in hop order, at 0.72 and (x + 7, y + 7) |
| Game.Game.ChainToBoss | game.js:801-822 | once no enemy qualifies: the unvisited boss within 140 of the tip takes the hop, with one arc to its centre and 5 damage, and Chaining carries over; otherwise nothing changes; the drops stay the rolls of the enemy hops' kills, followed by the boss reward on a defeat |
| Game.Game.ChainJumps | game.js:786-838 | the jump loop: the enemy hops, then, when they stopped short, the boss hop; its contract is ChainDamage's for a player with chain gear, drops included |
| Game.Game.ChainDamage | game.js:781-840 | no chain gear: nothing changes. Otherwise: at most 3 hops, distinct, never the start, only the last one possibly the boss; Chaining for the arcs appended (each arc runs from the previous target's centre to the centre of the nearest unvisited target, enemies within 120, the boss within 140 only when no enemy qualified; exactly the enemy targets lose 2 and are removed and counted at 0, the rest unchanged); a chain that stops short of 3 hops without the boss had no enemy in reach and no unvisited boss within 140; kills equal enemies removed, at 18 each; a boss defeat scores 420 + 160 * tier; the drops are the kills' rolls at 0.72 and (x + 7, y + 7) in hop order (KillDrops over ChainKilled), then the boss reward on a defeat |
| Game.Game.ChainFrom | game.js:864 | chainDamage as the hit loops call it: enemies only leave, each counted, and a chain from the boss leaves the boss unchanged; it moves no enemy and adds none, so enemies from a given index on that miss the player still miss it |
| Game.Game.ChainBoss | game.js:801-822 | the boss hop appends one arc, takes 5 from the boss, and scores a defeat with a bonus of -100; the defeat's reward is RewardRoll at the boss's centre, and without a defeat no draw is taken |
| Game.Game.Impact | game.js:855-862 | the bullet is spent (pierce or removal); the enemy loses the bullet's damage; an explosive bullet that is used up sets off a blast of radius 58 and damage 3 at its centre: Harm of the wounded field, 15 per kill, the boss's defeat scoring 520 + 160 * tier and moving the threshold, and the kills' rolls at 0.75 then the boss reward; otherwise nothing else changes |
| Game.Game.BulletStrike | game.js:843-862 | the enemy touching the player is removed at the cost of one hit; an enemy no bullet touches is left as it is; otherwise the last bullet touching it strikes it; if the enemies after index i miss the player, afterwards the enemies from index i on miss it |
| Game.Game.CountStruckAsWritten | game.js:866-872 | as written: a struck enemy at or below 0 leads to a splice at index i, whichever enemy is there, plus one kill, 15 points, a roll at multiplier 1 and (x + 7, y + 6) of the struck enemy's box with the counter counting that kill, and a level step every 12 kills up to 4; enemies from index i on that missed the player still miss it |
| Game.Game.CountStruck | game.js:866-872 | as intended: the struck enemy is removed by identity and counted only if still present, so kills equal enemies removed and a dead struck enemy is gone; a counted kill makes its roll at multiplier 1 and (x + 7, y + 6); enemies from a given index on that missed the player still miss it |
| Game.Game.EnemyTurnAsWritten | game.js:844-874 | as written: a ram costs one hit; a miss changes nothing; kills can exceed the enemies removed; if the enemies after index i miss the player, afterwards the enemies from index i on miss it |
| Game.Game.EnemyTurn | game.js:844-874 | as intended: every enemy that leaves the field is a ram or a kill counted once, and a struck enemy at or below 0 is gone; if the enemies after index i miss the player, afterwards the enemies from index i on miss it |
| Game.Game.HitEnemiesAsWritten | game.js:843-875 | as written: the loop keeps the invariant and adds no identity, but kills plus rams only bound the enemies removed from above; `crashed` reports the turn whose index is past the end, which happens only once enemies have been removed; a loop that finishes leaves no enemy touching the player |
| Game.Game.HitEnemies | game.js:843-875 | as intended: kills plus rams equal the enemies removed, with no ram the player is unharmed, and afterwards no enemy touches the player |
| Game.Game.BossHit | game.js:885-892 | the bullet is spent; the boss loses its damage; an explosive bullet that is used up sets off a blast of radius 64: Harm of the enemies, 15 per kill, a defeat scoring 520 + 160 * tier and moving the threshold, and the kills' rolls at 0.75 then the boss reward; otherwise score, draws and threshold are unchanged; no enemy moves or appears |
| Game.Game.BossImpact | game.js:885-899 | the boss is defeated exactly when its hit points after the bullet (and its blast) reach 0; the defeat happens once and appends one reward; no enemy moves or appears |
| Game.Game.BossVolley | game.js:881-901 | the bullet loop defeats the boss at most once; a surviving boss keeps everything but its hit points; no enemy moves or appears |
| Game.Game.HitBoss | game.js:877-902 | touching the boss deals 2 through Damage; no boss means no change; at most one defeat and one reward; no enemy moves or appears |
| Game.Game.FendOff | game.js:906-927 | one enemy bullet is handled as Fend says: reflected, or it damages the player |
| Game.Game.HitEnemyBullets | game.js:904-929 | the loop leaves Unhit of the bullets and updates lives, cooldowns, the reflected bullets and the draws as Incoming says |
| Game.Game.CollectPowerups | game.js:931-941 | the loop leaves the untouched power-ups and changes gear, score and lives as Collect says |
| Game.Game.HandleHits | game.js:842-942 | with the intended enemy loop: kills plus rams equal the enemies removed, and afterwards no enemy, enemy bullet or power-up touches the player |
| Game.Game.FireBoss | game.js:505-529 | a live boss appends exactly one Volley to the enemy bullets |
| Game.Game.UpdateBoss | game.js:624-662 | no boss: no change. A boss above the hover height descends at 65 px/s. A settled boss becomes BossStep with the next draw when it dashes, and fires one Volley exactly when its shot countdown runs out |
| Game.Game.SteerBoss | game.js:633-661 | the in-place record updates compute BossStep, taking a draw exactly when the dash countdown runs out |
| Game.Game.RollEnemy | game.js:283-307 | spawnEnemy's nine draws are the next nine values of the stream |
| Game.Game.SpawnEnemy | game.js:282-310 | one NewEnemy with the next identity is appended; identities stay unique and gain exactly that one |
| Game.Game.BeamRect | game.js:542-543 | the beam is centred on the player and reaches from the top of the field down to the player |
| Game.Game.BeamTick | game.js:531-566 | the beam is active exactly with laser gear and the fire key held; otherwise nothing else changes; when active, enemies in the beam lose the tick's damage (14 per kill, each kill rolling at 0.7 and (x + 7, y + 7)) and the boss loses 90% of it, a defeat adding the boss reward |
| Game.Game.Burn | game.js:546-565 | the beam's damage pass: Harm over the beam rectangle with 14 per kill, BossAfter at 90%, and the drops: each kill's roll at 0.7 and (x + 7, y + 7) in kill order, then the boss reward on a defeat |
| Game.Game.UpdatePowerups | game.js:944-959 | power-ups fall and those more than 30 px below the field go; chain arcs and explosions age and expire |
| Game.Game.Update | game.js:969-994 | a game that is over does not change; a running one advances time by dt, spawns an enemy exactly when no boss is up, the kills are below the boss threshold, the spawn countdown has run out after dt and the field is below the cap at the new time, and afterwards no enemy, enemy bullet or power-up touches the player |
| Game.Game.Tick | game.js:972-993 | one tick of a running game keeps the invariant, advances time by dt, spawns an enemy exactly when no boss is up, the kills are below the boss threshold, the spawn countdown has run out after dt and the field is below the cap at the new time; afterwards no enemy, enemy bullet or power-up touches the player |
| Game.Game.Advance | game.js:988-992 | kills equal enemies removed; the beam is active exactly with laser gear and the fire key held, and without it enemies, kills, score and threshold are unchanged and the power-ups only fall; with no boss the enemy bullets are unchanged; chain arcs and explosions age and expire |
| Game.Game.SpawnStep | game.js:981-985 | an enemy spawns exactly when there is no boss, the kill threshold is not reached, the countdown has run out and the field is below the cap; the countdown then restarts at SpawnInterval |
| Findings.DoubleCountAsWritten | game.js:855-872 | as written, one enemy struck by an explosive bullet leaves the field but two kills are counted |
| Findings.DoubleCountCorrected | game.js:855-872 | with the intended count, the same turn counts one kill |
| Findings.CrashAsWritten | game.js:843-875 | as written, the turn at index 1 of two enemies empties the list (three kills counted), so the next turn's index 0 is past the end |
| Findings.CrashCorrected | game.js:843-875 | with the intended count, the same turn counts two kills for two enemies |

## Left out

- Drawing is not modelled: the sprite and palette tables, `drawSprite` and `draw` (game.js:74-126, 996-1228).
- Canvas setup, the `requestAnimationFrame` loop and the key listeners are host I/O (game.js:1-3, 1230-1260). The fire key is a parameter of `Update`. The restart key is `Restart`.
- The canvas size comes from the page and is a constructor parameter.
- Player movement (`updatePlayer`, game.js:568-589) is not modelled. This includes the player's own firing that it triggers (`firePlayer`, `fireWingman`, `addPlayerBullet`, game.js:368-486). Its content is key input and bullet geometry tuning.
- Enemy movement and enemy fire (`updateEnemies`, game.js:591-622) are not modelled. They rest on `Math.sin` motion.
- Bullet flight (`updatePlayerBullets`, `updateEnemyBullets`, `nearestEnemyOrBoss`, game.js:664-760) is not modelled. It rests on homing steering through `Math.hypot` normalisation.
- `Update` and `Tick` skip the four calls above, which sit between the modelled steps.
- `fireEnemyBullet` (game.js:488-502) takes the velocity it aims with as a parameter (`Rules.Aimed`), because it is a `Math.hypot` normalisation.
- `Math.sin` terms are not computed. The boss's hover sway and the beam's pulse come in as parameters (`sway`, `wave`).
- The boss's `driftPhase` is not stored, since only the sway reads it. Its draw is still taken, so the stream stays in step.
- The enemy's `phase` is not stored either. Its draw is still taken.
- Floating-point rounding is not modelled. Numbers are exact reals.
- `tryUpgradeEffect` has no caller in the source. It is modelled (`Game.Game.TryUpgradeEffect`) but no tick calls it.
- Chain, reflect and ricochet gear are never raised above 0 by the source's pickups. Those paths are modelled all the same.
- Game.Game.Update: does not bound the number of enemies by the cap. It states the spawn rule through `nextId` (at most one new identity per tick, none with a boss up), and `SpawnStep` states the cap itself.
- Game.Game.Update: covers the running game's tick with the intended enemy loop (`HitEnemies`). The as-written loop is `HitEnemiesAsWritten`, whose possible crash is in "## Findings".
- Game.Game.HitEnemiesAsWritten: states only that kills plus rams are at least the enemies removed. The as-written loop cannot promise the equality, and the exact over-count depends on the field.
- Game.Game.EnemyTurnAsWritten: states the same lower bound, for the same reason.
- Game.Game.BossVolley: does not state the final hit points as a function of the bullet list. It states that the defeat happens at most once and that a survivor keeps its other fields.
- Balance.PlayerShotCooldown: only the shot-cooldown formula of `updatePlayer` (game.js:585-587) is kept, as a curve of the weapon level and gear. The rest of `updatePlayer` is left out (see above), so nothing in the model calls it.
- Game.Game.ChainDamage: states that each hop took a nearest target, not which of several equally near enemies it took. The source takes the first in list order, and `Rules.NearestInRange` states that for a single search.
- Rules.Harm: states only that no enemy is added. What it keeps and removes is stated by `Rules.HarmAccounting` and `Rules.AllKilled`.
- Game.Game.ChainFrom: does not state the power-ups and draws of the chain. `Game.Game.ChainDamage` states them; ChainFrom keeps what the hit loops need.
- Game.Game.BulletStrike: does not state the power-ups and draws of a struck enemy's blast and kill. `Game.Game.Impact` and `Game.Game.CountStruck` state them.
- Game.Game.EnemyTurn: does not state the power-ups and draws; it states kills, rams and identities.
- Game.Game.EnemyTurnAsWritten: does not state the power-ups and draws either.
- Game.Game.HitEnemies: does not state the power-ups and draws of the whole loop, nor which enemies were struck and with what damage. Each turn's strike, blast, chain and count are stated by `Game.Game.EnemyTurn`, `Game.Game.BulletStrike`, `Game.Game.Impact`, `Game.Game.ChainFrom` and `Game.Game.CountStruck`.
- Game.Game.HitEnemiesAsWritten: does not state the power-ups and draws either, nor which enemies were struck. `Game.Game.EnemyTurnAsWritten` and `Game.Game.CountStruckAsWritten` state each turn.
- Game.Game.BossImpact: states the reward count of a defeat, not the draws of the blast's kill rolls. `Game.Game.BossHit` states them.
- Game.Game.BossVolley: does not state the power-ups and draws of the loop's blasts; it keeps the reward count.
- Game.Game.HitBoss: does not state the power-ups and draws either.
- Game.Game.HandleHits: does not state the power-ups and draws of the tick's hits, nor the boss's hit points, the lives lost or the gear picked up. `Game.Game.HitBoss`, `Game.Game.HitEnemyBullets` and `Game.Game.CollectPowerups` state those.
- Game.Game.Advance: does not state the power-ups and draws of the beam's kills, nor the beam's damage. `Game.Game.BeamTick` states them. It does not state the boss's step or volley either. `Game.Game.UpdateBoss` states them.
- Game.Game.Tick: does not state the power-ups and draws, nor the score, lives, gear, boss and cooldowns after the tick. `Game.Game.AdvanceTimers`, `Game.Game.SpawnStep`, `Game.Game.Advance` and `Game.Game.HandleHits` state each step.
- Game.Game.Update: does not state the power-ups and draws, nor the score, lives, gear, boss and cooldowns after the tick, for the same reason as `Game.Game.Tick`.

## Findings

| source | as written | input that shows it | evidently intended | confidence | as-written member | corrected member |
|---|---|---|---|---|---|---|
| game.js:866-872 | After the bullet hit, the loop splices index `i` and counts a kill whenever the struck enemy's hit points are at or below 0. This happens even when the bullet's own explosion (game.js:859) or a chain hop (game.js:864) has already removed and counted that enemy. | One enemy with 1 hit point at (10, 10) and an explosive missile doing 2 damage lying on it: the enemy leaves the field, and `kills` rises by 2 and the score by 30. | Each enemy that leaves the field is counted once: the struck enemy is removed by identity, only if still present. | not executed | Game.Game.CountStruckAsWritten, Findings.DoubleCountAsWritten | Game.Game.CountStruck, Findings.DoubleCountCorrected |
| game.js:843-844 | The enemy loop re-reads `enemies[i]` at each turn. Once a turn's explosion or chain has removed enemies at lower indices, `i` can point past the end, `enemies[i]` is undefined and `rectHit` throws. The exception ends the frame and stops the animation loop. | Two enemies with 1 hit point at (10, 10) and (40, 10), and an explosive missile on the second: the turn at index 1 empties the list (three kills counted), and the turn at index 0 reads past the end. | The index never passes the end of the list, so no turn can crash, and every enemy that leaves is counted once. | not executed | Game.Game.HitEnemiesAsWritten, Findings.CrashAsWritten | Game.Game.HitEnemies, Findings.CrashCorrected |
