/** The intermediate enemy entity (js/entities/enemy.js): stats scaled by
    player and game level keyed on the raw type name, an AI map that sends
    the melee types to the chaser behaviour, a shooter gated by range and
    cooldown; its damage is `EnemyLife.TakeDamage` with the activity check. */
module ScaledEnemy {
  import opened Js
  import EnemyLife

  /** `1 + playerLevel * 0.15 + gameLevel * 0.20` */
  function ScaleFactor(playerLevel: real, gameLevel: real): (r: real)
    ensures playerLevel >= 0.0 && gameLevel >= 0.0 ==> r >= 1.0
  {
    1.0 + playerLevel * 0.15 + gameLevel * 0.20
  }

  datatype BaseStats = BaseStats(hp: real, speed: real, xp: real)

  /** `baseStats[type] ?? baseStats.chaser`, keyed by the raw type name. */
  function Base(kind: string): BaseStats {
    if kind == "wanderer" then BaseStats(100.0, 60.0, 12.0)
    else if kind == "shooter" then BaseStats(80.0, 30.0, 15.0)
    else BaseStats(120.0, 80.0, 10.0)
  }

  datatype Entity = Entity(kind: string, speed: real, maxHP: int, xpValue: int,
                           shootCooldown: real, lastShot: real, life: EnemyLife.Life)

  /** The constructor: speed is scaled but not rounded; hit points and xp are rounded. */
  function Create(kind: string, playerLevel: real, gameLevel: real): (e: Entity)
    ensures e.kind == kind && e.life == EnemyLife.Life(e.maxHP as real, true, false)
    ensures e.shootCooldown == 1000.0 && e.lastShot == 0.0
    ensures e.speed == Base(kind).speed * ScaleFactor(playerLevel, gameLevel)
    ensures e.maxHP == Round(Base(kind).hp * ScaleFactor(playerLevel, gameLevel))
    ensures e.xpValue == Round(Base(kind).xp * ScaleFactor(playerLevel, gameLevel))
    ensures playerLevel >= 0.0 && gameLevel >= 0.0 ==>
              e.maxHP as real >= Base(kind).hp && e.xpValue as real >= Base(kind).xp && e.speed >= Base(kind).speed
  {
    ScaledNoWeaker(Base(kind), ScaleFactor(playerLevel, gameLevel));
    Entity(kind, Base(kind).speed * ScaleFactor(playerLevel, gameLevel),
           Round(Base(kind).hp * ScaleFactor(playerLevel, gameLevel)),
           Round(Base(kind).xp * ScaleFactor(playerLevel, gameLevel)), 1000.0, 0.0,
           EnemyLife.Life(Round(Base(kind).hp * ScaleFactor(playerLevel, gameLevel)) as real, true, false))
  }

  /** A base entry scaled by a factor of at least one is no smaller. */
  lemma ScaledNoWeaker(b: BaseStats, f: real)
    requires b.hp >= 0.0 && b.xp >= 0.0 && b.speed >= 0.0
    ensures f >= 1.0 ==> b.hp * f >= b.hp && b.xp * f >= b.xp && b.speed * f >= b.speed
  {
    if f >= 1.0 {
      MulMonotone(b.hp, 1.0, f);
      MulMonotone(b.xp, 1.0, f);
      MulMonotone(b.speed, 1.0, f);
    }
  }

  /** Higher player and game levels never give a weaker enemy of the same
      type. */
  lemma CreateMonotone(kind: string, p1: real, g1: real, p2: real, g2: real)
    requires 0.0 <= p1 <= p2 && 0.0 <= g1 <= g2
    ensures Create(kind, p1, g1).maxHP <= Create(kind, p2, g2).maxHP
    ensures Create(kind, p1, g1).xpValue <= Create(kind, p2, g2).xpValue
    ensures Create(kind, p1, g1).speed <= Create(kind, p2, g2).speed
  {
    var f1, f2 := ScaleFactor(p1, g1), ScaleFactor(p2, g2);
    assert f1 <= f2;
    MulMonotone(Base(kind).hp, f1, f2);
    MulMonotone(Base(kind).xp, f1, f2);
    MulMonotone(Base(kind).speed, f1, f2);
  }

  /** `aiMap[this.type] || this.type` */
  function AIKey(kind: string): (r: string)
    ensures r == "chaser" <==> kind in ["normal", "fast", "tank", "elite", "chaser"]
    ensures kind !in ["normal", "fast", "tank", "elite"] ==> r == kind
  {
    if kind in ["normal", "fast", "tank", "elite"] then "chaser" else kind
  }

  datatype Behaviour = Chase | Wander | Shoot | Idle

  /** The `switch (aiType)` of `update`: a key with no case does nothing. */
  function Dispatch(kind: string): (b: Behaviour)
    ensures b == Chase <==> kind in ["normal", "fast", "tank", "elite", "chaser"]
    ensures b == Wander <==> kind == "wanderer"
    ensures b == Shoot <==> kind == "shooter"
  {
    match AIKey(kind)
    case "chaser" => Chase
    case "wanderer" => Wander
    case "shooter" => Shoot
    case _ => Idle
  }

  /** `updateShooter(time, target)`: the new `lastShot` and whether a shot was fired. */
  function UpdateShooter(e: Entity, dist: real, time: real): (r: (Entity, bool))
    ensures r.1 <==> dist < 300.0 && time - e.lastShot >= e.shootCooldown
    ensures r.0 == if r.1 then e.(lastShot := time) else e
  {
    if dist < 300.0 && time - e.lastShot >= e.shootCooldown then (e.(lastShot := time), true) else (e, false)
  }

  /** Two shots of one shooter are at least a cooldown apart. */
  lemma ShotsSpaced(e: Entity, d1: real, t1: real, d2: real, t2: real)
    requires UpdateShooter(e, d1, t1).1 && UpdateShooter(UpdateShooter(e, d1, t1).0, d2, t2).1
    ensures t2 - t1 >= e.shootCooldown
  {
  }
}
