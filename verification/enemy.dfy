/** The enemy entity of the current game (js/entities/Enemy/enemy.js): how a
    requested type string resolves to a behaviour and a visual variant, the
    level scaling of its stats at construction, the shooter's range band and
    fire cooldown, and its damage and death latch. */
module Enemy {
  import opened Js
  import EnemyLife

  /** No type name starts with both "shooter" and "wanderer". */
  lemma PrefixesExclusive(kind: string)
    ensures !(StartsWith(kind, "shooter") && StartsWith(kind, "wanderer"))
  {
    if StartsWith(kind, "shooter") {
      assert kind[..7][0] == 's';
      if |kind| >= 8 {
        assert kind[..8][0] == kind[..7][0];
      }
    }
  }

  /** `resolveAIType(type)`; the empty string is the falsy case. */
  function ResolveAIType(kind: string): (r: string)
    ensures r == "chaser" || r == "shooter" || r == "wanderer"
    ensures r == "shooter" <==> StartsWith(kind, "shooter")
    ensures r == "wanderer" <==> StartsWith(kind, "wanderer")
  {
    if kind == "" then "chaser"
    else if StartsWith(kind, "shooter") then PrefixesExclusive(kind); "shooter"
    else if StartsWith(kind, "wanderer") then "wanderer"
    else if StartsWith(kind, "tank") then "chaser"
    else if StartsWith(kind, "fast") then "chaser"
    else "chaser"
  }

  /** `resolveVariant(type)` */
  function ResolveVariant(kind: string): (r: string)
    ensures r in ["chaser", "shooter", "wanderer", "tank", "fast", "elite"]
    ensures r != "chaser" ==> StartsWith(kind, r)
    ensures r == "chaser" <==> forall p :: p in ["shooter", "wanderer", "tank", "fast", "elite"] ==> !StartsWith(kind, p)
  {
    if kind == "" then "chaser"
    else if StartsWith(kind, "shooter") then "shooter"
    else if StartsWith(kind, "wanderer") then "wanderer"
    else if StartsWith(kind, "tank") then "tank"
    else if StartsWith(kind, "fast") then "fast"
    else if StartsWith(kind, "elite") then "elite"
    else "chaser"
  }

  /** The behaviour is the variant for shooters and wanderers and the chaser
      behaviour for every other variant. */
  lemma AITypeFollowsVariant(kind: string)
    ensures ResolveAIType(kind) == if ResolveVariant(kind) in ["shooter", "wanderer"] then ResolveVariant(kind) else "chaser"
  {
  }

  datatype BaseStats = BaseStats(hp: real, speed: real, damage: real, xp: real)

  /** `baseStats[aiType] ?? baseStats.chaser` */
  function Base(aiType: string): BaseStats {
    if aiType == "wanderer" then BaseStats(100.0, 60.0, 8.0, 12.0)
    else if aiType == "shooter" then BaseStats(80.0, 40.0, 10.0, 15.0)
    else BaseStats(20.0, 80.0, 5.0, 10.0)
  }

  function HpScale(gameLevel: real): real {
    1.0 + gameLevel * 0.25
  }

  function DamageScale(gameLevel: real): real {
    1.0 + gameLevel * 0.28
  }

  /** `1 + Math.min(gameLevel * 0.03, 0.25)`: speed gains at most a quarter. */
  function SpeedScale(gameLevel: real): (r: real)
    ensures gameLevel >= 0.0 ==> 1.0 <= r <= 1.25
    ensures r <= 1.25
  {
    1.0 + Min(gameLevel * 0.03, 0.25)
  }

  datatype ShooterState = ShooterState(lastShotTime: real, strafeTimer: real, strafeDir: int)

  datatype Entity = Entity(
    variant: string,
    aiType: string,
    speed: int,
    maxHP: int,
    damage: int,
    xpValue: int,
    shootCooldown: real,
    life: EnemyLife.Life,
    shooter: ShooterState)

  /** The constructor; `gameLevel` is `scene.level ?? scene.wave ?? 1`. Each
      stat is its base entry scaled by its factor and rounded, and the enemy
      starts alive at full health. */
  function Create(kind: string, gameLevel: real): (e: Entity)
    ensures e.aiType == ResolveAIType(kind) && e.variant == ResolveVariant(kind)
    ensures e.maxHP == Scaled(Base(e.aiType).hp, HpScale(gameLevel))
    ensures e.xpValue == Scaled(Base(e.aiType).xp, HpScale(gameLevel))
    ensures e.damage == Scaled(Base(e.aiType).damage, DamageScale(gameLevel))
    ensures e.speed == Scaled(Base(e.aiType).speed, SpeedScale(gameLevel))
    ensures e.life == EnemyLife.Life(e.maxHP as real, true, false)
    ensures e.shootCooldown == 1800.0 && e.shooter.lastShotTime == 0.0
    ensures gameLevel >= 0.0 ==>
              var b := Base(e.aiType);
              && e.maxHP as real >= b.hp && e.xpValue as real >= b.xp && e.damage as real >= b.damage
              && b.speed <= e.speed as real <= Round(b.speed * 1.25) as real
  {
    LevelNoWeaker(Base(ResolveAIType(kind)), gameLevel);
    Entity(ResolveVariant(kind), ResolveAIType(kind), Scaled(Base(ResolveAIType(kind)).speed, SpeedScale(gameLevel)),
           Scaled(Base(ResolveAIType(kind)).hp, HpScale(gameLevel)), Scaled(Base(ResolveAIType(kind)).damage, DamageScale(gameLevel)),
           Scaled(Base(ResolveAIType(kind)).xp, HpScale(gameLevel)), 1800.0,
           EnemyLife.Life(Scaled(Base(ResolveAIType(kind)).hp, HpScale(gameLevel)) as real, true, false), ShooterState(0.0, 0.0, 1))
  }

  /** At level 0 every factor is one, so an enemy has exactly its type's base
      stats. */
  lemma CreateAtLevelZero(kind: string)
    ensures var e := Create(kind, 0.0);
            var b := Base(ResolveAIType(kind));
            && e.maxHP as real == b.hp && e.xpValue as real == b.xp
            && e.damage as real == b.damage && e.speed as real == b.speed
  {
    var b := Base(ResolveAIType(kind));
    assert HpScale(0.0) == 1.0 && DamageScale(0.0) == 1.0 && SpeedScale(0.0) == 1.0;
    assert b.hp * 1.0 == b.hp && b.xp * 1.0 == b.xp && b.damage * 1.0 == b.damage && b.speed * 1.0 == b.speed;
  }

  /** A chaser on the default level 1: 25 hit points, speed 82, damage 6 and
      13 experience. */
  lemma DefaultChaser()
    ensures var e := Create("chaser", 1.0);
            && e.maxHP == 25 && e.speed == 82 && e.damage == 6 && e.xpValue == 13
  {
    assert Base("chaser") == BaseStats(20.0, 80.0, 5.0, 10.0);
    assert SpeedScale(1.0) == 1.03;
    assert Round(20.0 * 1.25) == 25 && Round(80.0 * 1.03) == 82;
    assert Round(5.0 * 1.28) == 6 && Round(10.0 * 1.25) == 13;
  }

  /** `Math.round(x * f)` */
  function Scaled(x: real, f: real): int {
    Round(x * f)
  }

  /** Scaling a base entry by factors of at least one (speed by at most a
      quarter more) never gives less than the entry. */
  lemma ScaledNoWeaker(b: BaseStats, hpScale: real, damageScale: real, speedScale: real)
    requires b in {Base("chaser"), Base("wanderer"), Base("shooter")}
    requires hpScale >= 1.0 && damageScale >= 1.0 && 1.0 <= speedScale <= 1.25
    ensures Scaled(b.hp, hpScale) as real >= b.hp && Scaled(b.xp, hpScale) as real >= b.xp
    ensures Scaled(b.damage, damageScale) as real >= b.damage
    ensures b.speed <= Scaled(b.speed, speedScale) as real <= Round(b.speed * 1.25) as real
  {
    ScaledRoundMonotone(b.hp, 1.0, hpScale);
    ScaledRoundMonotone(b.xp, 1.0, hpScale);
    ScaledRoundMonotone(b.damage, 1.0, damageScale);
    ScaledRoundMonotone(b.speed, 1.0, speedScale);
    ScaledRoundMonotone(b.speed, speedScale, 1.25);
  }

  /** The same at a non-negative game level, where every factor is at least
      one. */
  lemma LevelNoWeaker(b: BaseStats, gameLevel: real)
    requires b in {Base("chaser"), Base("wanderer"), Base("shooter")}
    ensures gameLevel >= 0.0 ==>
              && Scaled(b.hp, HpScale(gameLevel)) as real >= b.hp && Scaled(b.xp, HpScale(gameLevel)) as real >= b.xp
              && Scaled(b.damage, DamageScale(gameLevel)) as real >= b.damage
              && b.speed <= Scaled(b.speed, SpeedScale(gameLevel)) as real <= Round(b.speed * 1.25) as real
  {
    if gameLevel >= 0.0 {
      ScaledNoWeaker(b, HpScale(gameLevel), DamageScale(gameLevel), SpeedScale(gameLevel));
    }
  }

  lemma RoundMonotone(x: real, y: real)
    requires x <= y
    ensures Round(x) <= Round(y)
  {
  }

  /** A higher game level never yields a weaker enemy of the same type. */
  lemma CreateMonotone(kind: string, g1: real, g2: real)
    requires 0.0 <= g1 <= g2
    ensures Create(kind, g1).maxHP <= Create(kind, g2).maxHP
    ensures Create(kind, g1).damage <= Create(kind, g2).damage
    ensures Create(kind, g1).speed <= Create(kind, g2).speed
    ensures Create(kind, g1).xpValue <= Create(kind, g2).xpValue
  {
    var b := Base(ResolveAIType(kind));
    assert HpScale(g1) <= HpScale(g2) && DamageScale(g1) <= DamageScale(g2) && SpeedScale(g1) <= SpeedScale(g2);
    ScaledRoundMonotone(b.hp, HpScale(g1), HpScale(g2));
    ScaledRoundMonotone(b.xp, HpScale(g1), HpScale(g2));
    ScaledRoundMonotone(b.damage, DamageScale(g1), DamageScale(g2));
    ScaledRoundMonotone(b.speed, SpeedScale(g1), SpeedScale(g2));
  }

  lemma ScaledRoundMonotone(a: real, x: real, y: real)
    requires a >= 0.0 && x <= y
    ensures Scaled(a, x) <= Scaled(a, y)
  {
    MulMonotone(a, x, y);
    RoundMonotone(a * x, a * y);
  }

  // ---------------------------------------------------------------------
  // Shooter behaviour

  const IdealMin: real := 120.0
  const IdealMax: real := 250.0

  datatype Move = Approach | Retreat | Strafe

  datatype ShooterStep = ShooterStep(move: Move, state: ShooterState, fired: bool)

  /** `updateShooter(time, target, delta)`. `dist` is the distance to the
      target; `dirDraw` and `timerDraw` are the strafe redraws
      (`Between(0, 1)` and `Between(400, 1000)`). `fired` means the
      pre-shot warning was scheduled. */
  function UpdateShooter(s: ShooterState, cooldown: real, dist: real, time: real, delta: real,
                         dirDraw: bool, timerDraw: int): (r: ShooterStep)
    requires 400 <= timerDraw <= 1000
    ensures r.move == Approach <==> dist > IdealMax
    ensures r.move == Retreat <==> dist < IdealMin
    ensures r.fired <==> r.move == Strafe && time - s.lastShotTime >= cooldown
    ensures r.state.lastShotTime == if r.fired then time else s.lastShotTime
    ensures r.move != Strafe ==> r.state == s
    ensures r.state.strafeDir == 1 || r.state.strafeDir == -1 || r.state.strafeDir == s.strafeDir
    ensures r.move == Strafe && s.strafeTimer - delta > 0.0 ==>
              r.state.strafeTimer == s.strafeTimer - delta && r.state.strafeDir == s.strafeDir
  {
    if dist > IdealMax then ShooterStep(Approach, s, false)
    else if dist < IdealMin then ShooterStep(Retreat, s, false)
    else
      var t := s.strafeTimer - delta;
      var strafed := if t <= 0.0 then ShooterState(s.lastShotTime, timerDraw as real, if dirDraw then 1 else -1)
                     else s.(strafeTimer := t);
      if time - strafed.lastShotTime >= cooldown then ShooterStep(Strafe, strafed.(lastShotTime := time), true)
      else ShooterStep(Strafe, strafed, false)
  }

  /** Two shots of one shooter are at least a cooldown apart. */
  lemma ShotsSpaced(s: ShooterState, cooldown: real, d1: real, t1: real, d2: real, t2: real, delta: real,
                    b1: bool, b2: bool, n1: int, n2: int)
    requires 400 <= n1 <= 1000 && 400 <= n2 <= 1000
    requires UpdateShooter(s, cooldown, d1, t1, delta, b1, n1).fired
    requires UpdateShooter(UpdateShooter(s, cooldown, d1, t1, delta, b1, n1).state, cooldown, d2, t2, delta, b2, n2).fired
    ensures t2 - t1 >= cooldown
  {
  }

  // ---------------------------------------------------------------------
  // Damage and death

  /** `takeDamage(amount)`: only the death latch guards it, so an inactive
      but living enemy still loses hit points. */
  function TakeDamage(e: Entity, amount: real): (r: EnemyLife.Hit)
    ensures e.life.isDead ==> r == EnemyLife.Hit(e.life, false)
    ensures !e.life.isDead ==> r.life.hp == e.life.hp - amount && (r.killed <==> r.life.hp <= 0.0)
  {
    EnemyLife.TakeDamage(e.life, amount, false)
  }
}
