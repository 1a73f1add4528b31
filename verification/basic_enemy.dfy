/** The first enemy entity (entities/enemy.js): fixed hit points and xp, a
    random speed, a pursuit of its own target or else the player, and damage
    that ignores inactive or dead enemies. */
module BasicEnemy {
  import opened Js
  import EnemyLife

  const MaxHP: real := 150.0
  const XpValue: int := 10

  datatype Entity = Entity(speed: int, maxHP: real, xpValue: int, life: EnemyLife.Life)

  /** The constructor, with `speedDraw` the `Phaser.Math.Between(50, 100)` draw. */
  function Create(speedDraw: int): (e: Entity)
    requires 50 <= speedDraw <= 100
    ensures 50 <= e.speed <= 100 && e.speed == speedDraw
    ensures e.maxHP == 150.0 && e.life == EnemyLife.Life(150.0, true, false) && e.xpValue == 10
  {
    Entity(speedDraw, MaxHP, XpValue, EnemyLife.Life(MaxHP, true, false))
  }

  /** What `update` needs of a possible target: whether it is active and how far it is. */
  datatype Target = Target(active: bool, dist: real)

  /** `this.target ?? this.scene.player` */
  function Chosen(own: Option<Target>, player: Option<Target>): Option<Target> {
    if own.Some? then own else player
  }

  /** `update()`: whether a velocity towards the chosen target is set. */
  function Moves(e: Entity, own: Option<Target>, player: Option<Target>): (r: bool)
    ensures r <==> e.life.active && !e.life.isDead
                   && (own.Some? || player.Some?)
                   && (if own.Some? then own.value.active && own.value.dist > 0.0
                       else player.value.active && player.value.dist > 0.0)
  {
    if !e.life.active || e.life.isDead then false
    else
      match Chosen(own, player)
      case None => false
      case Some(t) => t.active && t.dist > 0.0
  }

  /** `takeDamage(amount)`: inactive and dead enemies ignore it. */
  function TakeDamage(e: Entity, amount: real): (r: EnemyLife.Hit)
    ensures !e.life.active || e.life.isDead ==> r == EnemyLife.Hit(e.life, false)
    ensures e.life.active && !e.life.isDead ==>
              r.life.hp == e.life.hp - amount && (r.killed <==> r.life.hp <= 0.0) && r.life.isDead == r.killed
  {
    EnemyLife.TakeDamage(e.life, amount, true)
  }

  /** A fresh enemy dies from a single hit exactly when the hit reaches its
      150 hit points, and otherwise keeps the rest. */
  lemma FirstHit(speedDraw: int, amount: real)
    requires 50 <= speedDraw <= 100
    ensures var h := TakeDamage(Create(speedDraw), amount);
            && (h.killed <==> amount >= 150.0)
            && h.life.hp == 150.0 - amount
  {
  }
}
