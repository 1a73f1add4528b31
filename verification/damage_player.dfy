/** The current player's damage component (js/entities/Player/DamagePlayer.js):
    hit-point initialisation, the incoming-damage pipeline (shield, then armor,
    then a floor of one), outgoing damage with critical and double hits and
    lifesteal, knockback, and the repeated hits on an enemy.

    The component reads its combat numbers as plain properties of the stats
    object it was given, so each of them may be missing; they are `Value`s
    here, and a comparison against a missing one is false as in JavaScript.
    `Math.random()` draws are parameters. */
module DamagePlayer {
  import opened Js

  /** The properties of the stats object that the component reads. */
  datatype Combat = Combat(shield: Value, armor: Value, critChance: Value, critDamage: Value,
                           doubleHit: Value, lifesteal: Value, knockback: Value)

  /** The constructor's hit points: a value that is already a number stays
      (even `NaN`); otherwise `maxHP || 100`. */
  function InitHP(currentHP: Value, maxHP: Value): (r: Value)
    ensures !currentHP.Undefined? ==> r == currentHP
    ensures currentHP.Undefined? ==> r.Num? && r.n == (if Truthy(maxHP) then maxHP.n else 100.0)
  {
    if currentHP.Undefined? then Num(Or(maxHP, 100.0)) else currentHP
  }

  // ---------------------------------------------------------------------
  // Incoming damage

  datatype Outcome = Outcome(shield: Value, hp: Value, died: bool)

  /** What the shield takes of a hit: `Math.min(shield, dmg)` when the shield is positive. */
  function Absorbed(shield: Value, amount: real): real {
    if Positive(shield) then Min(shield.n, amount) else 0.0
  }

  /** The shield swallows the whole hit. */
  predicate FullyAbsorbed(shield: Value, amount: real) {
    Positive(shield) && amount - Absorbed(shield, amount) <= 0.0
  }

  /** The damage that reaches hit points once shield and armor have acted. */
  function Dealt(c: Combat, amount: real): (d: real)
    ensures d >= 1.0
    ensures d >= amount - Absorbed(c.shield, amount) - Or(c.armor, 0.0)
  {
    var dmg := amount - Absorbed(c.shield, amount) - Or(c.armor, 0.0);
    if dmg < 1.0 then 1.0 else dmg
  }

  /** `takeDamage(amount)` with hit points `hp`. */
  function TakeDamage(c: Combat, hp: Value, amount: real): (o: Outcome)
    ensures !Positive(c.shield) ==> o.shield == c.shield
    ensures Positive(c.shield) ==> o.shield == Num(c.shield.n - Min(c.shield.n, amount))
    ensures Positive(c.shield) && amount >= 0.0 ==> 0.0 <= o.shield.n <= c.shield.n
    ensures Positive(c.shield) && amount <= c.shield.n ==> o.hp == hp && !o.died
    ensures !FullyAbsorbed(c.shield, amount) ==>
              && (o.died <==> hp.Num? && hp.n - Dealt(c, amount) <= 0.0)
              && (hp.Num? ==> o.hp.Num? && o.hp.n == Max(0.0, hp.n - Dealt(c, amount)))
              && (!hp.Num? ==> o.hp == NaN)
    ensures o.hp.Num? ==> o.hp.n >= 0.0 || o.hp == hp
  {
    var shield := if Positive(c.shield) then Num(c.shield.n - Absorbed(c.shield, amount)) else c.shield;
    if FullyAbsorbed(c.shield, amount) then Outcome(shield, hp, false)
    else
      var left := Plus(hp, -Dealt(c, amount));
      if left.Num? && left.n <= 0.0 then Outcome(shield, Num(0.0), true)
      else Outcome(shield, left, false)
  }

  /** A hit the shield does not swallow costs at least one hit point, or all that are left. */
  lemma HitCostsAtLeastOne(c: Combat, hp: real, amount: real)
    requires !FullyAbsorbed(c.shield, amount)
    ensures TakeDamage(c, Num(hp), amount).hp.n <= Max(0.0, hp - 1.0)
  {
  }

  /** More armor never leaves the player with fewer hit points. */
  lemma ArmorNeverHurts(c: Combat, hp: real, amount: real, armor: real)
    requires Or(c.armor, 0.0) <= armor
    ensures TakeDamage(c, Num(hp), amount).hp.n <= TakeDamage(c.(armor := Num(armor)), Num(hp), amount).hp.n
  {
    assert Or(Num(armor), 0.0) == armor;
    assert Dealt(c.(armor := Num(armor)), amount) <= Dealt(c, amount);
  }

  /** More shield never leaves the player with fewer hit points. */
  lemma ShieldNeverHurts(c: Combat, hp: real, amount: real, shield: real)
    requires amount >= 0.0 && hp >= 0.0
    requires (if Positive(c.shield) then c.shield.n else 0.0) <= shield
    ensures TakeDamage(c, Num(hp), amount).hp.n <= TakeDamage(c.(shield := Num(shield)), Num(hp), amount).hp.n
  {
  }

  // ---------------------------------------------------------------------
  // Outgoing damage

  datatype Info = Info(damage: Value, hits: int, isCrit: bool)

  /** `calculateDamage(baseDamage)` with `critRoll` and `hitRoll` the two
      `Math.random()` draws; the second component is the amount passed to
      `player.heal`, if any. */
  function CalculateDamage(c: Combat, baseDamage: Value, critRoll: real, hitRoll: real): (r: (Info, Option<Value>))
    ensures r.0.isCrit <==> Below(critRoll, c.critChance)
    ensures r.0.damage == if r.0.isCrit then Product(Coalesce(baseDamage, Num(1.0)), c.critDamage)
                          else Coalesce(baseDamage, Num(1.0))
    ensures r.0.hits == 1 || r.0.hits == 2
    ensures r.0.hits == 2 <==> Below(hitRoll, c.doubleHit)
    ensures r.1.Some? <==> Positive(c.lifesteal)
    ensures r.1.Some? ==> r.1.value == Product(r.0.damage, c.lifesteal)
  {
    var base := Coalesce(baseDamage, Num(1.0));
    var isCrit := Below(critRoll, c.critChance);
    var dmg := if isCrit then Product(base, c.critDamage) else base;
    var hits := if Below(hitRoll, c.doubleHit) then 2 else 1;
    var heal := if Positive(c.lifesteal) then Some(Product(dmg, c.lifesteal)) else None;
    (Info(dmg, hits, isCrit), heal)
  }

  /** With draws in [0, 1): a chance of one or more always lands, and a
      chance of zero or less (or a missing one) never does. */
  lemma ChanceBounds(c: Combat, baseDamage: Value, critRoll: real, hitRoll: real)
    requires 0.0 <= critRoll < 1.0 && 0.0 <= hitRoll < 1.0
    ensures c.critChance.Num? && c.critChance.n >= 1.0 ==> CalculateDamage(c, baseDamage, critRoll, hitRoll).0.isCrit
    ensures !Positive(c.critChance) ==> !CalculateDamage(c, baseDamage, critRoll, hitRoll).0.isCrit
    ensures c.doubleHit.Num? && c.doubleHit.n >= 1.0 ==> CalculateDamage(c, baseDamage, critRoll, hitRoll).0.hits == 2
    ensures !Positive(c.doubleHit) ==> CalculateDamage(c, baseDamage, critRoll, hitRoll).0.hits == 1
  {
  }

  /** `getKnockback(force)`: scaled by `knockback`, which defaults to 1 when missing or zero. */
  function GetKnockback(c: Combat, force: real): (r: real)
    ensures !Truthy(c.knockback) ==> r == force
    ensures Truthy(c.knockback) ==> r == force * c.knockback.n
  {
    force * Or(c.knockback, 1.0)
  }

  /** What `dealDamageToEnemy` does to the enemy: the arguments of its
      `takeDamage` calls and of its `applyKnockback` calls, in order. */
  datatype Deal = Deal(info: Info, heal: Option<Value>, damageCalls: seq<Value>, knockbacks: seq<real>)

  /** `dealDamageToEnemy(enemy, baseDamage)`; `knockable` says whether the
      enemy has `applyKnockback`. */
  method DealDamageToEnemy(c: Combat, baseDamage: Value, critRoll: real, hitRoll: real, knockable: bool)
    returns (r: Deal)
    ensures (r.info, r.heal) == CalculateDamage(c, baseDamage, critRoll, hitRoll)
    ensures |r.damageCalls| == r.info.hits
    ensures forall i :: 0 <= i < |r.damageCalls| ==> r.damageCalls[i] == r.info.damage
    ensures |r.knockbacks| == if knockable then r.info.hits else 0
    ensures forall i :: 0 <= i < |r.knockbacks| ==> r.knockbacks[i] == GetKnockback(c, 50.0)
  {
    var computed := CalculateDamage(c, baseDamage, critRoll, hitRoll);
    var info := computed.0;
    var calls: seq<Value> := [];
    var pushes: seq<real> := [];
    var i := 0;
    while i < info.hits
      invariant 0 <= i <= info.hits
      invariant |calls| == i
      invariant forall j :: 0 <= j < |calls| ==> calls[j] == info.damage
      invariant |pushes| == if knockable then i else 0
      invariant forall j :: 0 <= j < |pushes| ==> pushes[j] == GetKnockback(c, 50.0)
    {
      calls := calls + [info.damage];
      if knockable {
        pushes := pushes + [GetKnockback(c, 50.0)];
      }
      i := i + 1;
    }
    r := Deal(info, computed.1, calls, pushes);
  }
}
