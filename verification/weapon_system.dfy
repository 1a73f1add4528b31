/** The weapon system of the first game (systems/WeaponSystem.js): a map of
    cooldown flags that gates every weapon, the unstable flask (a random
    debuff, its ground radius and tick count, and the damage and slow each
    tick applies), the rusty scythe (its hit damage, rot damage and slow),
    and the purification bell.

    `Math.random()` is the `roll` parameter; the existence of the flask
    texture is the `hasFlaskTexture` parameter; positions, angles and
    distances are left out, except that a distance is an input where a
    radius test decides something. */
module WeaponSystem {
  import opened Js

  /** `getDebuffColor(type)`: the tint of a flask and its ground effect. */
  function DebuffColor(kind: string): int {
    match kind
    case "fire" => 0xff7700
    case "poison" => 0x00aa00
    case "slow" => 0x3366ff
    case _ => 0xffffff
  }

  /** Each debuff has a colour of its own, distinct from the white every
      other type name gets. */
  lemma DebuffColorsDistinct(kind: string)
    ensures |{DebuffColor("fire"), DebuffColor("poison"), DebuffColor("slow"), 0xffffff}| == 4
    ensures kind !in Effects ==> DebuffColor(kind) == 0xffffff
    ensures kind in Effects ==> DebuffColor(kind) != 0xffffff
  {
  }

  // ---------------------------------------------------------------------
  // Cooldowns

  /** `this.cooldowns`: weapon key to flag. */
  type Cooldowns = map<string, bool>

  /** `this.cooldowns[key]` is truthy. */
  predicate Cooling(cd: Cooldowns, key: string) {
    key in cd && cd[key]
  }

  /** `startCooldown(key, ms)`: the flag goes up (its fall is `CooldownEnd`). */
  function StartCooldown(cd: Cooldowns, key: string): (r: Cooldowns)
    ensures Cooling(r, key) && r.Keys == cd.Keys + {key}
    ensures forall k :: k in cd && k != key ==> r[k] == cd[k]
  {
    cd[key := true]
  }

  /** The callback `startCooldown` schedules `ms` later. */
  function CooldownEnd(cd: Cooldowns, key: string): (r: Cooldowns)
    ensures !Cooling(r, key) && r.Keys == cd.Keys + {key}
    ensures forall k :: k in cd && k != key ==> r[k] == cd[k]
  {
    cd[key := false]
  }

  /** `resetAllCooldowns()`: every existing flag drops and no key is added. */
  function ResetAllCooldowns(cd: Cooldowns): (r: Cooldowns)
    ensures r.Keys == cd.Keys
    ensures forall k :: !Cooling(r, k)
  {
    map k | k in cd :: false
  }

  datatype Weapon = Flask | Scythe | Bell

  /** The key each weapon is used and cooled down under. */
  function KeyOf(w: Weapon): string {
    match w
    case Flask => "frascoInstavel"
    case Scythe => "foiceEnferrujada"
    case Bell => "sinoPurificacao"
  }

  /** The weapon a key names, if any: the `switch (key)` of `useWeapon`. */
  function WeaponOf(key: string): (r: Option<Weapon>)
    ensures r.Some? ==> KeyOf(r.value) == key
    ensures r.None? ==> forall w :: KeyOf(w) != key
  {
    if key == "frascoInstavel" then Some(Flask)
    else if key == "foiceEnferrujada" then Some(Scythe)
    else if key == "sinoPurificacao" then Some(Bell)
    else None
  }

  /** The cooldown each weapon starts, in milliseconds. */
  function CooldownMs(w: Weapon): int {
    match w
    case Flask => 1200
    case Scythe => 2500
    case Bell => 1400
  }

  // ---------------------------------------------------------------------
  // The wielder

  /** The player properties the weapons read. The passive systems keep the
      ascension flag in `isInAscencion`; `isInAscension` is a distinct
      property that nothing in the game sets. */
  datatype Wielder = Wielder(slowRadiusBonus: Value, debuffDurationMultiplier: Value,
                             dotDamageBonus: Value, extraVenomBonus: Value,
                             isInAscension: bool, isInAscencion: bool, ascensionCount: Value,
                             knockbackBonus: Value, extraDamageOnPush: Value)

  // ---------------------------------------------------------------------
  // The unstable flask

  const Effects: seq<string> := ["fire", "poison", "slow"]

  /** The thrown flask: its debuff and the radius of its ground effect. */
  datatype Thrown = Thrown(effect: string, radius: real)

  /** `effects[Math.floor(Math.random() * effects.length)]` */
  function ChooseEffect(roll: real): (e: string)
    requires 0.0 <= roll < 1.0
    ensures e in Effects
  {
    var i := (roll * 3.0).Floor;
    Effects[i]
  }

  /** `AREA_RADIUS + slowRadiusBonus`: only the slow flask gets the bonus,
      which defaults to 30. */
  function FlaskRadius(effect: string, p: Wielder): (r: real)
    ensures effect != "slow" ==> r == 60.0
    ensures effect == "slow" ==> r == 60.0 + (if Truthy(p.slowRadiusBonus) then p.slowRadiusBonus.n else 30.0)
  {
    60.0 + (if effect == "slow" then Or(p.slowRadiusBonus, 30.0) else 0.0)
  }

  /** `_useFrasco()`: nothing without the texture; otherwise a flask is
      thrown and the flask cooldown starts. */
  function UseFlask(cd: Cooldowns, p: Wielder, roll: real, hasFlaskTexture: bool): (r: (Cooldowns, Option<Thrown>))
    requires 0.0 <= roll < 1.0
    ensures !hasFlaskTexture ==> r == (cd, None)
    ensures hasFlaskTexture ==> r.0 == StartCooldown(cd, KeyOf(Flask)) && r.1.Some?
                                && r.1.value.effect in Effects
                                && r.1.value.radius == FlaskRadius(r.1.value.effect, p)
  {
    if !hasFlaskTexture then (cd, None)
    else
      var effect := ChooseEffect(roll);
      (StartCooldown(cd, KeyOf(Flask)), Some(Thrown(effect, FlaskRadius(effect, p))))
  }

  /** `radius || AREA_RADIUS` in `_createGroundEffect`. */
  function GroundRadius(radius: real): (r: real)
    ensures radius != 0.0 ==> r == radius
    ensures radius == 0.0 ==> r == 60.0
  {
    Or(Num(radius), 60.0)
  }

  /** `Math.ceil(BASE_TICKS * (debuffDurationMultiplier || 1))` */
  function TotalTicks(p: Wielder): (t: int)
    ensures !Truthy(p.debuffDurationMultiplier) ==> t == 6
    ensures Truthy(p.debuffDurationMultiplier) ==>
              6.0 * p.debuffDurationMultiplier.n <= t as real < 6.0 * p.debuffDurationMultiplier.n + 1.0
  {
    Ceil(6.0 * Or(p.debuffDurationMultiplier, 1.0))
  }

  /** The ground effect's repeating timer: each tick counts and applies the
      debuff, and the timer stops once the count reaches `totalTicks`, so
      the first tick always runs. Returns the number of ticks applied. */
  method RunGroundEffect(totalTicks: int) returns (applied: nat)
    ensures applied == if totalTicks < 1 then 1 else totalTicks
  {
    var ticksDone: nat := 0;
    var stopped := false;
    while !stopped
      invariant !stopped ==> ticksDone < totalTicks || ticksDone == 0
      invariant stopped ==> ticksDone == if totalTicks < 1 then 1 else totalTicks
      invariant totalTicks >= 1 ==> ticksDone <= totalTicks
      decreases if stopped then 0 else 1, if totalTicks > ticksDone then totalTicks - ticksDone else 0
    {
      ticksDone := ticksDone + 1;
      if ticksDone >= totalTicks {
        stopped := true;
      }
    }
    applied := ticksDone;
  }

  /** `8 * (dotDamageBonus || 1)` */
  function BaseDotDamage(p: Wielder): (d: real)
    ensures !Truthy(p.dotDamageBonus) ==> d == 8.0
    ensures Truthy(p.dotDamageBonus) ==> d == 8.0 * p.dotDamageBonus.n
  {
    8.0 * Or(p.dotDamageBonus, 1.0)
  }

  /** The damage of one tick of `_applyFlaskDebuff(enemy, effect)`; an
      unknown effect deals none. */
  function DebuffDamage(effect: string, p: Wielder): (d: Option<real>)
    ensures effect == "fire" ==> d == Some(BaseDotDamage(p) * 1.5)
    ensures effect == "poison" ==> d == Some(BaseDotDamage(p) + 2.0)
    ensures effect == "slow" ==> d == Some(BaseDotDamage(p) * 0.1)
    ensures d.None? <==> effect !in Effects
  {
    match effect
    case "fire" => Some(BaseDotDamage(p) * 1.5)
    case "poison" => Some(BaseDotDamage(p) + 2.0)
    case "slow" => Some(BaseDotDamage(p) * 0.1)
    case _ => None
  }

  /** With the default bonus the three debuffs deal 12, 10 and 0.8 a tick;
      with any bonus of at least one half, fire hurts most and slow least. */
  lemma DebuffOrder(p: Wielder)
    ensures !Truthy(p.dotDamageBonus) ==>
              DebuffDamage("fire", p) == Some(12.0) && DebuffDamage("poison", p) == Some(10.0)
              && DebuffDamage("slow", p) == Some(0.8)
    ensures BaseDotDamage(p) >= 4.0 ==>
              DebuffDamage("fire", p).value >= DebuffDamage("poison", p).value > DebuffDamage("slow", p).value
  {
  }

  /** The movement fields of an enemy the flask or the scythe slows. */
  datatype Mover = Mover(speed: real, origSpeed: Value)

  /** `if (!enemy._origSpeed) enemy._origSpeed = enemy.speed`: the first
      slow remembers the speed; a falsy memory is replaced. */
  function Remember(e: Mover): (r: Mover)
    ensures r.speed == e.speed
    ensures Truthy(e.origSpeed) ==> r.origSpeed == e.origSpeed
    ensures !Truthy(e.origSpeed) ==> r.origSpeed == Num(e.speed)
  {
    if Truthy(e.origSpeed) then e else e.(origSpeed := Num(e.speed))
  }

  /** The slow flask's tick: the speed drops to 0.6 of the remembered speed
      if it is above that; the second component says whether a restore was
      scheduled. */
  function FlaskSlow(e: Mover): (r: (Mover, bool))
    ensures r.0.origSpeed == Remember(e).origSpeed
    ensures var o := Remember(e).origSpeed.n;
            && (r.1 <==> e.speed > o * 0.6)
            && r.0.speed == (if r.1 then o * 0.6 else e.speed)
  {
    var m := Remember(e);
    if m.speed > m.origSpeed.n * 0.6 then (m.(speed := m.origSpeed.n * 0.6), true) else (m, false)
  }

  /** The restore scheduled by the slow: an active enemy slower than its
      remembered speed gets it back. */
  function FlaskRestore(e: Mover, active: bool): (r: Mover)
    ensures active && e.origSpeed.Num? && e.speed < e.origSpeed.n ==> r == e.(speed := e.origSpeed.n)
    ensures !(active && e.origSpeed.Num? && e.speed < e.origSpeed.n) ==> r == e
  {
    if active && e.origSpeed.Num? && e.speed < e.origSpeed.n then e.(speed := e.origSpeed.n) else e
  }

  /** The remembered speed is captured once: a second slow keeps it, and
      slowing an already slowed enemy changes nothing more. */
  lemma SlowCapturesOnce(e: Mover)
    requires e.speed > 0.0
    ensures FlaskSlow(FlaskSlow(e).0).0.origSpeed == FlaskSlow(e).0.origSpeed
    ensures Truthy(e.origSpeed) && e.origSpeed.n > 0.0 ==> FlaskSlow(FlaskSlow(e).0) == (FlaskSlow(e).0, false)
  {
  }

  /** A slow and its restore return a fresh enemy to its speed. */
  lemma SlowRestoreRoundTrip(e: Mover)
    requires !Truthy(e.origSpeed) && e.speed > 0.0
    ensures FlaskRestore(FlaskSlow(e).0, true) == Mover(e.speed, Num(e.speed))
  {
  }

  // ---------------------------------------------------------------------
  // The rusty scythe

  /** The ascension bonus at the top of `useFoiceEnferrujada()` as the
      source writes it: it tests `isInAscension`, a property nothing sets. */
  function ScytheBonusAsWritten(p: Wielder): (r: Wielder)
    ensures r.(extraVenomBonus := p.extraVenomBonus) == p
    ensures !p.isInAscension ==> r == p
    ensures p.isInAscension && p.ascensionCount.Num? && p.ascensionCount.n >= 3.0 ==> r.extraVenomBonus == Num(1.5)
  {
    if p.isInAscension && p.ascensionCount.Num? && p.ascensionCount.n >= 3.0 then p.(extraVenomBonus := Num(1.5)) else p
  }

  /** The same bonus reading the flag the passive systems maintain. */
  function ScytheBonus(p: Wielder): (r: Wielder)
    ensures r.(extraVenomBonus := p.extraVenomBonus) == p
    ensures p.isInAscencion && p.ascensionCount.Num? && p.ascensionCount.n >= 3.0 ==> r.extraVenomBonus == Num(1.5)
    ensures !p.isInAscencion || !p.ascensionCount.Num? || p.ascensionCount.n < 3.0 ==> r == p
  {
    if p.isInAscencion && p.ascensionCount.Num? && p.ascensionCount.n >= 3.0 then p.(extraVenomBonus := Num(1.5)) else p
  }

  /** A scythe hit: `5 * (dotDamageBonus || 1) * (extraVenomBonus || 1)`. */
  function ScytheHitDamage(p: Wielder): (d: real)
    ensures !Truthy(p.extraVenomBonus) ==> d == BaseDotDamage(p) * 5.0 / 8.0
    ensures Truthy(p.extraVenomBonus) ==> d == BaseDotDamage(p) * 5.0 / 8.0 * p.extraVenomBonus.n
  {
    5.0 * Or(p.dotDamageBonus, 1.0) * Or(p.extraVenomBonus, 1.0)
  }

  /** One tick of the rot timer the scythe starts: `5 * (dotDamageBonus || 1)`. */
  function RotDamage(p: Wielder): (d: real)
    ensures d * 8.0 == BaseDotDamage(p) * 5.0
  {
    5.0 * Or(p.dotDamageBonus, 1.0)
  }

  /** An ascending gravedigger from its third ascension on, with no bonus
      yet: as written the scythe never grants the venom bonus to it (the
      hit stays at 5), while the intended reading raises the hit to 7.5. */
  lemma VenomBonusUnreachable()
    ensures var p := Wielder(Undefined, Undefined, Undefined, Undefined, false, true, Num(3.0),
                             Undefined, Undefined);
            && ScytheHitDamage(ScytheBonusAsWritten(p)) == 5.0
            && ScytheHitDamage(ScytheBonus(p)) == 7.5
  {
  }

  /** With the flag the passives maintain, the bonus applies exactly to an
      ascension from the third on, and never lowers a hit. */
  lemma ScytheBonusApplies(p: Wielder)
    requires !Truthy(p.extraVenomBonus) && (Truthy(p.dotDamageBonus) ==> p.dotDamageBonus.n > 0.0)
    ensures ScytheHitDamage(ScytheBonus(p)) >= ScytheHitDamage(p)
    ensures ScytheHitDamage(ScytheBonus(p)) > ScytheHitDamage(p) <==>
              p.isInAscencion && p.ascensionCount.Num? && p.ascensionCount.n >= 3.0
  {
  }

  /** The scythe's slow: the speed becomes `max(0.7 * _origSpeed, 30)`. */
  function ScytheSlow(e: Mover): (r: Mover)
    ensures r.origSpeed == Remember(e).origSpeed
    ensures r.speed == Max(Remember(e).origSpeed.n * 0.7, 30.0)
    ensures r.speed >= 30.0
  {
    var m := Remember(e);
    m.(speed := Max(m.origSpeed.n * 0.7, 30.0))
  }

  /** The hit callback: inactive and dead enemies are skipped; otherwise the
      enemy takes the hit damage and is slowed. */
  function ScytheHit(p: Wielder, e: Mover, active: bool, isDead: bool): (r: (Mover, Option<real>))
    ensures !active || isDead ==> r == (e, None)
    ensures active && !isDead ==> r == (ScytheSlow(e), Some(ScytheHitDamage(p)))
  {
    if !active || isDead then (e, None) else (ScytheSlow(e), Some(ScytheHitDamage(p)))
  }

  /** The restore the scythe schedules 2000 ms after a hit: an active enemy
      gets its remembered speed back, whether or not it is still slowed. */
  function ScytheRestore(e: Mover, active: bool): (r: Mover)
    requires e.origSpeed.Num?
    ensures r.origSpeed == e.origSpeed
    ensures active ==> r.speed == e.origSpeed.n
    ensures !active ==> r == e
  {
    if active then e.(speed := e.origSpeed.n) else e
  }

  /** A scythe hit on a fresh enemy and its restore bring the enemy back to
      its own speed, and an inactive enemy keeps the slow. */
  lemma ScytheRoundTrip(e: Mover)
    requires !Truthy(e.origSpeed) && e.speed > 0.0
    ensures ScytheRestore(ScytheSlow(e), true) == Mover(e.speed, Num(e.speed))
    ensures ScytheRestore(ScytheSlow(e), false).speed < e.speed || e.speed <= 30.0
  {
  }

  // ---------------------------------------------------------------------
  // The purification bell

  /** The bell's push on an enemy `dist` away: inactive enemies are
      skipped; an active one within 120 is knocked back with
      `300 * (knockbackBonus || 1)` and takes `12 + (extraDamageOnPush || 0)`. */
  function BellPush(p: Wielder, active: bool, dist: real): (r: Option<(real, real)>)
    ensures !active || dist > 120.0 ==> r.None?
    ensures active && dist <= 120.0 ==> r.Some?
    ensures r.Some? && !Truthy(p.knockbackBonus) ==> r.value.0 == 300.0
    ensures r.Some? && Truthy(p.knockbackBonus) ==> r.value.0 == 300.0 * p.knockbackBonus.n
    ensures r.Some? && !Truthy(p.extraDamageOnPush) ==> r.value.1 == 12.0
    ensures r.Some? && Truthy(p.extraDamageOnPush) ==> r.value.1 == 12.0 + p.extraDamageOnPush.n
  {
    if active && dist <= 120.0 then Some((300.0 * Or(p.knockbackBonus, 1.0), 12.0 + Or(p.extraDamageOnPush, 0.0))) else None
  }

  // ---------------------------------------------------------------------
  // useWeapon

  datatype Use = Use(cooldowns: Cooldowns, wielder: Wielder, thrown: Option<Thrown>)

  /** `useWeapon(key)`: a cooling weapon or an unknown key does nothing;
      otherwise the weapon runs and starts its cooldown (the flask only when
      its texture exists). The scythe applies its ascension bonus as the
      source writes it, so in the game the wielder never changes. */
  function UseWeapon(cd: Cooldowns, p: Wielder, key: string, roll: real, hasFlaskTexture: bool): (r: Use)
    requires 0.0 <= roll < 1.0
    ensures Cooling(cd, key) || WeaponOf(key).None? ==> r == Use(cd, p, None)
    ensures !Cooling(cd, key) && WeaponOf(key) == Some(Flask) ==>
              (r.cooldowns, r.thrown) == UseFlask(cd, p, roll, hasFlaskTexture) && r.wielder == p
    ensures !Cooling(cd, key) && WeaponOf(key) == Some(Scythe) ==>
              r == Use(StartCooldown(cd, key), ScytheBonusAsWritten(p), None)
    ensures !Cooling(cd, key) && WeaponOf(key) == Some(Bell) ==>
              r == Use(StartCooldown(cd, key), p, None)
    ensures !p.isInAscension ==> r.wielder == p
    ensures forall k :: k in cd && k != key ==> k in r.cooldowns && r.cooldowns[k] == cd[k]
  {
    if Cooling(cd, key) then Use(cd, p, None)
    else
      match WeaponOf(key)
      case None => Use(cd, p, None)
      case Some(Flask) =>
        var (c, t) := UseFlask(cd, p, roll, hasFlaskTexture);
        Use(c, p, t)
      case Some(Scythe) => Use(StartCooldown(cd, key), ScytheBonusAsWritten(p), None)
      case Some(Bell) => Use(StartCooldown(cd, key), p, None)
  }

  /** `useWeapon(key)` with the scythe reading the ascension flag the
      passives set: the same cooldowns and throws, and a wielder that
      differs only in the scythe's venom bonus. */
  function UseWeaponIntended(cd: Cooldowns, p: Wielder, key: string, roll: real, hasFlaskTexture: bool): (r: Use)
    requires 0.0 <= roll < 1.0
    ensures r.cooldowns == UseWeapon(cd, p, key, roll, hasFlaskTexture).cooldowns
    ensures r.thrown == UseWeapon(cd, p, key, roll, hasFlaskTexture).thrown
    ensures !Cooling(cd, key) && WeaponOf(key) == Some(Scythe) ==> r.wielder == ScytheBonus(p)
    ensures Cooling(cd, key) || WeaponOf(key) != Some(Scythe) ==> r.wielder == p
  {
    if Cooling(cd, key) then Use(cd, p, None)
    else
      match WeaponOf(key)
      case None => Use(cd, p, None)
      case Some(Flask) =>
        var (c, t) := UseFlask(cd, p, roll, hasFlaskTexture);
        Use(c, p, t)
      case Some(Scythe) => Use(StartCooldown(cd, key), ScytheBonus(p), None)
      case Some(Bell) => Use(StartCooldown(cd, key), p, None)
  }

  /** On the input of the finding the program's `useWeapon` leaves the venom
      bonus unset, while the intended one grants 1.5. */
  lemma UseWeaponDropsVenom()
    ensures var p := Wielder(Undefined, Undefined, Undefined, Undefined, false, true, Num(3.0),
                             Undefined, Undefined);
            && UseWeapon(map[], p, "foiceEnferrujada", 0.0, true).wielder.extraVenomBonus == Undefined
            && UseWeaponIntended(map[], p, "foiceEnferrujada", 0.0, true).wielder.extraVenomBonus == Num(1.5)
  {
  }

  /** A weapon that just fired is blocked until its cooldown ends, and
      usable again afterwards. */
  lemma CooldownGates(cd: Cooldowns, p: Wielder, w: Weapon, roll: real, roll2: real)
    requires 0.0 <= roll < 1.0 && 0.0 <= roll2 < 1.0
    requires !Cooling(cd, KeyOf(w))
    ensures var u := UseWeapon(cd, p, KeyOf(w), roll, true);
            && UseWeapon(u.cooldowns, u.wielder, KeyOf(w), roll2, true) == Use(u.cooldowns, u.wielder, None)
            && !Cooling(CooldownEnd(u.cooldowns, KeyOf(w)), KeyOf(w))
  {
    assert WeaponOf(KeyOf(w)) == Some(w);
  }

  /** After `resetAllCooldowns` every known weapon fires again. */
  lemma ResetUnblocks(cd: Cooldowns, p: Wielder, w: Weapon, roll: real)
    requires 0.0 <= roll < 1.0
    ensures UseWeapon(ResetAllCooldowns(cd), p, KeyOf(w), roll, true).cooldowns == StartCooldown(ResetAllCooldowns(cd), KeyOf(w))
  {
    assert WeaponOf(KeyOf(w)) == Some(w);
  }
}
