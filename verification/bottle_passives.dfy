/** The bottle-throwing passive system of the current game
    (js/systems/PassiveSystem.js): three bottle casts gated by ready flags,
    bottle damage and area by type, the alchemist's charge (by kills and by
    a periodic tick that fires all three bottles when full), and its own
    copy of the gravedigger's ascension and zombie tank.

    Restoring a ready flag is a scheduled callback; it is modelled as its
    own transition. Thrown bottles are recorded by type. */
module BottlePassives {
  import opened Js
  import opened ClassNames
  import Coveiro

  datatype Kind = Fire | Poison | Slow

  datatype Bottles = Bottles(fireReady: bool, poisonReady: bool, slowReady: bool, thrown: seq<Kind>)

  function Init(): (b: Bottles)
    ensures b.fireReady && b.poisonReady && b.slowReady && b.thrown == []
  {
    Bottles(true, true, true, [])
  }

  function Ready(b: Bottles, k: Kind): bool {
    match k
    case Fire => b.fireReady
    case Poison => b.poisonReady
    case Slow => b.slowReady
  }

  function SetReady(b: Bottles, k: Kind, v: bool): (r: Bottles)
    ensures Ready(r, k) == v && r.thrown == b.thrown
    ensures forall j :: j != k ==> Ready(r, j) == Ready(b, j)
  {
    match k
    case Fire => b.(fireReady := v)
    case Poison => b.(poisonReady := v)
    case Slow => b.(slowReady := v)
  }

  /** `castFireBottle`, `castPoisonBottle`, `castSlowBottle`: nothing while
      not ready; otherwise the flag drops (its restore is scheduled) and the
      bottle is thrown. */
  function Cast(b: Bottles, k: Kind): (r: Bottles)
    ensures !Ready(b, k) ==> r == b
    ensures Ready(b, k) ==> !Ready(r, k) && r.thrown == b.thrown + [k]
    ensures forall j :: j != k ==> Ready(r, j) == Ready(b, j)
  {
    if !Ready(b, k) then b
    else SetReady(b, k, false).(thrown := b.thrown + [k])
  }

  /** The cooldown's end: the flag comes back. */
  function Restore(b: Bottles, k: Kind): (r: Bottles)
    ensures Ready(r, k) && r.thrown == b.thrown
    ensures forall j :: j != k ==> Ready(r, j) == Ready(b, j)
  {
    SetReady(b, k, true)
  }

  /** The cooldown of each bottle in milliseconds. */
  function Cooldown(k: Kind): int {
    match k
    case Fire => 2000
    case Poison => 2500
    case Slow => 3000
  }

  /** `getBottleDamage(type)` */
  function BottleDamage(kind: string): int {
    match kind
    case "fire" => 40
    case "poison" => 20
    case "slow" => 5
    case _ => 0
  }

  /** `getBottleArea(type)` */
  function BottleArea(kind: string): int {
    match kind
    case "fire" => 40
    case "poison" => 70
    case "slow" => 125
    case _ => 0
  }

  /** Among the three bottles, a larger area goes with a smaller damage;
      any other type name does nothing and covers nothing. */
  lemma AreaTradesDamage(kind: string)
    ensures 0 < BottleArea("fire") < BottleArea("poison") < BottleArea("slow")
    ensures BottleDamage("fire") > BottleDamage("poison") > BottleDamage("slow") > 0
    ensures kind != "fire" && kind != "poison" && kind != "slow" ==> BottleDamage(kind) == 0 && BottleArea(kind) == 0
  {
  }

  /** `activatePassiva()`: every flag is forced ready, then all three are
      cast, so all three end not ready and one of each is thrown. */
  function ActivatePassiva(b: Bottles): (r: Bottles)
    ensures !r.fireReady && !r.poisonReady && !r.slowReady
    ensures r.thrown == b.thrown + [Fire, Poison, Slow]
  {
    var ready := Bottles(true, true, true, b.thrown);
    Cast(Cast(Cast(ready, Fire), Poison), Slow)
  }

  // ---------------------------------------------------------------------
  // The alchemist's charge

  datatype Charge = Charge(alchCharge: Value, alchChargeMax: Value)

  /** `a < b` between two numeric slots. */
  predicate Less(a: Value, b: Value) {
    a.Num? && b.Num? && a.n < b.n
  }

  /** The lower-cased class name, or the empty string when there is none. */
  function ClassKey(currentClass: Option<string>): string {
    if currentClass.Some? then seq(|currentClass.value|, i requires 0 <= i < |currentClass.value| => LowerChar(currentClass.value[i]))
    else ""
  }

  /** `handleKill(enemy)`: only an alchemist class charges, by 15 up to the
      maximum, after missing values are defaulted (0 and 100). */
  function HandleKill(c: Charge, currentClass: Option<string>): (r: Charge)
    ensures !Includes(ClassKey(currentClass), "alquimista") ==> r == c
    ensures Includes(ClassKey(currentClass), "alquimista") ==>
              var charge := Coalesce(c.alchCharge, Num(0.0));
              var max := Coalesce(c.alchChargeMax, Num(100.0));
              && r.alchChargeMax == max
              && (charge.Num? && max.Num? ==> r.alchCharge == Num(Min(charge.n + 15.0, max.n)))
  {
    if !Includes(ClassKey(currentClass), "alquimista") then c
    else
      var charge := Coalesce(c.alchCharge, Num(0.0));
      var max := Coalesce(c.alchChargeMax, Num(100.0));
      Charge(MinValue(Plus(charge, 15.0), max), max)
  }

  /** `activateAlquimista()`'s defaults. */
  function ActivateAlquimista(c: Charge): (r: Charge)
    ensures !c.alchCharge.Undefined? ==> r.alchCharge == c.alchCharge
    ensures !c.alchChargeMax.Undefined? ==> r.alchChargeMax == c.alchChargeMax
    ensures c.alchCharge.Undefined? ==> r.alchCharge == Num(0.0)
    ensures c.alchChargeMax.Undefined? ==> r.alchChargeMax == Num(100.0)
  {
    Charge(Coalesce(c.alchCharge, Num(0.0)), Coalesce(c.alchChargeMax, Num(100.0)))
  }

  /** Activation fills in the same defaults as the kill handler, so an
      activated alchemist charges as one that was not; activating twice is
      activating once. */
  lemma ActivationMatchesKillDefaults(c: Charge, currentClass: Option<string>)
    ensures HandleKill(ActivateAlquimista(c), currentClass) == HandleKill(c, currentClass)
        || !Includes(ClassKey(currentClass), "alquimista")
    ensures ActivateAlquimista(ActivateAlquimista(c)) == ActivateAlquimista(c)
  {
  }

  /** The periodic charge tick (every 70 ms): one point while below the
      maximum; at the maximum every bottle is thrown and the charge empties. */
  function Tick(c: Charge, b: Bottles): (r: (Charge, Bottles))
    ensures r.0.alchChargeMax == c.alchChargeMax
    ensures r.1 == b || (r.1 == ActivatePassiva(b) && r.0.alchCharge == Num(0.0))
    ensures !c.alchCharge.Num? || !c.alchChargeMax.Num? ==> r == (c, b)
    ensures c.alchCharge.Num? && c.alchChargeMax.Num? && 0.0 <= c.alchCharge.n <= c.alchChargeMax.n ==>
              r.0.alchCharge.Num? && 0.0 <= r.0.alchCharge.n <= c.alchChargeMax.n
    ensures c.alchCharge.Num? && c.alchChargeMax.Num? && 0.0 <= c.alchCharge.n < c.alchChargeMax.n - 1.0 ==>
              r == (Charge(Num(c.alchCharge.n + 1.0), c.alchChargeMax), b)
  {
    var c1 := if Less(c.alchCharge, c.alchChargeMax) then Plus(c.alchCharge, 1.0) else c.alchCharge;
    if c1.Num? && c.alchChargeMax.Num? && c1.n >= c.alchChargeMax.n then (Charge(Num(0.0), c.alchChargeMax), ActivatePassiva(b))
    else (Charge(c1, c.alchChargeMax), b)
  }

  /** The filled fraction of the charge bar in `updateAlchBar`:
      `(alchCharge || 0) / (alchChargeMax || 100)`, clamped to [0, 1]. */
  function AlchBarFraction(c: Charge): (r: real)
    ensures 0.0 <= r <= 1.0
    ensures var k := Or(c.alchCharge, 0.0); var m := Or(c.alchChargeMax, 100.0);
            && (m > 0.0 && 0.0 <= k <= m ==> r * m == k)
            && (m > 0.0 && k >= m ==> r == 1.0)
            && (m > 0.0 && k <= 0.0 ==> r == 0.0)
  {
    var k := Or(c.alchCharge, 0.0);
    var m := Or(c.alchChargeMax, 100.0);
    var ratio := k / m;
    if m > 0.0 then
      assert ratio * m == k;
      assert k < m ==> (m - k) / m > 0.0 && ratio + (m - k) / m == 1.0;
      if k <= 0.0 then 0.0 else if k >= m then 1.0 else ratio
    else if ratio < 0.0 then 0.0 else if ratio > 1.0 then 1.0 else ratio
  }

  function Ticks(c: Charge, b: Bottles, n: nat): (Charge, Bottles)
    decreases n
  {
    if n == 0 then (c, b) else
      var t := Tick(c, b);
      Ticks(t.0, t.1, n - 1)
  }

  /** From an empty charge with maximum `m`, `n < m` ticks count up to `n`
      and throw nothing; the `m`-th tick throws all three bottles and
      empties the charge. */
  lemma {:induction false} TicksFill(b: Bottles, m: nat, n: nat)
    requires 0 < m && n <= m
    ensures n < m ==> Ticks(Charge(Num(0.0), Num(m as real)), b, n) == (Charge(Num(n as real), Num(m as real)), b)
    ensures n == m ==> Ticks(Charge(Num(0.0), Num(m as real)), b, n) == (Charge(Num(0.0), Num(m as real)), ActivatePassiva(b))
    decreases n
  {
    if n > 0 {
      TicksFill(b, m, n - 1);
      TicksSplit(Charge(Num(0.0), Num(m as real)), b, n - 1);
    }
  }

  lemma {:induction false} TicksSplit(c: Charge, b: Bottles, n: nat)
    ensures Ticks(c, b, n + 1) == Tick(Ticks(c, b, n).0, Ticks(c, b, n).1)
    decreases n
  {
    if n > 0 {
      var t := Tick(c, b);
      TicksSplit(t.0, t.1, n - 1);
    }
  }

  // ---------------------------------------------------------------------
  // The gravedigger's copy

  /** `activateCoveiro()` with a player: a fresh counter. */
  function ActivateCoveiro(p: Coveiro.Player): (r: Coveiro.Player)
    ensures Space(r) == (r, None)
    ensures ActivateAscension(r).1.None? && ActivateAscension(r).0.ascensionCount == 1
    ensures r.hp == p.hp && r.tempMaxHp == p.tempMaxHp && r.foicePoisonMultiplier == p.foicePoisonMultiplier
  {
    p.(kills := 0, ascensionCount := 0, isInAscencion := false, nextAscencionAt := 30)
  }

  /** The kill handler: no count during an ascension. */
  function OnKill(p: Coveiro.Player): (r: Coveiro.Player)
    ensures r.kills == if p.isInAscencion then p.kills else p.kills + 1
    ensures r == p.(kills := r.kills)
  {
    if p.isInAscencion then p else p.(kills := p.kills + 1)
  }

  /** A tank as this file builds it. */
  datatype Zombie = Zombie(tier: int, maxHp: real, hp: real, speed: int, tauntRadius: int,
                           corrosionDamage: int, corrosionRadius: int, lifeSteal: real)

  function SpawnZombieTank(asc: int): (z: Zombie)
    ensures var m := Coveiro.SpawnZombie(asc);
            && z.tier == m.tier && z.maxHp == m.hp && z.hp == z.maxHp && z.speed == m.speed
            && z.corrosionDamage == m.corrosionDamage && z.corrosionRadius == m.corrosionRadius
    ensures z.tauntRadius == 260 + 30 * z.tier
    ensures z.lifeSteal > 0.0 <==> asc >= 13
  {
    var tier := Coveiro.Tier(asc);
    var maxHp := if tier == 1 then 220.0 else if tier == 2 then 450.0 else 320.0;
    Zombie(tier, maxHp, maxHp, 50 + tier * 10, 260 + tier * 30, 120 + tier * 100, 120 + tier * 40,
           if tier == 3 then 0.25 else 0.0)
  }

  /** `activateAscension(player)`, with the tank of every third ascension. */
  function ActivateAscension(p: Coveiro.Player): (r: (Coveiro.Player, Option<Zombie>))
    ensures r.0.isInAscencion && r.0.ascensionCount == p.ascensionCount + 1
    ensures r.1.Some? <==> Coveiro.Phase(p.ascensionCount + 1) == 3
    ensures r.1.Some? ==> r.1.value == SpawnZombieTank(p.ascensionCount + 1)
  {
    var asc := p.ascensionCount + 1;
    var bonus := 40 + asc * 6;
    var q := p.(isInAscencion := true, ascensionCount := asc, tempSpeed := 40 + asc * 4, tempMaxHp := bonus,
                hp := Plus(p.hp, bonus as real),
                foicePoisonMultiplier := if Coveiro.Phase(asc) >= 2 then 1.5 else p.foicePoisonMultiplier);
    (q, if Coveiro.Phase(asc) == 3 then Some(SpawnZombieTank(asc)) else None)
  }

  /** The SPACE handler. */
  function Space(p: Coveiro.Player): (r: (Coveiro.Player, Option<Zombie>))
    ensures p.kills >= p.nextAscencionAt && !p.isInAscencion ==> r == ActivateAscension(p)
    ensures !(p.kills >= p.nextAscencionAt && !p.isInAscencion) ==> r == (p, None)
  {
    if p.kills >= p.nextAscencionAt && !p.isInAscencion then ActivateAscension(p) else (p, None)
  }

  /** The ascension's end callback, which here runs unconditionally. */
  function AscensionEnd(p: Coveiro.Player): (r: Coveiro.Player)
    ensures !r.isInAscencion && r.kills == 0 && r.nextAscencionAt == p.nextAscencionAt + 30
    ensures p.hp.Num? ==> r.hp == Num(p.hp.n - p.tempMaxHp as real)
    ensures !p.hp.Num? ==> r.hp == NaN
    ensures r.foicePoisonMultiplier == 1.0
  {
    p.(isInAscencion := false, kills := 0, nextAscencionAt := p.nextAscencionAt + 30,
       hp := Minus(p.hp, p.tempMaxHp as real), foicePoisonMultiplier := 1.0)
  }

  /** An ascension followed by its end gives back exactly the hit points it
      granted to a numeric `hp` and leaves a missing one `NaN`, leaves the
      player out of ascension with a fresh counter and moves the threshold
      on by 30. */
  lemma AscensionRoundTrip(p: Coveiro.Player)
    ensures p.hp.Num? ==> AscensionEnd(ActivateAscension(p).0).hp == p.hp
    ensures !p.hp.Num? ==> AscensionEnd(ActivateAscension(p).0).hp == NaN
    ensures AscensionEnd(ActivateAscension(p).0).nextAscencionAt == p.nextAscencionAt + 30
    ensures AscensionEnd(ActivateAscension(p).0).ascensionCount == p.ascensionCount + 1
    ensures !AscensionEnd(ActivateAscension(p).0).isInAscencion
  {
  }

  /** This copy and the modular gravedigger treat the player identically
      while the gravedigger is current. */
  lemma SameAscensionAsModule(s: Coveiro.State, p: Coveiro.Player)
    ensures ActivateAscension(p).0 == Coveiro.ActivateAscension(s, p, Some(Coveiro.Key)).1
    ensures s.pendingTimers > 0 ==> AscensionEnd(p) == Coveiro.AscensionEnd(s, p, Some(Coveiro.Key)).1
    ensures OnKill(p) == Coveiro.OnEnemyKilled(p, Some(Coveiro.Key))
    ensures (ActivateAscension(p).1.Some? <==>
             |Coveiro.ActivateAscension(s, p, Some(Coveiro.Key)).0.zombies| == |s.zombies| + 1)
  {
  }

  /** `zombie.takeDamage(dmg)`: there is no latch in this copy, so every
      hit at or below zero hit points runs `onDeath` again. */
  function ZombieTakeDamage(z: Zombie, dmg: real): (r: (Zombie, bool))
    ensures r.0 == z.(hp := z.hp - dmg)
    ensures r.1 <==> z.hp - dmg <= 0.0
  {
    var hit := z.(hp := z.hp - dmg);
    (hit, hit.hp <= 0.0)
  }

  /** Two lethal hits run the death effects twice. */
  lemma NoDeathLatch(z: Zombie, d1: real, d2: real)
    requires z.hp - d1 <= 0.0 && d2 >= 0.0
    ensures ZombieTakeDamage(z, d1).1 && ZombieTakeDamage(ZombieTakeDamage(z, d1).0, d2).1
  {
  }

  // ---------------------------------------------------------------------
  // Class dispatch

  /** `activateClassAbilities(className)`: the alchemist's defaults, the
      gravedigger's fresh counters (only with a player), or nothing. */
  function ActivateClassAbilities(c: Charge, p: Option<Coveiro.Player>, className: Option<string>)
    : (r: (Charge, Option<Coveiro.Player>))
    ensures Choose(className) == Some(Alchemist) ==> r == (ActivateAlquimista(c), p)
    ensures Choose(className) == Some(Gravedigger) && p.Some? ==> r == (c, Some(ActivateCoveiro(p.value)))
    ensures Choose(className) != Some(Alchemist) && (Choose(className) != Some(Gravedigger) || p.None?) ==> r == (c, p)
  {
    match Choose(className)
    case Some(Alchemist) => (ActivateAlquimista(c), p)
    case Some(Gravedigger) => if p.Some? then (c, Some(ActivateCoveiro(p.value))) else (c, p)
    case _ => (c, p)
  }
}
