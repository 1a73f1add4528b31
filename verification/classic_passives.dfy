/** The passive system of the first game (systems/PassiveSystem.js): the
    class dispatch, the alchemist's kill counter that readies a triple flask
    throw, the gravedigger's kill counter, ascension and its expiry, the
    ascension zombie's tier and stats, and the zombie's damage with
    lifesteal, and the sentinel's knockback bonus.

    The gravedigger's counters live on the player object and are read
    through `x || d` defaults, so they are `Value`s. Each activation adds one
    more kill listener, so `listeners` counts them. Scheduled callbacks are
    explicit transitions; `pendingEnds` counts ascension expiries not yet run. */
module ClassicPassives {
  import opened Js
  import opened ClassNames
  import Coveiro

  // ---------------------------------------------------------------------
  // The alchemist

  /** Kills needed before the passive is ready. */
  const MaxKillsForPassive: int := 40

  datatype Hoard = Hoard(killCount: int, passiveReady: bool)

  /** The `update` closure: the passive turns ready once
      `min(killCount / maxKillsForPassive, 1)` reaches one. */
  function Refresh(h: Hoard): (r: Hoard)
    ensures r.killCount == h.killCount
    ensures r.passiveReady <==> h.passiveReady || h.killCount >= MaxKillsForPassive
  {
    var percent := Min(h.killCount as real / MaxKillsForPassive as real, 1.0);
    if percent >= 1.0 && !h.passiveReady then h.(passiveReady := true) else h
  }

  /** `activateAlquimista()`; `ready` says whether the scene has both a
      player and a weapon system. */
  function ActivateAlquimista(h: Option<Hoard>, ready: bool): (r: Option<Hoard>)
    ensures ready ==> r == Some(Hoard(0, false))
    ensures !ready ==> r == h
  {
    if ready then Some(Refresh(Hoard(0, false))) else h
  }

  /** The alchemist's kill listener: counts only while not ready. */
  function AlchemistKill(h: Hoard): (r: Hoard)
    ensures h.passiveReady ==> r == h
    ensures !h.passiveReady ==> r.killCount == h.killCount + 1 && (r.passiveReady <==> h.killCount + 1 >= MaxKillsForPassive)
  {
    if h.passiveReady then h else Refresh(h.(killCount := h.killCount + 1))
  }

  function AlchemistKills(h: Hoard, n: nat): Hoard
    decreases n
  {
    if n == 0 then h else AlchemistKills(AlchemistKill(h), n - 1)
  }

  /** The alchemist's SPACE handler: when ready, every weapon cooldown is
      reset, three flasks are thrown and the counter starts over; the second
      component is the number of flasks thrown. */
  function AlchemistSpace(h: Hoard): (r: (Hoard, nat))
    ensures !h.passiveReady ==> r == (h, 0)
    ensures h.passiveReady ==> r == (Hoard(0, false), 3)
  {
    if !h.passiveReady then (h, 0) else (Refresh(Hoard(0, false)), 3)
  }

  /** From a fresh counter, `n` kills up to forty count `n`, and the
      fortieth makes the passive ready. */
  lemma {:induction false} ReadyAtForty(n: nat)
    requires n <= MaxKillsForPassive
    ensures AlchemistKills(Hoard(0, false), n) == Hoard(n, n == MaxKillsForPassive)
    decreases n
  {
    if n > 0 {
      ReadyAtForty(n - 1);
      KillsSplit(Hoard(0, false), n - 1);
    }
  }

  lemma {:induction false} KillsSplit(h: Hoard, n: nat)
    ensures AlchemistKills(h, n + 1) == AlchemistKill(AlchemistKills(h, n))
    decreases n
  {
    if n > 0 {
      KillsSplit(AlchemistKill(h), n - 1);
    }
  }

  /** A ready passive ignores further kills. */
  lemma {:induction false} ReadyIgnoresKills(h: Hoard, n: nat)
    requires h.passiveReady
    ensures AlchemistKills(h, n) == h
    decreases n
  {
    if n > 0 {
      ReadyIgnoresKills(AlchemistKill(h), n - 1);
    }
  }

  /** Forty kills and a SPACE press throw three flasks and return the
      counter to its fresh state. */
  lemma AlchemistCycle()
    ensures AlchemistSpace(AlchemistKills(Hoard(0, false), MaxKillsForPassive)) == (Hoard(0, false), 3)
  {
    ReadyAtForty(MaxKillsForPassive);
  }

  // ---------------------------------------------------------------------
  // The gravedigger

  datatype Carcass = Carcass(kills: Value, ascensionCount: Value, nextAscencionAt: Value,
                             isInAscencion: bool, listeners: nat, pendingEnds: nat)

  /** The counters hold numbers and the threshold is non-zero. */
  ghost predicate Initialised(c: Carcass) {
    c.kills.Num? && c.ascensionCount.Num? && Truthy(c.nextAscencionAt)
  }

  /** `activateCoveiro()` with a player: missing or zero counters get their
      defaults (kills 0, count 0, threshold 30), existing ones are kept, and
      one more kill listener is registered. */
  function ActivateCoveiro(c: Carcass): (r: Carcass)
    ensures Initialised(r) && r.listeners == c.listeners + 1
    ensures Truthy(c.kills) ==> r.kills == c.kills
    ensures Truthy(c.nextAscencionAt) ==> r.nextAscencionAt == c.nextAscencionAt
    ensures !Truthy(c.nextAscencionAt) ==> r.nextAscencionAt == Num(30.0)
    ensures r.isInAscencion == c.isInAscencion && r.pendingEnds == c.pendingEnds
  {
    c.(kills := Num(Or(c.kills, 0.0)), ascensionCount := Num(Or(c.ascensionCount, 0.0)),
       nextAscencionAt := Num(Or(c.nextAscencionAt, 30.0)), listeners := c.listeners + 1)
  }

  /** One `enemyKilled` event, run by `n` registered listeners. */
  function KillListeners(c: Carcass, n: nat): (r: Carcass)
    ensures c.isInAscencion || n == 0 ==> r == c
    ensures !c.isInAscencion && n > 0 ==> r == c.(kills := Num(Or(c.kills, 0.0) + n as real))
    decreases n
  {
    if n == 0 || c.isInAscencion then c
    else KillListeners(c.(kills := Num(Or(c.kills, 0.0) + 1.0)), n - 1)
  }

  /** An enemy kill: every registered listener counts it, except during an
      ascension. */
  function OnEnemyKilled(c: Carcass): (r: Carcass)
    ensures c.isInAscencion ==> r == c
    ensures !c.isInAscencion && c.listeners > 0 ==> r.kills == Num(Or(c.kills, 0.0) + c.listeners as real)
    ensures r == c.(kills := r.kills)
  {
    KillListeners(c, c.listeners)
  }

  /** Activating twice makes every later kill count twice. */
  lemma DoubleActivationDoubleCounts(c: Carcass)
    requires c.listeners == 0 && !c.isInAscencion
    ensures OnEnemyKilled(ActivateCoveiro(ActivateCoveiro(c))).kills == Num(Or(c.kills, 0.0) + 2.0)
  {
  }

  /** The ascension zombie as `spawnAscencionZombie` builds it. */
  datatype Tank = Tank(tier: int, maxHp: real, hp: real, explosionDamage: int, speed: int,
                       lifeSteal: real, tauntRadius: int)

  /** `getZombieTier(ascCount)` */
  function GetZombieTier(ascCount: real): (t: int)
    ensures 1 <= t <= 3
    ensures t == 3 <==> ascCount >= 13.0
    ensures t == 1 <==> ascCount < 7.0
  {
    if ascCount >= 13.0 then 3 else if ascCount >= 7.0 then 2 else 1
  }

  lemma ZombieTierMonotone(a: real, b: real)
    requires a <= b
    ensures GetZombieTier(a) <= GetZombieTier(b)
  {
  }

  /** The first game's tier thresholds are those of the later gravedigger. */
  lemma SameTiersAsModule(asc: int)
    ensures GetZombieTier(asc as real) == Coveiro.Tier(asc)
  {
  }

  /** `spawnAscencionZombie(player)`: stats by tier; only the third tier
      steals life (the others leave it unset, which reads as zero). */
  function SpawnTank(ascCount: real): (z: Tank)
    ensures z.tier == GetZombieTier(ascCount) && z.hp == z.maxHp && z.tauntRadius == 240
    ensures z.tier == 1 ==> z.maxHp == 150.0 && z.explosionDamage == 120 && z.speed == 45
    ensures z.tier == 2 ==> z.maxHp == 300.0 && z.explosionDamage == 220 && z.speed == 55
    ensures z.tier == 3 ==> z.maxHp == 200.0 && z.explosionDamage == 320 && z.speed == 60
    ensures z.lifeSteal != 0.0 <==> z.tier == 3
    ensures z.tier == 3 ==> z.lifeSteal == 0.25
  {
    var tier := GetZombieTier(ascCount);
    if tier == 1 then Tank(1, 150.0, 150.0, 120, 45, 0.0, 240)
    else if tier == 2 then Tank(2, 300.0, 300.0, 220, 55, 0.0, 240)
    else Tank(3, 200.0, 200.0, 320, 60, 0.25, 240)
  }

  /** `activateAscensaoCarcaca(player)`: nothing during an ascension;
      otherwise the flag is raised, the count goes up, a zombie of the new
      count's tier appears and the expiry is scheduled. */
  function ActivateAscensaoCarcaca(c: Carcass): (r: (Carcass, Option<Tank>))
    ensures c.isInAscencion ==> r == (c, None)
    ensures !c.isInAscencion ==>
              && r.0 == c.(isInAscencion := true, ascensionCount := Num(Or(c.ascensionCount, 0.0) + 1.0),
                           pendingEnds := c.pendingEnds + 1)
              && r.1 == Some(SpawnTank(Or(c.ascensionCount, 0.0) + 1.0))
  {
    if c.isInAscencion then (c, None)
    else
      var asc := Or(c.ascensionCount, 0.0) + 1.0;
      (c.(isInAscencion := true, ascensionCount := Num(asc), pendingEnds := c.pendingEnds + 1),
       Some(SpawnTank(Or(Num(asc), 0.0))))
  }

  /** The gravedigger's SPACE handler: an ascension needs
      `kills >= nextAscencionAt` (read as `kills || 0` against
      `nextAscencionAt || 99999`) and no ascension running. */
  function CoveiroSpace(c: Carcass): (r: (Carcass, Option<Tank>))
    ensures !c.isInAscencion && Or(c.kills, 0.0) >= Or(c.nextAscencionAt, 99999.0) ==> r == ActivateAscensaoCarcaca(c)
    ensures c.isInAscencion || Or(c.kills, 0.0) < Or(c.nextAscencionAt, 99999.0) ==> r == (c, None)
  {
    if c.isInAscencion then (c, None)
    else if Or(c.kills, 0.0) < Or(c.nextAscencionAt, 99999.0) then (c, None)
    else ActivateAscensaoCarcaca(c)
  }

  /** The ascension's expiry (20 seconds later): the flag drops, the kills
      restart and the threshold moves 30 further. */
  function AscensionExpiry(c: Carcass): (r: Carcass)
    requires c.pendingEnds > 0
    ensures !r.isInAscencion && r.kills == Num(0.0) && r.pendingEnds == c.pendingEnds - 1
    ensures r.nextAscencionAt == Num(Or(c.nextAscencionAt, 30.0) + 30.0)
    ensures r.ascensionCount == c.ascensionCount && r.listeners == c.listeners
  {
    c.(isInAscencion := false, kills := Num(0.0), nextAscencionAt := Num(Or(c.nextAscencionAt, 30.0) + 30.0),
       pendingEnds := c.pendingEnds - 1)
  }

  /** Every transition keeps an activated gravedigger's counters numeric
      and its threshold non-zero. */
  lemma TransitionsKeepInitialised(c: Carcass)
    requires Initialised(c) && c.nextAscencionAt.n > 0.0
    ensures Initialised(OnEnemyKilled(c))
    ensures Initialised(CoveiroSpace(c).0)
    ensures c.pendingEnds > 0 ==> Initialised(AscensionExpiry(c)) && AscensionExpiry(c).nextAscencionAt.n > 0.0
  {
  }

  /** A full ascension from an activated counter: SPACE at the threshold,
      then the expiry; the threshold moves exactly 30 further, the kills
      restart and the count goes up by one. */
  lemma AscensionCycle(c: Carcass)
    requires Initialised(c) && !c.isInAscencion && c.nextAscencionAt.n > 0.0
    requires c.kills.n >= c.nextAscencionAt.n
    ensures var r := AscensionExpiry(CoveiroSpace(c).0);
            && !r.isInAscencion && r.kills == Num(0.0) && r.pendingEnds == c.pendingEnds
            && r.nextAscencionAt == Num(c.nextAscencionAt.n + 30.0)
            && r.ascensionCount == Num(Or(c.ascensionCount, 0.0) + 1.0)
  {
  }

  /** `updatePassiveBar(player)`: `min(kills / nextAscencionAt, 1)`. */
  function BarPercent(c: Carcass): (r: real)
    requires c.kills.Num? && Truthy(c.nextAscencionAt)
    ensures r <= 1.0
    ensures c.kills.n >= 0.0 && c.nextAscencionAt.n > 0.0 ==> 0.0 <= r
    ensures c.nextAscencionAt.n > 0.0 ==> (r == 1.0 <==> c.kills.n >= c.nextAscencionAt.n)
  {
    var ratio := c.kills.n / c.nextAscencionAt.n;
    if c.nextAscencionAt.n > 0.0 then
      RatioReachesOne(c.kills.n, c.nextAscencionAt.n);
      Min(ratio, 1.0)
    else Min(ratio, 1.0)
  }

  /** `zombie.takeDamage(dmg, source)`: the hit points drop; a zombie that
      steals life heals the player by `floor(dmg * lifeSteal)` for its own
      attacks, when there is a player; the last component says whether
      `onDeath` runs. */
  function TankTakeDamage(z: Tank, dmg: real, source: string, hasPlayer: bool): (r: (Tank, Option<int>, bool))
    ensures r.0 == z.(hp := z.hp - dmg)
    ensures r.1.Some? <==> z.lifeSteal != 0.0 && source == "zombieAttack" && hasPlayer
    ensures r.1.Some? ==> r.1.value == (dmg * z.lifeSteal).Floor
    ensures r.2 <==> z.hp - dmg <= 0.0
  {
    var hit := z.(hp := z.hp - dmg);
    var heal := if z.lifeSteal != 0.0 && source == "zombieAttack" && hasPlayer then Some((dmg * z.lifeSteal).Floor) else None;
    (hit, heal, hit.hp <= 0.0)
  }

  /** Only a third-tier zombie ever heals the player, and then by a quarter
      of the damage, rounded down. */
  lemma OnlyTierThreeHeals(ascCount: real, dmg: real, source: string, hasPlayer: bool)
    ensures var heal := TankTakeDamage(SpawnTank(ascCount), dmg, source, hasPlayer).1;
            && (heal.Some? <==> GetZombieTier(ascCount) == 3 && source == "zombieAttack" && hasPlayer)
            && (heal.Some? ==> heal.value == (dmg / 4.0).Floor)
  {
  }

  // ---------------------------------------------------------------------
  // Class dispatch

  /** The player-side state the three passives touch. */
  datatype System = System(hasPlayer: bool, hasWeaponSystem: bool, hoard: Option<Hoard>,
                           carcass: Carcass, knockbackBonus: Value, pushDamageBonus: Value)

  /** `activateSentinela()` with a player. */
  function ActivateSentinela(sys: System): (r: System)
    ensures r.knockbackBonus == Num(1.3) && r.pushDamageBonus == Num(1.0)
    ensures r.(knockbackBonus := sys.knockbackBonus, pushDamageBonus := sys.pushDamageBonus) == sys
  {
    sys.(knockbackBonus := Num(1.3), pushDamageBonus := Num(1.0))
  }

  /** `activateClassAbilities(className)`: at most one passive runs, the one
      the class name selects, and each needs the player (the alchemist also
      the weapon system). */
  function ActivateClassAbilities(sys: System, className: Option<string>): (r: System)
    ensures r.hasPlayer == sys.hasPlayer && r.hasWeaponSystem == sys.hasWeaponSystem
    ensures r.hoard != sys.hoard ==> Choose(className) == Some(Alchemist)
    ensures r.carcass != sys.carcass ==> Choose(className) == Some(Gravedigger)
    ensures r.knockbackBonus != sys.knockbackBonus || r.pushDamageBonus != sys.pushDamageBonus ==> Choose(className) == Some(Sentinel)
    ensures !sys.hasPlayer || Choose(className).None? ==> r == sys
    ensures sys.hasPlayer && Choose(className) == Some(Alchemist) ==>
              r == sys.(hoard := ActivateAlquimista(sys.hoard, sys.hasWeaponSystem))
    ensures sys.hasPlayer && Choose(className) == Some(Gravedigger) ==> r == sys.(carcass := ActivateCoveiro(sys.carcass))
    ensures sys.hasPlayer && Choose(className) == Some(Sentinel) ==> r == ActivateSentinela(sys)
  {
    if !sys.hasPlayer then sys
    else
      match Choose(className)
      case None => sys
      case Some(Alchemist) => sys.(hoard := ActivateAlquimista(sys.hoard, sys.hasWeaponSystem))
      case Some(Gravedigger) => sys.(carcass := ActivateCoveiro(sys.carcass))
      case Some(Sentinel) => ActivateSentinela(sys)
  }
}
