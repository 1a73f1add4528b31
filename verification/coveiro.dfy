/** The gravedigger passive of the current game
    (js/systems/PassiveSystem/PassiveCoveiro.js): a kill counter that fills
    an ascension bar, SPACE to ascend once the bar is full, an ascension that
    grows with each use (duration, temporary hit points, and every third one
    a zombie tank), its end callback, and the zombie's latched death.

    `current` is the name of the passive module the passive system has
    selected; every callback of this module checks it first. Timers are
    counted, not scheduled: `reset` cancels every pending one. */
module Coveiro {
  import opened Js

  /** The player fields the passive owns. `hp` is the player's `hp`
      property, which the player of the current game does not define (its
      health is `currentHP`): there it is `undefined`, and the ascension's
      `hp += tempMaxHp` makes it `NaN` without touching the health.
      `ascensionCount` is a `nat`: activation sets it to 0 and only an
      ascension changes it, by one. */
  datatype Player = Player(kills: int, ascensionCount: nat, isInAscencion: bool, nextAscencionAt: int,
                           hp: Value, tempSpeed: int, tempMaxHp: int, foicePoisonMultiplier: real)

  /** A summoned zombie tank. */
  datatype Zombie = Zombie(tier: int, hp: real, speed: int, corrosionDamage: int, corrosionRadius: int, dead: bool)

  /** The module: whether the SPACE handler and the aura are installed, how
      many timers are pending, and the zombies alive or dead since the last reset. */
  datatype State = State(listening: bool, aura: bool, pendingTimers: nat, zombies: seq<Zombie>)

  const Key: string := "coveiro"
  const FirstAscensionAt: int := 30
  const AscensionStep: int := 30

  function Init(): (s: State)
    ensures !s.listening && !s.aura && s.pendingTimers == 0 && s.zombies == []
  {
    State(false, false, 0, [])
  }

  /** `reset()`: the aura and timers are removed, every zombie's `onDeath`
      runs (dead ones ignore it), and the list is emptied. `listening` is the
      `spaceHandler` reference, which reset clears. The SPACE callback itself
      stays registered, because `off` is handed the emitter `keyboard.on`
      returned rather than the callback; a stale callback still checks
      `current` and the ascension guard, so it acts only when a fresh
      activation would. The second component counts the zombies whose death
      effects ran. */
  function Reset(s: State): (r: (State, nat))
    ensures r.0 == Init()
    ensures r.1 == Living(s.zombies)
  {
    (Init(), Living(s.zombies))
  }

  /** How many zombies of a list are not yet dead. */
  function Living(zs: seq<Zombie>): (n: nat)
    ensures n <= |zs|
    ensures n == 0 <==> forall i :: 0 <= i < |zs| ==> zs[i].dead
    ensures n == |zs| <==> forall i :: 0 <= i < |zs| ==> !zs[i].dead
  {
    if zs == [] then 0 else (if zs[0].dead then 0 else 1) + Living(zs[1..])
  }

  /** Counting the living zombies of two lists adds up. */
  lemma {:induction false} LivingAppend(zs: seq<Zombie>, ys: seq<Zombie>)
    ensures Living(zs + ys) == Living(zs) + Living(ys)
    decreases |zs|
  {
    if zs == [] {
      assert zs + ys == ys;
    } else {
      assert (zs + ys)[0] == zs[0];
      assert (zs + ys)[1..] == zs[1..] + ys;
      LivingAppend(zs[1..], ys);
    }
  }

  /** `activate()`: reset first; then, only when this passive is current,
      a fresh counter and the SPACE handler. */
  function Activate(s: State, p: Player, current: Option<string>): (r: (State, Player))
    ensures current != Some(Key) ==> r == (Init(), p)
    ensures current == Some(Key) ==>
              && r.0 == Init().(listening := true)
              && r.1 == p.(kills := 0, ascensionCount := 0, isInAscencion := false, nextAscencionAt := FirstAscensionAt)
  {
    var reset := Reset(s).0;
    if current != Some(Key) then (reset, p)
    else (reset.(listening := true),
          p.(kills := 0, ascensionCount := 0, isInAscencion := false, nextAscencionAt := FirstAscensionAt))
  }

  /** `onEnemyKilled()`: a kill counts only while this passive is current
      and no ascension is running. */
  function OnEnemyKilled(p: Player, current: Option<string>): (r: Player)
    ensures r.kills == if current == Some(Key) && !p.isInAscencion then p.kills + 1 else p.kills
    ensures r == p.(kills := r.kills)
  {
    if current != Some(Key) || p.isInAscencion then p else p.(kills := p.kills + 1)
  }

  /** `updateHUD()` percent: the kill ratio, capped at one. */
  function HudPercent(p: Player): (r: real)
    requires p.nextAscencionAt != 0
    ensures r <= 1.0
    ensures p.kills >= 0 && p.nextAscencionAt > 0 ==> 0.0 <= r
    ensures p.nextAscencionAt > 0 ==> (r == 1.0 <==> p.kills >= p.nextAscencionAt)
  {
    var ratio := p.kills as real / p.nextAscencionAt as real;
    if p.nextAscencionAt > 0 then
      RatioReachesOne(p.kills as real, p.nextAscencionAt as real);
      Min(ratio, 1.0)
    else Min(ratio, 1.0)
  }

  /** The tier of the zombie summoned by ascension number `asc`. */
  function Tier(asc: int): (t: int)
    ensures 1 <= t <= 3
    ensures t == 3 <==> asc >= 13
    ensures t == 1 <==> asc < 7
  {
    if asc >= 13 then 3 else if asc >= 7 then 2 else 1
  }

  lemma TierMonotone(a: int, b: int)
    requires a <= b
    ensures Tier(a) <= Tier(b)
  {
  }

  /** `spawnZombieTank(asc)`: the tank's stats by tier. */
  function SpawnZombie(asc: int): (z: Zombie)
    ensures z.tier == Tier(asc) && !z.dead
    ensures z.hp == (if z.tier == 1 then 220.0 else if z.tier == 2 then 450.0 else 320.0)
    ensures z.speed == 50 + 10 * z.tier
    ensures z.corrosionDamage == 120 + 100 * z.tier
    ensures z.corrosionRadius == 120 + 40 * z.tier
  {
    var tier := Tier(asc);
    Zombie(tier, if tier == 1 then 220.0 else if tier == 2 then 450.0 else 320.0,
           50 + tier * 10, 120 + tier * 100, 120 + tier * 40, false)
  }

  /** `((asc - 1) % 3) + 1` with JavaScript's truncating remainder: the
      ascensions from the first on run through phases 1, 2, 3 in turn, and
      a count of 0 would give phase 0. */
  function Phase(asc: int): (ph: int)
    ensures asc >= 1 ==> 1 <= ph <= 3
    ensures asc >= 1 ==> (ph == 3 <==> asc % 3 == 0)
    ensures asc >= 1 ==> ph == (asc - 1) % 3 + 1
    ensures asc == 0 ==> ph == 0
    ensures asc <= 0 ==> ph <= 1
  {
    Rem(asc - 1, 3) + 1
  }

  /** The ascension's length in milliseconds. */
  function Duration(asc: int): int {
    10000 + asc * 2000
  }

  /** `activateAscension()`: one more ascension with its temporary bonus,
      the end callback pending, and on every third ascension a zombie tank
      (with its own pending expiry). */
  function ActivateAscension(s: State, p: Player, current: Option<string>): (r: (State, Player))
    ensures current != Some(Key) ==> r == (s, p)
    ensures current == Some(Key) ==>
              var asc := p.ascensionCount + 1;
              && r.1.isInAscencion && r.1.ascensionCount == asc
              && r.1.tempMaxHp == 40 + 6 * asc && r.1.tempSpeed == 40 + 4 * asc
              && (p.hp.Num? ==> r.1.hp == Num(p.hp.n + (40 + 6 * asc) as real))
              && (!p.hp.Num? ==> r.1.hp == NaN)
              && r.1.kills == p.kills && r.1.nextAscencionAt == p.nextAscencionAt
              && r.1.foicePoisonMultiplier == (if Phase(asc) >= 2 then 1.5 else p.foicePoisonMultiplier)
              && r.0.aura && r.0.listening == s.listening
              && (Phase(asc) == 3 ==> r.0.zombies == s.zombies + [SpawnZombie(asc)] && r.0.pendingTimers == s.pendingTimers + 2)
              && (Phase(asc) != 3 ==> r.0.zombies == s.zombies && r.0.pendingTimers == s.pendingTimers + 1)
  {
    if current != Some(Key) then (s, p)
    else
      var asc := p.ascensionCount + 1;
      var bonus := 40 + asc * 6;
      var q := p.(isInAscencion := true, ascensionCount := asc, tempSpeed := 40 + asc * 4, tempMaxHp := bonus,
                  hp := Plus(p.hp, bonus as real),
                  foicePoisonMultiplier := if Phase(asc) >= 2 then 1.5 else p.foicePoisonMultiplier);
      var t := if Phase(asc) == 3 then s.(zombies := s.zombies + [SpawnZombie(asc)], pendingTimers := s.pendingTimers + 1) else s;
      (t.(aura := true, pendingTimers := t.pendingTimers + 1), q)
  }

  /** The SPACE handler: ascends only when installed, current, the bar is
      full and no ascension is running. */
  function Space(s: State, p: Player, current: Option<string>): (r: (State, Player))
    ensures !(s.listening && current == Some(Key) && p.kills >= p.nextAscencionAt && !p.isInAscencion) ==> r == (s, p)
    ensures s.listening && current == Some(Key) && p.kills >= p.nextAscencionAt && !p.isInAscencion ==>
              r == ActivateAscension(s, p, current)
  {
    if s.listening && current == Some(Key) && p.kills >= p.nextAscencionAt && !p.isInAscencion
    then ActivateAscension(s, p, current)
    else (s, p)
  }

  /** The end callback of an ascension: if still current, the ascension
      ends, the counter restarts, the next threshold moves up by 30 and the
      temporary hit points are taken back. */
  function AscensionEnd(s: State, p: Player, current: Option<string>): (r: (State, Player))
    requires s.pendingTimers > 0
    ensures current != Some(Key) ==> r.1 == p && r.0 == s.(pendingTimers := s.pendingTimers - 1)
    ensures current == Some(Key) ==>
              && !r.1.isInAscencion && r.1.kills == 0
              && r.1.nextAscencionAt == p.nextAscencionAt + AscensionStep
              && (p.hp.Num? ==> r.1.hp == Num(p.hp.n - p.tempMaxHp as real))
              && (!p.hp.Num? ==> r.1.hp == NaN)
              && r.1.foicePoisonMultiplier == 1.0
              && r.1.ascensionCount == p.ascensionCount
              && !r.0.aura && r.0.pendingTimers == s.pendingTimers - 1
  {
    var s' := s.(pendingTimers := s.pendingTimers - 1);
    if current != Some(Key) then (s', p)
    else (s'.(aura := false),
          p.(isInAscencion := false, kills := 0, nextAscencionAt := p.nextAscencionAt + AscensionStep,
             hp := Minus(p.hp, p.tempMaxHp as real), foicePoisonMultiplier := 1.0))
  }

  /** An ascension and its end give back exactly the hit points it lent
      to a numeric `hp`, leave a missing one `NaN` (as on the current
      game's player), and the next ascension needs 30 more kills. */
  lemma AscensionRoundTrip(s: State, p: Player)
    ensures var (s1, p1) := ActivateAscension(s, p, Some(Key));
            var (_, p2) := AscensionEnd(s1, p1, Some(Key));
            && (p.hp.Num? ==> p2.hp == p.hp)
            && (!p.hp.Num? ==> p2.hp == NaN)
            && p2.nextAscencionAt == p.nextAscencionAt + 30
            && p2.ascensionCount == p.ascensionCount + 1
            && !p2.isInAscencion && p2.kills == 0
  {
  }

  /** Once ascending, neither kills nor SPACE change anything until the end callback. */
  lemma AscensionBlocksProgress(s: State, p: Player, current: Option<string>)
    requires p.isInAscencion
    ensures OnEnemyKilled(p, current) == p
    ensures Space(s, p, current) == (s, p)
  {
  }

  // ---------------------------------------------------------------------
  // The zombie tank

  /** `zombie.onDeath()`: the `_dead` latch makes its effects run once; the
      second component says whether they ran. */
  function OnDeath(z: Zombie): (r: (Zombie, bool))
    ensures r.0.dead && r.0.hp == z.hp
    ensures r.1 <==> !z.dead
  {
    if z.dead then (z, false) else (z.(dead := true), true)
  }

  /** `zombie.takeDamage(dmg)`: there is no guard, so a dead zombie still
      loses hit points and calls `onDeath` again, which the latch ignores. */
  function ZombieTakeDamage(z: Zombie, dmg: real): (r: (Zombie, bool))
    ensures r.0.hp == z.hp - dmg
    ensures r.1 <==> !z.dead && z.hp - dmg <= 0.0
    ensures r.0.dead <==> z.dead || z.hp - dmg <= 0.0
  {
    var hit := z.(hp := z.hp - dmg);
    if hit.hp <= 0.0 then OnDeath(hit) else (hit, false)
  }

  /** A run of hits followed by the expiry timer, counting how many times the death effects ran. */
  function ZombieLife(z: Zombie, hits: seq<real>): (r: (Zombie, nat))
    decreases |hits|
  {
    if hits == [] then
      var d := OnDeath(z);
      (d.0, if d.1 then 1 else 0)
    else
      var h := ZombieTakeDamage(z, hits[0]);
      var rest := ZombieLife(h.0, hits[1..]);
      (rest.0, rest.1 + if h.1 then 1 else 0)
  }

  /** Whatever hits a zombie takes before its expiry, its death effects run
      exactly once if it was alive, and never if it was already dead. */
  lemma {:induction false} ZombieDiesOnce(z: Zombie, hits: seq<real>)
    ensures ZombieLife(z, hits).0.dead
    ensures ZombieLife(z, hits).1 == if z.dead then 0 else 1
    decreases |hits|
  {
    if hits != [] {
      ZombieDiesOnce(ZombieTakeDamage(z, hits[0]).0, hits[1..]);
    }
  }

  /** The explosion's radius and damage, with the fallbacks of `onDeath`. */
  function Explosion(z: Zombie): (r: (int, int))
    ensures r.0 != 0 && r.1 != 0
    ensures z.corrosionRadius != 0 ==> r.0 == z.corrosionRadius
    ensures z.corrosionDamage != 0 ==> r.1 == z.corrosionDamage
  {
    (if z.corrosionRadius != 0 then z.corrosionRadius else 120,
     if z.corrosionDamage != 0 then z.corrosionDamage else 100)
  }

  /** A summoned tank never falls back to the defaults: its own corrosion
      radius and damage are used. */
  lemma SpawnedExplosion(asc: int)
    ensures Explosion(SpawnZombie(asc)) == (120 + 40 * Tier(asc), 120 + 100 * Tier(asc))
  {
  }

  /** What the explosion reads and writes on an enemy. */
  datatype Target = Target(active: bool, isDead: bool, corrosionTicks: Value, corrosionDamage: Value)

  /** The explosion on one enemy at distance `dist`: three more corrosion
      ticks and the explosion's damage for living active enemies in range. */
  function Corrode(z: Zombie, e: Target, dist: real): (r: Target)
    ensures !e.active || e.isDead || dist > Explosion(z).0 as real ==> r == e
    ensures e.active && !e.isDead && dist <= Explosion(z).0 as real ==>
              && r.corrosionTicks == Num((if Truthy(e.corrosionTicks) then e.corrosionTicks.n else 0.0) + 3.0)
              && r.corrosionDamage == Num(Explosion(z).1 as real)
              && r.active == e.active && r.isDead == e.isDead
  {
    if !e.active || e.isDead || dist > Explosion(z).0 as real then e
    else
      var ticks := if Truthy(e.corrosionTicks) then e.corrosionTicks else Num(0.0);
      e.(corrosionTicks := Plus(ticks, 3.0), corrosionDamage := Num(Explosion(z).1 as real))
  }
}
