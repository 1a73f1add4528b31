/** The level-up upgrade menu of the current game (js/systems/UpgradeSystem.js):
    the nineteen upgrades and their arithmetic, the one-level check,
    the open/apply/close transitions of the menu, the three distinct
    options drawn from a shuffle of the list, and the synchronisation of
    derived player fields after an upgrade.

    A player is a record of numeric fields, which may be missing, plus an
    optional stat store (js/entities/Player/StatsPlayer.js); each upgrade
    works through the store when there is one and on the plain fields
    otherwise, as the source does. The shuffle is a parameter. */
module UpgradeSystem {
  import opened Js
  import StatsPlayer
  import LegacyPlayer

  type Fields = map<string, Value>

  function Field(f: Fields, key: string): Value {
    if key in f then f[key] else Undefined
  }

  /** `regen` says whether the regeneration event has been registered. */
  datatype PlayerObj = PlayerObj(fields: Fields, stats: Option<StatsPlayer.Store>, regen: bool)

  /** What an upgrade can touch: the player (if the scene has one) and the
      delay of the weapon loop event (if there is one). */
  datatype Scene = Scene(player: Option<PlayerObj>, weaponDelay: Option<real>)

  datatype Upgrade =
    | DamageUp1 | DamageUp2 | AttackSpeed | MaxHp1 | RegenHp | MoveSpeed | PickupRange
    | CritChance | CritDamage | ProjectileSpeed | ProjectilePierce | Armor | Knockback
    | Aoe | CooldownGlobal | XpGain | Lifesteal | Shield | DoubleHit

  /** The list built by the constructor, in order. */
  const AllUpgrades: seq<Upgrade> := [
    DamageUp1, DamageUp2, AttackSpeed, MaxHp1, RegenHp, MoveSpeed, PickupRange,
    CritChance, CritDamage, ProjectileSpeed, ProjectilePierce, Armor, Knockback,
    Aoe, CooldownGlobal, XpGain, Lifesteal, Shield, DoubleHit
  ]

  // ---------------------------------------------------------------------
  // Upgrade arithmetic

  /** An upgrade that adds `amount` to `key`, through the store if there is
      one, else to the field with `fallback` as its `||` default. */
  function Flat(p: PlayerObj, key: string, amount: real, fallback: real): (r: PlayerObj)
    ensures r.regen == p.regen && r.stats.Some? == p.stats.Some?
    ensures p.stats.Some? ==>
              && r.fields == p.fields
              && (StatsPlayer.Get(p.stats.value, key).Num? ==>
                    StatsPlayer.Get(r.stats.value, key) == Num(StatsPlayer.Get(p.stats.value, key).n + amount))
              && (forall k :: k != key ==> StatsPlayer.Get(r.stats.value, k) == StatsPlayer.Get(p.stats.value, k))
    ensures p.stats.None? ==>
              && Field(r.fields, key) == Num((if Truthy(Field(p.fields, key)) then Field(p.fields, key).n else fallback) + amount)
              && (forall k :: k != key ==> Field(r.fields, k) == Field(p.fields, k))
  {
    match p.stats
    case Some(s) => p.(stats := Some(StatsPlayer.AddFlat(s, key, amount).store))
    case None => p.(fields := p.fields[key := Num(Or(Field(p.fields, key), fallback) + amount)])
  }

  /** An upgrade that multiplies `key` by `factor`, likewise. */
  function Scaled(p: PlayerObj, key: string, factor: real, fallback: real): (r: PlayerObj)
    ensures r.regen == p.regen && r.stats.Some? == p.stats.Some?
    ensures p.stats.Some? ==>
              && r.fields == p.fields
              && (StatsPlayer.Get(p.stats.value, key).Num? ==>
                    StatsPlayer.Get(r.stats.value, key) == Num(StatsPlayer.Get(p.stats.value, key).n * factor))
              && (forall k :: k != key ==> StatsPlayer.Get(r.stats.value, k) == StatsPlayer.Get(p.stats.value, k))
    ensures p.stats.None? ==>
              && Field(r.fields, key) == Num((if Truthy(Field(p.fields, key)) then Field(p.fields, key).n else fallback) * factor)
              && (forall k :: k != key ==> Field(r.fields, k) == Field(p.fields, k))
  {
    match p.stats
    case Some(s) => p.(stats := Some(StatsPlayer.Multiply(s, key, factor).store))
    case None =>
      var base := Or(Field(p.fields, key), fallback);
      assert base == if Truthy(Field(p.fields, key)) then Field(p.fields, key).n else fallback;
      var r := p.(fields := p.fields[key := Num(base * factor)]);
      assert Field(r.fields, key) == Num(base * factor);
      r
  }

  /** The max-HP upgrade: through the store, `maxHP` grows by a fifth and
      the current hit points are cut to the new maximum rounded down;
      without one, both become the rounded-down raised maximum. */
  function RaiseMaxHP(p: PlayerObj): (r: PlayerObj)
    ensures r.stats.Some? == p.stats.Some? && r.regen == p.regen
    ensures p.stats.Some? ==>
              var maxHP := StatsPlayer.Get(r.stats.value, "maxHP");
              && r.stats.value == StatsPlayer.Multiply(p.stats.value, "maxHP", 1.2).store
              && (Field(p.fields, "currentHP").Num? && maxHP.Num? ==>
                    Field(r.fields, "currentHP").Num?
                    && Field(r.fields, "currentHP").n <= maxHP.n.Floor as real
                    && Field(r.fields, "currentHP").n <= Field(p.fields, "currentHP").n)
    ensures p.stats.Some? ==>
              var maxHP := StatsPlayer.Get(r.stats.value, "maxHP");
              var cur := Field(p.fields, "currentHP");
              && (cur.Num? && maxHP.Num? ==> Field(r.fields, "currentHP") == Num(Min(cur.n, maxHP.n.Floor as real)))
              && (cur.Undefined? && maxHP.Num? ==> Field(r.fields, "currentHP") == Num(maxHP.n.Floor as real))
              && (cur.NaN? || !maxHP.Num? ==> Field(r.fields, "currentHP") == NaN)
              && (forall k :: k != "currentHP" ==> Field(r.fields, k) == Field(p.fields, k))
    ensures p.stats.None? ==>
              && Field(r.fields, "maxHP") == Num(((Or(Field(p.fields, "maxHP"), 100.0)) * 1.2).Floor as real)
              && Field(r.fields, "currentHP") == Field(r.fields, "maxHP")
              && r.stats == p.stats
              && (forall k :: k != "currentHP" && k != "maxHP" ==> Field(r.fields, k) == Field(p.fields, k))
  {
    match p.stats
    case Some(s) =>
      var s' := StatsPlayer.Multiply(s, "maxHP", 1.2).store;
      var maxHP := StatsPlayer.Get(s', "maxHP");
      p.(stats := Some(s'),
         fields := p.fields["currentHP" := MinValue(Coalesce(Field(p.fields, "currentHP"), maxHP), FloorValue(maxHP))])
    case None =>
      var maxHP := Num(((Or(Field(p.fields, "maxHP"), 100.0)) * 1.2).Floor as real);
      p.(fields := p.fields["maxHP" := maxHP]["currentHP" := maxHP])
  }

  /** The upgrade's `apply(player)` on the scene. Every upgrade but the
      attack-speed one does nothing without a player; the attack-speed one
      touches only the weapon loop and never brings its delay under 50. */
  function Apply(u: Upgrade, sc: Scene): (r: Scene)
    ensures u == AttackSpeed ==> r.player == sc.player
    ensures u == AttackSpeed && sc.weaponDelay.Some? ==>
              r.weaponDelay == Some(Max(50.0, sc.weaponDelay.value * 0.85)) && r.weaponDelay.value >= 50.0
    ensures u != AttackSpeed ==> r.weaponDelay == sc.weaponDelay
    ensures sc.player.None? && u != AttackSpeed ==> r == sc
    ensures sc.player.Some? <==> r.player.Some?
  {
    if u == AttackSpeed then
      sc.(weaponDelay := if sc.weaponDelay.Some? then Some(Max(50.0, sc.weaponDelay.value * 0.85)) else None)
    else
      match sc.player
      case None => sc
      case Some(p) => sc.(player := Some(ApplyToPlayer(u, p)))
  }

  /** The per-player part of every upgrade other than attack speed. */
  function ApplyToPlayer(u: Upgrade, p: PlayerObj): (r: PlayerObj)
    ensures r.stats.Some? == p.stats.Some?
    ensures r.regen <==> p.regen || u == RegenHp
    ensures u == RegenHp ==> r.fields == p.fields && r.stats == p.stats
  {
    match u
    case DamageUp1 => p.(fields := p.fields["baseDamage" := Num(Or(Field(p.fields, "baseDamage"), 5.0) * 1.2)])
    case DamageUp2 => p.(fields := p.fields["baseDamage" := Num(Or(Field(p.fields, "baseDamage"), 5.0) * 1.35)])
    case AttackSpeed => p
    case MaxHp1 => RaiseMaxHP(p)
    case RegenHp => p.(regen := true)
    case MoveSpeed =>
      (match p.stats
       case Some(s) =>
         var s' := StatsPlayer.Multiply(s, "moveSpeedMultiplier", 1.15).store;
         p.(stats := Some(s'), fields := p.fields["speed" := Times(StatsPlayer.Get(s', "moveSpeedMultiplier"), 200.0)])
       case None => p.(fields := p.fields["speed" := Num(Or(Field(p.fields, "speed"), 200.0) * 1.15)]))
    case PickupRange =>
      (match p.stats
       case Some(s) =>
         var s' := StatsPlayer.Multiply(s, "pickupRadius", 1.5).store;
         p.(stats := Some(s'), fields := p.fields["magnetRadius" := Num(Or(StatsPlayer.Get(s', "pickupRadius"), 1.0) * 100.0)])
       case None =>
         var radius := Or(Field(p.fields, "pickupRadius"), 100.0) * 1.5;
         p.(fields := p.fields["pickupRadius" := Num(radius)]["magnetRadius" := Num(radius * 100.0)]))
    case CritChance => Flat(p, "critChance", 0.1, 0.0)
    case CritDamage => Flat(p, "critDamage", 0.5, 1.5)
    case ProjectileSpeed => Scaled(p, "projectileSpeed", 1.2, 1.0)
    case ProjectilePierce => Flat(p, "pierce", 1.0, 0.0)
    case Armor => Flat(p, "armor", 2.0, 0.0)
    case Knockback => Scaled(p, "knockback", 1.4, 1.0)
    case Aoe => Scaled(p, "aoe", 1.25, 1.0)
    case CooldownGlobal => Scaled(p, "globalCD", 0.9, 1.0)
    case XpGain =>
      (match p.stats
       case Some(s) =>
         var s' := StatsPlayer.Multiply(s, "xpGain", 1.2).store;
         p.(stats := Some(s'), fields := p.fields["xpGain" := StatsPlayer.Get(s', "xpGain")])
       case None => p.(fields := p.fields["xpGain" := Num(Or(Field(p.fields, "xpGain"), 1.0) * 1.2)]))
    case Lifesteal => Flat(p, "lifesteal", 0.03, 0.0)
    case Shield => Flat(p, "shield", 50.0, 0.0)
    case DoubleHit => Flat(p, "doubleHit", 0.1, 0.0)
  }

  /** The factor of each damage upgrade. */
  function DamageFactor(u: Upgrade): Option<real> {
    match u
    case DamageUp1 => Some(1.2)
    case DamageUp2 => Some(1.35)
    case _ => None
  }

  /** "Dano +20%" and "Dano +35%" scale `baseDamage` by their factor, a
      missing or zero damage counting as 5, whether or not the player has a
      stat store, and change nothing else. */
  lemma DamageUpgradesScale(u: Upgrade, p: PlayerObj)
    requires DamageFactor(u).Some?
    ensures var f := DamageFactor(u).value;
            var r := ApplyToPlayer(u, p);
            var d := Field(p.fields, "baseDamage");
            && (Truthy(d) ==> Field(r.fields, "baseDamage") == Num(d.n * f))
            && (!Truthy(d) ==> Field(r.fields, "baseDamage") == Num(5.0 * f))
            && r.stats == p.stats && r.regen == p.regen
            && (forall k :: k != "baseDamage" ==> Field(r.fields, k) == Field(p.fields, k))
  {
  }

  /** The key and amount of each flat upgrade. */
  function FlatAmount(u: Upgrade): Option<(string, real)> {
    match u
    case CritChance => Some(("critChance", 0.1))
    case CritDamage => Some(("critDamage", 0.5))
    case ProjectilePierce => Some(("pierce", 1.0))
    case Armor => Some(("armor", 2.0))
    case Lifesteal => Some(("lifesteal", 0.03))
    case Shield => Some(("shield", 50.0))
    case DoubleHit => Some(("doubleHit", 0.1))
    case _ => None
  }

  /** Through the store, a flat upgrade adds exactly its amount to its own
      stat and leaves every other stat and every field as it was. */
  lemma FlatUpgradesAddExactly(u: Upgrade, p: PlayerObj, s: StatsPlayer.Store)
    requires FlatAmount(u).Some? && p.stats == Some(s)
    ensures var key := FlatAmount(u).value.0;
            var r := ApplyToPlayer(u, p);
            && r.fields == p.fields && r.regen == p.regen
            && (StatsPlayer.Get(s, key).Num? ==>
                  StatsPlayer.Get(r.stats.value, key) == Num(StatsPlayer.Get(s, key).n + FlatAmount(u).value.1))
            && (forall k :: k != key ==> StatsPlayer.Get(r.stats.value, k) == StatsPlayer.Get(s, k))
  {
  }

  /** The regeneration event's callback, every second:
      `currentHP := min(maxHP, (currentHP || maxHP) + 2)` on the plain fields. */
  function RegenTick(p: PlayerObj): (r: PlayerObj)
    ensures var hp := Field(p.fields, "currentHP");
            var maxHP := Field(p.fields, "maxHP");
            && (maxHP.Num? && hp.Num? && hp.n != 0.0 ==>
                  Field(r.fields, "currentHP") == Num(Min(maxHP.n, hp.n + 2.0)))
            && (!maxHP.Num? ==> Field(r.fields, "currentHP") == NaN)
    ensures forall k :: k != "currentHP" ==> Field(r.fields, k) == Field(p.fields, k)
  {
    var hp := Field(p.fields, "currentHP");
    var maxHP := Field(p.fields, "maxHP");
    var base := if Truthy(hp) then hp else maxHP;
    p.(fields := p.fields["currentHP" := MinValue(maxHP, Plus(base, 2.0))])
  }

  // ---------------------------------------------------------------------
  // Level check and menu

  datatype Menu = Menu(isMenuOpen: bool, hasContainer: bool, paused: bool,
                       upgrades: seq<Upgrade>, options: seq<Upgrade>)

  function InitMenu(): (m: Menu)
    ensures !m.isMenuOpen && !m.hasContainer && m.upgrades == AllUpgrades
  {
    Menu(false, false, false, AllUpgrades, [])
  }

  /** The permutation `Phaser.Utils.Array.Shuffle` applies. */
  ghost predicate ValidShuffle(shuffle: seq<Upgrade> -> seq<Upgrade>) {
    forall s {:trigger shuffle(s)} :: multiset(shuffle(s)) == multiset(s)
  }

  /** No element occurs twice. */
  ghost predicate NoRepeats(s: seq<Upgrade>) {
    forall x :: multiset(s)[x] <= 1
  }

  /** The position of each upgrade in the constructor's list. */
  function Ordinal(u: Upgrade): int {
    match u
    case DamageUp1 => 0 case DamageUp2 => 1 case AttackSpeed => 2 case MaxHp1 => 3
    case RegenHp => 4 case MoveSpeed => 5 case PickupRange => 6 case CritChance => 7
    case CritDamage => 8 case ProjectileSpeed => 9 case ProjectilePierce => 10 case Armor => 11
    case Knockback => 12 case Aoe => 13 case CooldownGlobal => 14 case XpGain => 15
    case Lifesteal => 16 case Shield => 17 case DoubleHit => 18
  }

  /** Pairwise distinct entries occur once each. */
  lemma {:induction false} DistinctNoRepeats(s: seq<Upgrade>)
    requires forall i, j :: 0 <= i < j < |s| ==> s[i] != s[j]
    ensures NoRepeats(s)
    decreases |s|
  {
    if s != [] {
      DistinctNoRepeats(s[1..]);
      assert s == [s[0]] + s[1..];
      assert s[0] !in s[1..] by {
        forall k | 0 <= k < |s[1..]| ensures s[1..][k] != s[0] {
          assert s[1..][k] == s[k + 1];
        }
      }
      forall x ensures multiset(s)[x] <= 1 {
        assert multiset(s)[x] == multiset([s[0]])[x] + multiset(s[1..])[x];
      }
    }
  }

  lemma AllUpgradesNoRepeats()
    ensures NoRepeats(AllUpgrades)
  {
    forall i | 0 <= i < |AllUpgrades| ensures Ordinal(AllUpgrades[i]) == i {
    }
    DistinctNoRepeats(AllUpgrades);
  }

  /** A sequence without repeated elements has distinct entries. */
  lemma NoRepeatsDistinct(s: seq<Upgrade>, i: int, j: int)
    requires NoRepeats(s) && 0 <= i < j < |s|
    ensures s[i] != s[j]
  {
    assert s == s[..j] + s[j..];
    assert s[i] in s[..j] && s[j] in s[j..];
    assert multiset(s)[s[j]] == multiset(s[..j])[s[j]] + multiset(s[j..])[s[j]];
  }

  /** A prefix of a sequence without repeats has none. */
  lemma PrefixNoRepeats(s: seq<Upgrade>, n: int)
    requires NoRepeats(s) && 0 <= n <= |s|
    ensures NoRepeats(s[..n])
  {
    assert s == s[..n] + s[n..];
    forall x ensures multiset(s[..n])[x] <= 1 {
      assert multiset(s)[x] == multiset(s[..n])[x] + multiset(s[n..])[x];
    }
  }

  /** `openUpgradeMenu()`: nothing when already open; otherwise the menu is
      marked open before the player is looked up, so without a player it
      stays open with nothing shown. With a player the list is shuffled in
      place and its first three entries are offered. */
  function OpenUpgradeMenu(m: Menu, sc: Scene, shuffle: seq<Upgrade> -> seq<Upgrade>): (r: Menu)
    ensures m.isMenuOpen ==> r == m
    ensures r.isMenuOpen
    ensures !m.isMenuOpen && sc.player.None? ==> r == m.(isMenuOpen := true)
    ensures !m.isMenuOpen && sc.player.Some? ==>
              && r.upgrades == shuffle(m.upgrades)
              && r.options == r.upgrades[..Min(3.0, |r.upgrades| as real).Floor]
              && r.hasContainer && r.paused
  {
    if m.isMenuOpen then m
    else if sc.player.None? then m.(isMenuOpen := true)
    else
      var shuffled := shuffle(m.upgrades);
      var n := if |shuffled| < 3 then |shuffled| else 3;
      assert n == Min(3.0, |shuffled| as real).Floor;
      Menu(true, true, true, shuffled, shuffled[..n])
  }

  /** Every menu opened over the full list offers three distinct upgrades. */
  lemma OptionsDistinct(m: Menu, sc: Scene, shuffle: seq<Upgrade> -> seq<Upgrade>)
    requires ValidShuffle(shuffle) && !m.isMenuOpen && sc.player.Some?
    requires multiset(m.upgrades) == multiset(AllUpgrades)
    ensures var r := OpenUpgradeMenu(m, sc, shuffle);
            && |r.options| == 3
            && multiset(r.upgrades) == multiset(AllUpgrades)
            && (forall i, j :: 0 <= i < j < 3 ==> r.options[i] != r.options[j])
            && (forall i :: 0 <= i < 3 ==> r.options[i] in AllUpgrades)
  {
    var r := OpenUpgradeMenu(m, sc, shuffle);
    assert multiset(r.upgrades) == multiset(m.upgrades);
    assert |r.upgrades| == |AllUpgrades| by {
      assert |multiset(r.upgrades)| == |multiset(AllUpgrades)|;
    }
    AllUpgradesNoRepeats();
    assert NoRepeats(r.upgrades);
    PrefixNoRepeats(r.upgrades, 3);
    forall i, j | 0 <= i < j < 3 ensures r.options[i] != r.options[j] {
      NoRepeatsDistinct(r.options, i, j);
    }
    forall i | 0 <= i < 3 ensures r.options[i] in AllUpgrades {
      assert r.options[i] in multiset(r.upgrades);
    }
  }

  /** `closeMenu()` */
  function CloseMenu(m: Menu): (r: Menu)
    ensures !r.isMenuOpen && !r.hasContainer && !r.paused
    ensures r.upgrades == m.upgrades && r.options == m.options
  {
    m.(isMenuOpen := false, hasContainer := false, paused := false)
  }

  /** The synchronisation after an upgrade: derived fields follow the store
      for every stat the store holds. */
  function Sync(p: PlayerObj): (r: PlayerObj)
    ensures r.stats == p.stats && r.regen == p.regen
    ensures p.stats.None? ==> r == p
    ensures p.stats.Some? ==>
              var s := p.stats.value;
              && (!StatsPlayer.Get(s, "pickupRadius").Undefined? ==>
                    Field(r.fields, "magnetRadius") == Num(Or(StatsPlayer.Get(s, "pickupRadius"), 1.0) * 100.0))
              && (!StatsPlayer.Get(s, "moveSpeedMultiplier").Undefined? ==>
                    Field(r.fields, "speed") == Num(Or(StatsPlayer.Get(s, "moveSpeedMultiplier"), 1.0) * 200.0))
              && (!StatsPlayer.Get(s, "xpGain").Undefined? ==>
                    Field(r.fields, "xpGain") == StatsPlayer.Get(s, "xpGain"))
    ensures forall k :: k !in {"magnetRadius", "speed", "xpGain"} ==> Field(r.fields, k) == Field(p.fields, k)
  {
    match p.stats
    case None => p
    case Some(s) =>
      var pickup := StatsPlayer.Get(s, "pickupRadius");
      var move := StatsPlayer.Get(s, "moveSpeedMultiplier");
      var gain := StatsPlayer.Get(s, "xpGain");
      var f1 := if pickup.Undefined? then p.fields else p.fields["magnetRadius" := Num(Or(pickup, 1.0) * 100.0)];
      var f2 := if move.Undefined? then f1 else f1["speed" := Num(Or(move, 1.0) * 200.0)];
      var f3 := if gain.Undefined? then f2 else f2["xpGain" := gain];
      p.(fields := f3)
  }

  /** `applyUpgrade(upgrade)`: without a player nothing happens and the menu
      stays as it is; otherwise the upgrade is applied, the derived fields
      are synchronised and the menu closes. */
  function ApplyUpgrade(m: Menu, sc: Scene, u: Upgrade): (r: (Menu, Scene))
    ensures sc.player.None? ==> r == (m, sc)
    ensures sc.player.Some? ==>
              && r.0 == CloseMenu(m)
              && r.1.player == Some(Sync(Apply(u, sc).player.value))
              && r.1.weaponDelay == Apply(u, sc).weaponDelay
  {
    match sc.player
    case None => (m, sc)
    case Some(_) =>
      var applied := Apply(u, sc);
      (CloseMenu(m), applied.(player := Some(Sync(applied.player.value))))
  }

  /** Without a player the menu, once opened, can neither reopen nor close:
      the latch the source leaves in place. */
  lemma MenuLatchWithoutPlayer(m: Menu, sc: Scene, u: Upgrade, shuffle: seq<Upgrade> -> seq<Upgrade>)
    requires sc.player.None?
    ensures var shown := OpenUpgradeMenu(m, sc, shuffle);
            && shown.isMenuOpen
            && OpenUpgradeMenu(shown, sc, shuffle) == shown
            && ApplyUpgrade(shown, sc, u).0.isMenuOpen
  {
  }

  /** `checkForLevelUp()`: at most one level per call, with the threshold
      raised by a quarter (rounded down), then the menu. */
  function CheckForLevelUp(p: Option<LegacyPlayer.Progress>, m: Menu, sc: Scene,
                           shuffle: seq<Upgrade> -> seq<Upgrade>): (r: (Option<LegacyPlayer.Progress>, Menu))
    ensures p.None? ==> r == (p, m)
    ensures p.Some? && p.value.xp < p.value.xpToNext as real ==> r == (p, m)
    ensures p.Some? && p.value.xp >= p.value.xpToNext as real ==>
              var q := p.value;
              && r.0 == Some(LegacyPlayer.Progress(q.level + 1, q.xp - q.xpToNext as real, (q.xpToNext as real * 1.25).Floor))
              && r.1 == OpenUpgradeMenu(m, sc, shuffle)
    ensures r.0.Some? ==> p.Some? && (r.0.value.level == p.value.level || r.0.value.level == p.value.level + 1)
  {
    match p
    case None => (p, m)
    case Some(q) =>
      if q.xp >= q.xpToNext as real then
        (Some(LegacyPlayer.Progress(q.level + 1, q.xp - q.xpToNext as real, (q.xpToNext as real * 1.25).Floor)),
         OpenUpgradeMenu(m, sc, shuffle))
      else (p, m)
  }

  /** Enough experience for several levels still yields only one per call. */
  lemma OneLevelPerCheck(m: Menu, sc: Scene, shuffle: seq<Upgrade> -> seq<Upgrade>)
    ensures CheckForLevelUp(Some(LegacyPlayer.Progress(1, 30.0, 10)), m, sc, shuffle).0
            == Some(LegacyPlayer.Progress(2, 20.0, 12))
  {
  }
}
