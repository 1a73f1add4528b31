/** The alchemist passive of the current game
    (js/systems/PassiveSystem/PassiveAlquimista.js): kills fill a charge;
    a full charge starts a charging phase (slowed, damage taken reduced,
    attacks disabled); the charge timer moves it to an overloading phase
    that throws a bomb; the bomb's explosion schedules the end of the
    overload. `reset` cancels every timer and restores the player.

    The player fields the passive touches travel with its state. `current`
    is the module the passive system has selected (none when the scene has
    no passive system). Explosion geometry and ground effects are not part
    of this model. */
module Alquimista {
  import opened Js

  const Key: string := "alquimista"
  const ChargePerKill: real := 15.0
  const ChargeMax: real := 600.0

  datatype State = State(
    isCharging: bool,
    isOverloading: bool,
    /** `_origSpeed` and `_origDamageMul`; `None` is `null`. */
    origSpeed: Option<Value>,
    origDamageMul: Option<Value>,
    /** Pending timers: the 4 s charge, the bomb (its 500 ms fuse or its
        overlap detector), and the 600 ms overload end. */
    chargeTimer: bool,
    bombPending: bool,
    finishTimer: bool,
    /** Player fields. */
    alchCharge: real,
    alchChargeMax: real,
    speed: Value,
    damageTakenMul: Value,
    canAttack: bool,
    /** Whether the player object defines `setCanAttack`. The player class
        of the current game does not, and `beginChargePhase` calls it
        without `?.`. */
    hasSetCanAttack: bool)

  /** The constructor, with the player's speed, damage multiplier and
      attack flag as they were. */
  function Init(speed: Value, damageTakenMul: Value, canAttack: bool, hasSetCanAttack: bool): (s: State)
    ensures !s.isCharging && !s.isOverloading && s.alchCharge == 0.0 && s.alchChargeMax == 600.0
    ensures s.damageTakenMul == if damageTakenMul.Undefined? then Num(1.0) else damageTakenMul
    ensures s.origSpeed.None? && s.origDamageMul.None?
  {
    State(false, false, None, None, false, false, false, 0.0, 40.0 * 15.0, speed,
          if damageTakenMul.Undefined? then Num(1.0) else damageTakenMul, canAttack, hasSetCanAttack)
  }

  /** The states reachable from the constructor: never charging and
      overloading at once, the charge within its bounds, and each phase with
      the timer that will end it. On a player without `setCanAttack` the
      charge phase is stuck instead: charging, full, and with no timer. */
  ghost predicate Valid(s: State) {
    && !(s.isCharging && s.isOverloading)
    && s.alchChargeMax == ChargeMax
    && 0.0 <= s.alchCharge <= s.alchChargeMax
    && (s.isCharging && s.hasSetCanAttack ==>
          s.chargeTimer && s.speed == Times(s.origSpeed.GetOr(Num(200.0)), 0.4) && s.damageTakenMul == Num(0.2))
    && (s.isCharging && !s.hasSetCanAttack ==> Stuck(s))
    && (s.isOverloading ==> s.hasSetCanAttack)
    && (s.isCharging || s.isOverloading ==> s.origSpeed.Some? && s.origDamageMul.Some?)
    && (s.hasSetCanAttack && (s.isCharging || s.isOverloading) ==> !s.canAttack)
    && (s.chargeTimer ==> s.isCharging)
    && (s.bombPending || s.finishTimer ==> s.isOverloading)
    && !(s.bombPending && s.finishTimer)
  }

  /** The charge phase begun on a player without `setCanAttack`: charging
      with a full charge, the speed and multiplier saved but unchanged, and
      no charge timer to end it. */
  ghost predicate Stuck(s: State) {
    && s.isCharging && !s.chargeTimer && s.alchCharge == ChargeMax
    && s.origSpeed == Some(Coalesce(s.speed, Num(200.0))) && s.origDamageMul == Some(s.damageTakenMul)
  }

  lemma InitValid(speed: Value, damageTakenMul: Value, canAttack: bool, hasSetCanAttack: bool)
    ensures Valid(Init(speed, damageTakenMul, canAttack, hasSetCanAttack))
  {
  }

  /** `beginChargePhase()`: guarded against re-entry. It sets `isCharging`
      and saves the speed and multiplier before it calls `setCanAttack`; on
      a player without that method the call throws and the rest of the
      phase (slow, damage reduction, charge timer) never happens. */
  function BeginChargePhase(s: State): (r: State)
    ensures s.isCharging || s.isOverloading ==> r == s
    ensures !s.isCharging && !s.isOverloading ==>
              && r.isCharging && !r.isOverloading && r.alchCharge == s.alchCharge
              && r.origSpeed == Some(Coalesce(s.speed, Num(200.0))) && r.origDamageMul == Some(s.damageTakenMul)
    ensures !s.isCharging && !s.isOverloading && s.hasSetCanAttack ==>
              && r.chargeTimer && !r.canAttack
              && r.speed == Times(Coalesce(s.speed, Num(200.0)), 0.4) && r.damageTakenMul == Num(0.2)
    ensures !s.isCharging && !s.isOverloading && !s.hasSetCanAttack ==>
              && r.chargeTimer == s.chargeTimer && r.canAttack == s.canAttack
              && r.speed == s.speed && r.damageTakenMul == s.damageTakenMul
  {
    if s.isCharging || s.isOverloading then s
    else
      var orig := Coalesce(s.speed, Num(200.0));
      var saved := s.(isCharging := true, origSpeed := Some(orig), origDamageMul := Some(s.damageTakenMul));
      if !s.hasSetCanAttack then saved
      else saved.(canAttack := false, speed := Times(orig, 0.4), damageTakenMul := Num(0.2), chargeTimer := true)
  }

  /** `handleKill()`: counts only while this passive is current and idle;
      the charge is capped, and a full charge begins the charge phase. */
  function HandleKill(s: State, current: Option<string>): (r: State)
    ensures current != Some(Key) || s.isCharging || s.isOverloading ==> r == s
    ensures current == Some(Key) && !s.isCharging && !s.isOverloading ==>
              && r.alchCharge == Min(s.alchCharge + ChargePerKill, s.alchChargeMax)
              && (r.isCharging <==> r.alchCharge >= s.alchChargeMax)
  {
    if current != Some(Key) || s.isCharging || s.isOverloading then s
    else
      var charged := s.(alchCharge := Min(s.alchCharge + 15.0, s.alchChargeMax));
      if charged.alchCharge >= charged.alchChargeMax then BeginChargePhase(charged) else charged
  }

  /** `finishFullCharge()`, fired by the charge timer: only while charging;
      the phase turns into overloading, the saved speed and multiplier come
      back, and the bomb is thrown. */
  function FinishFullCharge(s: State): (r: State)
    ensures !s.isCharging ==> r == s.(chargeTimer := false)
    ensures s.isCharging && s.origSpeed.Some? && s.origDamageMul.Some? ==>
              && !r.isCharging && r.isOverloading && r.bombPending
              && r.speed == s.origSpeed.value && r.damageTakenMul == s.origDamageMul.value
              && r.canAttack == s.canAttack && r.alchCharge == s.alchCharge
  {
    if !s.isCharging then s.(chargeTimer := false)
    else
      s.(isCharging := false, isOverloading := true, chargeTimer := false, bombPending := true,
         speed := s.origSpeed.GetOr(Undefined), damageTakenMul := s.origDamageMul.GetOr(Undefined))
  }

  /** The bomb's `explode`, by fuse or by overlap: the other trigger is
      removed with it, and the end of the overload is scheduled. */
  function Explode(s: State): (r: State)
    ensures !s.bombPending ==> r == s
    ensures s.bombPending ==> r == s.(bombPending := false, finishTimer := true)
  {
    if !s.bombPending then s else s.(bombPending := false, finishTimer := true)
  }

  /** Fuse and overlap both call `explode`, but the second call finds the
      bomb gone: the overload end is scheduled once. */
  lemma ExplodesOnce(s: State)
    ensures Explode(Explode(s)) == Explode(s)
    ensures s.bombPending ==> Explode(s).finishTimer && !Explode(s).bombPending
  {
  }

  /** The callback 600 ms after the explosion. */
  function ExplodeFinish(s: State): (r: State)
    ensures r.canAttack && r.alchCharge == 0.0 && !r.isOverloading && !r.finishTimer
    ensures r.isCharging == s.isCharging
  {
    s.(canAttack := true, alchCharge := 0.0, isOverloading := false, finishTimer := false)
  }

  /** `reset()`: every timer is cancelled; a passive caught mid-phase gives
      back attacks (through `setCanAttack?.`, so only on a player that has
      the method) and the saved speed and multiplier; both phases end and
      the charge empties. */
  function Reset(s: State): (r: State)
    ensures !r.isCharging && !r.isOverloading && r.alchCharge == 0.0
    ensures !r.chargeTimer && !r.bombPending && !r.finishTimer
    ensures s.isCharging || s.isOverloading ==>
              && (s.hasSetCanAttack ==> r.canAttack)
              && (!s.hasSetCanAttack ==> r.canAttack == s.canAttack)
              && (s.origSpeed.Some? ==> r.speed == s.origSpeed.value)
              && (s.origDamageMul.Some? ==> r.damageTakenMul == s.origDamageMul.value)
    ensures !(s.isCharging || s.isOverloading) ==>
              r.canAttack == s.canAttack && r.speed == s.speed && r.damageTakenMul == s.damageTakenMul
  {
    var restored :=
      if s.isCharging || s.isOverloading then
        s.(canAttack := if s.hasSetCanAttack then true else s.canAttack,
           speed := if s.origSpeed.Some? then s.origSpeed.value else s.speed,
           damageTakenMul := if s.origDamageMul.Some? then s.origDamageMul.value else s.damageTakenMul)
      else s;
    restored.(isCharging := false, isOverloading := false, alchCharge := 0.0,
              chargeTimer := false, bombPending := false, finishTimer := false)
  }

  /** Every event keeps the passive valid: in particular it is never
      charging and overloading at once. The timer callbacks fire only while
      pending, as a cancelled Phaser timer never fires. */
  lemma TransitionsKeepValid(s: State, current: Option<string>)
    requires Valid(s)
    ensures Valid(HandleKill(s, current))
    ensures s.chargeTimer ==> Valid(FinishFullCharge(s))
    ensures Valid(Explode(s))
    ensures s.finishTimer ==> Valid(ExplodeFinish(s))
    ensures Valid(Reset(s))
  {
  }

  /** `updateHUD()` percent while idle: `(charge || 0) / (max || 1)`. */
  function HudPercent(s: State): (r: real)
    ensures Valid(s) ==> 0.0 <= r <= 1.0
    ensures Valid(s) ==> (r == 1.0 <==> s.alchCharge == ChargeMax)
  {
    var charge := if s.alchCharge != 0.0 then s.alchCharge else 0.0;
    var max := if s.alchChargeMax != 0.0 then s.alchChargeMax else 1.0;
    assert Valid(s) ==> charge / max == s.alchCharge / 600.0;
    charge / max
  }

  /** `n` kills in a row. */
  function Kills(s: State, current: Option<string>, n: nat): State
    decreases n
  {
    if n == 0 then s else Kills(HandleKill(s, current), current, n - 1)
  }

  /** From an idle empty charge, 39 kills fill the bar to 585 and the
      fortieth begins the charge phase. */
  lemma {:induction false} KillsToCharge(s: State, n: nat)
    requires Valid(s) && !s.isCharging && !s.isOverloading && s.alchCharge == 0.0
    requires n <= 40
    ensures Kills(s, Some(Key), n).alchCharge == 15.0 * n as real
    ensures Kills(s, Some(Key), n).isCharging <==> n == 40
    ensures n == 40 ==> (Kills(s, Some(Key), n).chargeTimer <==> s.hasSetCanAttack)
    ensures !Kills(s, Some(Key), n).isOverloading
    ensures n < 40 ==> Kills(s, Some(Key), n) == s.(alchCharge := 15.0 * n as real)
    decreases n
  {
    if n > 0 {
      KillsToCharge(s, n - 1);
      var before := Kills(s, Some(Key), n - 1);
      assert Kills(s, Some(Key), n) == HandleKill(before, Some(Key)) by {
        KillsSplit(s, Some(Key), n - 1);
      }
    }
  }

  /** `n + 1` kills are `n` kills and one more. */
  lemma {:induction false} KillsSplit(s: State, current: Option<string>, n: nat)
    ensures Kills(s, current, n + 1) == HandleKill(Kills(s, current, n), current)
    decreases n
  {
    if n > 0 {
      KillsSplit(HandleKill(s, current), current, n - 1);
    }
  }

  /** On a player without `setCanAttack` the fortieth kill leaves the
      alchemist stuck: charging with a full charge and no charge timer, the
      player keeping its speed, damage multiplier and attack flag. Only
      `reset` (a class switch) frees it. */
  lemma StuckAtForty(s: State)
    requires Valid(s) && !s.isCharging && !s.isOverloading && s.alchCharge == 0.0
    requires !s.hasSetCanAttack
    ensures var t := Kills(s, Some(Key), 40);
            && Stuck(t) && Valid(t) && !t.hasSetCanAttack
            && t.speed == s.speed && t.damageTakenMul == s.damageTakenMul && t.canAttack == s.canAttack
            && !Reset(t).isCharging && Reset(t).speed == Coalesce(s.speed, Num(200.0))
  {
    KillsToCharge(s, 39);
    KillsSplit(s, Some(Key), 39);
    assert Kills(s, Some(Key), 40) == BeginChargePhase(s.(alchCharge := 600.0));
  }

  /** A stuck alchemist ignores kills. */
  lemma {:induction false} StuckIgnoresKills(t: State, current: Option<string>, n: nat)
    requires Stuck(t)
    ensures Kills(t, current, n) == t
    decreases n
  {
    if n > 0 {
      assert HandleKill(t, current) == t;
      StuckIgnoresKills(t, current, n - 1);
    }
  }

  /** Kills past the fortieth change nothing on such a player. */
  lemma {:induction false} StuckAfterForty(s: State, n: nat)
    requires Valid(s) && !s.isCharging && !s.isOverloading && s.alchCharge == 0.0
    requires !s.hasSetCanAttack
    ensures Kills(s, Some(Key), 40 + n) == Kills(s, Some(Key), 40)
  {
    StuckAtForty(s);
    KillsCompose(s, Some(Key), 40, n);
    StuckIgnoresKills(Kills(s, Some(Key), 40), Some(Key), n);
  }

  /** `m + n` kills are `m` kills followed by `n`. */
  lemma {:induction false} KillsCompose(s: State, current: Option<string>, m: nat, n: nat)
    ensures Kills(s, current, m + n) == Kills(Kills(s, current, m), current, n)
    decreases m
  {
    if m > 0 {
      KillsCompose(HandleKill(s, current), current, m - 1, n);
    }
  }
}
