/** The passive system of the current game
    (js/systems/PassiveSystem/PassiveSystem.js): it owns one alchemist and
    one gravedigger module, selects at most one of them from the class name,
    resets the old one on a switch, and forwards enemy kills to the current
    one only. */
module PassiveSwitch {
  import opened Js
  import Alquimista
  import Coveiro
  import opened ClassNames

  datatype System = System(current: Option<string>, alquimista: Alquimista.State,
                           coveiro: Coveiro.State, player: Coveiro.Player)

  /** The module a class name selects: the alchemist is tested first. */
  function Selected(name: string): (r: Option<string>)
    ensures r.Some? ==> r.value == Alquimista.Key || r.value == Coveiro.Key
    ensures r == Some(Alquimista.Key) <==> Includes(Normalize(name), "alquimista")
    ensures r == Some(Coveiro.Key) <==> !Includes(Normalize(name), "alquimista") && Includes(Normalize(name), "coveiro")
  {
    var key := Normalize(name);
    if Includes(key, "alquimista") then Some(Alquimista.Key)
    else if Includes(key, "coveiro") then Some(Coveiro.Key)
    else None
  }

  /** `reset()` of the current module, if there is one. */
  function ResetCurrent(sys: System): (r: System)
    ensures r.current == sys.current && r.player == sys.player
    ensures sys.current == Some(Alquimista.Key) ==> r.alquimista == Alquimista.Reset(sys.alquimista) && r.coveiro == sys.coveiro
    ensures sys.current == Some(Coveiro.Key) ==> r.coveiro == Coveiro.Reset(sys.coveiro).0 && r.alquimista == sys.alquimista
    ensures sys.current.None? ==> r == sys
  {
    if sys.current == Some(Alquimista.Key) then sys.(alquimista := Alquimista.Reset(sys.alquimista))
    else if sys.current == Some(Coveiro.Key) then sys.(coveiro := Coveiro.Reset(sys.coveiro).0)
    else sys
  }

  /** `activateClassAbilities(className)`: a missing, empty or unknown name
      changes nothing; otherwise the old module is reset, the selection
      becomes current and its module is activated. */
  function ActivateClassAbilities(sys: System, className: Option<string>): (r: System)
    ensures className.None? || className == Some("") || Selected(className.value).None? ==> r == sys
    ensures className.Some? && className.value != "" && Selected(className.value).Some? ==>
              var sel := Selected(className.value);
              var before := ResetCurrent(sys);
              && r.current == sel
              && (sel == Some(Alquimista.Key) ==> r.coveiro == before.coveiro && r.alquimista == before.alquimista && r.player == sys.player)
              && (sel == Some(Coveiro.Key) ==>
                    r.alquimista == before.alquimista
                    && (r.coveiro, r.player) == Coveiro.Activate(before.coveiro, sys.player, sel))
  {
    if className.None? || className.value == "" then sys
    else
      var sel := Selected(className.value);
      if sel.None? then sys
      else
        var reset := ResetCurrent(sys).(current := sel);
        if sel == Some(Coveiro.Key) then
          var (c, p) := Coveiro.Activate(reset.coveiro, reset.player, sel);
          reset.(coveiro := c, player := p)
        else reset
  }

  /** Switching from the gravedigger to the alchemist resets the gravedigger. */
  lemma SwitchResetsPrevious(sys: System, name: string)
    requires sys.current == Some(Coveiro.Key) && name != "" && Selected(name) == Some(Alquimista.Key)
    ensures ActivateClassAbilities(sys, Some(name)).coveiro == Coveiro.Init()
    ensures ActivateClassAbilities(sys, Some(name)).current == Some(Alquimista.Key)
  {
  }

  /** `deactivateCurrent()` */
  function DeactivateCurrent(sys: System): (r: System)
    ensures r.current.None? && r.player == sys.player
    ensures sys.current == Some(Coveiro.Key) ==> r.coveiro == Coveiro.Init() && r.alquimista == sys.alquimista
    ensures sys.current == Some(Alquimista.Key) ==>
              !r.alquimista.isCharging && !r.alquimista.isOverloading && r.alquimista.alchCharge == 0.0
              && r.coveiro == sys.coveiro
    ensures sys.current != Some(Coveiro.Key) && sys.current != Some(Alquimista.Key) ==>
              r.alquimista == sys.alquimista && r.coveiro == sys.coveiro
  {
    ResetCurrent(sys).(current := None)
  }

  /** `onEnemyKilled(enemy)`: forwarded to the current module only. */
  function OnEnemyKilled(sys: System): (r: System)
    ensures r.current == sys.current
    ensures sys.current.None? ==> r == sys
    ensures sys.current == Some(Alquimista.Key) ==>
              r == sys.(alquimista := Alquimista.HandleKill(sys.alquimista, sys.current))
    ensures sys.current == Some(Coveiro.Key) ==>
              r == sys.(player := Coveiro.OnEnemyKilled(sys.player, sys.current))
    ensures sys.current != Some(Alquimista.Key) ==> r.alquimista == sys.alquimista
    ensures sys.current != Some(Coveiro.Key) ==> r.player == sys.player
  {
    if sys.current == Some(Alquimista.Key) then sys.(alquimista := Alquimista.HandleKill(sys.alquimista, sys.current))
    else if sys.current == Some(Coveiro.Key) then sys.(player := Coveiro.OnEnemyKilled(sys.player, sys.current))
    else sys
  }
}
