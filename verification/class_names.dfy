/** Class-name matching shared by the three passive systems
    (js/systems/PassiveSystem/PassiveSystem.js, js/systems/PassiveSystem.js,
    systems/PassiveSystem.js): the name is lower-cased and stripped of every
    character outside `a`..`z`, and a passive is chosen by the first key
    the stripped name contains. */
module ClassNames {
  import opened Js

  predicate IsLowerLetter(c: char) {
    'a' <= c <= 'z'
  }

  /** `toLowerCase()`, accent stripping, then removal of everything outside `a`..`z`. */
  function Normalize(name: string): (r: string)
    ensures |r| <= |name|
    ensures forall i :: 0 <= i < |r| ==> IsLowerLetter(r[i])
    ensures (forall i :: 0 <= i < |name| ==> IsLowerLetter(name[i])) ==> r == name
  {
    if name == [] then []
    else
      var c := LowerChar(name[0]);
      (if IsLowerLetter(c) then [c] else []) + Normalize(name[1..])
  }

  /** Normalising twice is normalising once. */
  lemma NormalizeIdempotent(name: string)
    ensures Normalize(Normalize(name)) == Normalize(name)
  {
  }

  /** The first of `keys` that `name` contains: the `for (const key in map)`
      loop that returns after the first match. */
  function FirstMatch(keys: seq<string>, name: string): (r: Option<nat>)
    ensures r.Some? ==> r.value < |keys| && Includes(name, keys[r.value])
                        && forall j :: 0 <= j < r.value ==> !Includes(name, keys[j])
    ensures r.None? ==> forall j :: 0 <= j < |keys| ==> !Includes(name, keys[j])
  {
    if keys == [] then None
    else if Includes(name, keys[0]) then Some(0)
    else
      match FirstMatch(keys[1..], name)
      case None => None
      case Some(i) => Some(i + 1)
  }

  /** The passives of the two older systems, in the order their key map lists them. */
  datatype Passive = Alchemist | Gravedigger | Sentinel

  const PassiveKeys: seq<string> := ["alquimista", "coveiro", "sentinela"]

  function PassiveOf(i: nat): Passive
    requires i < 3
  {
    [Alchemist, Gravedigger, Sentinel][i]
  }

  /** The passive `activateClassAbilities(className)` runs: none for a
      missing or empty name, else the first whose key the normalised name
      contains, if any. */
  function Choose(className: Option<string>): (r: Option<Passive>)
    ensures className.None? || className == Some("") ==> r.None?
    ensures className.Some? && className.value != "" ==>
              var i := FirstMatch(PassiveKeys, Normalize(className.value));
              (r.Some? <==> i.Some?) && (r.Some? ==> r.value == PassiveOf(i.value))
  {
    if className.None? || className.value == "" then None
    else
      match FirstMatch(PassiveKeys, Normalize(className.value))
      case None => None
      case Some(i) => Some(PassiveOf(i))
  }
}
