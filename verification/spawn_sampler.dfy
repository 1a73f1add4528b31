/** The bounded rejection sampler both spawn directors use to place an enemy
    (`getSpawnPosition` in js/Director/SpawnDirector.js and
    Director/SpawnDirector.js). The source draws an angle and a distance per
    attempt and takes `cos`/`sin`; here the candidate points of the attempts
    are given, and only the attempt bound and the world-bounds test are kept. */
module SpawnSampler {
  import opened Js

  datatype Point = Point(x: real, y: real)

  /** The bounds test: inside the closed rectangle `[0,width]x[0,height]`. */
  predicate InWorld(p: Point, width: real, height: real) {
    0.0 <= p.x <= width && 0.0 <= p.y <= height
  }

  /** Number of candidates looked at: every attempt, or every candidate supplied if fewer. */
  function Tries(candidates: seq<Point>, attempts: nat): nat {
    if |candidates| < attempts then |candidates| else attempts
  }

  function FirstInWorld(candidates: seq<Point>, width: real, height: real): (r: Option<Point>)
    ensures r.Some? ==> InWorld(r.value, width, height) && r.value in candidates
    ensures r.None? <==> forall i :: 0 <= i < |candidates| ==> !InWorld(candidates[i], width, height)
  {
    if candidates == [] then None
    else if InWorld(candidates[0], width, height) then Some(candidates[0])
    else FirstInWorld(candidates[1..], width, height)
  }

  /** The first in-world candidate among the first `attempts`, or null. */
  function Sample(candidates: seq<Point>, attempts: nat, width: real, height: real): (r: Option<Point>)
    ensures r.Some? ==> InWorld(r.value, width, height) && r.value in candidates[..Tries(candidates, attempts)]
    ensures r.None? <==> forall i :: 0 <= i < Tries(candidates, attempts) ==> !InWorld(candidates[i], width, height)
  {
    FirstInWorld(candidates[..Tries(candidates, attempts)], width, height)
  }

  /** The sampler's `while (attempts-- > 0)` loop. */
  method GetSpawnPosition(candidates: seq<Point>, attempts: nat, width: real, height: real) returns (r: Option<Point>)
    ensures r.Some? ==> InWorld(r.value, width, height)
    ensures r.Some? ==> exists i :: 0 <= i < Tries(candidates, attempts) && candidates[i] == r.value
                          && forall j :: 0 <= j < i ==> !InWorld(candidates[j], width, height)
    ensures r.None? <==> forall i :: 0 <= i < Tries(candidates, attempts) ==> !InWorld(candidates[i], width, height)
    ensures r == Sample(candidates, attempts, width, height)
  {
    var n := Tries(candidates, attempts);
    var i := 0;
    while i < n
      invariant 0 <= i <= n
      invariant forall j :: 0 <= j < i ==> !InWorld(candidates[j], width, height)
      invariant FirstInWorld(candidates[..n], width, height) == FirstInWorld(candidates[i..n], width, height)
    {
      if InWorld(candidates[i], width, height) {
        assert candidates[i..n][0] == candidates[i];
        return Some(candidates[i]);
      }
      assert candidates[i..n][1..] == candidates[i + 1..n];
      i := i + 1;
    }
    assert candidates[i..n] == [];
    return None;
  }
}
