/** Pure coordination game; action 0 picks option A and 1 picks option B. */
module Coordination {

  datatype Payoffs = Payoffs(coordA: real, coordB: real, mismatch: real)

  /** `play`: matching on A pays `coordA`, matching on B pays `coordB`,
      anything else pays `mismatch`; both players always get the same. */
  function Play(p: Payoffs, a1: int, a2: int): (r: (real, real))
    ensures r.0 == r.1
    ensures r.0 == p.mismatch || (a1 == a2 && (a1 == 0 || a1 == 1))
  {
    if a1 == 0 && a2 == 0 then (p.coordA, p.coordA)
    else if a1 == 1 && a2 == 1 then (p.coordB, p.coordB)
    else (p.mismatch, p.mismatch)
  }

  lemma PlayTable(p: Payoffs, a1: int, a2: int)
    ensures Play(p, 0, 0) == (p.coordA, p.coordA)
    ensures Play(p, 1, 1) == (p.coordB, p.coordB)
    ensures !(a1 == 0 && a2 == 0) && !(a1 == 1 && a2 == 1) ==> Play(p, a1, a2) == (p.mismatch, p.mismatch)
  {
  }

  /** The game is symmetric for every pair of ids, not only 0 and 1. */
  lemma PlaySymmetric(p: Payoffs, a1: int, a2: int)
    ensures Play(p, a2, a1) == (Play(p, a1, a2).1, Play(p, a1, a2).0)
  {
  }
}
