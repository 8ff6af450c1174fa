/** Stag Hunt; action 0 hunts the stag and 1 hunts the hare. */
module StagHunt {

  datatype Payoffs = Payoffs(stag: real, hare: real, fail: real)

  /** `play`: a joint stag hunt pays `stag` each, a joint hare hunt `hare`
      each, and a lone stag hunter gets `fail` while the hare hunter gets
      `hare`; every pair not matched earlier falls into the last branch. */
  function Play(p: Payoffs, a1: int, a2: int): (r: (real, real))
    ensures a1 == 1 ==> r.0 == p.hare
    ensures a2 == 1 && (a1 == 0 || a1 == 1) ==> r.1 == p.hare
  {
    if a1 == 0 && a2 == 0 then (p.stag, p.stag)
    else if a1 == 1 && a2 == 1 then (p.hare, p.hare)
    else if a1 == 0 && a2 == 1 then (p.fail, p.hare)
    else (p.hare, p.fail)
  }

  lemma PlayTable(p: Payoffs)
    ensures Play(p, 0, 0) == (p.stag, p.stag)
    ensures Play(p, 1, 1) == (p.hare, p.hare)
    ensures Play(p, 0, 1) == (p.fail, p.hare)
    ensures Play(p, 1, 0) == (p.hare, p.fail)
  {
  }

  /** Exchanging the players exchanges the payoffs. */
  lemma PlaySymmetric(p: Payoffs, a1: int, a2: int)
    requires a1 == 0 || a1 == 1
    requires a2 == 0 || a2 == 1
    ensures Play(p, a2, a1) == (Play(p, a1, a2).1, Play(p, a1, a2).0)
  {
  }
}
