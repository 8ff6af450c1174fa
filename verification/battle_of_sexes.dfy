/** Battle of the Sexes; action 0 is Opera and 1 is Football. */
module BattleOfSexes {

  datatype Payoffs = Payoffs(operaMan: real, operaWoman: real, footballMan: real, footballWoman: real)

  /** `play`: meeting at the opera or at the football pays the listed pair;
      every other pair, out-of-range ids included, pays nothing. */
  function Play(p: Payoffs, a1: int, a2: int): (r: (real, real))
    ensures !(a1 == a2 && (a1 == 0 || a1 == 1)) ==> r == (0.0, 0.0)
  {
    if a1 == 0 && a2 == 0 then (p.operaMan, p.operaWoman)
    else if a1 == 1 && a2 == 1 then (p.footballMan, p.footballWoman)
    else (0.0, 0.0)
  }

  lemma PlayTable(p: Payoffs)
    ensures Play(p, 0, 0) == (p.operaMan, p.operaWoman)
    ensures Play(p, 1, 1) == (p.footballMan, p.footballWoman)
    ensures Play(p, 0, 1) == (0.0, 0.0)
    ensures Play(p, 1, 0) == (0.0, 0.0)
  {
  }

  /** With the man's and the woman's preferences exchanged, exchanging the
      players exchanges the payoffs. */
  lemma PlaySymmetricUnderRoleSwap(p: Payoffs, a1: int, a2: int)
    ensures Play(Payoffs(p.operaWoman, p.operaMan, p.footballWoman, p.footballMan), a2, a1)
         == (Play(p, a1, a2).1, Play(p, a1, a2).0)
  {
  }
}
