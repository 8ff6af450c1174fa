/** One-shot Prisoner's Dilemma; action 0 cooperates and 1 betrays. */
module PrisonersDilemma {

  /** Reward R, temptation T, sucker's payoff S and punishment P. */
  datatype Payoffs = Payoffs(reward: real, temptation: real, sucker: real, punishment: real)

  /** `play`: mutual cooperation pays R each, mutual betrayal P each,
      cooperating against a betrayer pays (S, T), and every other pair,
      including ids other than 0 and 1, pays (T, S). */
  function Play(p: Payoffs, a1: int, a2: int): (r: (real, real))
    ensures a1 == a2 && (a1 == 0 || a1 == 1) ==> r.0 == r.1
    ensures r.0 == p.reward || r.0 == p.punishment || r.0 == p.sucker || r.0 == p.temptation
    ensures r.1 == p.reward || r.1 == p.punishment || r.1 == p.sucker || r.1 == p.temptation
  {
    if a1 == 0 && a2 == 0 then (p.reward, p.reward)
    else if a1 == 1 && a2 == 1 then (p.punishment, p.punishment)
    else if a1 == 0 && a2 == 1 then (p.sucker, p.temptation)
    else (p.temptation, p.sucker)
  }

  /** The payoff table, including the catch-all last branch. */
  lemma PlayTable(p: Payoffs, a1: int, a2: int)
    ensures Play(p, 0, 0) == (p.reward, p.reward)
    ensures Play(p, 1, 1) == (p.punishment, p.punishment)
    ensures Play(p, 0, 1) == (p.sucker, p.temptation)
    ensures Play(p, 1, 0) == (p.temptation, p.sucker)
    ensures !(a1 == 0 && a2 == 0) && !(a1 == 1 && a2 == 1) && !(a1 == 0 && a2 == 1) ==>
      Play(p, a1, a2) == (p.temptation, p.sucker)
  {
  }

  /** For real actions the game is symmetric: exchanging the players
      exchanges the payoffs. */
  lemma PlaySymmetric(p: Payoffs, a1: int, a2: int)
    requires a1 == 0 || a1 == 1
    requires a2 == 0 || a2 == 1
    ensures Play(p, a2, a1) == (Play(p, a1, a2).1, Play(p, a1, a2).0)
  {
  }

  /** The default payoffs R, T, S, P = 3, 5, 0, 1. */
  lemma DefaultExample()
    ensures Play(Payoffs(3.0, 5.0, 0.0, 1.0), 0, 0) == (3.0, 3.0)
    ensures Play(Payoffs(3.0, 5.0, 0.0, 1.0), 1, 1) == (1.0, 1.0)
  {
  }
}
