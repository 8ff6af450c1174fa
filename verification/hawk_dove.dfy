/** Hawk-Dove (Chicken); action 0 is Hawk and 1 is Dove. */
module HawkDove {

  datatype Params = Params(value: real, cost: real)

  /** `play`: two Hawks split the value and bear the cost, a Hawk facing a
      Dove takes everything, and two Doves share the value; any pair not
      matched earlier falls into the two-Dove branch. */
  function Play(p: Params, a1: int, a2: int): (r: (real, real))
    ensures a1 == 0 && a2 == 0 ==> r.0 + r.1 == p.value - p.cost
    ensures !(a1 == 0 && a2 == 0) ==> r.0 + r.1 == p.value
    ensures a1 == a2 ==> r.0 == r.1
  {
    if a1 == 0 && a2 == 0 then ((p.value - p.cost) / 2.0, (p.value - p.cost) / 2.0)
    else if a1 == 0 && a2 == 1 then (p.value, 0.0)
    else if a1 == 1 && a2 == 0 then (0.0, p.value)
    else (p.value / 2.0, p.value / 2.0)
  }

  lemma PlayTable(p: Params)
    ensures Play(p, 0, 0) == ((p.value - p.cost) / 2.0, (p.value - p.cost) / 2.0)
    ensures Play(p, 0, 1) == (p.value, 0.0)
    ensures Play(p, 1, 0) == (0.0, p.value)
    ensures Play(p, 1, 1) == (p.value / 2.0, p.value / 2.0)
  {
  }

  /** Exchanging the players exchanges the payoffs. */
  lemma PlaySymmetric(p: Params, a1: int, a2: int)
    requires a1 == 0 || a1 == 1
    requires a2 == 0 || a2 == 1
    ensures Play(p, a2, a1) == (Play(p, a1, a2).1, Play(p, a1, a2).0)
  {
  }
}
