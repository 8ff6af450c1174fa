/** Public goods game: contributions go into a pot, the pot is multiplied
    and shared equally, and each player keeps what it did not contribute. */
module PublicGoods {
  import opened Clamping
  import opened Sums

  datatype Config = Config(endowment: real, multiplier: real, numPlayers: int)

  /** `np.clip(contributions, 0, endowment)`. */
  function Clipped(cs: seq<real>, endowment: real): (r: seq<real>)
    ensures |r| == |cs|
    ensures forall i :: 0 <= i < |cs| ==> r[i] == ClampReal(cs[i], 0.0, endowment)
  {
    if |cs| == 0 then []
    else [ClampReal(cs[0], 0.0, endowment)] + Clipped(cs[1..], endowment)
  }

  /** The pot after multiplication. */
  function Pot(cfg: Config, cs: seq<real>): real
  {
    RealSum(Clipped(cs, cfg.endowment)) * cfg.multiplier
  }

  /** Each player's share of the multiplied pot; the divisor is the
      configured player count, not the number of contributions. */
  function Share(cfg: Config, cs: seq<real>): real
    requires cfg.numPlayers != 0
  {
    Divide(Pot(cfg, cs), cfg.numPlayers)
  }

  /** `x / k` for a non-zero player count `k`. */
  function Divide(x: real, k: int): (q: real)
    requires k != 0
    ensures q * k as real == x
  {
    x / k as real
  }

  /** Every player keeps what it did not contribute and receives `share`. */
  function Payoffs(clipped: seq<real>, endowment: real, share: real): (ps: seq<real>)
    ensures |ps| == |clipped|
    ensures forall i :: 0 <= i < |clipped| ==> ps[i] == endowment - clipped[i] + share
  {
    if |clipped| == 0 then []
    else [endowment - clipped[0] + share] + Payoffs(clipped[1..], endowment, share)
  }

  /** `play`: one payoff per contribution, in the same order. */
  function Play(cfg: Config, cs: seq<real>): (ps: seq<real>)
    requires cfg.numPlayers != 0
    ensures |ps| == |cs|
    ensures forall i :: 0 <= i < |cs| ==>
      ps[i] == cfg.endowment - Clipped(cs, cfg.endowment)[i] + Share(cfg, cs)
  {
    Payoffs(Clipped(cs, cfg.endowment), cfg.endowment, Share(cfg, cs))
  }

  /** Whoever contributes less ends up ahead by exactly the difference. */
  lemma PlayDifference(cfg: Config, cs: seq<real>, i: int, j: int)
    requires cfg.numPlayers != 0
    requires 0 <= i < |cs| && 0 <= j < |cs|
    ensures Play(cfg, cs)[i] - Play(cfg, cs)[j]
         == ClampReal(cs[j], 0.0, cfg.endowment) - ClampReal(cs[i], 0.0, cfg.endowment)
  {
  }

  /** `k` copies of `x` added up: multiplication by a count, spelled out so
      that the sums below stay linear. */
  function Copies(k: nat, x: real): (r: real)
    ensures r == k as real * x
  {
    if k == 0 then 0.0 else Copies(k - 1, x) + x
  }

  /** Payoffs of the form `e - c + share` add up to the endowments plus the
      shares, less the contributions. */
  lemma {:induction false} SumOfShares(ps: seq<real>, cs: seq<real>, e: real, share: real)
    requires |ps| == |cs|
    requires forall i :: 0 <= i < |cs| ==> ps[i] == e - cs[i] + share
    ensures RealSum(ps) == Copies(|cs|, e) + Copies(|cs|, share) - RealSum(cs)
  {
    if |cs| > 0 {
      SumOfShares(ps[1..], cs[1..], e, share);
    }
  }

  /** With as many contributions as players, the payoffs add up to the
      endowments, less what went into the pot, plus the multiplied pot. */
  lemma PlayTotal(cfg: Config, cs: seq<real>)
    requires cfg.numPlayers == |cs| && |cs| > 0
    ensures RealSum(Play(cfg, cs))
         == Copies(|cs|, cfg.endowment) - RealSum(Clipped(cs, cfg.endowment)) + Pot(cfg, cs)
  {
    SumOfShares(Play(cfg, cs), Clipped(cs, cfg.endowment), cfg.endowment, Share(cfg, cs));
    SharesRebuildPot(|cs|, Pot(cfg, cs));
  }

  /** `k` equal parts of `x` add back up to `x`. */
  lemma SharesRebuildPot(k: nat, x: real)
    requires k > 0
    ensures Copies(k, Divide(x, k)) == x
  {
  }

  /** `play_two_player`: the same formula with the pot split in two. */
  function PlayTwoPlayer(cfg: Config, c1: real, c2: real): (r: (real, real))
    ensures var k1 := ClampReal(c1, 0.0, cfg.endowment);
      var k2 := ClampReal(c2, 0.0, cfg.endowment);
      && r.0 - r.1 == k2 - k1
      && r.0 + r.1 == 2.0 * cfg.endowment + (k1 + k2) * (cfg.multiplier - 1.0)
  {
    var k1 := ClampReal(c1, 0.0, cfg.endowment);
    var k2 := ClampReal(c2, 0.0, cfg.endowment);
    var share := (k1 + k2) * cfg.multiplier / 2.0;
    (cfg.endowment - k1 + share, cfg.endowment - k2 + share)
  }

  /** Exchanging the contributions exchanges the payoffs. */
  lemma TwoPlayerSwap(cfg: Config, c1: real, c2: real)
    ensures PlayTwoPlayer(cfg, c2, c1) == (PlayTwoPlayer(cfg, c1, c2).1, PlayTwoPlayer(cfg, c1, c2).0)
  {
  }

  /** Nobody contributing leaves everybody with the endowment. */
  lemma TwoPlayerNoContribution(cfg: Config)
    requires cfg.endowment >= 0.0
    ensures PlayTwoPlayer(cfg, 0.0, 0.0) == (cfg.endowment, cfg.endowment)
  {
    var r := PlayTwoPlayer(cfg, 0.0, 0.0);
    assert ClampReal(0.0, 0.0, cfg.endowment) == 0.0;
    assert (0.0 + 0.0) * cfg.multiplier == 0.0;
    assert r.0 == cfg.endowment;
    assert r.1 == cfg.endowment;
  }

  /** The two-player entry point is the general game with two players. */
  lemma TwoPlayerIsGeneralGame(cfg: Config, c1: real, c2: real)
    requires cfg.numPlayers == 2
    ensures var ps := Play(cfg, [c1, c2]);
      PlayTwoPlayer(cfg, c1, c2) == (ps[0], ps[1])
  {
    var clipped := Clipped([c1, c2], cfg.endowment);
    var k1 := ClampReal(c1, 0.0, cfg.endowment);
    var k2 := ClampReal(c2, 0.0, cfg.endowment);
    assert clipped == [k1, k2];
    assert clipped[1..] == [k2];
    assert clipped[1..][1..] == [];
    assert RealSum(clipped[1..][1..]) == 0.0;
    assert RealSum(clipped[1..]) == k2;
    assert RealSum(clipped) == k1 + k2;
    assert Share(cfg, [c1, c2]) == (k1 + k2) * cfg.multiplier / 2.0;
    var ps := Play(cfg, [c1, c2]);
    assert ps[0] == cfg.endowment - k1 + (k1 + k2) * cfg.multiplier / 2.0;
    assert ps[1] == cfg.endowment - k2 + (k1 + k2) * cfg.multiplier / 2.0;
    var r := PlayTwoPlayer(cfg, c1, c2);
    assert r.0 == ps[0];
    assert r.1 == ps[1];
  }
}
