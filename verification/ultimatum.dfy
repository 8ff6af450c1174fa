/** Ultimatum game: the responder either accepts the proposer's offer or
    rejects it, and then nobody gets anything. */
module Ultimatum {
  import opened Clamping
  import opened Results

  datatype Config = Config(total: int)

  datatype UltimatumError = InvalidProposerStrategy | InvalidResponderStrategy

  /** The responder accepts when the clamped offer reaches the clamped threshold. */
  predicate Accepts(cfg: Config, offer: int, threshold: int)
  {
    ClampInt(offer, 0, cfg.total) >= ClampInt(threshold, 0, cfg.total)
  }

  /** `play`: clamp the offer and the threshold into [0, total], then split
      the amount if the offer is accepted. */
  function Play(cfg: Config, offer: int, threshold: int): (r: (int, int))
    ensures Accepts(cfg, offer, threshold) ==> r.0 + r.1 == cfg.total && r.1 == ClampInt(offer, 0, cfg.total)
    ensures !Accepts(cfg, offer, threshold) ==> r == (0, 0)
    ensures cfg.total >= 0 ==> 0 <= r.0 <= cfg.total && 0 <= r.1 <= cfg.total
  {
    var o := ClampInt(offer, 0, cfg.total);
    var t := ClampInt(threshold, 0, cfg.total);
    if o >= t then (cfg.total - o, o) else (0, 0)
  }

  /** A threshold of 0 accepts every offer. */
  lemma ZeroThresholdAcceptsAll(cfg: Config, offer: int)
    ensures Accepts(cfg, offer, 0)
    ensures Play(cfg, offer, 0) == (cfg.total - ClampInt(offer, 0, cfg.total), ClampInt(offer, 0, cfg.total))
  {
  }

  lemma PlayExample()
    ensures Play(Config(10), 4, 5) == (0, 0)
    ensures Play(Config(10), 6, 5) == (4, 6)
  {
  }

  /** Python's `round`: the nearest integer, ties going to the even one. */
  function RoundHalfEven(x: real): (n: int)
    ensures -0.5 <= x - n as real <= 0.5
    ensures (x - n as real == 0.5 || x - n as real == -0.5) ==> n % 2 == 0
  {
    var f := x.Floor;
    var d := x - f as real;
    if d < 0.5 then f
    else if d > 0.5 then f + 1
    else if f % 2 == 0 then f
    else f + 1
  }

  /** Rounding leaves integers alone. */
  lemma RoundInteger(k: int)
    ensures RoundHalfEven(k as real) == k
  {
  }

  /** The offer of each proposer strategy, before rounding: Fair Split
      `total // 2`, then 30%, 10% and 90% of the total. */
  function ProposerOffer(total: int, strategy: int): (r: Result<real, UltimatumError>)
    ensures r.Err? <==> !(0 <= strategy <= 3)
    ensures r.Err? ==> r.error == InvalidProposerStrategy
  {
    if strategy == 0 then Ok((total / 2) as real)
    else if strategy == 1 then Ok(total as real * 0.3)
    else if strategy == 2 then Ok(total as real * 0.1)
    else if strategy == 3 then Ok(total as real * 0.9)
    else Err(InvalidProposerStrategy)
  }

  /** The threshold of each responder strategy, before rounding: Accept
      Anything 0, then 50% and 30% of the total, and Rational 1 unit. */
  function ResponderThreshold(total: int, strategy: int): (r: Result<real, UltimatumError>)
    ensures r.Err? <==> !(0 <= strategy <= 3)
    ensures r.Err? ==> r.error == InvalidResponderStrategy
  {
    if strategy == 0 then Ok(0.0)
    else if strategy == 1 then Ok(total as real * 0.5)
    else if strategy == 2 then Ok(total as real * 0.3)
    else if strategy == 3 then Ok(if total > 0 then 1.0 else 0.0)
    else Err(InvalidResponderStrategy)
  }

  /** `play_with_strategy`: look up the offer (raising first for a bad
      proposer), then the threshold, round both and play. */
  function PlayWithStrategy(cfg: Config, proposer: int, responder: int): (r: Result<(int, int), UltimatumError>)
    ensures !(0 <= proposer <= 3) ==> r == Err(InvalidProposerStrategy)
    ensures 0 <= proposer <= 3 && !(0 <= responder <= 3) ==> r == Err(InvalidResponderStrategy)
    ensures r.Ok? <==> 0 <= proposer <= 3 && 0 <= responder <= 3
    ensures r.Ok? && cfg.total >= 0 ==> 0 <= r.value.0 <= cfg.total && 0 <= r.value.1 <= cfg.total
  {
    var offer :- ProposerOffer(cfg.total, proposer);
    var threshold :- ResponderThreshold(cfg.total, responder);
    Ok(Play(cfg, RoundHalfEven(offer), RoundHalfEven(threshold)))
  }

  /** Fair Split offers exactly `total // 2`, and against Accept Anything it
      is taken. */
  lemma FairSplitOffer(cfg: Config, responder: int)
    requires 0 <= responder <= 3
    ensures RoundHalfEven(ProposerOffer(cfg.total, 0).value) == cfg.total / 2
    ensures responder == 0 ==>
      PlayWithStrategy(cfg, 0, responder) == Ok(Play(cfg, cfg.total / 2, 0))
  {
    RoundInteger(cfg.total / 2);
  }

  /** Rational asks for one unit when there is anything to share. */
  lemma RationalThreshold(cfg: Config)
    ensures RoundHalfEven(ResponderThreshold(cfg.total, 3).value) == (if cfg.total > 0 then 1 else 0)
  {
    RoundInteger(if cfg.total > 0 then 1 else 0);
  }

  /** Accept Anything accepts every proposer's offer. */
  lemma AcceptAnythingAccepts(cfg: Config, proposer: int)
    requires 0 <= proposer <= 3
    ensures var o := RoundHalfEven(ProposerOffer(cfg.total, proposer).value);
      PlayWithStrategy(cfg, proposer, 0) == Ok((cfg.total - ClampInt(o, 0, cfg.total), ClampInt(o, 0, cfg.total)))
  {
    RoundInteger(0);
  }

  /** The strategy catalogue on 10 units: offers 5, 3, 1, 9 against
      thresholds 0, 5, 3, 1. */
  lemma StrategyExamples()
    ensures PlayWithStrategy(Config(10), 0, 1) == Ok((5, 5))
    ensures PlayWithStrategy(Config(10), 1, 1) == Ok((0, 0))
    ensures PlayWithStrategy(Config(10), 1, 2) == Ok((7, 3))
    ensures PlayWithStrategy(Config(10), 2, 2) == Ok((0, 0))
    ensures PlayWithStrategy(Config(10), 2, 3) == Ok((9, 1))
    ensures PlayWithStrategy(Config(10), 3, 0) == Ok((1, 9))
  {
    assert RoundHalfEven(10.0 * 0.5) == 5;
    assert RoundHalfEven(10.0 * 0.3) == 3;
    assert RoundHalfEven(10.0 * 0.1) == 1;
    assert RoundHalfEven(10.0 * 0.9) == 9;
    assert RoundHalfEven(1.0) == 1;
    assert RoundHalfEven(0.0) == 0;
  }

  /** On 5 units the ties round to even: 30% is 1.5 and becomes 2, 10% is
      0.5 and becomes 0, 90% is 4.5 and becomes 4, 50% is 2.5 and becomes 2. */
  lemma HalfEvenExamples()
    ensures PlayWithStrategy(Config(5), 1, 1) == Ok((3, 2))
    ensures PlayWithStrategy(Config(5), 2, 3) == Ok((0, 0))
    ensures PlayWithStrategy(Config(5), 3, 2) == Ok((1, 4))
  {
    assert RoundHalfEven(5.0 * 0.3) == 2;
    assert RoundHalfEven(5.0 * 0.5) == 2;
    assert RoundHalfEven(5.0 * 0.1) == 0;
    assert RoundHalfEven(5.0 * 0.9) == 4;
    assert RoundHalfEven(1.0) == 1;
  }
}
