/** Trust game: the sender passes part of its endowment on, the amount is
    multiplied, and the receiver returns a share of the multiplied amount. */
module Trust {
  import opened Clamping
  import opened Results

  datatype Config = Config(initial: real, multiplier: real)

  datatype TrustError = UnknownSendChoice | UnknownReturnChoice

  /** `play`: the amount sent is clamped into [0, initial] and the return
      ratio into [0, 1]; the sent amount is multiplied and the ratio of the
      multiplied amount goes back to the sender. */
  function Play(cfg: Config, sent: real, ratio: real): (r: (real, real))
    ensures ratio <= 0.0 ==> r.0 == cfg.initial - ClampReal(sent, 0.0, cfg.initial)
  {
    var s := ClampReal(sent, 0.0, cfg.initial);
    var q := ClampReal(ratio, 0.0, 1.0);
    var multiplied := s * cfg.multiplier;
    var returned := multiplied * q;
    (cfg.initial - s + returned, multiplied - returned)
  }

  /** Distributivity, `x * (a - b) == x * a - x * b`, with `x * 1 == x`. */
  lemma ScaleBy(x: real, a: real, b: real)
    ensures x * (a - b) == x * a - x * b
    ensures x * 1.0 == x
  {
  }

  lemma Product(x: real, y: real)
    ensures x >= 0.0 && y >= 0.0 ==> x * y >= 0.0
    ensures x * 0.0 == 0.0 && 0.0 * y == 0.0
  {
  }

  /** The payoffs in closed form: the sender keeps what it did not send and
      gets back `q` of the multiplied amount, the receiver keeps the rest. */
  lemma PlayFormula(cfg: Config, sent: real, ratio: real)
    ensures Play(cfg, sent, ratio).0
         == cfg.initial - ClampReal(sent, 0.0, cfg.initial)
            + ClampReal(sent, 0.0, cfg.initial) * cfg.multiplier * ClampReal(ratio, 0.0, 1.0)
    ensures Play(cfg, sent, ratio).1
         == ClampReal(sent, 0.0, cfg.initial) * cfg.multiplier * (1.0 - ClampReal(ratio, 0.0, 1.0))
  {
    ScaleBy(ClampReal(sent, 0.0, cfg.initial) * cfg.multiplier, 1.0, ClampReal(ratio, 0.0, 1.0));
  }

  /** The payoffs add up to the endowment plus the net gain of the
      multiplication; the return ratio only moves money between the players. */
  lemma PlayConservation(cfg: Config, sent: real, ratio: real)
    ensures var s := ClampReal(sent, 0.0, cfg.initial);
      Play(cfg, sent, ratio).0 + Play(cfg, sent, ratio).1 == cfg.initial + s * (cfg.multiplier - 1.0)
  {
    var s := ClampReal(sent, 0.0, cfg.initial);
    var q := ClampReal(ratio, 0.0, 1.0);
    var m := s * cfg.multiplier;
    PlayFormula(cfg, sent, ratio);
    ScaleBy(s, cfg.multiplier, 1.0);
    assert s * (cfg.multiplier - 1.0) == m - s;
  }

  /** Returning everything leaves the receiver with nothing; with a
      non-negative endowment and multiplier the receiver never loses. */
  lemma ReceiverPayoff(cfg: Config, sent: real, ratio: real)
    ensures ratio >= 1.0 ==> Play(cfg, sent, ratio).1 == 0.0
    ensures cfg.initial >= 0.0 && cfg.multiplier >= 0.0 ==> Play(cfg, sent, ratio).1 >= 0.0
  {
    var s := ClampReal(sent, 0.0, cfg.initial);
    var q := ClampReal(ratio, 0.0, 1.0);
    PlayFormula(cfg, sent, ratio);
    var m := s * cfg.multiplier;
    assert Play(cfg, sent, ratio).1 == m * (1.0 - q);
    Product(m, 1.0 - q);
    Product(s, cfg.multiplier);
  }

  /** Sending nothing leaves both endowments untouched. */
  lemma SendNothing(cfg: Config, ratio: real)
    requires cfg.initial >= 0.0
    ensures Play(cfg, 0.0, ratio) == (cfg.initial, 0.0)
  {
    var q := ClampReal(ratio, 0.0, 1.0);
    assert ClampReal(0.0, 0.0, cfg.initial) == 0.0;
    Product(cfg.multiplier, q);
    Product(0.0, q);
    assert 0.0 * cfg.multiplier == 0.0;
    assert Play(cfg, 0.0, ratio) == (cfg.initial - 0.0 + 0.0 * q, 0.0 - 0.0 * q);
  }

  /** The named send levels of `play_simple`, as fractions of the endowment. */
  function SendFraction(choice: int): (r: Result<real, TrustError>)
    ensures r.Ok? <==> 0 <= choice <= 2
    ensures r.Ok? ==> 0.0 < r.value < 1.0
  {
    if choice == 0 then Ok(0.2)
    else if choice == 1 then Ok(0.5)
    else if choice == 2 then Ok(0.8)
    else Err(UnknownSendChoice)
  }

  /** The named return levels of `play_simple`. */
  function ReturnRatio(choice: int): (r: Result<real, TrustError>)
    ensures r.Ok? <==> 0 <= choice <= 2
    ensures r.Ok? ==> 0.0 < r.value < 1.0
  {
    if choice == 0 then Ok(0.1)
    else if choice == 1 then Ok(0.3)
    else if choice == 2 then Ok(0.5)
    else Err(UnknownReturnChoice)
  }

  /** `play_simple`: look up both levels (the send level first) and play. */
  function PlaySimple(cfg: Config, sendChoice: int, returnChoice: int): (r: Result<(real, real), TrustError>)
    ensures !(0 <= sendChoice <= 2) ==> r == Err(UnknownSendChoice)
    ensures 0 <= sendChoice <= 2 && !(0 <= returnChoice <= 2) ==> r == Err(UnknownReturnChoice)
    ensures r.Ok? <==> 0 <= sendChoice <= 2 && 0 <= returnChoice <= 2
  {
    var fraction :- SendFraction(sendChoice);
    var ratio :- ReturnRatio(returnChoice);
    Ok(Play(cfg, cfg.initial * fraction, ratio))
  }

  /** With a non-negative endowment the named send levels never need
      clamping, so `play` sees exactly `fraction * initial`. */
  lemma PlaySimpleUnclamped(cfg: Config, sendChoice: int, returnChoice: int)
    requires cfg.initial >= 0.0
    requires 0 <= sendChoice <= 2 && 0 <= returnChoice <= 2
    ensures ClampReal(cfg.initial * SendFraction(sendChoice).value, 0.0, cfg.initial)
         == cfg.initial * SendFraction(sendChoice).value
    ensures 0.0 <= ReturnRatio(returnChoice).value <= 1.0
  {
    var f := SendFraction(sendChoice).value;
    var s := cfg.initial * f;
    ScaleBy(cfg.initial, 1.0, f);
    Product(cfg.initial, 1.0 - f);
    Product(cfg.initial, f);
    assert 0.0 <= s <= cfg.initial;
  }

  /** The default game (10 units, tripled) at medium trust and medium return. */
  lemma PlaySimpleExample()
    ensures PlaySimple(Config(10.0, 3.0), 1, 1) == Ok((9.5, 10.5))
  {
    var cfg := Config(10.0, 3.0);
    PlaySimpleUnclamped(cfg, 1, 1);
    PlayFormula(cfg, 5.0, 0.3);
    assert PlaySimple(cfg, 1, 1) == Ok(Play(cfg, 5.0, 0.3));
  }
}
