/** Dictator game: the dictator keeps whatever it does not give away. */
module Dictator {
  import opened Clamping

  datatype Config = Config(total: int)

  /** `play`: the gift is clamped into [0, total] and the rest is kept. */
  function Play(cfg: Config, given: int): (r: (int, int))
    ensures r.0 + r.1 == cfg.total
    ensures r.1 == ClampInt(given, 0, cfg.total)
    ensures cfg.total >= 0 ==> 0 <= r.0 <= cfg.total && 0 <= r.1 <= cfg.total
  {
    var g := ClampInt(given, 0, cfg.total);
    (cfg.total - g, g)
  }

  /** Giving everything or more hands over the whole amount; giving nothing
      or less keeps it, for a non-negative amount. */
  lemma PlayExtremes(cfg: Config, given: int)
    ensures given >= cfg.total ==> Play(cfg, given) == (0, cfg.total)
    ensures given <= 0 <= cfg.total ==> Play(cfg, given) == (cfg.total, 0)
    ensures 0 <= given <= cfg.total ==> Play(cfg, given) == (cfg.total - given, given)
  {
  }

  lemma PlayExample()
    ensures Play(Config(10), 4) == (6, 4)
    ensures Play(Config(10), 0) == (10, 0)
    ensures Play(Config(10), 10) == (0, 10)
  {
  }
}
