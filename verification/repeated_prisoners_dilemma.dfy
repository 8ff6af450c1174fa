/** Repeated Prisoner's Dilemma: each player follows a fixed strategy round
    by round; both move histories grow by one move per round and each
    round's payoff is added to the score weighted by discount^round. */
module RepeatedPrisonersDilemma {
  import PrisonersDilemma
  import opened Sums

  datatype Config = Config(payoffs: PrisonersDilemma.Payoffs, rounds: int, discount: real)

  /** Strategy ids of `play_with_strategies`. */
  const AlwaysCooperate := 0
  const AlwaysBetray := 1
  const TitForTat := 2
  const SuspiciousTitForTat := 3
  const Pavlov := 4

  /** Moves: 0 cooperates, 1 betrays. */
  predicate IsMove(a: int)
  {
    a == 0 || a == 1
  }

  predicate AllMoves(h: seq<int>)
  {
    forall i :: 0 <= i < |h| ==> IsMove(h[i])
  }

  /** State of a session after some rounds. */
  datatype Session = Session(history1: seq<int>, history2: seq<int>, score1: real, score2: real)

  /** `play_single_round`, the repeated game's own copy of the payoff table. */
  function PlaySingleRound(p: PrisonersDilemma.Payoffs, a1: int, a2: int): (r: (real, real))
    ensures IsMove(a1) && IsMove(a2) ==> r == (PrisonersDilemma.Play(p, a2, a1).1, PrisonersDilemma.Play(p, a2, a1).0)
  {
    if a1 == 0 && a2 == 0 then (p.reward, p.reward)
    else if a1 == 1 && a2 == 1 then (p.punishment, p.punishment)
    else if a1 == 0 && a2 == 1 then (p.sucker, p.temptation)
    else (p.temptation, p.sucker)
  }

  /** The single round agrees with the one-shot game for every pair of ids. */
  lemma SingleRoundIsOneShotGame(p: PrisonersDilemma.Payoffs, a1: int, a2: int)
    ensures PlaySingleRound(p, a1, a2) == PrisonersDilemma.Play(p, a1, a2)
  {
  }

  /** `discount ** r`. */
  function Pow(d: real, n: nat): real
  {
    if n == 0 then 1.0 else d * Pow(d, n - 1)
  }

  /** A payoff of round `r` weighted by `discount ** r`. */
  function Weighted(x: real, d: real, r: nat): real
  {
    x * Pow(d, r)
  }

  /** The move a player makes in round `r`, given its own and its opponent's
      earlier moves. An id outside 0..4 betrays in round 0 and afterwards
      assigns nothing, so the previous round's move is played again. */
  function NextMove(strategy: int, r: nat, own: seq<int>, opp: seq<int>): (a: int)
    requires |own| == r && |opp| == r
    ensures AllMoves(own) && AllMoves(opp) ==> IsMove(a)
  {
    if r == 0 then
      (if strategy == AlwaysCooperate || strategy == TitForTat then 0 else 1)
    else if strategy == AlwaysCooperate then 0
    else if strategy == AlwaysBetray then 1
    else if strategy == TitForTat || strategy == SuspiciousTitForTat then opp[r - 1]
    else if strategy == Pavlov then
      (if (own[r - 1] == 0 && opp[r - 1] == 0) || (own[r - 1] == 1 && opp[r - 1] == 0)
       then own[r - 1] else 1 - own[r - 1])
    else own[r - 1]
  }

  /** One iteration of the round loop. The histories are append-only: each
      grows by exactly one move and keeps every earlier entry, and a history
      of 0s and 1s stays one. */
  function Step(cfg: Config, s1: int, s2: int, st: Session): (next: Session)
    requires |st.history1| == |st.history2|
    ensures |next.history1| == |st.history1| + 1 && |next.history2| == |st.history2| + 1
    ensures next.history1[..|st.history1|] == st.history1 && next.history2[..|st.history2|] == st.history2
    ensures AllMoves(st.history1) && AllMoves(st.history2) ==> AllMoves(next.history1) && AllMoves(next.history2)
  {
    var r := |st.history1|;
    var a1 := NextMove(s1, r, st.history1, st.history2);
    var a2 := NextMove(s2, r, st.history2, st.history1);
    var pay := PlaySingleRound(cfg.payoffs, a1, a2);
    Session(st.history1 + [a1], st.history2 + [a2],
            st.score1 + Weighted(pay.0, cfg.discount, r), st.score2 + Weighted(pay.1, cfg.discount, r))
  }

  /** The session after `n` rounds. */
  function Run(cfg: Config, s1: int, s2: int, n: nat): (st: Session)
    ensures |st.history1| == n && |st.history2| == n
    ensures AllMoves(st.history1) && AllMoves(st.history2)
  {
    if n == 0 then Session([], [], 0.0, 0.0)
    else Step(cfg, s1, s2, Run(cfg, s1, s2, n - 1))
  }

  function RoundCount(cfg: Config): nat
  {
    if cfg.rounds > 0 then cfg.rounds else 0
  }

  /** `play_with_strategies`: the session once every round has been played. */
  function PlayWithStrategies(cfg: Config, s1: int, s2: int): (st: Session)
    ensures |st.history1| == RoundCount(cfg) && |st.history2| == RoundCount(cfg)
    ensures AllMoves(st.history1) && AllMoves(st.history2)
  {
    Run(cfg, s1, s2, RoundCount(cfg))
  }

  /** `play`: the two scores only, each the discounted sum of that player's
      round payoffs over the whole session. */
  function Play(cfg: Config, s1: int, s2: int): (r: (real, real))
    ensures var st := PlayWithStrategies(cfg, s1, s2);
      r == (Discounted(RoundPayoffs(cfg.payoffs, st.history1, st.history2, true), cfg.discount),
            Discounted(RoundPayoffs(cfg.payoffs, st.history1, st.history2, false), cfg.discount))
  {
    var st := PlayWithStrategies(cfg, s1, s2);
    ScoresAreDiscountedSums(cfg, s1, s2, RoundCount(cfg));
    (st.score1, st.score2)
  }

  // ---------------------------------------------------------------------
  // Moves
  // ---------------------------------------------------------------------

  /** Histories only grow: an earlier session is a prefix of a later one. */
  lemma {:induction false} RunPrefix(cfg: Config, s1: int, s2: int, n: nat, m: nat)
    requires n <= m
    ensures Run(cfg, s1, s2, m).history1[..n] == Run(cfg, s1, s2, n).history1
    ensures Run(cfg, s1, s2, m).history2[..n] == Run(cfg, s1, s2, n).history2
  {
    if n < m {
      RunPrefix(cfg, s1, s2, n, m - 1);
      var prev := Run(cfg, s1, s2, m - 1);
      var cur := Run(cfg, s1, s2, m);
      assert cur.history1[..n] == prev.history1[..n];
      assert cur.history2[..n] == prev.history2[..n];
    } else {
      assert Run(cfg, s1, s2, m).history1[..n] == Run(cfg, s1, s2, m).history1;
      assert Run(cfg, s1, s2, m).history2[..n] == Run(cfg, s1, s2, m).history2;
    }
  }

  /** The move in round `r` is the strategy's answer to the first `r` rounds,
      for both players. */
  lemma MoveAt(cfg: Config, s1: int, s2: int, n: nat, r: nat)
    requires r < n
    ensures var st := Run(cfg, s1, s2, n);
      && st.history1[r] == NextMove(s1, r, st.history1[..r], st.history2[..r])
      && st.history2[r] == NextMove(s2, r, st.history2[..r], st.history1[..r])
  {
    var st := Run(cfg, s1, s2, n);
    var before := Run(cfg, s1, s2, r);
    var after := Run(cfg, s1, s2, r + 1);
    RunPrefix(cfg, s1, s2, r, n);
    RunPrefix(cfg, s1, s2, r + 1, n);
    assert st.history1[r] == after.history1[r];
    assert st.history2[r] == after.history2[r];
  }

  /** Round 0: Always Cooperate and Tit-for-Tat cooperate, every other id betrays. */
  lemma FirstMove(cfg: Config, s1: int, s2: int, n: nat)
    requires n >= 1
    ensures Run(cfg, s1, s2, n).history1[0] == (if s1 == AlwaysCooperate || s1 == TitForTat then 0 else 1)
    ensures Run(cfg, s1, s2, n).history2[0] == (if s2 == AlwaysCooperate || s2 == TitForTat then 0 else 1)
  {
    MoveAt(cfg, s1, s2, n, 0);
  }

  /** Tit-for-Tat and Suspicious Tit-for-Tat copy the opponent's previous move. */
  lemma TitForTatMirrors(cfg: Config, s1: int, s2: int, n: nat, r: nat)
    requires 0 < r < n
    ensures s1 == TitForTat || s1 == SuspiciousTitForTat ==>
      Run(cfg, s1, s2, n).history1[r] == Run(cfg, s1, s2, n).history2[r - 1]
    ensures s2 == TitForTat || s2 == SuspiciousTitForTat ==>
      Run(cfg, s1, s2, n).history2[r] == Run(cfg, s1, s2, n).history1[r - 1]
  {
    MoveAt(cfg, s1, s2, n, r);
  }

  /** Pavlov keeps its previous move after the opponent cooperated and
      switches after the opponent betrayed. */
  lemma PavlovWinStayLoseShift(cfg: Config, s1: int, s2: int, n: nat, r: nat)
    requires 0 < r < n
    ensures var st := Run(cfg, s1, s2, n);
      s1 == Pavlov ==>
        st.history1[r] == (if st.history2[r - 1] == 0 then st.history1[r - 1] else 1 - st.history1[r - 1])
    ensures var st := Run(cfg, s1, s2, n);
      s2 == Pavlov ==>
        st.history2[r] == (if st.history1[r - 1] == 0 then st.history2[r - 1] else 1 - st.history2[r - 1])
  {
    MoveAt(cfg, s1, s2, n, r);
    var st := Run(cfg, s1, s2, n);
    assert IsMove(st.history1[r - 1]) && IsMove(st.history2[r - 1]);
  }

  /** Always Cooperate only cooperates; Always Betray, and every id outside
      0..4, only betrays. */
  lemma UnconditionalStrategies(cfg: Config, s1: int, s2: int, n: nat)
    ensures s1 == AlwaysCooperate ==> forall r :: 0 <= r < n ==> Run(cfg, s1, s2, n).history1[r] == 0
    ensures s1 == AlwaysBetray || !(0 <= s1 <= 4) ==> forall r :: 0 <= r < n ==> Run(cfg, s1, s2, n).history1[r] == 1
    ensures s2 == AlwaysCooperate ==> forall r :: 0 <= r < n ==> Run(cfg, s1, s2, n).history2[r] == 0
    ensures s2 == AlwaysBetray || !(0 <= s2 <= 4) ==> forall r :: 0 <= r < n ==> Run(cfg, s1, s2, n).history2[r] == 1
  {
    var st := Run(cfg, s1, s2, n);
    forall r | 0 <= r < n
      ensures s1 == AlwaysCooperate ==> st.history1[r] == 0
      ensures s1 == AlwaysBetray || !(0 <= s1 <= 4) ==> st.history1[r] == 1
      ensures s2 == AlwaysCooperate ==> st.history2[r] == 0
      ensures s2 == AlwaysBetray || !(0 <= s2 <= 4) ==> st.history2[r] == 1
    {
      UnconditionalAt(cfg, s1, s2, n, r);
    }
  }

  lemma {:induction false} UnconditionalAt(cfg: Config, s1: int, s2: int, n: nat, r: nat)
    requires r < n
    ensures s1 == AlwaysCooperate ==> Run(cfg, s1, s2, n).history1[r] == 0
    ensures s1 == AlwaysBetray || !(0 <= s1 <= 4) ==> Run(cfg, s1, s2, n).history1[r] == 1
    ensures s2 == AlwaysCooperate ==> Run(cfg, s1, s2, n).history2[r] == 0
    ensures s2 == AlwaysBetray || !(0 <= s2 <= 4) ==> Run(cfg, s1, s2, n).history2[r] == 1
  {
    MoveAt(cfg, s1, s2, n, r);
    if r > 0 {
      UnconditionalAt(cfg, s1, s2, n, r - 1);
    }
  }

  function Swap(st: Session): Session
  {
    Session(st.history2, st.history1, st.score2, st.score1)
  }

  lemma StepSwap(cfg: Config, s1: int, s2: int, st: Session)
    requires |st.history1| == |st.history2|
    requires AllMoves(st.history1) && AllMoves(st.history2)
    ensures Step(cfg, s2, s1, Swap(st)) == Swap(Step(cfg, s1, s2, st))
  {
    var r := |st.history1|;
    var a1 := NextMove(s1, r, st.history1, st.history2);
    var a2 := NextMove(s2, r, st.history2, st.history1);
    assert IsMove(a1) && IsMove(a2);
  }

  /** Exchanging the strategies exchanges the histories and the scores. */
  lemma {:induction false} RunSwap(cfg: Config, s1: int, s2: int, n: nat)
    ensures Run(cfg, s2, s1, n) == Swap(Run(cfg, s1, s2, n))
  {
    if n > 0 {
      RunSwap(cfg, s1, s2, n - 1);
      var prev := Run(cfg, s1, s2, n - 1);
      StepSwap(cfg, s1, s2, prev);
    }
  }

  // ---------------------------------------------------------------------
  // Scores
  // ---------------------------------------------------------------------

  /** Round-by-round payoffs of the first (`first`) or second player. */
  function RoundPayoffs(p: PrisonersDilemma.Payoffs, h1: seq<int>, h2: seq<int>, first: bool): (ps: seq<real>)
    requires |h1| == |h2|
    ensures |ps| == |h1|
  {
    if |h1| == 0 then []
    else
      var n := |h1| - 1;
      var pay := PlaySingleRound(p, h1[n], h2[n]);
      RoundPayoffs(p, h1[..n], h2[..n], first) + [if first then pay.0 else pay.1]
  }

  /** Σ_r ps[r] · d^(start + r): the payoffs of rounds `start`, `start + 1`, …
      each weighted by the discount factor to the power of its round. */
  function DiscountedFrom(ps: seq<real>, d: real, start: nat): real
  {
    if |ps| == 0 then 0.0 else Weighted(ps[0], d, start) + DiscountedFrom(ps[1..], d, start + 1)
  }

  /** Σ_r ps[r] · d^r. */
  function Discounted(ps: seq<real>, d: real): real
  {
    DiscountedFrom(ps, d, 0)
  }

  lemma {:induction false} DiscountedFromSnoc(ps: seq<real>, x: real, d: real, start: nat)
    ensures DiscountedFrom(ps + [x], d, start) == DiscountedFrom(ps, d, start) + Weighted(x, d, start + |ps|)
  {
    if |ps| > 0 {
      assert (ps + [x])[1..] == ps[1..] + [x];
      DiscountedFromSnoc(ps[1..], x, d, start + 1);
    } else {
      assert ps + [x] == [x];
    }
  }

  /** Appending a payoff for round |ps| adds it weighted by d^|ps|. */
  lemma DiscountedSnoc(ps: seq<real>, x: real, d: real)
    ensures Discounted(ps + [x], d) == Discounted(ps, d) + Weighted(x, d, |ps|)
  {
    DiscountedFromSnoc(ps, x, d, 0);
  }

  /** Playing one more round appends that round's payoffs. */
  lemma RoundPayoffsSnoc(p: PrisonersDilemma.Payoffs, h1: seq<int>, h2: seq<int>, x: int, y: int, first: bool)
    requires |h1| == |h2|
    ensures RoundPayoffs(p, h1 + [x], h2 + [y], first)
         == RoundPayoffs(p, h1, h2, first) + [if first then PlaySingleRound(p, x, y).0 else PlaySingleRound(p, x, y).1]
  {
    assert (h1 + [x])[..|h1|] == h1;
    assert (h2 + [y])[..|h2|] == h2;
  }

  /** The score of the first (`first`) or the second player. */
  function ScoreOf(st: Session, first: bool): real
  {
    if first then st.score1 else st.score2
  }

  /** One round extends the score by the round's payoff times d^round,
      and the histories by the round's moves. */
  lemma StepScore(cfg: Config, s1: int, s2: int, st: Session, first: bool)
    requires |st.history1| == |st.history2|
    ensures var r := |st.history1|;
      var a1 := NextMove(s1, r, st.history1, st.history2);
      var a2 := NextMove(s2, r, st.history2, st.history1);
      var pay := PlaySingleRound(cfg.payoffs, a1, a2);
      var next := Step(cfg, s1, s2, st);
      && next.history1 == st.history1 + [a1]
      && next.history2 == st.history2 + [a2]
      && ScoreOf(next, first) == ScoreOf(st, first) + Weighted(if first then pay.0 else pay.1, cfg.discount, r)
  {
  }

  lemma {:induction false} ScoreIsDiscountedSum(cfg: Config, s1: int, s2: int, n: nat, first: bool)
    ensures var st := Run(cfg, s1, s2, n);
      ScoreOf(st, first) == Discounted(RoundPayoffs(cfg.payoffs, st.history1, st.history2, first), cfg.discount)
  {
    if n > 0 {
      ScoreIsDiscountedSum(cfg, s1, s2, n - 1, first);
      var prev := Run(cfg, s1, s2, n - 1);
      var r := n - 1;
      var a1 := NextMove(s1, r, prev.history1, prev.history2);
      var a2 := NextMove(s2, r, prev.history2, prev.history1);
      var pay := PlaySingleRound(cfg.payoffs, a1, a2);
      var x := if first then pay.0 else pay.1;
      var st := Run(cfg, s1, s2, n);
      assert st == Step(cfg, s1, s2, prev);
      StepScore(cfg, s1, s2, prev, first);
      var ps := RoundPayoffs(cfg.payoffs, prev.history1, prev.history2, first);
      assert ScoreOf(st, first) == ScoreOf(prev, first) + Weighted(x, cfg.discount, r);
      RoundPayoffsSnoc(cfg.payoffs, prev.history1, prev.history2, a1, a2, first);
      assert RoundPayoffs(cfg.payoffs, st.history1, st.history2, first) == ps + [x];
      DiscountedSnoc(ps, x, cfg.discount);
      assert Discounted(ps + [x], cfg.discount) == Discounted(ps, cfg.discount) + Weighted(x, cfg.discount, r);
      assert ScoreOf(prev, first) == Discounted(ps, cfg.discount);
    }
  }

  /** Each running score is the discounted sum of that player's round payoffs. */
  lemma ScoresAreDiscountedSums(cfg: Config, s1: int, s2: int, n: nat)
    ensures var st := Run(cfg, s1, s2, n);
      && st.score1 == Discounted(RoundPayoffs(cfg.payoffs, st.history1, st.history2, true), cfg.discount)
      && st.score2 == Discounted(RoundPayoffs(cfg.payoffs, st.history1, st.history2, false), cfg.discount)
  {
    ScoreIsDiscountedSum(cfg, s1, s2, n, true);
    ScoreIsDiscountedSum(cfg, s1, s2, n, false);
  }

  /** Exchanging the strategies exchanges the two scores `play` returns. */
  lemma PlaySwap(cfg: Config, s1: int, s2: int)
    ensures Play(cfg, s2, s1) == (Play(cfg, s1, s2).1, Play(cfg, s1, s2).0)
  {
    RunSwap(cfg, s1, s2, RoundCount(cfg));
  }

  lemma {:induction false} PowOne(k: nat)
    ensures Pow(1.0, k) == 1.0
  {
    if k > 0 {
      PowOne(k - 1);
    }
  }

  lemma {:induction false} UndiscountedFrom(ps: seq<real>, start: nat)
    ensures DiscountedFrom(ps, 1.0, start) == RealSum(ps)
  {
    if |ps| > 0 {
      PowOne(start);
      UndiscountedFrom(ps[1..], start + 1);
    }
  }

  /** Without discounting the score is the plain sum of the payoffs. */
  lemma UndiscountedIsSum(ps: seq<real>)
    ensures Discounted(ps, 1.0) == RealSum(ps)
  {
    UndiscountedFrom(ps, 0);
  }

  /** With discount 0 every round after the first weighs nothing. */
  lemma {:induction false} FullyDiscountedFrom(ps: seq<real>, start: nat)
    requires start > 0
    ensures DiscountedFrom(ps, 0.0, start) == 0.0
  {
    if |ps| > 0 {
      assert Pow(0.0, start) == 0.0;
      FullyDiscountedFrom(ps[1..], start + 1);
    }
  }

  /** With discount 0 only the first round counts. */
  lemma FullyDiscountedIsFirstRound(ps: seq<real>)
    requires |ps| > 0
    ensures Discounted(ps, 0.0) == ps[0]
  {
    FullyDiscountedFrom(ps[1..], 1);
  }

  /** The documented run: Tit-for-Tat against Always Betray for three
      undiscounted rounds with R, T, S, P = 3, 5, 0, 1. */
  lemma TitForTatAgainstAlwaysBetray()
    ensures PlayWithStrategies(Config(PrisonersDilemma.Payoffs(3.0, 5.0, 0.0, 1.0), 3, 1.0), TitForTat, AlwaysBetray)
         == Session([0, 1, 1], [1, 1, 1], 2.0, 7.0)
    ensures Play(Config(PrisonersDilemma.Payoffs(3.0, 5.0, 0.0, 1.0), 3, 1.0), TitForTat, AlwaysBetray) == (2.0, 7.0)
  {
    var cfg := Config(PrisonersDilemma.Payoffs(3.0, 5.0, 0.0, 1.0), 3, 1.0);
    var r1 := Run(cfg, TitForTat, AlwaysBetray, 1);
    assert r1 == Session([0], [1], 0.0, 5.0);
    var r2 := Run(cfg, TitForTat, AlwaysBetray, 2);
    assert r2 == Session([0, 1], [1, 1], 1.0, 6.0);
    var r3 := Run(cfg, TitForTat, AlwaysBetray, 3);
    assert r3 == Session([0, 1, 1], [1, 1, 1], 2.0, 7.0);
  }
}
