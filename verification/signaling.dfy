/** Signaling game: the sender knows its type (high or low) and sends a
    signal, the receiver sees only the signal and picks an action. `play`
    returns the expected payoffs over the sender's type. */
module Signaling {
  import opened Results

  /** The game's parameters. The sender's payoff depends on its type and on
      the receiver's ACTION (the parameter names speak of the signal, but the
      payoff table pays `highHigh` whenever a high type meets a high action). */
  datatype Params = Params(
    highHigh: real, highLow: real, lowHigh: real, lowLow: real,
    correct: real, incorrect: real, highProb: real)

  datatype SignalingError = InvalidSenderStrategy

  const Separating := 0
  const PoolingHigh := 1
  const PoolingLow := 2
  const Perverse := 3

  const TrustSignal := 0
  const DistrustSignal := 1
  const AlwaysHigh := 2
  const AlwaysLow := 3

  /** The signals (1 = high, 0 = low) the high and the low type send under
      a sender strategy; any other strategy is rejected. */
  function SenderSignals(sender: int): (r: Result<(int, int), SignalingError>)
    ensures r.Ok? <==> 0 <= sender <= 3
    ensures r.Ok? ==> r.value.0 in {0, 1} && r.value.1 in {0, 1}
    ensures r.Ok? ==> (r.value.0 == 1 <==> sender in {Separating, PoolingHigh})
    ensures r.Ok? ==> (r.value.1 == 1 <==> sender in {PoolingHigh, Perverse})
  {
    if sender == Separating then Ok((1, 0))
    else if sender == PoolingHigh then Ok((1, 1))
    else if sender == PoolingLow then Ok((0, 0))
    else if sender == Perverse then Ok((0, 1))
    else Err(InvalidSenderStrategy)
  }

  /** A payoff weighted by the probability of the type that earns it. */
  function Weigh(probability: real, payoff: real): real
  {
    probability * payoff
  }

  /** The high type's contribution to the expected payoffs, branch by branch;
      an unknown receiver strategy contributes nothing. */
  function HighTypeTerm(prm: Params, signal: int, receiver: int): (real, real)
  {
    var p := prm.highProb;
    if signal == 1 then
      if receiver == 0 then (Weigh(p, prm.highHigh), Weigh(p, prm.correct))
      else if receiver == 1 then (Weigh(p, prm.highLow), Weigh(p, prm.incorrect))
      else if receiver == 2 then (Weigh(p, prm.highHigh), Weigh(p, prm.correct))
      else if receiver == 3 then (Weigh(p, prm.highLow), Weigh(p, prm.incorrect))
      else (0.0, 0.0)
    else
      if receiver == 0 then (Weigh(p, prm.highLow), Weigh(p, prm.incorrect))
      else if receiver == 1 then (Weigh(p, prm.highHigh), Weigh(p, prm.correct))
      else if receiver == 2 then (Weigh(p, prm.highHigh), Weigh(p, prm.correct))
      else if receiver == 3 then (Weigh(p, prm.highLow), Weigh(p, prm.incorrect))
      else (0.0, 0.0)
  }

  /** The low type's contribution, weighted by `1 - highProb`. */
  function LowTypeTerm(prm: Params, signal: int, receiver: int): (real, real)
  {
    var q := 1.0 - prm.highProb;
    if signal == 1 then
      if receiver == 0 then (Weigh(q, prm.lowHigh), Weigh(q, prm.incorrect))
      else if receiver == 1 then (Weigh(q, prm.lowLow), Weigh(q, prm.correct))
      else if receiver == 2 then (Weigh(q, prm.lowHigh), Weigh(q, prm.incorrect))
      else if receiver == 3 then (Weigh(q, prm.lowLow), Weigh(q, prm.correct))
      else (0.0, 0.0)
    else
      if receiver == 0 then (Weigh(q, prm.lowLow), Weigh(q, prm.correct))
      else if receiver == 1 then (Weigh(q, prm.lowHigh), Weigh(q, prm.incorrect))
      else if receiver == 2 then (Weigh(q, prm.lowHigh), Weigh(q, prm.incorrect))
      else if receiver == 3 then (Weigh(q, prm.lowLow), Weigh(q, prm.correct))
      else (0.0, 0.0)
  }

  /** `play`: (sender payoff, receiver payoff) in expectation over the type. */
  function Play(prm: Params, sender: int, receiver: int): (r: Result<(real, real), SignalingError>)
    ensures r.Err? <==> !(0 <= sender <= 3)
  {
    var signals :- SenderSignals(sender);
    var h := HighTypeTerm(prm, signals.0, receiver);
    var l := LowTypeTerm(prm, signals.1, receiver);
    // Both payoffs start at 0 and each type's term is added in turn.
    Ok((0.0 + h.0 + l.0, 0.0 + h.1 + l.1))
  }

  // ---------------------------------------------------------------------
  // The game as the docstring of `play` states it: types, signals, actions, payoffs.
  // ---------------------------------------------------------------------

  datatype Action = High | Low

  /** The receiver's action on seeing a signal; `NoResponse` for an unknown
      receiver strategy. */
  datatype Response = Act(action: Action) | NoResponse

  function Respond(receiver: int, highSignal: bool): (r: Response)
    ensures r.Act? <==> 0 <= receiver <= 3
    ensures receiver == TrustSignal ==> r == Act(if highSignal then High else Low)
    ensures receiver == DistrustSignal ==> r == Act(if highSignal then Low else High)
  {
    if receiver == TrustSignal then Act(if highSignal then High else Low)
    else if receiver == DistrustSignal then Act(if highSignal then Low else High)
    else if receiver == AlwaysHigh then Act(High)
    else if receiver == AlwaysLow then Act(Low)
    else NoResponse
  }

  /** The sender's payoff for its type and the receiver's action. */
  function SenderPayoff(prm: Params, highType: bool, a: Action): real
  {
    match (highType, a)
    case (true, High) => prm.highHigh
    case (true, Low) => prm.highLow
    case (false, High) => prm.lowHigh
    case (false, Low) => prm.lowLow
  }

  /** The receiver is right when its action matches the sender's type. */
  function ReceiverPayoff(prm: Params, highType: bool, a: Action): real
  {
    if highType == (a == High) then prm.correct else prm.incorrect
  }

  /** One type's weighted payoffs, given the signal it sends. */
  function TypeOutcome(prm: Params, weight: real, highType: bool, highSignal: bool, receiver: int): (real, real)
  {
    match Respond(receiver, highSignal)
    case Act(a) => (Weigh(weight, SenderPayoff(prm, highType, a)), Weigh(weight, ReceiverPayoff(prm, highType, a)))
    case NoResponse => (0.0, 0.0)
  }

  /** The expected payoffs: the high type with probability `highProb`, the
      low type with the rest. */
  function Expected(prm: Params, sender: int, receiver: int): Result<(real, real), SignalingError>
  {
    var signals :- SenderSignals(sender);
    var h := TypeOutcome(prm, prm.highProb, true, signals.0 == 1, receiver);
    var l := TypeOutcome(prm, 1.0 - prm.highProb, false, signals.1 == 1, receiver);
    Ok((h.0 + l.0, h.1 + l.1))
  }

  lemma HighTypeTermIsOutcome(prm: Params, signal: int, receiver: int)
    ensures HighTypeTerm(prm, signal, receiver) == TypeOutcome(prm, prm.highProb, true, signal == 1, receiver)
  {
  }

  lemma LowTypeTermIsOutcome(prm: Params, signal: int, receiver: int)
    ensures LowTypeTerm(prm, signal, receiver) == TypeOutcome(prm, 1.0 - prm.highProb, false, signal == 1, receiver)
  {
  }

  /** The branch table of `play` is exactly the expected payoff of the game
      as described: every branch pays the type's payoff for the action the
      receiver takes. */
  lemma PlayIsExpectation(prm: Params, sender: int, receiver: int)
    ensures Play(prm, sender, receiver) == Expected(prm, sender, receiver)
  {
    var s := SenderSignals(sender);
    if s.Ok? {
      HighTypeTermIsOutcome(prm, s.value.0, receiver);
      LowTypeTermIsOutcome(prm, s.value.1, receiver);
    }
  }

  /** An unknown receiver strategy is not rejected: it earns both players 0. */
  lemma UnknownReceiverEarnsNothing(prm: Params, sender: int, receiver: int)
    requires 0 <= sender <= 3
    requires !(0 <= receiver <= 3)
    ensures Play(prm, sender, receiver) == Ok((0.0, 0.0))
  {
  }

  /** A receiver that ignores the signal makes the sender's strategy
      irrelevant. */
  lemma ConstantReceiverIgnoresSender(prm: Params, s1: int, s2: int, receiver: int)
    requires 0 <= s1 <= 3 && 0 <= s2 <= 3
    requires receiver == AlwaysHigh || receiver == AlwaysLow
    ensures Play(prm, s1, receiver) == Play(prm, s2, receiver)
  {
  }

  /** Always High pays every type its high-action payoff and Always Low its
      low-action payoff, whatever the sender does: the receiver is right
      exactly on the type that matches its constant action. */
  lemma ConstantReceiverPayoffs(prm: Params, sender: int)
    requires 0 <= sender <= 3
    ensures var p := prm.highProb;
      Play(prm, sender, AlwaysHigh)
        == Ok((Weigh(p, prm.highHigh) + Weigh(1.0 - p, prm.lowHigh),
               Weigh(p, prm.correct) + Weigh(1.0 - p, prm.incorrect)))
    ensures var p := prm.highProb;
      Play(prm, sender, AlwaysLow)
        == Ok((Weigh(p, prm.highLow) + Weigh(1.0 - p, prm.lowLow),
               Weigh(p, prm.incorrect) + Weigh(1.0 - p, prm.correct)))
  {
  }

  /** Against a pooling sender the signal carries no information: trusting
      or distrusting it is the same as a constant action. */
  lemma PoolingMakesSignalUninformative(prm: Params, sender: int)
    requires 0 <= sender <= 3
    ensures Play(prm, PoolingHigh, TrustSignal) == Play(prm, sender, AlwaysHigh)
    ensures Play(prm, PoolingHigh, DistrustSignal) == Play(prm, sender, AlwaysLow)
    ensures Play(prm, PoolingLow, TrustSignal) == Play(prm, sender, AlwaysLow)
    ensures Play(prm, PoolingLow, DistrustSignal) == Play(prm, sender, AlwaysHigh)
  {
  }

  /** `p * x + (1 - p) * x == x`. */
  lemma WholeWeight(p: real, x: real)
    ensures p * x + (1.0 - p) * x == x
  {
  }

  /** Decoding an informative signal the right way round always pays the
      receiver `correct`; the wrong way round always `incorrect`. */
  lemma InformativeSignals(prm: Params)
    ensures Play(prm, Separating, TrustSignal).value.1 == prm.correct
    ensures Play(prm, Perverse, DistrustSignal).value.1 == prm.correct
    ensures Play(prm, Separating, DistrustSignal).value.1 == prm.incorrect
    ensures Play(prm, Perverse, TrustSignal).value.1 == prm.incorrect
  {
    WholeWeight(prm.highProb, prm.correct);
    WholeWeight(prm.highProb, prm.incorrect);
  }

  /** Under a separating sender that is trusted, each type gets its payoff
      for the action matching its type. */
  lemma SeparatingTrustedSenderPayoff(prm: Params)
    ensures Play(prm, Separating, TrustSignal).value.0
         == prm.highProb * prm.highHigh + (1.0 - prm.highProb) * prm.lowLow
  {
  }

  /** A weighted average of two values in `[lo, hi]` stays in `[lo, hi]`. */
  lemma {:induction false} ConvexCombination(p: real, x: real, y: real, lo: real, hi: real)
    requires 0.0 <= p <= 1.0
    requires lo <= x <= hi && lo <= y <= hi
    ensures lo <= p * x + (1.0 - p) * y <= hi
  {
    assert p * (x - lo) >= 0.0;
    assert (1.0 - p) * (y - lo) >= 0.0;
    assert p * (hi - x) >= 0.0;
    assert (1.0 - p) * (hi - y) >= 0.0;
  }

  /** With a genuine probability and `incorrect <= correct`, the receiver's
      expected payoff lies between the two, whatever both players do. */
  lemma ReceiverPayoffBounds(prm: Params, sender: int, receiver: int)
    requires 0.0 <= prm.highProb <= 1.0
    requires prm.incorrect <= prm.correct
    requires 0 <= sender <= 3 && 0 <= receiver <= 3
    ensures prm.incorrect <= Play(prm, sender, receiver).value.1 <= prm.correct
  {
    PlayIsExpectation(prm, sender, receiver);
    var signals := SenderSignals(sender).value;
    var highAction := Respond(receiver, signals.0 == 1).action;
    var lowAction := Respond(receiver, signals.1 == 1).action;
    ConvexCombination(prm.highProb, ReceiverPayoff(prm, true, highAction), ReceiverPayoff(prm, false, lowAction),
                      prm.incorrect, prm.correct);
  }

  /** With the default parameters (10, 5, 8, 7, 6, 2, 0.5). */
  lemma DefaultExamples()
    ensures Play(Params(10.0, 5.0, 8.0, 7.0, 6.0, 2.0, 0.5), Separating, TrustSignal) == Ok((8.5, 6.0))
    ensures Play(Params(10.0, 5.0, 8.0, 7.0, 6.0, 2.0, 0.5), PoolingHigh, TrustSignal) == Ok((9.0, 4.0))
    ensures Play(Params(10.0, 5.0, 8.0, 7.0, 6.0, 2.0, 0.5), 4, TrustSignal) == Err(InvalidSenderStrategy)
  {
  }
}
