# Game-payoff engine of SimulateEverything, in Dafny

This project models the payoff engine under `models/` of SimulateEverything.
That engine is a set of small game-theory models. Each model is a pure
function from the players' choices to their payoffs:

- **Colonel Blotto.** Two players spread integer resources over battlefields.
  `play` validates both allocations and compares them battlefield by battlefield.
  `_generate_allocation` builds the allocation of the equal, front-loaded,
  back-loaded and random strategies. `play_simple` chains the two.
- **Repeated Prisoner's Dilemma.** Two fixed strategies play a number of
  rounds: Always Cooperate, Always Betray, Tit-for-Tat, Suspicious Tit-for-Tat
  and Pavlov. Both move histories are kept, and each round's payoff is
  weighted by `discount ** round`.
- **One-shot games.**
  - Prisoner's Dilemma, Stag Hunt, Coordination, Hawk-Dove and Battle of the
    Sexes are payoff tables over two actions.
  - Dictator, Ultimatum, Trust and Public Goods clamp their amounts and then
    split money.
  - Signaling computes the exact expected payoffs over the sender's two types.

Every source file has its own module. The payoff functions are Dafny
functions. Their contracts state the payoff tables, the conservation sums,
bounds, symmetries and error cases. Lemmas relate the functions to
independent reference definitions:

- the Blotto result list and its win counts;
- the repeated game's history against the strategies' rules;
- the repeated game's score against the discounted sum of the round payoffs;
- the Signaling branch table against the expectation over types and actions;
- the two-player Public Goods entry point against the N-player one.

Three helper modules are shared:

- `Results` holds the `Result` type, used for every raised exception.
- `Sums` holds sums and counts over sequences.
- `Clamping` holds the `min(max(lo, x), hi)` clamp.

Number types follow the source:

- Blotto, Dictator and Ultimatum amounts are `int` (see "## Left out").
- Every fractional payoff is an exact `real`.
- Python's `//` and `%` are Dafny's Euclidean `/` and `%`. They agree for the
  positive divisors used here.
- `int(0.6 * r)` truncates toward zero. It is written out as `SixtyPercent`.
- `round` in `play_with_strategy` is half-to-even. It is written out as
  `RoundHalfEven`.

Behaviour of the code worth noting:

- **Unknown repeated-game strategy id.** `play_with_strategies` documents
  the ids 0 to 4 (models/repeated_prisoners_dilemma.py:36-41). For any other
  id, round 0 takes the betray branch (line 57). Later rounds assign nothing,
  so the player repeats its previous move. The model does the same, and
  `UnconditionalStrategies` proves that such a player always betrays.
- **Unknown Signaling receiver strategy.** The code does not reject it. It
  adds nothing to either payoff (`UnknownReceiverEarnsNothing`).
- **Signaling payoff parameters.** They are named after the sender's signal,
  but the code pays them by the receiver's action. The reference model in
  `signaling.dfy` follows the code.

## Model

| member | source | states |
|---|---|---|
| Clamping.ClampInt | models/dictator_game.py:16 | The clamp `min(max(lo, x), hi)`: inside `[lo, hi]` when `lo <= hi`, the identity on `[lo, hi]`, pinned to the nearer end outside it, and `hi` when the bounds cross |
| Clamping.ClampReal | models/trust_game.py:17-18 | The same clamp on reals, as used for amounts, ratios and contributions |
| ColonelBlotto.FieldWinner | models/colonel_blotto_game.py:45-50 | A battlefield goes to player 1 exactly when its entry is larger, to player 2 exactly when the other entry is larger, and to nobody exactly on a tie |
| ColonelBlotto.Tally | models/colonel_blotto_game.py:40-51 | After n iterations of the comparison loop the result list has n entries, entry i is the winner of battlefield i, and each counter equals the number of its label in the list |
| ColonelBlotto.Play | models/colonel_blotto_game.py:14-53 | `play` succeeds if and only if both allocations have `battlefields` entries, none negative, each summing to at most `resources`. On success the list has one entry per battlefield, entry i is 1/2/0 iff a1[i] >/</= a2[i], wins1 and wins2 count the 1s and 2s, and together they never exceed `battlefields` |
| ColonelBlotto.PlaySwap | models/colonel_blotto_game.py:43-51 | Exchanging the allocations exchanges wins1 and wins2 and relabels 1 and 2 in the result list; a rejected pair is rejected with the same error either way round |
| ColonelBlotto.PlayExample | models/colonel_blotto_game.py:43-53 | [4,3,3] against [3,4,3] with 10 resources over 3 battlefields gives one win each and results [1,2,0] |
| ColonelBlotto.SixtyPercent | models/colonel_blotto_game.py:93 | `int(0.6 * r)` read on exact rationals: for r >= 0 it lies in [0, r] and is the largest s with 10s <= 6r; for r < 0 it truncates toward zero |
| ColonelBlotto.Spread | models/colonel_blotto_game.py:84-87 | `[base] * n` with one unit added to each of the first `extra` entries: length n, the per-index value, and a total of `n * base` plus the number of bumped entries |
| ColonelBlotto.EqualAllocation | models/colonel_blotto_game.py:82-89 | The equal split has `battlefields` entries summing to exactly `resources`; entry i is `resources // battlefields` plus one for i below `resources % battlefields`; entries are non-increasing and differ by at most one |
| ColonelBlotto.FrontLoaded | models/colonel_blotto_game.py:91-103 | Battlefield 0 gets `int(0.6 * resources)`; with two or more battlefields the rest is split over battlefields 1.., the remainder going one unit each to battlefields 1..remainder, and the total is exactly `resources`; with one battlefield only the 60% share is placed |
| ColonelBlotto.BackLoaded | models/colonel_blotto_game.py:105-117 | The last battlefield gets `int(0.6 * resources)`; with two or more battlefields the rest is split over the others, the remainder going to the lowest indices, and the total is exactly `resources` |
| ColonelBlotto.Scatter | models/colonel_blotto_game.py:119-124 | Starting from zeros and adding one unit per drawn index gives `n` non-negative entries whose total is the number of draws |
| ColonelBlotto.Allocate | models/colonel_blotto_game.py:77-129 | `_generate_allocation`: a strategy outside 0..3 is exactly the case that raises the invalid-strategy error; every successful allocation for a non-negative battlefield count has `battlefields` entries; no battlefield makes the equal split divide by zero and the loaded splits index out of range, the random split rejects a negative count and a positive budget over no battlefield, and only the equal split accepts a negative count, returning an empty list |
| ColonelBlotto.PlaySimple | models/colonel_blotto_game.py:55-75 | An unknown first strategy raises; on success the two win counts add up to at most `battlefields` |
| ColonelBlotto.EqualAllocationIsValid | models/colonel_blotto_game.py:82-89 | With non-negative resources and at least one battlefield the equal split passes `play`'s validation |
| ColonelBlotto.FrontLoadedIsValid | models/colonel_blotto_game.py:91-103 | The front-loaded split passes `play`'s validation under the same conditions |
| ColonelBlotto.BackLoadedIsValid | models/colonel_blotto_game.py:105-117 | The back-loaded split passes `play`'s validation under the same conditions |
| ColonelBlotto.RandomAllocationIsValid | models/colonel_blotto_game.py:119-124 | Whatever its draws, the random split succeeds, passes validation and spends exactly `resources` |
| ColonelBlotto.AllocationsAreValid | models/colonel_blotto_game.py:77-124 | Every strategy 0..3 yields an allocation `play` accepts when resources are non-negative and there is a battlefield |
| ColonelBlotto.PlaySimpleSucceeds | models/colonel_blotto_game.py:55-75 | Under the same conditions `play_simple` never raises for strategies 0..3 |
| ColonelBlotto.PlaySimpleRejectsSecondStrategy | models/colonel_blotto_game.py:71-72 | An unknown second strategy raises the invalid-strategy error once the first allocation has been built |
| ColonelBlotto.EqualAllocationExample | models/colonel_blotto_game.py:82-89 | 10 resources over 3 battlefields split equally as [4,3,3] |
| ColonelBlotto.FrontLoadedExample | models/colonel_blotto_game.py:91-103 | 10 resources over 3 battlefields front-load as [6,2,2] |
| ColonelBlotto.LoadedRemainderExample | models/colonel_blotto_game.py:91-117 | 11 resources over 4 battlefields: the leftover unit goes to battlefield 1 when front-loading ([6,2,2,1]) and to battlefield 0 when back-loading ([2,2,1,6]) |
| PrisonersDilemma.Play | models/prisoners_dilemma.py:12-22 | Every payoff is one of R, P, S, T, and both players get the same payoff when they play the same action |
| PrisonersDilemma.PlayTable | models/prisoners_dilemma.py:15-22 | (0,0) pays (R,R), (1,1) pays (P,P), (0,1) pays (S,T), and every other pair, out-of-range ids included, pays (T,S) |
| PrisonersDilemma.PlaySymmetric | models/prisoners_dilemma.py:15-22 | For actions 0 and 1, exchanging the players exchanges the payoffs |
| PrisonersDilemma.DefaultExample | models/prisoners_dilemma.py:9-22 | With R,T,S,P = 3,5,0,1, mutual cooperation pays 3 each and mutual betrayal 1 each |
| StagHunt.Play | models/stag_hunt.py:12-22 | Player 1 hunting hare always receives `hare`; player 2 hunting hare receives `hare` whenever player 1's id is 0 or 1 (for any other id the last branch pays player 2 `fail`) |
| StagHunt.PlayTable | models/stag_hunt.py:15-22 | (0,0) pays (stag,stag), (1,1) pays (hare,hare), (0,1) pays (fail,hare) and (1,0) pays (hare,fail) |
| StagHunt.PlaySymmetric | models/stag_hunt.py:15-22 | For actions 0 and 1, exchanging the players exchanges the payoffs |
| Coordination.Play | models/coordination_game.py:10-18 | Both players always receive the same payoff, and anything but a match on 0 or on 1 pays `mismatch` |
| Coordination.PlayTable | models/coordination_game.py:13-18 | (0,0) pays coord_a, (1,1) pays coord_b, and every other pair pays mismatch to both |
| Coordination.PlaySymmetric | models/coordination_game.py:13-18 | Exchanging the players exchanges the payoffs, for every pair of ids |
| HawkDove.Play | models/hawk_dove_game.py:12-27 | The payoffs add up to `value - cost` for two Hawks and to `value` in every other outcome; equal actions pay equal payoffs |
| HawkDove.PlayTable | models/hawk_dove_game.py:16-27 | Two Hawks get (v-c)/2 each, Hawk against Dove gets (v,0), Dove against Hawk (0,v), two Doves v/2 each |
| HawkDove.PlaySymmetric | models/hawk_dove_game.py:16-27 | For actions 0 and 1, exchanging the players exchanges the payoffs |
| BattleOfSexes.Play | models/battle_of_sexes.py:17-33 | Any pair other than (0,0) and (1,1), out-of-range ids included, pays (0,0) |
| BattleOfSexes.PlayTable | models/battle_of_sexes.py:25-33 | (0,0) pays (opera_man, opera_woman), (1,1) pays (football_man, football_woman), (0,1) and (1,0) pay nothing |
| BattleOfSexes.PlaySymmetricUnderRoleSwap | models/battle_of_sexes.py:25-33 | Exchanging the players together with the man's and woman's preferences exchanges the payoffs |
| Dictator.Play | models/dictator_game.py:11-22 | The recipient gets the gift clamped into [0, total], the payoffs always sum to total, and for total >= 0 both lie in [0, total] |
| Dictator.PlayExtremes | models/dictator_game.py:16-22 | Giving total or more hands over everything, giving 0 or less keeps everything, and an in-range gift is passed on unchanged |
| Dictator.PlayExample | models/dictator_game.py:16-22 | With 10 units, giving 4 gives (6,4); giving 0 and 10 give (10,0) and (0,10) |
| Ultimatum.Play | models/ultimatum_game.py:13-38 | An accepted offer (clamped offer >= clamped threshold) pays the clamped offer to the responder and the rest of the total to the proposer; a rejected one pays (0,0); for total >= 0 both payoffs lie in [0, total] |
| Ultimatum.ZeroThresholdAcceptsAll | models/ultimatum_game.py:29-32 | A threshold of 0 accepts every offer |
| Ultimatum.PlayExample | models/ultimatum_game.py:22-38 | With 10 units, offering 4 against 5 gives (0,0) and offering 6 against 5 gives (4,6) |
| Ultimatum.RoundHalfEven | models/ultimatum_game.py:85-86 | Python's `round`: the result is within one half of the input, and an exact tie goes to the even neighbour |
| Ultimatum.RoundInteger | models/ultimatum_game.py:85-86 | Rounding leaves an integer unchanged |
| Ultimatum.ProposerOffer | models/ultimatum_game.py:60-70 | A proposer strategy outside 0..3 is exactly the case that raises the invalid-proposer error |
| Ultimatum.ResponderThreshold | models/ultimatum_game.py:72-82 | A responder strategy outside 0..3 is exactly the case that raises the invalid-responder error |
| Ultimatum.PlayWithStrategy | models/ultimatum_game.py:40-88 | A bad proposer raises first, a bad responder next, the call succeeds exactly when both are in 0..3, and for total >= 0 both payoffs lie in [0, total] |
| Ultimatum.FairSplitOffer | models/ultimatum_game.py:61-62 | Fair Split offers exactly `total // 2` and is accepted by Accept Anything |
| Ultimatum.RationalThreshold | models/ultimatum_game.py:79-80 | Rational asks for 1 unit when the total is positive and for 0 otherwise |
| Ultimatum.AcceptAnythingAccepts | models/ultimatum_game.py:73-74 | Accept Anything takes every proposer strategy's offer |
| Ultimatum.StrategyExamples | models/ultimatum_game.py:58-88 | On 10 units the offers 5, 3, 1, 9 meet the thresholds 0, 5, 3, 1 with the listed outcomes |
| Ultimatum.HalfEvenExamples | models/ultimatum_game.py:84-88 | On 5 units the half-way offers and thresholds round to even (1.5 to 2, 0.5 to 0, 4.5 to 4, 2.5 to 2) |
| Trust.Play | models/trust_game.py:10-30 | With a ratio of 0 or less the sender keeps exactly what it did not send |
| Trust.PlayFormula | models/trust_game.py:17-28 | The sender gets `initial - s + s * m * q` and the receiver `s * m * (1 - q)`, for the clamped amount s and clamped ratio q |
| Trust.PlayConservation | models/trust_game.py:21-30 | The payoffs sum to `initial + s * (multiplier - 1)`, whatever the return ratio |
| Trust.ReceiverPayoff | models/trust_game.py:24-28 | Returning everything leaves the receiver with 0, and with a non-negative endowment and multiplier the receiver never loses |
| Trust.SendNothing | models/trust_game.py:17-30 | With a non-negative endowment, sending nothing leaves (initial, 0); a negative endowment would clamp the amount sent to that endowment |
| Trust.SendFraction | models/trust_game.py:41-53 | Exactly the send choices 0..2 are known, each a fraction strictly between 0 and 1 |
| Trust.ReturnRatio | models/trust_game.py:47-54 | Exactly the return choices 0..2 are known, each a ratio strictly between 0 and 1 |
| Trust.PlaySimple | models/trust_game.py:32-56 | An unknown send choice fails first, an unknown return choice next, and the call succeeds exactly for choices in 0..2 |
| Trust.PlaySimpleUnclamped | models/trust_game.py:41-56 | The named send levels are never clamped when the endowment is non-negative, and the named ratios lie in [0,1] |
| Trust.PlaySimpleExample | models/trust_game.py:32-56 | With 10 units tripled, medium trust and medium return give (9.5, 10.5) |
| PublicGoods.Clipped | models/public_goods_game.py:18 | One clamped contribution per contribution, in the same order |
| PublicGoods.Payoffs | models/public_goods_game.py:26 | One payoff per contribution: the endowment less the contribution plus the share |
| PublicGoods.Play | models/public_goods_game.py:11-28 | One payoff per contribution, in order, each `endowment - own clamped contribution + pot * multiplier / num_players` |
| PublicGoods.PlayDifference | models/public_goods_game.py:18-26 | Whoever contributes less ends up ahead by exactly the difference of the clamped contributions |
| PublicGoods.SumOfShares | models/public_goods_game.py:26 | Payoffs of the form `e - c + share` add up to n endowments plus n shares less the contributions |
| PublicGoods.PlayTotal | models/public_goods_game.py:18-28 | With as many contributions as players, the payoffs add up to the endowments, less what went into the pot, plus the multiplied pot |
| PublicGoods.PlayTwoPlayer | models/public_goods_game.py:30-48 | payoff1 - payoff2 equals c2 - c1 after clamping, and the payoffs sum to `2 * endowment + (c1 + c2) * (multiplier - 1)` |
| PublicGoods.TwoPlayerSwap | models/public_goods_game.py:36-48 | Exchanging the contributions exchanges the payoffs |
| PublicGoods.TwoPlayerNoContribution | models/public_goods_game.py:36-46 | With a non-negative endowment, no contributions leave both players with the endowment; a negative endowment would clamp both contributions to it |
| PublicGoods.TwoPlayerIsGeneralGame | models/public_goods_game.py:11-48 | With two players, `play_two_player(c1, c2)` equals `play([c1, c2])` |
| RepeatedPrisonersDilemma.PlaySingleRound | models/repeated_prisoners_dilemma.py:20-30 | For actions 0 and 1 a round pays player 1 what player 2 would get with the roles exchanged |
| RepeatedPrisonersDilemma.SingleRoundIsOneShotGame | models/repeated_prisoners_dilemma.py:20-30 | A round pays exactly what the one-shot Prisoner's Dilemma pays for every pair of ids |
| RepeatedPrisonersDilemma.NextMove | models/repeated_prisoners_dilemma.py:54-89 | On histories of 0s and 1s every strategy, known or not, chooses 0 or 1 |
| RepeatedPrisonersDilemma.Run | models/repeated_prisoners_dilemma.py:52-100 | After n rounds both histories have n entries, all 0 or 1 |
| RepeatedPrisonersDilemma.Step | models/repeated_prisoners_dilemma.py:52-100 | One round keeps both histories append-only: each grows by one move, every earlier entry is kept, and histories of 0s and 1s stay so |
| RepeatedPrisonersDilemma.PlayWithStrategies | models/repeated_prisoners_dilemma.py:32-106 | Both histories have `rounds` entries (none for a non-positive count), all 0 or 1 |
| RepeatedPrisonersDilemma.RunPrefix | models/repeated_prisoners_dilemma.py:99-100 | Histories only grow: the first n rounds of a longer game are the n-round game |
| RepeatedPrisonersDilemma.MoveAt | models/repeated_prisoners_dilemma.py:52-100 | The move in round r is the strategy's choice given the first r entries of both histories |
| RepeatedPrisonersDilemma.FirstMove | models/repeated_prisoners_dilemma.py:54-63 | In round 0 strategies 0 and 2 cooperate and every other id betrays |
| RepeatedPrisonersDilemma.TitForTatMirrors | models/repeated_prisoners_dilemma.py:69-70 | After round 0, a (Suspicious) Tit-for-Tat player repeats the opponent's previous move |
| RepeatedPrisonersDilemma.PavlovWinStayLoseShift | models/repeated_prisoners_dilemma.py:71-76 | After round 0, Pavlov repeats its own previous move when the opponent cooperated and switches otherwise |
| RepeatedPrisonersDilemma.UnconditionalStrategies | models/repeated_prisoners_dilemma.py:54-89 | Always Cooperate only cooperates; Always Betray and every unknown id only betray |
| RepeatedPrisonersDilemma.UnconditionalAt | models/repeated_prisoners_dilemma.py:65-68 | The same, round by round |
| RepeatedPrisonersDilemma.StepSwap | models/repeated_prisoners_dilemma.py:52-100 | Exchanging the players and their strategies before a round exchanges histories and scores after it |
| RepeatedPrisonersDilemma.RunSwap | models/repeated_prisoners_dilemma.py:32-106 | The game with the strategies exchanged is the game with histories and scores exchanged |
| RepeatedPrisonersDilemma.DiscountedSnoc | models/repeated_prisoners_dilemma.py:94-97 | Adding a round adds its payoff weighted by `discount ** round` to the discounted sum |
| RepeatedPrisonersDilemma.RoundPayoffsSnoc | models/repeated_prisoners_dilemma.py:92 | Playing one more round appends that round's payoff to the payoff list |
| RepeatedPrisonersDilemma.StepScore | models/repeated_prisoners_dilemma.py:92-97 | One round adds exactly the round's payoff times `discount ** round` to each score |
| RepeatedPrisonersDilemma.ScoreIsDiscountedSum | models/repeated_prisoners_dilemma.py:52-100 | Each running score is the discounted sum of the round payoffs the histories determine |
| RepeatedPrisonersDilemma.ScoresAreDiscountedSums | models/repeated_prisoners_dilemma.py:94-97 | Both scores are the discounted sums of their round payoffs |
| RepeatedPrisonersDilemma.Play | models/repeated_prisoners_dilemma.py:108-111 | `play` returns the two scores of `play_with_strategies`, each the discounted sum of that player's round payoffs over all rounds |
| RepeatedPrisonersDilemma.PlaySwap | models/repeated_prisoners_dilemma.py:32-111 | Exchanging the two strategies exchanges the two scores |
| RepeatedPrisonersDilemma.UndiscountedIsSum | models/repeated_prisoners_dilemma.py:95-97 | With discount 1 the score is the plain sum of the round payoffs |
| RepeatedPrisonersDilemma.FullyDiscountedIsFirstRound | models/repeated_prisoners_dilemma.py:95-97 | With discount 0 the score is the round-0 payoff |
| RepeatedPrisonersDilemma.TitForTatAgainstAlwaysBetray | models/repeated_prisoners_dilemma.py:52-111 | With 3,5,0,1, three rounds and discount 1, Tit-for-Tat against Always Betray plays [0,1,1] against [1,1,1] and scores (2,7) |
| Signaling.SenderSignals | models/signaling_game.py:54-68 | Exactly sender strategies 0..3 are accepted; the high type signals high under Separating and Pooling High, the low type under Pooling High and Perverse |
| Signaling.Play | models/signaling_game.py:22-126 | `play` fails exactly for a sender strategy outside 0..3 |
| Signaling.Respond | models/signaling_game.py:33-36 | The receiver acts exactly for strategies 0..3; Trust follows the signal and Distrust does the opposite |
| Signaling.HighTypeTermIsOutcome | models/signaling_game.py:70-96 | Every high-type branch pays the high type's payoff for the action the receiver takes, weighted by its probability |
| Signaling.LowTypeTermIsOutcome | models/signaling_game.py:98-124 | Every low-type branch pays the low type's payoff for the action the receiver takes, weighted by `1 - p` |
| Signaling.PlayIsExpectation | models/signaling_game.py:22-126 | `play` equals the expected payoffs over the two types of the game read as types, signals, actions and payoffs |
| Signaling.UnknownReceiverEarnsNothing | models/signaling_game.py:70-126 | A receiver strategy outside 0..3 is not rejected and leaves both payoffs at 0 |
| Signaling.ConstantReceiverPayoffs | models/signaling_game.py:78-83 | Always High pays p·hh + (1-p)·lh and p·correct + (1-p)·incorrect, Always Low p·hl + (1-p)·ll and p·incorrect + (1-p)·correct, whatever the sender does |
| Signaling.ConstantReceiverIgnoresSender | models/signaling_game.py:91-124 | Against Always High or Always Low every sender strategy gives the same payoffs |
| Signaling.PoolingMakesSignalUninformative | models/signaling_game.py:58-63 | Under Pooling High, Trust equals Always High and Distrust equals Always Low; under Pooling Low the other way round |
| Signaling.InformativeSignals | models/signaling_game.py:72-74 | Separating with Trust and Perverse with Distrust pay the receiver exactly `correct`; the mismatched pairs pay exactly `incorrect` |
| Signaling.SeparatingTrustedSenderPayoff | models/signaling_game.py:72-73 | A trusted separating sender earns p·hh + (1-p)·ll |
| Signaling.ReceiverPayoffBounds | models/signaling_game.py:39-40 | With p in [0,1] and incorrect <= correct, the receiver's expected payoff lies in [incorrect, correct] for every pair of strategies |
| Signaling.DefaultExamples | models/signaling_game.py:22-126 | With the default parameters Separating/Trust gives (8.5, 6) and Pooling High/Trust (9, 4); sender 4 raises |

## Left out

- `app.py`, `visualize.py` and `models/core.py` are not part of this model.
  They hold the interface, the charts, the formatted payoff matrix with its
  fallback, and the parameter dictionary. The parameters are datatype fields
  here.
- `models/life_expectancy_calculator_model.py` is not part of this model.
  It reads a CSV file, takes logarithms and adds normal noise.
- The `get_*_strategy_name` lookups are plain string tables and are not
  modelled.
- Blotto, Dictator and Ultimatum amounts are restricted to `int`. Their
  Python `play` functions would also accept floats, but the callers pass
  integers and Blotto's `//`, `%` and list indexing need them.
- Floating point is not modelled. Every fractional payoff is an exact `real`.
  `int(0.6 * r)` is taken on the exact product. The Ultimatum products
  `total * 0.3` and the like are also exact before rounding.
- ColonelBlotto.Allocate: the random strategy's `np.random.randint` draws are
  a parameter (`draws`). The model assumes one draw per unit of resource, each
  a battlefield index.
- ColonelBlotto.Play: the `isinstance(..., list)` check is not modelled. An
  allocation is always a sequence of integers here.
- PublicGoods.Play requires a non-zero player count. numpy's division by zero
  yields infinities or NaN, which an exact `real` cannot represent.
- PublicGoods.PlayTotal is stated only when the player count equals the
  number of contributions. Otherwise the pot is not shared out exactly.
- Trust.ReceiverPayoff also needs a non-negative endowment for its lower
  bound. With a negative endowment the clamp returns that negative amount.
- Payoffs the source returns as Python `int` in some branches and `float` in
  others are all `real` here. The one-shot tables and Hawk-Dove are examples.
