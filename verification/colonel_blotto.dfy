/** Colonel Blotto: two players spread integer resources over battlefields;
    the larger allocation wins a battlefield and equal allocations tie. */
module ColonelBlotto {
  import opened Results
  import opened Sums

  datatype Config = Config(resources: int, battlefields: int)

  /** The exceptions `play` and `_generate_allocation` can raise. */
  datatype BlottoError =
    | LengthMismatch      // an allocation does not have `battlefields` entries
    | OverBudget          // an allocation spends more than `resources`
    | NegativeAllocation  // an allocation has a negative entry
    | InvalidStrategy     // strategy id outside 0..3
    | DivisionByZero      // equal split over zero battlefields
    | IndexOutOfRange     // front/back-loaded split over no battlefield
    | BadRandomShape      // random split over no (or a negative number of) battlefields

  /** Result of a comparison: battlefields won by each player, and per
      battlefield 0 (tie), 1 (first player) or 2 (second player). */
  datatype Outcome = Outcome(wins1: nat, wins2: nat, fields: seq<int>)

  /** What the validation of `play` admits: the right length, no negative
      entry, and no more than the available resources in total. */
  predicate ValidAllocation(cfg: Config, a: seq<int>)
  {
    && |a| == cfg.battlefields
    && !HasNegative(a)
    && Sum(a) <= cfg.resources
  }

  /** Some entry is below zero. */
  predicate HasNegative(a: seq<int>)
  {
    exists i :: 0 <= i < |a| && a[i] < 0
  }

  /** Winner of one battlefield. */
  function FieldWinner(x: int, y: int): (w: int)
    ensures w == 1 <==> x > y
    ensures w == 2 <==> y > x
    ensures w == 0 <==> x == y
  {
    if x > y then 1 else if y > x then 2 else 0
  }

  /** The comparison loop after its first `n` iterations: results are appended
      in battlefield order and each win bumps the winner's counter. */
  function Tally(a1: seq<int>, a2: seq<int>, n: nat): (o: Outcome)
    requires n <= |a1| && n <= |a2|
    ensures |o.fields| == n
    ensures forall i :: 0 <= i < n ==> o.fields[i] == FieldWinner(a1[i], a2[i])
    ensures o.wins1 == Count(o.fields, 1) && o.wins2 == Count(o.fields, 2)
  {
    if n == 0 then Outcome(0, 0, [])
    else
      var prev := Tally(a1, a2, n - 1);
      var w := FieldWinner(a1[n - 1], a2[n - 1]);
      CountAppend(prev.fields, [w], 1);
      CountAppend(prev.fields, [w], 2);
      Outcome(prev.wins1 + (if w == 1 then 1 else 0),
              prev.wins2 + (if w == 2 then 1 else 0),
              prev.fields + [w])
  }

  /** `play`: validate both allocations (length, then budget, then sign),
      then compare them battlefield by battlefield. */
  function Play(cfg: Config, a1: seq<int>, a2: seq<int>): (r: Result<Outcome, BlottoError>)
    ensures r.Ok? <==> ValidAllocation(cfg, a1) && ValidAllocation(cfg, a2)
    ensures r.Ok? ==> |r.value.fields| == cfg.battlefields
    ensures r.Ok? ==> forall i :: 0 <= i < cfg.battlefields ==>
      (r.value.fields[i] == 1 <==> a1[i] > a2[i]) &&
      (r.value.fields[i] == 2 <==> a2[i] > a1[i]) &&
      (r.value.fields[i] == 0 <==> a1[i] == a2[i])
    ensures r.Ok? ==> r.value.wins1 == Count(r.value.fields, 1) && r.value.wins2 == Count(r.value.fields, 2)
    ensures r.Ok? ==> r.value.wins1 + r.value.wins2 <= cfg.battlefields
  {
    if |a1| != cfg.battlefields || |a2| != cfg.battlefields then Err(LengthMismatch)
    else if Sum(a1) > cfg.resources || Sum(a2) > cfg.resources then Err(OverBudget)
    else if HasNegative(a1) || HasNegative(a2) then Err(NegativeAllocation)
    else
      var o := Tally(a1, a2, cfg.battlefields);
      CountTwoValuesBounded(o.fields, 1, 2);
      Ok(o)
  }

  /** Exchanges the labels 1 and 2 of a result list. */
  function Mirror(fields: seq<int>): (m: seq<int>)
    ensures |m| == |fields|
  {
    if |fields| == 0 then []
    else [if fields[0] == 1 then 2 else if fields[0] == 2 then 1 else fields[0]] + Mirror(fields[1..])
  }

  lemma {:induction false} MirrorAt(fields: seq<int>, i: int)
    requires 0 <= i < |fields|
    ensures Mirror(fields)[i] == (if fields[i] == 1 then 2 else if fields[i] == 2 then 1 else fields[i])
  {
    if i > 0 {
      MirrorAt(fields[1..], i - 1);
    }
  }

  lemma {:induction false} CountMirror(fields: seq<int>)
    ensures Count(Mirror(fields), 1) == Count(fields, 2)
    ensures Count(Mirror(fields), 2) == Count(fields, 1)
  {
    if |fields| > 0 {
      CountMirror(fields[1..]);
    }
  }

  /** Swapping the players swaps the win counts and mirrors the result list;
      an invalid pair is rejected with the same error either way round. */
  lemma PlaySwap(cfg: Config, a1: seq<int>, a2: seq<int>)
    ensures Play(cfg, a1, a2).Err? ==> Play(cfg, a2, a1) == Play(cfg, a1, a2)
    ensures Play(cfg, a1, a2).Ok? ==>
      var o := Play(cfg, a1, a2).value;
      Play(cfg, a2, a1) == Ok(Outcome(o.wins2, o.wins1, Mirror(o.fields)))
  {
    var r := Play(cfg, a1, a2);
    var s := Play(cfg, a2, a1);
    if r.Ok? {
      var o := r.value;
      var p := s.value;
      forall i | 0 <= i < |p.fields|
        ensures p.fields[i] == Mirror(o.fields)[i]
      {
        MirrorAt(o.fields, i);
      }
      assert p.fields == Mirror(o.fields);
      CountMirror(o.fields);
    }
  }

  /** The documented comparison example. */
  lemma PlayExample()
    ensures Play(Config(10, 3), [4, 3, 3], [3, 4, 3]) == Ok(Outcome(1, 1, [1, 2, 0]))
  {
    var o := Play(Config(10, 3), [4, 3, 3], [3, 4, 3]).value;
    assert o.fields == [1, 2, 0];
    assert Count([1, 2, 0], 1) == 1;
    assert Count([1, 2, 0], 2) == 1;
  }

  // ---------------------------------------------------------------------
  // Allocation strategies
  // ---------------------------------------------------------------------

  /** `int(0.6 * r)`: 60% of `r`, truncated toward zero, with the float
      product read as the exact rational. */
  function SixtyPercent(r: int): (s: int)
    ensures r >= 0 ==> 0 <= s <= r && 10 * s <= 6 * r < 10 * s + 10
    ensures r < 0 ==> r <= s <= 0 && 6 * r <= 10 * s < 6 * r + 10
  {
    if r >= 0 then (6 * r) / 10 else -((6 * -r) / 10)
  }

  /** `[base] * n` with one unit added to each of the first `extra` entries. */
  function Spread(n: nat, base: int, extra: int): (s: seq<int>)
    ensures |s| == n
    ensures forall i :: 0 <= i < n ==> s[i] == base + (if i < extra then 1 else 0)
    ensures Sum(s) == n * base + (if extra < 0 then 0 else if extra > n then n else extra)
  {
    if n == 0 then []
    else
      var rest := Spread(n - 1, base, extra - 1);
      var s := [base + (if 0 < extra then 1 else 0)] + rest;
      assert s[1..] == rest;
      assert (n - 1) * base + base == n * base;
      s
  }

  /** Euclidean division by a positive divisor, as Python's `//` and `%`. */
  lemma DivMod(x: int, k: int)
    requires k > 0
    ensures k * (x / k) + x % k == x
    ensures 0 <= x % k < k
  {
  }

  /** Strategy 0: `resources // battlefields` everywhere, the remainder handed
      out one unit each to the lowest-indexed battlefields. */
  function EqualAllocation(cfg: Config): (a: seq<int>)
    requires cfg.battlefields > 0
    ensures |a| == cfg.battlefields
    ensures Sum(a) == cfg.resources
    ensures forall i :: 0 <= i < |a| ==>
      a[i] == cfg.resources / cfg.battlefields + (if i < cfg.resources % cfg.battlefields then 1 else 0)
    ensures forall i, j :: 0 <= i <= j < |a| ==> a[j] <= a[i] <= a[j] + 1
  {
    Spread(cfg.battlefields, cfg.resources / cfg.battlefields, cfg.resources % cfg.battlefields)
  }

  /** Strategy 1: 60% on battlefield 0, the rest split over battlefields
      1.. with the remainder starting at battlefield 1. */
  function FrontLoaded(cfg: Config): (a: seq<int>)
    requires cfg.battlefields >= 1
    ensures |a| == cfg.battlefields
    ensures a[0] == SixtyPercent(cfg.resources)
    ensures cfg.battlefields >= 2 ==> Sum(a) == cfg.resources
    ensures cfg.battlefields >= 2 ==>
      var rest := cfg.resources - SixtyPercent(cfg.resources);
      var k := cfg.battlefields - 1;
      forall i :: 1 <= i < |a| ==> a[i] == rest / k + (if i <= rest % k then 1 else 0)
    ensures cfg.battlefields == 1 ==> a == [SixtyPercent(cfg.resources)]
  {
    var first := SixtyPercent(cfg.resources);
    var rest := cfg.resources - first;
    var k := cfg.battlefields - 1;
    if k == 0 then [first]
    else
      var tail := Spread(k, rest / k, rest % k);
      DivMod(rest, k);
      SumAppend([first], tail);
      [first] + tail
  }

  /** Strategy 2: 60% on the last battlefield, the rest split over the
      others with the remainder starting at battlefield 0. */
  function BackLoaded(cfg: Config): (a: seq<int>)
    requires cfg.battlefields >= 1
    ensures |a| == cfg.battlefields
    ensures a[|a| - 1] == SixtyPercent(cfg.resources)
    ensures cfg.battlefields >= 2 ==> Sum(a) == cfg.resources
    ensures cfg.battlefields >= 2 ==>
      var rest := cfg.resources - SixtyPercent(cfg.resources);
      var k := cfg.battlefields - 1;
      forall i :: 0 <= i < |a| - 1 ==> a[i] == rest / k + (if i < rest % k then 1 else 0)
    ensures cfg.battlefields == 1 ==> a == [SixtyPercent(cfg.resources)]
  {
    var last := SixtyPercent(cfg.resources);
    var rest := cfg.resources - last;
    var k := cfg.battlefields - 1;
    if k == 0 then [last]
    else
      var head := Spread(k, rest / k, rest % k);
      DivMod(rest, k);
      SumAppend(head, [last]);
      head + [last]
  }

  /** The random indices strategy 3 draws: one per unit of resource, each a
      battlefield index. */
  predicate ValidDraws(cfg: Config, draws: seq<int>)
  {
    && |draws| == (if cfg.resources > 0 then cfg.resources else 0)
    && forall k :: 0 <= k < |draws| ==> 0 <= draws[k] < cfg.battlefields
  }

  /** Strategy 3 given its random draws: start from zeros and add one unit to
      the drawn battlefield for each draw. */
  function Scatter(n: nat, draws: seq<int>): (a: seq<int>)
    requires forall k :: 0 <= k < |draws| ==> 0 <= draws[k] < n
    ensures |a| == n
    ensures Sum(a) == |draws|
    ensures forall i :: 0 <= i < n ==> a[i] >= 0
  {
    if |draws| == 0 then Spread(n, 0, 0)
    else
      var prev := Scatter(n, draws[..|draws| - 1]);
      var d := draws[|draws| - 1];
      SumIncrement(prev, d);
      prev[d := prev[d] + 1]
  }

  /** `_generate_allocation`, with the random draws of strategy 3 supplied
      by the caller. */
  function Allocate(cfg: Config, strategy: int, draws: seq<int>): (r: Result<seq<int>, BlottoError>)
    requires strategy == 3 && cfg.battlefields > 0 ==> ValidDraws(cfg, draws)
    ensures r == Err(InvalidStrategy) <==> !(0 <= strategy <= 3)
    ensures r.Ok? && strategy != 0 ==> |r.value| == cfg.battlefields
    ensures r.Ok? && cfg.battlefields >= 0 ==> |r.value| == cfg.battlefields
    ensures strategy == 0 && cfg.battlefields == 0 ==> r == Err(DivisionByZero)
    ensures (strategy == 1 || strategy == 2) && cfg.battlefields <= 0 ==> r == Err(IndexOutOfRange)
    ensures strategy == 3 ==> (r == Err(BadRandomShape) <==> cfg.battlefields < 0 || (cfg.battlefields == 0 && cfg.resources > 0))
    ensures r.Ok? && cfg.battlefields < 0 ==> strategy == 0 && r.value == []
  {
    if strategy == 0 then
      if cfg.battlefields == 0 then Err(DivisionByZero)
      else if cfg.battlefields < 0 then Ok([])
      else Ok(EqualAllocation(cfg))
    else if strategy == 1 then
      if cfg.battlefields <= 0 then Err(IndexOutOfRange) else Ok(FrontLoaded(cfg))
    else if strategy == 2 then
      if cfg.battlefields <= 0 then Err(IndexOutOfRange) else Ok(BackLoaded(cfg))
    else if strategy == 3 then
      if cfg.battlefields < 0 || (cfg.battlefields == 0 && cfg.resources > 0) then Err(BadRandomShape)
      else if cfg.battlefields == 0 then Ok([])
      else Ok(Scatter(cfg.battlefields, draws))
    else Err(InvalidStrategy)
  }

  /** `play_simple`: generate both allocations, compare them, keep the win counts. */
  function PlaySimple(cfg: Config, s1: int, s2: int, draws1: seq<int>, draws2: seq<int>): (r: Result<(nat, nat), BlottoError>)
    requires s1 == 3 && cfg.battlefields > 0 ==> ValidDraws(cfg, draws1)
    requires s2 == 3 && cfg.battlefields > 0 ==> ValidDraws(cfg, draws2)
    ensures !(0 <= s1 <= 3) ==> r == Err(InvalidStrategy)
    ensures r.Ok? ==> r.value.0 + r.value.1 <= cfg.battlefields
  {
    var a1 :- Allocate(cfg, s1, draws1);
    var a2 :- Allocate(cfg, s2, draws2);
    var o :- Play(cfg, a1, a2);
    Ok((o.wins1, o.wins2))
  }

  /** The equal split of non-negative resources passes validation. */
  lemma EqualAllocationIsValid(cfg: Config)
    requires cfg.resources >= 0 && cfg.battlefields >= 1
    ensures ValidAllocation(cfg, EqualAllocation(cfg))
  {
    var a := EqualAllocation(cfg);
    var q := cfg.resources / cfg.battlefields;
    assert q >= 0;
    forall i | 0 <= i < |a|
      ensures a[i] >= 0
    {
    }
  }

  /** The front-loaded split of non-negative resources passes validation. */
  lemma FrontLoadedIsValid(cfg: Config)
    requires cfg.resources >= 0 && cfg.battlefields >= 1
    ensures ValidAllocation(cfg, FrontLoaded(cfg))
  {
    var a := FrontLoaded(cfg);
    var rest := cfg.resources - SixtyPercent(cfg.resources);
    if cfg.battlefields >= 2 {
      var q := rest / (cfg.battlefields - 1);
      assert q >= 0;
      forall i | 0 <= i < |a|
        ensures a[i] >= 0
      {
      }
    } else {
      assert Sum(a) == SixtyPercent(cfg.resources);
    }
  }

  /** The back-loaded split of non-negative resources passes validation. */
  lemma BackLoadedIsValid(cfg: Config)
    requires cfg.resources >= 0 && cfg.battlefields >= 1
    ensures ValidAllocation(cfg, BackLoaded(cfg))
  {
    var a := BackLoaded(cfg);
    var rest := cfg.resources - SixtyPercent(cfg.resources);
    if cfg.battlefields >= 2 {
      var q := rest / (cfg.battlefields - 1);
      assert q >= 0;
      forall i | 0 <= i < |a|
        ensures a[i] >= 0
      {
      }
    } else {
      assert Sum(a) == SixtyPercent(cfg.resources);
    }
  }

  /** The random strategy, whatever its draws, spends exactly the resources. */
  lemma RandomAllocationIsValid(cfg: Config, draws: seq<int>)
    requires cfg.resources >= 0 && cfg.battlefields >= 1
    requires ValidDraws(cfg, draws)
    ensures Allocate(cfg, 3, draws).Ok?
    ensures ValidAllocation(cfg, Allocate(cfg, 3, draws).value)
    ensures Sum(Allocate(cfg, 3, draws).value) == cfg.resources
  {
  }

  /** Every strategy yields an allocation that `play` accepts, whenever the
      resources are non-negative and there is at least one battlefield. */
  lemma AllocationsAreValid(cfg: Config, strategy: int, draws: seq<int>)
    requires cfg.resources >= 0 && cfg.battlefields >= 1
    requires 0 <= strategy <= 3
    requires strategy == 3 ==> ValidDraws(cfg, draws)
    ensures Allocate(cfg, strategy, draws).Ok?
    ensures ValidAllocation(cfg, Allocate(cfg, strategy, draws).value)
  {
    if strategy == 3 {
      RandomAllocationIsValid(cfg, draws);
    } else if strategy == 0 {
      EqualAllocationIsValid(cfg);
    } else if strategy == 1 {
      FrontLoadedIsValid(cfg);
    } else {
      BackLoadedIsValid(cfg);
    }
  }

  /** `play_simple` never raises for strategies 0..3 when the resources are
      non-negative and there is at least one battlefield. */
  lemma PlaySimpleSucceeds(cfg: Config, s1: int, s2: int, draws1: seq<int>, draws2: seq<int>)
    requires cfg.resources >= 0 && cfg.battlefields >= 1
    requires 0 <= s1 <= 3 && 0 <= s2 <= 3
    requires s1 == 3 ==> ValidDraws(cfg, draws1)
    requires s2 == 3 ==> ValidDraws(cfg, draws2)
    ensures PlaySimple(cfg, s1, s2, draws1, draws2).Ok?
  {
    AllocationsAreValid(cfg, s1, draws1);
    AllocationsAreValid(cfg, s2, draws2);
  }

  /** An unknown second strategy raises as soon as the first allocation exists. */
  lemma PlaySimpleRejectsSecondStrategy(cfg: Config, s1: int, s2: int, draws1: seq<int>, draws2: seq<int>)
    requires s1 == 3 && cfg.battlefields > 0 ==> ValidDraws(cfg, draws1)
    requires Allocate(cfg, s1, draws1).Ok?
    requires !(0 <= s2 <= 3)
    ensures PlaySimple(cfg, s1, s2, draws1, draws2) == Err(InvalidStrategy)
  {
  }

  /** The documented equal split: 10 resources over 3 battlefields. */
  lemma EqualAllocationExample()
    ensures Allocate(Config(10, 3), 0, []) == Ok([4, 3, 3])
  {
    assert 10 / 3 == 3 && 10 % 3 == 1;
    var a := EqualAllocation(Config(10, 3));
    assert a[0] == 4 && a[1] == 3 && a[2] == 3;
    assert a == [4, 3, 3];
  }

  /** 60% of 10 is 6 on battlefield 0; the other 4 split as 2 and 2. */
  lemma FrontLoadedExample()
    ensures Allocate(Config(10, 3), 1, []) == Ok([6, 2, 2])
  {
    assert SixtyPercent(10) == 6;
    assert 4 / 2 == 2 && 4 % 2 == 0;
    var a := FrontLoaded(Config(10, 3));
    assert a[0] == 6 && a[1] == 2 && a[2] == 2;
    assert a == [6, 2, 2];
  }

  /** With 11 resources over 4 battlefields the leftover unit goes to
      battlefield 1 when front-loading but to battlefield 0 when back-loading. */
  lemma LoadedRemainderExample()
    ensures Allocate(Config(11, 4), 1, []) == Ok([6, 2, 2, 1])
    ensures Allocate(Config(11, 4), 2, []) == Ok([2, 2, 1, 6])
  {
    assert SixtyPercent(11) == 6;
    assert 5 / 3 == 1 && 5 % 3 == 2;
    var f := FrontLoaded(Config(11, 4));
    assert f[0] == 6 && f[1] == 2 && f[2] == 2 && f[3] == 1;
    assert f == [6, 2, 2, 1];
    var b := BackLoaded(Config(11, 4));
    assert b[0] == 2 && b[1] == 2 && b[2] == 1 && b[3] == 6;
    assert b == [2, 2, 1, 6];
  }
}
