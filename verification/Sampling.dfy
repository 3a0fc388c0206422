/**
 Token sampling over exact reals: argmax at temperature zero, otherwise top-k,
 softmax weights, top-p, and one weighted draw from a xorshift generator.
 */
module Sampling {
  import opened Basics

  datatype SamplerConfig = SamplerConfig(
    temperature: real,
    topP: real,
    topK: Option<nat>,
    stopSequences: seq<seq<Token>>,
    maxNewTokens: nat,
    eosToken: Token,
    seed: bv64)

  /** A candidate token with its logit or weight. */
  datatype Candidate = Candidate(token: Token, value: real)

  /** `f32::EPSILON`. */
  const EPSILON: real := 1.0 / 8388608.0

  // ----- Argmax -----

  predicate IsFirstMax(row: seq<real>, k: nat) {
    && k < |row|
    && (forall i :: 0 <= i < |row| ==> row[i] <= row[k])
    && (forall i :: 0 <= i < k ==> row[i] < row[k])
  }

  function ArgMaxOf(row: seq<real>, n: nat): (k: nat)
    requires 0 < n <= |row|
    ensures k < n
  {
    if n == 1 then 0
    else
      var k := ArgMaxOf(row, n - 1);
      if row[n - 1] > row[k] then n - 1 else k
  }

  function ArgMax(row: seq<real>): Token { if row == [] then 0 else ArgMaxOf(row, |row|) }

  lemma {:induction false} ArgMaxIsFirstMax(row: seq<real>, n: nat)
    requires 0 < n <= |row|
    ensures IsFirstMax(row[..n], ArgMaxOf(row, n))
  {
    if n > 1 {
      ArgMaxIsFirstMax(row, n - 1);
      assert row[..n] == row[..n - 1] + [row[n - 1]];
    }
  }

  // ----- Stable descending sort -----

  predicate Descending(s: seq<Candidate>) { forall i, j :: 0 <= i < j < |s| ==> s[i].value >= s[j].value }

  function Insert(c: Candidate, s: seq<Candidate>): seq<Candidate> {
    if s == [] || s[0].value <= c.value then [c] + s else [s[0]] + Insert(c, s[1..])
  }

  /** `sort_by` with descending comparison: equal values keep their order. */
  function SortDescending(s: seq<Candidate>): seq<Candidate> {
    if s == [] then [] else Insert(s[0], SortDescending(s[1..]))
  }

  lemma {:induction false} InsertKeepsOrder(c: Candidate, s: seq<Candidate>)
    requires Descending(s)
    ensures Descending(Insert(c, s)) && forall x :: x in Insert(c, s) <==> x == c || x in s
  {
    if s != [] {
      if s[0].value <= c.value {
        assert forall i :: 0 <= i < |s| ==> s[i].value <= c.value;
      } else {
        InsertKeepsOrder(c, s[1..]);
        var r := Insert(c, s[1..]);
        forall i | 0 <= i < |r| ensures s[0].value >= r[i].value {
          assert r[i] in r;
          assert r[i] == c || r[i] in s[1..];
        }
        assert Insert(c, s) == [s[0]] + r && s == [s[0]] + s[1..];
      }
    }
  }

  lemma {:induction false} InsertAddsOne(c: Candidate, s: seq<Candidate>)
    ensures multiset(Insert(c, s)) == multiset(s) + multiset{c}
  {
    if s != [] && s[0].value > c.value {
      InsertAddsOne(c, s[1..]);
      assert s == [s[0]] + s[1..];
    }
  }

  lemma {:induction false} SortIsDescending(s: seq<Candidate>)
    ensures Descending(SortDescending(s)) && multiset(SortDescending(s)) == multiset(s)
  {
    if s != [] {
      SortIsDescending(s[1..]);
      InsertKeepsOrder(s[0], SortDescending(s[1..]));
      InsertAddsOne(s[0], SortDescending(s[1..]));
      assert s == [s[0]] + s[1..];
    }
  }

  function WithValue(s: seq<Candidate>, v: real): seq<Candidate> {
    if s == [] then [] else (if s[0].value == v then [s[0]] else []) + WithValue(s[1..], v)
  }

  lemma {:induction false} InsertIsStable(c: Candidate, s: seq<Candidate>, v: real)
    ensures WithValue(Insert(c, s), v) == WithValue([c], v) + WithValue(s, v)
  {
    if s == [] {
      assert [c] + s == [c];
    } else if s[0].value <= c.value {
      assert ([c] + s)[1..] == s && [c][1..] == [];
    } else {
      InsertIsStable(c, s[1..], v);
      assert ([s[0]] + Insert(c, s[1..]))[1..] == Insert(c, s[1..]);
      assert [c][1..] == [];
    }
  }

  lemma WithValueOfFirst(s: seq<Candidate>, v: real)
    requires s != []
    ensures WithValue(s, v) == WithValue([s[0]], v) + WithValue(s[1..], v)
  {
    WithValueOfOne(s[0], v);
  }

  lemma WithValueOfOne(c: Candidate, v: real)
    ensures WithValue([c], v) == if c.value == v then [c] else []
  {
    assert [c][1..] == [];
  }

  /** Candidates of equal value keep their order. */
  lemma {:induction false} SortIsStable(s: seq<Candidate>, v: real)
    ensures WithValue(SortDescending(s), v) == WithValue(s, v)
  {
    if s != [] {
      SortIsStable(s[1..], v);
      InsertIsStable(s[0], SortDescending(s[1..]), v);
      WithValueOfFirst(s, v);
    }
  }

  lemma {:induction false} SortOfSorted(s: seq<Candidate>)
    requires Descending(s)
    ensures SortDescending(s) == s
  {
    if s != [] {
      SortOfSorted(s[1..]);
      assert s == [s[0]] + s[1..];
    }
  }

  // ----- Weights -----

  function Candidates(row: seq<real>): seq<Candidate> {
    seq(|row|, i requires 0 <= i < |row| => Candidate(i, row[i]))
  }

  /** The `topK` best candidates, best first. */
  function Survivors(config: SamplerConfig, row: seq<real>): seq<Candidate> {
    var sorted := SortDescending(Candidates(row));
    if config.topK.Some? then sorted[..Min(Max(config.topK.value, 1), |sorted|)] else sorted
  }

  function MaxReal(a: real, b: real): real { if a >= b then a else b }

  function WeightOf(config: SamplerConfig, exp: real -> real, best: real, logit: real): real {
    exp((logit - best) / MaxReal(config.temperature, 0.001))
  }

  function BestLogit(s: seq<Candidate>): real { if s == [] then 0.0 else s[0].value }

  function Weighted(config: SamplerConfig, exp: real -> real, best: real, s: seq<Candidate>): (r: seq<Candidate>)
    ensures |r| == |s|
    ensures forall i :: 0 <= i < |s| ==> r[i] == Candidate(s[i].token, WeightOf(config, exp, best, s[i].value))
  {
    if s == [] then []
    else
      Weighted(config, exp, best, s[..|s| - 1])
      + [Candidate(s[|s| - 1].token, WeightOf(config, exp, best, s[|s| - 1].value))]
  }

  function Total(s: seq<Candidate>): real {
    if s == [] then 0.0 else Total(s[..|s| - 1]) + s[|s| - 1].value
  }

  // ----- Top-p -----

  function Clamp(x: real): (r: real)
    ensures 0.001 <= r <= 1.0 && (0.001 <= x <= 1.0 ==> r == x)
    ensures (x < 0.001 ==> r == 0.001) && (x > 1.0 ==> r == 1.0)
  {
    if x < 0.001 then 0.001 else if x > 1.0 then 1.0 else x
  }

  function ShareOf(weight: real, total: real): real { if total > 0.0 then weight / total else 0.0 }

  function Shares(s: seq<Candidate>, total: real): real {
    if s == [] then 0.0 else Shares(s[..|s| - 1], total) + ShareOf(s[|s| - 1].value, total)
  }

  /** How many candidates are kept when `n` have been kept without reaching the threshold. */
  function NucleusFrom(s: seq<Candidate>, total: real, threshold: real, n: nat): (k: nat)
    requires n <= |s|
    ensures n <= k <= |s|
    decreases |s| - n
  {
    if n == |s| then n
    else if Shares(s[..n + 1], total) >= threshold then n + 1
    else NucleusFrom(s, total, threshold, n + 1)
  }

  function Kept(config: SamplerConfig, exp: real -> real, row: seq<real>): seq<Candidate> {
    var s := Survivors(config, row);
    var weighted := SortDescending(Weighted(config, exp, BestLogit(s), s));
    if config.topP < 0.999 then weighted[..NucleusFrom(weighted, Total(weighted), Clamp(config.topP), 0)] else weighted
  }

  // ----- The draw -----

  function MixLeft13(x: bv64): bv64 { x ^ (x << 13) }

  function MixRight7(x: bv64): bv64 { x ^ (x >> 7) }

  function MixLeft17(x: bv64): bv64 { x ^ (x << 17) }

  function NextState(x: bv64): bv64 { MixLeft17(MixRight7(MixLeft13(x))) }

  /** The top 53 bits of the state, scaled into [0, 1). */
  function UnitDraw(x: bv64): (u: real)
    ensures 0.0 <= u < 1.0
  {
    ((x >> 11) as bv53) as int as real / 9007199254740992.0
  }

  /** The first candidate at which the running weight reaches `target`. */
  function Pick(s: seq<Candidate>, target: real): Option<Token> {
    if s == [] then None
    else if target <= s[0].value then Some(s[0].token)
    else Pick(s[1..], target - s[0].value)
  }

  /** The sampled token and the generator state afterwards. */
  function SampleSpec(config: SamplerConfig, exp: real -> real, row: seq<real>, rng: bv64): (Token, bv64) {
    if config.temperature <= EPSILON then (ArgMax(row), rng)
    else
      var kept := Kept(config, exp, row);
      if kept == [] || Total(kept) <= 0.0 then (ArgMax(row), rng)
      else
        var picked := Pick(kept, Target(UnitDraw(NextState(rng)), Total(kept)));
        (if picked.Some? then picked.value else ArgMax(row), NextState(rng))
  }

  function InitialState(config: SamplerConfig): bv64 { config.seed ^ 0x9e37_79b9_7f4a_7c15 }

  // ----- Properties of the selection -----

  ghost predicate PositiveIncreasing(exp: real -> real) {
    (forall x :: exp(x) > 0.0) && forall x, y :: x <= y ==> exp(x) <= exp(y)
  }

  lemma DivideKeepsOrder(a: real, b: real, d: real)
    requires a >= b && d > 0.0
    ensures a / d >= b / d
  {
  }

  /** Weights inherit the order of the logits, so sorting them again changes nothing. */
  lemma SecondSortIsIdle(config: SamplerConfig, exp: real -> real, s: seq<Candidate>)
    requires PositiveIncreasing(exp) && Descending(s)
    ensures SortDescending(Weighted(config, exp, BestLogit(s), s)) == Weighted(config, exp, BestLogit(s), s)
  {
    var best, t := BestLogit(s), MaxReal(config.temperature, 0.001);
    var w := Weighted(config, exp, best, s);
    forall i, j | 0 <= i < j < |w| ensures w[i].value >= w[j].value {
      DivideKeepsOrder(s[i].value - best, s[j].value - best, t);
    }
    SortOfSorted(w);
  }

  lemma {:induction false} TotalIsPositive(s: seq<Candidate>)
    requires forall i :: 0 <= i < |s| ==> s[i].value > 0.0
    ensures s != [] ==> Total(s) > 0.0
    ensures Total(s) >= 0.0
  {
    if s != [] { TotalIsPositive(s[..|s| - 1]); }
  }

  lemma {:induction false} SharesAreTotals(s: seq<Candidate>, total: real)
    requires total > 0.0
    ensures Shares(s, total) == Total(s) / total
  {
    if s != [] { SharesAreTotals(s[..|s| - 1], total); }
  }

  lemma {:induction false} NucleusIsShortest(s: seq<Candidate>, total: real, threshold: real, n: nat)
    requires n <= |s| && forall j :: 0 < j <= n ==> Shares(s[..j], total) < threshold
    ensures var k := NucleusFrom(s, total, threshold, n);
            && (forall j :: 0 < j < k ==> Shares(s[..j], total) < threshold)
            && (k == |s| || Shares(s[..k], total) >= threshold)
    decreases |s| - n
  {
    if n < |s| && Shares(s[..n + 1], total) < threshold {
      NucleusIsShortest(s, total, threshold, n + 1);
    }
  }

  /** What survives top-k and carries a weight, best first. */
  function Ranked(config: SamplerConfig, exp: real -> real, row: seq<real>): seq<Candidate> {
    Weighted(config, exp, BestLogit(Survivors(config, row)), Survivors(config, row))
  }

  lemma SurvivorsAreBest(config: SamplerConfig, row: seq<real>)
    requires row != []
    ensures Survivors(config, row) != [] && Survivors(config, row) <= SortDescending(Candidates(row))
    ensures Descending(Survivors(config, row))
  {
    SortIsDescending(Candidates(row));
    assert |multiset(Candidates(row))| == |Candidates(row)| == |SortDescending(Candidates(row))| by {
      assert |multiset(SortDescending(Candidates(row)))| == |SortDescending(Candidates(row))|;
    }
  }

  lemma NucleusReachesThreshold(s: seq<Candidate>, threshold: real)
    requires s != [] && Total(s) > 0.0 && 0.0 < threshold <= 1.0
    ensures var k := NucleusFrom(s, Total(s), threshold, 0);
            && 0 < k <= |s| && Total(s[..k]) / Total(s) >= threshold
            && forall j :: 0 < j < k ==> Total(s[..j]) / Total(s) < threshold
  {
    var total := Total(s);
    var k := NucleusFrom(s, total, threshold, 0);
    NucleusIsShortest(s, total, threshold, 0);
    forall j | 0 <= j <= k ensures Shares(s[..j], total) == Total(s[..j]) / total {
      SharesAreTotals(s[..j], total);
    }
    assert s[..|s|] == s;
    SelfQuotient(total);
  }

  lemma SelfQuotient(x: real)
    requires x > 0.0
    ensures x / x == 1.0
  {
  }

  /**
   With top-p active, the kept candidates are the shortest prefix of the ranked top-k
   survivors whose share of the weight reaches the clamped top-p.
   */
  lemma KeptIsShortestNucleus(config: SamplerConfig, exp: real -> real, row: seq<real>)
    requires PositiveIncreasing(exp) && row != [] && config.topP < 0.999
    ensures var ranked, kept := Ranked(config, exp, row), Kept(config, exp, row);
            && kept != [] && kept <= ranked && Total(ranked) > 0.0
            && Total(kept) / Total(ranked) >= Clamp(config.topP)
            && forall j :: 0 < j < |kept| ==> Total(ranked[..j]) / Total(ranked) < Clamp(config.topP)
  {
    KeptOfRanked(config, exp, row);
    TotalIsPositive(Ranked(config, exp, row));
    NucleusReachesThreshold(Ranked(config, exp, row), Clamp(config.topP));
  }

  lemma KeptOfRanked(config: SamplerConfig, exp: real -> real, row: seq<real>)
    requires PositiveIncreasing(exp) && row != []
    ensures var ranked := Ranked(config, exp, row);
            && ranked != []
            && Kept(config, exp, row)
               == if config.topP < 0.999 then ranked[..NucleusFrom(ranked, Total(ranked), Clamp(config.topP), 0)]
                  else ranked
  {
    SurvivorsAreBest(config, row);
    SecondSortIsIdle(config, exp, Survivors(config, row));
  }

  lemma KeptIsRanked(config: SamplerConfig, exp: real -> real, row: seq<real>)
    requires PositiveIncreasing(exp) && row != []
    ensures Kept(config, exp, row) != [] && Kept(config, exp, row) <= Ranked(config, exp, row)
    ensures Total(Kept(config, exp, row)) > 0.0
  {
    SurvivorsAreBest(config, row);
    SecondSortIsIdle(config, exp, Survivors(config, row));
    if config.topP < 0.999 {
      KeptIsShortestNucleus(config, exp, row);
    }
    TotalIsPositive(Kept(config, exp, row));
  }

  lemma {:induction false} TotalSplitsFirst(s: seq<Candidate>)
    requires s != []
    ensures Total(s) == s[0].value + Total(s[1..])
  {
    if |s| > 1 {
      TotalSplitsFirst(s[..|s| - 1]);
      assert s[..|s| - 1][1..] == s[1..][..|s| - 2];
    } else {
      assert s[..0] == [];
    }
  }

  /** The draw lands in the candidate's own stretch of the running weight. */
  ghost predicate DrawnAt(s: seq<Candidate>, target: real, i: nat) {
    i < |s| && (i == 0 || Total(s[..i]) < target) && target <= Total(s[..i + 1])
  }

  lemma {:induction false} PickInvertsRunningTotal(s: seq<Candidate>, target: real) returns (i: nat)
    requires s != [] && target <= Total(s)
    ensures DrawnAt(s, target, i) && Pick(s, target) == Some(s[i].token)
  {
    TotalSplitsFirst(s);
    if target <= s[0].value {
      i := 0;
      assert s[..1][..0] == [];
    } else {
      assert Total([]) == 0.0;
      var j := PickInvertsRunningTotal(s[1..], target - s[0].value);
      i := j + 1;
      TotalSplitsFirst(s[..i]);
      assert s[..i][1..] == s[1..][..j];
      TotalSplitsFirst(s[..i + 1]);
      assert s[..i + 1][1..] == s[1..][..j + 1];
      if j == 0 {
        assert s[1..][..0] == [];
      }
    }
  }

  function Target(u: real, total: real): real { u * total }

  lemma TargetIsBelowTotal(u: real, total: real)
    requires 0.0 <= u < 1.0 && total > 0.0
    ensures Target(u, total) < total
  {
  }

  lemma DrawLands(kept: seq<Candidate>, u: real) returns (i: nat)
    requires kept != [] && Total(kept) > 0.0 && 0.0 <= u < 1.0
    ensures DrawnAt(kept, Target(u, Total(kept)), i) && Pick(kept, Target(u, Total(kept))) == Some(kept[i].token)
  {
    TargetIsBelowTotal(u, Total(kept));
    i := PickInvertsRunningTotal(kept, Target(u, Total(kept)));
  }

  /** Above the temperature floor the answer is always a kept candidate; the final argmax is unreachable. */
  lemma SampleIsKept(config: SamplerConfig, exp: real -> real, row: seq<real>, rng: bv64) returns (i: nat)
    requires PositiveIncreasing(exp) && row != [] && config.temperature > EPSILON
    ensures DrawnAt(Kept(config, exp, row), UnitDraw(NextState(rng)) * Total(Kept(config, exp, row)), i)
    ensures SampleSpec(config, exp, row, rng) == (Kept(config, exp, row)[i].token, NextState(rng))
  {
    KeptIsRanked(config, exp, row);
    i := DrawLands(Kept(config, exp, row), UnitDraw(NextState(rng)));
  }

  lemma {:induction false} TotalOfInsert(c: Candidate, s: seq<Candidate>)
    ensures Total(Insert(c, s)) == c.value + Total(s)
  {
    var r := Insert(c, s);
    TotalSplitsFirst(r);
    if s == [] || s[0].value <= c.value {
      assert r[1..] == s;
    } else {
      TotalOfInsert(c, s[1..]);
      TotalSplitsFirst(s);
      assert r[1..] == Insert(c, s[1..]);
    }
  }

  lemma {:induction false} TotalOfSorted(s: seq<Candidate>)
    ensures Total(SortDescending(s)) == Total(s)
  {
    if s != [] {
      TotalOfSorted(s[1..]);
      TotalOfInsert(s[0], SortDescending(s[1..]));
      TotalSplitsFirst(s);
    }
  }

  // ----- What the parameters mean -----

  /** At temperature zero the answer is the first index of a largest logit, and nothing is drawn. */
  lemma GreedyIsArgmax(config: SamplerConfig, exp: real -> real, row: seq<real>, rng: bv64)
    requires config.temperature <= 1.0 / 8388608.0 && row != []
    ensures IsFirstMax(row, SampleSpec(config, exp, row, rng).0) && SampleSpec(config, exp, row, rng).1 == rng
  {
    ArgMaxIsFirstMax(row, |row|);
    assert row[..|row|] == row;
  }

  /** From no logits at all token 0 is answered, and nothing is drawn. */
  lemma EmptyRowIsTokenZero(config: SamplerConfig, exp: real -> real, rng: bv64)
    ensures SampleSpec(config, exp, [], rng) == (0, rng)
  {
    assert Candidates([]) == [];
  }

  /** A larger logit, or the same one at a smaller index. */
  predicate Before(a: Candidate, b: Candidate) { a.value > b.value || (a.value == b.value && a.token < b.token) }

  predicate InRank(s: seq<Candidate>) { forall i, j :: 0 <= i < j < |s| ==> Before(s[i], s[j]) }

  lemma {:induction false} InsertKeepsRank(c: Candidate, s: seq<Candidate>)
    requires InRank(s) && forall x :: x in s ==> c.token < x.token
    ensures InRank(Insert(c, s)) && forall x :: x in Insert(c, s) <==> x == c || x in s
  {
    if s != [] {
      if s[0].value <= c.value {
        assert forall i :: 0 < i < |s| ==> Before(s[0], s[i]);
        assert forall i :: 0 <= i < |s| ==> Before(c, s[i]);
      } else {
        InsertKeepsRank(c, s[1..]);
        var r := Insert(c, s[1..]);
        forall i | 0 <= i < |r| ensures Before(s[0], r[i]) {
          assert r[i] in r;
          assert r[i] == c || r[i] in s[1..];
        }
        assert Insert(c, s) == [s[0]] + r && s == [s[0]] + s[1..];
      }
    }
  }

  lemma {:induction false} SortIsRank(s: seq<Candidate>)
    requires forall i, j :: 0 <= i < j < |s| ==> s[i].token < s[j].token
    ensures InRank(SortDescending(s)) && |SortDescending(s)| == |s|
    ensures forall x :: x in SortDescending(s) <==> x in s
  {
    if s != [] {
      SortIsRank(s[1..]);
      InsertKeepsRank(s[0], SortDescending(s[1..]));
      InsertLength(s[0], SortDescending(s[1..]));
      assert s == [s[0]] + s[1..];
    }
  }

  lemma {:induction false} InsertLength(c: Candidate, s: seq<Candidate>)
    ensures |Insert(c, s)| == |s| + 1
  {
    if s != [] { InsertLength(c, s[1..]); }
  }

  /**
   Top-k keeps the `k` best logits of the row, at least one and at most all, each once, best
   first and of equal ones the smaller index: whatever is dropped ranks behind all that is kept.
   */
  lemma SurvivorsAreTopK(config: SamplerConfig, row: seq<real>)
    ensures var s := Survivors(config, row);
            && |s| == (if config.topK.None? || config.topK.value > |row| then |row|
                       else if config.topK.value == 0 && row != [] then 1 else config.topK.value)
            && InRank(s)
            && (forall x :: x in s ==> x.token < |row| && x.value == row[x.token])
            && forall x, i :: x in s && 0 <= i < |row| && Candidate(i, row[i]) !in s ==> Before(x, Candidate(i, row[i]))
  {
    var all := Candidates(row);
    var sorted, s := SortDescending(all), Survivors(config, row);
    SortIsRank(all);
    forall x | x in s ensures x.token < |row| && x.value == row[x.token] {
      assert x in sorted;
    }
    forall x, i | x in s && 0 <= i < |row| && Candidate(i, row[i]) !in s ensures Before(x, Candidate(i, row[i])) {
      assert all[i] in all;
      var j :| 0 <= j < |sorted| && sorted[j] == Candidate(i, row[i]);
      var k :| 0 <= k < |s| && s[k] == x;
      assert forall n :: 0 <= n < |s| ==> sorted[n] in s;
    }
  }

  ghost predicate Exponential(exp: real -> real) { forall x, y :: exp(x + y) == exp(x) * exp(y) }

  lemma QuotientsAdd(a: real, b: real, d: real)
    requires d > 0.0
    ensures a / d + b / d == (a + b) / d
  {
  }

  lemma Factored(exp: real -> real, x: real, y: real)
    requires Exponential(exp)
    ensures exp(x + y) == exp(x) * exp(y)
  {
  }

  /** Weights stand in the ratio of the exponentials of the logits over the temperature, at least 0.001. */
  lemma WeightsFollowTemperature(config: SamplerConfig, exp: real -> real, best: real, a: real, b: real)
    requires Exponential(exp)
    ensures var t := if config.temperature < 0.001 then 0.001 else config.temperature;
            WeightOf(config, exp, best, a) == WeightOf(config, exp, best, b) * exp((a - b) / t)
  {
    hide Exponential;
    var t := if config.temperature < 0.001 then 0.001 else config.temperature;
    QuotientsAdd(b - best, a - b, t);
    assert (b - best) + (a - b) == a - best;
    Factored(exp, (b - best) / t, (a - b) / t);
  }

  // ----- The generator -----

  lemma Left13OfZero(x: bv64)
    ensures MixLeft13(x) == 0 ==> x == 0
  {
  }

  lemma Right7OfZero(x: bv64)
    ensures MixRight7(x) == 0 ==> x == 0
  {
  }

  lemma Left17OfZero(x: bv64)
    ensures MixLeft17(x) == 0 ==> x == 0
  {
  }

  /** The generator never falls into the state 0, in which it would stay. */
  lemma NextStateIsNotZero(x: bv64)
    requires x != 0
    ensures NextState(x) != 0
  {
    hide MixLeft13, MixRight7, MixLeft17;
    Left13OfZero(x);
    Right7OfZero(MixLeft13(x));
    Left17OfZero(MixRight7(MixLeft13(x)));
  }

  /** Known answers: one step from state 1, the seed mixed in, and draws from the top 53 bits. */
  lemma KnownDraws(config: SamplerConfig)
    ensures NextState(1) == 0x4082_2041
    ensures InitialState(config.(seed := 0)) == 0x9e37_79b9_7f4a_7c15
    ensures InitialState(config) ^ 0x9e37_79b9_7f4a_7c15 == config.seed
    ensures UnitDraw(0x7FF) == 0.0 && UnitDraw(0x800) == 1.0 / 9007199254740992.0
    ensures UnitDraw(0x8000_0000_0000_0000) == 0.5
    ensures UnitDraw(0xFFFF_FFFF_FFFF_FFFF) == 9007199254740991.0 / 9007199254740992.0
  {
  }

  // ----- The sampler object -----

  class Sampler {
    const config: SamplerConfig
    const exp: real -> real
    var rngState: bv64

    constructor (config: SamplerConfig, exp: real -> real)
      ensures this.config == config && this.exp == exp && rngState == InitialState(config)
    {
      this.config, this.exp := config, exp;
      rngState := config.seed ^ 0x9e37_79b9_7f4a_7c15;
    }

    method NextF64() returns (u: real)
      modifies this
      ensures rngState == NextState(old(rngState)) && u == UnitDraw(rngState)
    {
      rngState := MixLeft13(rngState);
      rngState := MixRight7(rngState);
      rngState := MixLeft17(rngState);
      u := UnitDraw(rngState);
    }

    /** Weigh the survivors, adding up the total on the way. */
    method Weigh(survivors: seq<Candidate>) returns (weighted: seq<Candidate>, total: real)
      ensures weighted == Weighted(config, exp, BestLogit(survivors), survivors) && total == Total(weighted)
    {
      var temperature := MaxReal(config.temperature, 0.001);
      var best := BestLogit(survivors);
      weighted, total := [], 0.0;
      for i := 0 to |survivors|
        invariant weighted == Weighted(config, exp, best, survivors[..i]) && total == Total(weighted)
      {
        var weight := exp((survivors[i].value - best) / temperature);
        total := total + weight;
        assert survivors[..i + 1][..i] == survivors[..i];
        var longer := weighted + [Candidate(survivors[i].token, weight)];
        assert longer[..|longer| - 1] == weighted;
        weighted := longer;
      }
      assert survivors[..|survivors|] == survivors;
    }

    /** Keep candidates until their share reaches top-p. */
    method KeepNucleus(weighted: seq<Candidate>, total: real) returns (kept: seq<Candidate>)
      ensures kept == weighted[..NucleusFrom(weighted, total, Clamp(config.topP), 0)]
    {
      var cumulative := 0.0;
      var threshold := Clamp(config.topP);
      kept := [];
      var i := 0;
      while i < |weighted|
        invariant i <= |weighted| && kept == weighted[..i] && cumulative == Shares(weighted[..i], total)
        invariant NucleusFrom(weighted, total, threshold, 0) == NucleusFrom(weighted, total, threshold, i)
      {
        var probability := if total > 0.0 then weighted[i].value / total else 0.0;
        cumulative := cumulative + probability;
        kept := kept + [weighted[i]];
        assert weighted[..i + 1][..i] == weighted[..i];
        i := i + 1;
        if cumulative >= threshold {
          return;
        }
      }
    }

    method Draw(kept: seq<Candidate>, start: real) returns (token: Option<Token>)
      ensures token == Pick(kept, start)
    {
      var target := start;
      for i := 0 to |kept|
        invariant Pick(kept, start) == Pick(kept[i..], target)
      {
        if target <= kept[i].value {
          return Some(kept[i].token);
        }
        target := target - kept[i].value;
        assert kept[i..][1..] == kept[i + 1..];
      }
      token := None;
    }

    method Sample(row: seq<real>) returns (token: Token)
      modifies this
      ensures (token, rngState) == SampleSpec(config, exp, row, old(rngState))
    {
      if config.temperature <= EPSILON {
        token := Argmax(row);
        return;
      }
      var weighted, total := Weigh(Survivors(config, row));
      TotalOfSorted(weighted);
      weighted := SortDescending(weighted);
      if config.topP < 0.999 {
        weighted := KeepNucleus(weighted, total);
        total := Total(weighted);
      }
      assert weighted == Kept(config, exp, row);
      if weighted == [] || total <= 0.0 {
        token := Argmax(row);
        return;
      }
      var draw := NextF64();
      var picked := Draw(weighted, Target(draw, total));
      if picked.Some? {
        token := picked.value;
      } else {
        token := Argmax(row);
      }
    }
  }

  /** The first index of a largest logit; 0 for an empty row. */
  method Argmax(row: seq<real>) returns (best: Token)
    ensures best == ArgMax(row)
    ensures row != [] ==> IsFirstMax(row, best)
  {
    best := 0;
    for index := 0 to |row|
      invariant if index == 0 then best == 0 else best == ArgMaxOf(row, index)
    {
      if index == 0 || row[index] > row[best] {
        best := index;
      }
    }
    if row != [] {
      ArgMaxIsFirstMax(row, |row|);
      assert row[..|row|] == row;
    }
  }
}
