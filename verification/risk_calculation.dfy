/** The scoring engine: sums every factor's partial score, clamps the total
    at 1.0, and derives a risk level from the clamped score. */
module RiskCalculation {
  import opened RiskThresholds
  import opened Events
  import opened ScoringFactors

  datatype RiskLevel = LOW | MEDIUM | HIGH

  function LevelName(l: RiskLevel): string {
    match l
    case LOW => "LOW"
    case MEDIUM => "MEDIUM"
    case HIGH => "HIGH"
  }

  function Rank(l: RiskLevel): nat {
    match l
    case LOW => 0
    case MEDIUM => 1
    case HIGH => 2
  }

  /** Left-to-right sum, the order the accumulation loop adds in. */
  function Sum(xs: seq<real>): real {
    if |xs| == 0 then 0.0 else Sum(xs[..|xs| - 1]) + xs[|xs| - 1]
  }

  /** `Math.min(total, 1.0)`; there is no lower clamp. */
  function Clamp(total: real): real {
    if total <= 1.0 then total else 1.0
  }

  /** The composite of a list of partial scores. */
  function Composite(contributions: seq<real>): real {
    Clamp(Sum(contributions))
  }

  /** Each registered factor's partial score, in registration order. */
  function Contributions(factors: seq<Factor>, th: Thresholds, ev: TransactionCreatedEvent, ctx: RiskContext): (cs: seq<real>)
    ensures |cs| == |factors|
    ensures forall i :: 0 <= i < |factors| ==> cs[i] == Score(factors[i], th, ev, ctx)
  {
    seq(|factors|, i requires 0 <= i < |factors| => Score(factors[i], th, ev, ctx))
  }

  /** The composite score of a transaction under the given factor list. */
  function CompositeScore(factors: seq<Factor>, th: Thresholds, ev: TransactionCreatedEvent, ctx: RiskContext): real {
    Composite(Contributions(factors, th, ev, ctx))
  }

  /** The accumulation loop of the engine: it computes the clamped sum of
      all contributions, never exceeds 1.0, and is non-negative when the
      weights are legal partial scores. */
  method CalculateRiskScore(factors: seq<Factor>, th: Thresholds, ev: TransactionCreatedEvent, ctx: RiskContext)
    returns (finalScore: real)
    ensures finalScore == Composite(Contributions(factors, th, ev, ctx))
    ensures finalScore <= 1.0
    ensures WeightsInUnit(th) ==> 0.0 <= finalScore
  {
    ghost var cs := Contributions(factors, th, ev, ctx);
    var total := 0.0;
    var i := 0;
    while i < |factors|
      invariant 0 <= i <= |factors|
      invariant total == Sum(cs[..i])
    {
      var contribution := Score(factors[i], th, ev, ctx);
      assert cs[..i + 1][..i] == cs[..i];
      total := total + contribution;
      i := i + 1;
    }
    assert cs[..|factors|] == cs;
    finalScore := if total <= 1.0 then total else 1.0;
    if WeightsInUnit(th) {
      forall j | 0 <= j < |cs|
        ensures 0.0 <= cs[j]
      {
        ScoreInUnit(factors[j], th, ev, ctx);
      }
      SumNonNegative(cs);
    }
  }

  lemma {:induction false} SumNonNegative(xs: seq<real>)
    requires forall i :: 0 <= i < |xs| ==> 0.0 <= xs[i]
    ensures 0.0 <= Sum(xs)
  {
    if |xs| > 0 {
      SumNonNegative(xs[..|xs| - 1]);
    }
  }

  /** For ANY list of factors honouring the `[0, 1]` contract (a factor
      added later included) the composite lies in `[0, 1]`: the upper bound
      comes from the clamp, the lower one only from the factors. */
  lemma CompositeInUnit(contributions: seq<real>)
    requires forall i :: 0 <= i < |contributions| ==> InUnit(contributions[i])
    ensures InUnit(Composite(contributions))
  {
    SumNonNegative(contributions);
  }

  /** The registered factors always produce a score in `[0, 1]` when the
      weights are legal. */
  lemma CompositeScoreInUnit(factors: seq<Factor>, th: Thresholds, ev: TransactionCreatedEvent, ctx: RiskContext)
    requires WeightsInUnit(th)
    ensures InUnit(CompositeScore(factors, th, ev, ctx))
  {
    var cs := Contributions(factors, th, ev, ctx);
    forall i | 0 <= i < |cs|
      ensures InUnit(cs[i])
    {
      ScoreInUnit(factors[i], th, ev, ctx);
    }
    CompositeInUnit(cs);
  }

  lemma {:induction false} SumMonotone(xs: seq<real>, ys: seq<real>)
    requires |xs| == |ys|
    requires forall i :: 0 <= i < |xs| ==> xs[i] <= ys[i]
    ensures Sum(xs) <= Sum(ys)
  {
    if |xs| > 0 {
      SumMonotone(xs[..|xs| - 1], ys[..|ys| - 1]);
    }
  }

  /** Pointwise larger contributions never decrease the composite. */
  lemma CompositeMonotone(xs: seq<real>, ys: seq<real>)
    requires |xs| == |ys|
    requires forall i :: 0 <= i < |xs| ==> xs[i] <= ys[i]
    ensures Composite(xs) <= Composite(ys)
  {
    SumMonotone(xs, ys);
  }

  lemma {:induction false} SumConcat(xs: seq<real>, ys: seq<real>)
    ensures Sum(xs + ys) == Sum(xs) + Sum(ys)
    decreases |ys|
  {
    if |ys| > 0 {
      assert (xs + ys)[..|xs + ys| - 1] == xs + ys[..|ys| - 1];
      SumConcat(xs, ys[..|ys| - 1]);
    } else {
      assert xs + ys == xs;
    }
  }

  /** Taking one element out of a list takes its value out of the sum. */
  lemma {:induction false} SumRemove(xs: seq<real>, i: nat)
    requires i < |xs|
    ensures Sum(xs) == Sum(xs[..i] + xs[i + 1..]) + xs[i]
  {
    assert xs == xs[..i] + ([xs[i]] + xs[i + 1..]);
    SumConcat(xs[..i], [xs[i]] + xs[i + 1..]);
    SumConcat([xs[i]], xs[i + 1..]);
    assert Sum([xs[i]]) == xs[i] by {
      assert [xs[i]][..0] == [];
    }
    SumConcat(xs[..i], xs[i + 1..]);
  }

  /** Removing the element at `i` removes one copy of it from the multiset. */
  lemma MultisetRemoveAt<T>(ys: seq<T>, i: nat)
    requires i < |ys|
    ensures multiset(ys[..i] + ys[i + 1..]) == multiset(ys) - multiset{ys[i]}
  {
    assert ys == ys[..i] + [ys[i]] + ys[i + 1..];
  }

  /** In exact arithmetic the sum does not depend on the order of its terms:
      any permutation of the contributions has the same sum. */
  lemma {:induction false} SumPermutation(xs: seq<real>, ys: seq<real>)
    requires multiset(xs) == multiset(ys)
    ensures Sum(xs) == Sum(ys)
    decreases |xs|
  {
    if |xs| == 0 {
      assert |ys| == |multiset(ys)| == 0;
    } else {
      var n := |xs| - 1;
      assert xs[n] in multiset(ys);
      var i :| 0 <= i < |ys| && ys[i] == xs[n];
      MultisetRemoveAt(xs, n);
      MultisetRemoveAt(ys, i);
      assert xs[..n] + xs[n + 1..] == xs[..n];
      SumPermutation(xs[..n], ys[..i] + ys[i + 1..]);
      SumRemove(ys, i);
    }
  }

  /** Reordering the registered factors leaves the composite unchanged. */
  lemma FactorOrderIrrelevant(fs: seq<Factor>, gs: seq<Factor>, th: Thresholds, ev: TransactionCreatedEvent, ctx: RiskContext)
    requires multiset(fs) == multiset(gs)
    ensures CompositeScore(fs, th, ev, ctx) == CompositeScore(gs, th, ev, ctx)
  {
    MultisetMapped(fs, gs, th, ev, ctx);
    SumPermutation(Contributions(fs, th, ev, ctx), Contributions(gs, th, ev, ctx));
  }

  /** Mapping a factor list to its contributions preserves permutation. */
  lemma {:induction false} MultisetMapped(fs: seq<Factor>, gs: seq<Factor>, th: Thresholds, ev: TransactionCreatedEvent, ctx: RiskContext)
    requires multiset(fs) == multiset(gs)
    ensures multiset(Contributions(fs, th, ev, ctx)) == multiset(Contributions(gs, th, ev, ctx))
    decreases |fs|
  {
    if |fs| == 0 {
      assert |gs| == |multiset(gs)| == 0;
    } else {
      var n := |fs| - 1;
      assert fs[n] in multiset(gs);
      var i :| 0 <= i < |gs| && gs[i] == fs[n];
      var rest := gs[..i] + gs[i + 1..];
      assert multiset(fs[..n]) == multiset(rest) by {
        MultisetRemoveAt(fs, n);
        MultisetRemoveAt(gs, i);
        assert fs[..n] + fs[n + 1..] == fs[..n];
      }
      MultisetMapped(fs[..n], rest, th, ev, ctx);
      var cf, cg := Contributions(fs, th, ev, ctx), Contributions(gs, th, ev, ctx);
      ContributionsRemoveAt(fs, n, th, ev, ctx);
      ContributionsRemoveAt(gs, i, th, ev, ctx);
      assert fs[..n] + fs[n + 1..] == fs[..n];
      MultisetStep(cf, cg, n, i);
    }
  }

  /** Two sequences with equal elements at `n` and `i` are permutations of
      each other when they are once those elements are removed. */
  lemma MultisetStep<T>(a: seq<T>, b: seq<T>, n: nat, i: nat)
    requires n < |a| && i < |b| && a[n] == b[i]
    requires multiset(a[..n] + a[n + 1..]) == multiset(b[..i] + b[i + 1..])
    ensures multiset(a) == multiset(b)
  {
    MultisetRemoveAt(a, n);
    MultisetRemoveAt(b, i);
    assert multiset(a) == (multiset(a) - multiset{a[n]}) + multiset{a[n]};
    assert multiset(b) == (multiset(b) - multiset{b[i]}) + multiset{b[i]};
  }

  /** Dropping one factor drops exactly its contribution. */
  lemma ContributionsRemoveAt(fs: seq<Factor>, n: nat, th: Thresholds, ev: TransactionCreatedEvent, ctx: RiskContext)
    requires n < |fs|
    ensures var cf := Contributions(fs, th, ev, ctx);
            Contributions(fs[..n] + fs[n + 1..], th, ev, ctx) == cf[..n] + cf[n + 1..]
  {
    var cf := Contributions(fs, th, ev, ctx);
    var cr := Contributions(fs[..n] + fs[n + 1..], th, ev, ctx);
    assert |cr| == |cf[..n] + cf[n + 1..]|;
    forall k | 0 <= k < |cr|
      ensures cr[k] == (cf[..n] + cf[n + 1..])[k]
    {
      if k < n {
        assert (fs[..n] + fs[n + 1..])[k] == fs[k];
      } else {
        assert (fs[..n] + fs[n + 1..])[k] == fs[k + 1];
      }
    }
  }

  /** Score tiers with inclusive lower bounds; the bounds are literals, not
      the configured thresholds. */
  function DeriveRiskLevel(score: real): (l: RiskLevel)
    ensures l == HIGH <==> score >= 0.80
    ensures l == MEDIUM <==> 0.60 <= score < 0.80
    ensures l == LOW <==> score < 0.60
  {
    if score >= 0.80 then HIGH
    else if score >= 0.60 then MEDIUM
    else LOW
  }

  /** A higher score never yields a lower level. */
  lemma RiskLevelMonotone(s1: real, s2: real)
    requires s1 <= s2
    ensures Rank(DeriveRiskLevel(s1)) <= Rank(DeriveRiskLevel(s2))
  {
  }

  /** The level ignores the configured thresholds: whatever block threshold
      is configured, a score of 0.85 is HIGH, even when that threshold is
      0.9. It agrees with the thresholds only under their defaults. */
  lemma RiskLevelIgnoresThresholds(th: Thresholds, score: real)
    ensures th == Defaults ==> (DeriveRiskLevel(score) == HIGH <==> score >= th.blockThreshold)
    ensures th == Defaults ==> (DeriveRiskLevel(score) == LOW <==> score < th.reviewThreshold)
    ensures th.blockThreshold == 0.9 ==> DeriveRiskLevel(0.85) == HIGH && 0.85 < th.blockThreshold
  {
  }
}
