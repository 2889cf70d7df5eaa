/** The pass@k estimator: its product form, what it counts, and why it is unbiased. Arithmetic is exact. */
module PassAtK {

  datatype Result<T> = Ok(value: T) | ValueError

  // ---------------------------------------------------------------- binomial coefficients

  function Choose(n: nat, k: nat): nat
  {
    if k == 0 then 1 else if n == 0 then 0 else Choose(n - 1, k - 1) + Choose(n - 1, k)
  }

  lemma {:induction false} ChooseTooMany(n: nat, k: nat)
    requires k > n
    ensures Choose(n, k) == 0
  {
    if n > 0 {
      ChooseTooMany(n - 1, k - 1);
      ChooseTooMany(n - 1, k);
    }
  }

  lemma {:induction false} ChoosePositive(n: nat, k: nat)
    requires k <= n
    ensures Choose(n, k) > 0
  {
    if k > 0 {
      ChoosePositive(n - 1, k - 1);
    }
  }

  /** One more pick out of `n`: (k+1) C(n,k+1) = (n-k) C(n,k). */
  lemma {:induction false} ChooseNext(n: nat, k: nat)
    ensures (k + 1) * Choose(n, k + 1) == (n - k) * Choose(n, k)
  {
    if n == 0 {
    } else if k == 0 {
      ChooseNext(n - 1, 0);
      assert Choose(n - 1, 0) == 1;
    } else {
      ChooseNext(n - 1, k - 1);
      ChooseNext(n - 1, k);
      AddRows(n, k, Choose(n - 1, k - 1), Choose(n - 1, k), Choose(n - 1, k + 1));
    }
  }

  lemma AddRows(n: int, k: int, a: int, b: int, d: int)
    requires k * b == (n - k) * a && (k + 1) * d == (n - 1 - k) * b
    ensures (k + 1) * (b + d) == (n - k) * (a + b)
  {
    calc {
      (k + 1) * (b + d);
      k * b + b + (k + 1) * d;
      (n - k) * a + b + (n - 1 - k) * b;
      (n - k) * (a + b);
    }
  }

  lemma ProductAsReal(a: int, b: int)
    ensures (a * b) as real == a as real * b as real
  {
  }

  // ---------------------------------------------------------------- the estimator

  /** C(n-c, k) / C(n, k). */
  ghost function FailRatio(n: nat, c: nat, k: nat): real
    requires c <= n && k <= n
  {
    ChoosePositive(n, k);
    Choose(n - c, k) as real / Choose(n, k) as real
  }

  ghost function Estimate(n: nat, c: nat, k: nat): real
    requires c <= n && k <= n
  {
    1.0 - FailRatio(n, c, k)
  }

  lemma Cross(a: real, b: real, a': real, b': real, x: real, y: real, i: real)
    requires b > 0.0 && b' > 0.0 && y > 0.0 && i > 0.0
    requires i * a' == x * a && i * b' == y * b
    ensures a / b * (x / y) == a' / b'
  {
    var q := a / b;
    assert a == q * b;
    assert i * a' == x * (q * b) == q * x * b;
    assert i * a' * y == q * x * (b * y) == q * x * (i * b');
    assert i * (a' * y - q * x * b') == 0.0;
    assert a' * y == q * x * b';
    assert a' / b' == q * x / y by {
      assert q * x / y * b' == a';
    }
  }

  lemma RatioStep(n: nat, m: nat, i: nat)
    requires m <= n && i < m
    ensures Choose(n, i) > 0 && Choose(n, i + 1) > 0
    ensures Choose(m, i) as real / Choose(n, i) as real * ((m - i) as real / (n - i) as real) ==
            Choose(m, i + 1) as real / Choose(n, i + 1) as real
  {
    ChoosePositive(n, i);
    ChoosePositive(n, i + 1);
    ChooseNext(m, i);
    ChooseNext(n, i);
    Ratios(Choose(m, i), Choose(n, i), Choose(m, i + 1), Choose(n, i + 1), m - i, n - i, i + 1);
  }

  lemma Ratios(a: int, b: int, a': int, b': int, x: int, y: int, i: int)
    requires b > 0 && b' > 0 && y > 0 && i > 0
    requires i * a' == x * a && i * b' == y * b
    ensures a as real / b as real * (x as real / y as real) == a' as real / b' as real
  {
    ProductAsReal(i, a');
    ProductAsReal(i, b');
    ProductAsReal(x, a);
    ProductAsReal(y, b);
    Cross(a as real, b as real, a' as real, b' as real, x as real, y as real, i as real);
  }

  /** `n` samples, `c` of which passed: asking for more samples than there are is an error; with fewer
      failures than `k` the estimate is exactly 1; otherwise it is the product form. All three agree with
      the one formula, and asking for no attempts at all gives 0. */
  method Compute(n: nat, c: nat, k: int) returns (r: Result<real>)
    requires c <= n
    ensures k > n ==> r == ValueError
    ensures 0 <= k <= n ==> r == Ok(Estimate(n, c, k))
    ensures k < 0 ==> r == Ok(0.0)
  {
    if k > n {
      return ValueError;
    }
    if n - c < k {
      ChooseTooMany(n - c, k);
      ChoosePositive(n, k);
      return Ok(1.0);
    }
    var allFail := 1.0;
    var i := 0;
    while i < k
      invariant 0 <= i && (i <= k || k < 0 == i)
      invariant i <= n && Choose(n, i) > 0 && allFail == Choose(n - c, i) as real / Choose(n, i) as real
    {
      RatioStep(n, n - c, i);
      allFail := allFail * ((n - c - i) as real / (n - i) as real);
      i := i + 1;
    }
    return Ok(1.0 - allFail);
  }

  // ---------------------------------------------------------------- what the ratio counts

  /** The ways to pick `k` members of `s`. */
  ghost function Picks(s: set<nat>, k: nat): set<set<nat>>
  {
    set t: set<nat> {:trigger |t|} | t <= s && |t| == k
  }

  ghost function WithMember(ts: set<set<nat>>, x: nat): set<set<nat>>
  {
    set t {:trigger t in ts} | t in ts :: t + {x}
  }

  lemma {:induction false} WithMemberSize(ts: set<set<nat>>, x: nat)
    requires forall t {:trigger t in ts} :: t in ts ==> x !in t
    ensures |WithMember(ts, x)| == |ts|
    decreases |ts|
  {
    if ts == {} {
      assert WithMember(ts, x) == {};
    } else {
      var t :| t in ts;
      WithMemberSize(ts - {t}, x);
      WithMemberStep(ts, t, x);
      assert t + {x} !in WithMember(ts - {t}, x) by {
        forall u | u in ts - {t} ensures u + {x} != t + {x} {
          assert (u + {x}) - {x} == u && (t + {x}) - {x} == t;
        }
      }
    }
  }

  lemma WithMemberStep(ts: set<set<nat>>, t: set<nat>, x: nat)
    requires t in ts
    ensures WithMember(ts, x) == WithMember(ts - {t}, x) + {t + {x}}
  {
    forall v ensures v in WithMember(ts, x) <==> v in WithMember(ts - {t}, x) + {t + {x}} {
      if v in WithMember(ts, x) {
        var u :| u in ts && v == u + {x};
        assert u == t || u in ts - {t};
      }
      if v in WithMember(ts - {t}, x) {
        var u :| u in ts - {t} && v == u + {x};
        assert u in ts;
      }
    }
  }

  lemma PicksSplit(s: set<nat>, x: nat, k: nat)
    requires x in s && k > 0
    ensures Picks(s, k) == Picks(s - {x}, k) + WithMember(Picks(s - {x}, k - 1), x)
    ensures Picks(s - {x}, k) !! WithMember(Picks(s - {x}, k - 1), x)
  {
    var a, b := Picks(s - {x}, k), Picks(s - {x}, k - 1);
    forall t: set<nat> ensures t in Picks(s, k) <==> t in a + WithMember(b, x) {
      if t in Picks(s, k) && x in t {
        assert t - {x} in b && (t - {x}) + {x} == t;
      }
      if t in WithMember(b, x) {
        var u :| u in b && t == u + {x};
        assert |t| == |u| + 1;
      }
    }
  }

  lemma PicksNone(s: set<nat>, k: nat)
    ensures Picks(s, 0) == {{}}
    ensures k > 0 ==> Picks({}, k) == {}
  {
    forall t: set<nat> ensures t in Picks(s, 0) <==> t in {{}} {
      assert |t| == 0 <==> t == {};
    }
  }

  /** C(n, k) counts the k-element subsets of an n-element set. */
  lemma {:induction false} CountPicks(s: set<nat>, k: nat)
    ensures |Picks(s, k)| == Choose(|s|, k)
    decreases |s|
  {
    PicksNone(s, k);
    if k > 0 && s != {} {
      var x :| x in s;
      assert |s - {x}| == |s| - 1;
      CountPicks(s - {x}, k - 1);
      CountPicks(s - {x}, k);
      PicksSplit(s, x, k);
      WithMemberSize(Picks(s - {x}, k - 1), x);
      hide Picks;
      var a, b := Picks(s - {x}, k), WithMember(Picks(s - {x}, k - 1), x);
      assert |a + b| == |a| + |b|;
    }
  }

  /** All sample numbers below `n`. */
  ghost function Samples(n: nat): (s: set<nat>)
    ensures |s| == n && forall i: nat :: i in s <==> i < n
  {
    if n == 0 then {} else Samples(n - 1) + {n - 1}
  }

  function Successes(outcomes: seq<bool>): (c: nat)
    ensures c <= |outcomes|
  {
    if outcomes == [] then 0 else
      var n := |outcomes| - 1;
      Successes(outcomes[..n]) + (if outcomes[n] then 1 else 0)
  }

  /** The samples that did not resolve. */
  ghost function Failures(outcomes: seq<bool>): (s: set<nat>)
    ensures |s| == |outcomes| - Successes(outcomes)
    ensures forall i: nat :: i in s <==> i < |outcomes| && !outcomes[i]
  {
    if outcomes == [] then {} else
      var n := |outcomes| - 1;
      Failures(outcomes[..n]) + (if outcomes[n] then {} else {n})
  }

  /** The subsets of `k` samples among which nothing resolved. */
  ghost function AllFail(outcomes: seq<bool>, k: nat): set<set<nat>>
  {
    set t {:trigger t in Picks(Samples(|outcomes|), k)} |
      t in Picks(Samples(|outcomes|), k) && forall i: nat :: i in t ==> i < |outcomes| && !outcomes[i]
  }

  lemma AllFailPicks(outcomes: seq<bool>, k: nat)
    ensures AllFail(outcomes, k) == Picks(Failures(outcomes), k)
  {
    var f, s := Failures(outcomes), Samples(|outcomes|);
    forall t: set<nat> ensures t in AllFail(outcomes, k) <==> t in Picks(f, k) {
      assert t <= f <==> (forall i: nat :: i in t ==> i < |outcomes| && !outcomes[i]);
      assert t <= f ==> t <= s;
      assert t in Picks(s, k) <==> t <= s && |t| == k;
      assert t in Picks(f, k) <==> t <= f && |t| == k;
    }
  }

  /** The estimate is the fraction of the k-subsets of the samples drawn that contain a success. */
  lemma FractionOfSubsets(outcomes: seq<bool>, k: nat)
    requires k <= |outcomes|
    ensures |Picks(Samples(|outcomes|), k)| > 0
    ensures Estimate(|outcomes|, Successes(outcomes), k) ==
            1.0 - |AllFail(outcomes, k)| as real / |Picks(Samples(|outcomes|), k)| as real
  {
    hide *;
    AllFailPicks(outcomes, k);
    CountPicks(Failures(outcomes), k);
    CountPicks(Samples(|outcomes|), k);
    ChoosePositive(|outcomes|, k);
    EstimateIs(|outcomes|, Successes(outcomes), k);
  }

  lemma EstimateIs(n: nat, c: nat, k: nat)
    requires c <= n && k <= n && Choose(n, k) > 0
    ensures Estimate(n, c, k) == 1.0 - Choose(n - c, k) as real / Choose(n, k) as real
  {
    hide Choose;
  }

  // ---------------------------------------------------------------- unbiasedness

  function Pow(x: real, n: nat): real
  {
    if n == 0 then 1.0 else x * Pow(x, n - 1)
  }

  /** The probability of exactly `c` successes in `n` independent attempts that each succeed with
      probability `p` and fail with probability `q`. */
  function Binomial(n: nat, p: real, q: real, c: nat): real
    requires c <= n
  {
    Choose(n, c) as real * Pow(p, c) * Pow(q, n - c)
  }

  /** Sum of the first `m` probabilities. */
  function Mass(n: nat, p: real, q: real, m: nat): real
    requires m <= n + 1
  {
    if m == 0 then 0.0 else Mass(n, p, q, m - 1) + Binomial(n, p, q, m - 1)
  }

  /** Sum of the first `m` terms of the estimator's expectation. */
  ghost function MeanTo(n: nat, k: nat, p: real, q: real, m: nat): real
    requires k <= n && m <= n + 1
  {
    if m == 0 then 0.0 else MeanTo(n, k, p, q, m - 1) + Binomial(n, p, q, m - 1) * Estimate(n, m - 1, k)
  }

  /** The expectation of the estimator over the number of successes. */
  ghost function Mean(n: nat, k: nat, p: real, q: real): real
    requires k <= n
  {
    MeanTo(n, k, p, q, n + 1)
  }

  /** `p` parts of one thing and `q` of another. */
  function Mix(p: real, q: real, a: real, b: real): real
  {
    p * a + q * b
  }

  lemma MixAdds(p: real, q: real, a: real, b: real, a': real, b': real)
    ensures Mix(p, q, a, b) + Mix(p, q, a', b') == Mix(p, q, a + a', b + b')
  {
  }

  lemma BinomialStep(n: nat, p: real, q: real, c: nat)
    requires 0 < c < n
    ensures Binomial(n, p, q, c) == Mix(p, q, Binomial(n - 1, p, q, c - 1), Binomial(n - 1, p, q, c))
  {
    Distribute(Choose(n - 1, c - 1) as real, Choose(n - 1, c) as real, p, Pow(p, c - 1), q, Pow(q, n - c - 1));
  }

  lemma Distribute(a: real, b: real, p: real, x: real, q: real, y: real)
    ensures (a + b) * (p * x) * (q * y) == Mix(p, q, a * x * (q * y), b * (p * x) * y)
  {
    calc {
      (a + b) * (p * x) * (q * y);
      a * (p * x) * (q * y) + b * (p * x) * (q * y);
      p * (a * x * (q * y)) + q * (b * (p * x) * y);
    }
  }

  lemma BinomialEnds(n: nat, p: real, q: real)
    requires n > 0
    ensures Binomial(n, p, q, 0) == Mix(p, q, 0.0, Binomial(n - 1, p, q, 0))
    ensures Binomial(n, p, q, n) == Mix(p, q, Binomial(n - 1, p, q, n - 1), 0.0)
  {
    ChooseTooMany(n - 1, n);
  }

  /** The first attempt either succeeds or fails. */
  lemma {:induction false} MassStep(n: nat, p: real, q: real, m: nat)
    requires 0 < m <= n
    ensures Mass(n, p, q, m) == Mix(p, q, Mass(n - 1, p, q, m - 1), Mass(n - 1, p, q, m))
  {
    hide Binomial, Mix;
    var c := m - 1;
    if c == 0 {
      BinomialEnds(n, p, q);
    } else {
      MassStep(n, p, q, c);
      BinomialStep(n, p, q, c);
      MixAdds(p, q, Mass(n - 1, p, q, c - 1), Mass(n - 1, p, q, c), Binomial(n - 1, p, q, c - 1), Binomial(n - 1, p, q, c));
    }
  }

  /** The probabilities sum to one. */
  lemma {:induction false} MassIsOne(n: nat, p: real, q: real)
    requires p + q == 1.0
    ensures Mass(n, p, q, n + 1) == 1.0
  {
    if n == 0 {
      assert Mass(0, p, q, 1) == Mass(0, p, q, 0) + Binomial(0, p, q, 0);
    } else {
      MassIsOne(n - 1, p, q);
      MassStep(n, p, q, n);
      BinomialEnds(n, p, q);
      MixOnes(p, q);
      hide Binomial, Mix;
      MixAdds(p, q, Mass(n - 1, p, q, n - 1), Mass(n - 1, p, q, n), Binomial(n - 1, p, q, n - 1), 0.0);
    }
  }

  lemma MixOnes(p: real, q: real)
    requires p + q == 1.0
    ensures Mix(p, q, 1.0, 1.0) == 1.0
  {
  }

  /** Choosing the successes and then k failures is choosing the k first: C(n,c) C(n-c,k) = C(n,k) C(n-k,c). */
  lemma {:induction false} Regroup(n: nat, c: nat, k: nat)
    requires c <= n && k <= n
    ensures Choose(n, c) * Choose(n - c, k) == Choose(n, k) * Choose(n - k, c)
  {
    if c == 0 || k == 0 {
    } else if c + k > n {
      ChooseTooMany(n - c, k);
      ChooseTooMany(n - k, c);
    } else {
      Regroup(n - 1, c - 1, k);
      Regroup(n - 1, c, k - 1);
      Regroup(n - 1, c, k);
      Expand(n, c, k);
      Expand(n, k, c);
    }
  }

  lemma Expand(n: nat, c: nat, k: nat)
    requires 0 < c && 0 < k && c + k <= n
    ensures Choose(n, c) * Choose(n - c, k) ==
            Choose(n - 1, c - 1) * Choose(n - c, k)
            + Choose(n - 1, c) * Choose(n - 1 - c, k - 1) + Choose(n - 1, c) * Choose(n - 1 - c, k)
  {
    assert Choose(n - c, k) == Choose(n - 1 - c, k - 1) + Choose(n - 1 - c, k);
    Products(Choose(n - 1, c - 1), Choose(n - 1, c), Choose(n - 1 - c, k - 1), Choose(n - 1 - c, k));
  }

  lemma Products(a: int, b: int, x: int, y: int)
    ensures (a + b) * (x + y) == a * (x + y) + b * x + b * y
  {
  }

  lemma PowSum(x: real, a: nat, b: nat)
    ensures Pow(x, a + b) == Pow(x, a) * Pow(x, b)
  {
    if a > 0 { PowSum(x, a - 1, b); }
  }

  function Times(x: real, y: real): real
  {
    x * y
  }

  /** One term of the expected chance that k attempts all fail. */
  lemma FailTerm(n: nat, k: nat, p: real, q: real, c: nat)
    requires k <= n && c <= n
    ensures Times(Binomial(n, p, q, c), FailRatio(n, c, k)) ==
            if c <= n - k then Times(Pow(q, k), Binomial(n - k, p, q, c)) else 0.0
  {
    hide *;
    if c <= n - k {
      FailTermFits(n, k, p, q, c);
    } else {
      NoFailures(n, c, k);
      TimesZero(Binomial(n, p, q, c));
    }
  }

  lemma TimesZero(x: real)
    ensures Times(x, 0.0) == 0.0
  {
  }

  lemma FailTermFits(n: nat, k: nat, p: real, q: real, c: nat)
    requires c + k <= n
    ensures Times(Binomial(n, p, q, c), FailRatio(n, c, k)) == Times(Pow(q, k), Binomial(n - k, p, q, c))
  {
    hide Choose, Pow, Binomial;
    ChoosePositive(n, k);
    Regroup(n, c, k);
    PowSum(q, k, n - k - c);
    assert k + (n - k - c) == n - c;
    FailCancel(n, k, p, q, c);
  }

  /** Fewer failures than `k` leave no k-subset without a success. */
  lemma NoFailures(n: nat, c: nat, k: nat)
    requires c <= n && k <= n && k > n - c
    ensures FailRatio(n, c, k) == 0.0
  {
    ChooseTooMany(n - c, k);
    ChoosePositive(n, k);
    ZeroOver(Choose(n, k) as real);
  }

  lemma ZeroOver(d: real)
    requires d > 0.0
    ensures 0.0 / d == 0.0
  {
  }

  lemma FailCancel(n: nat, k: nat, p: real, q: real, c: nat)
    requires c + k <= n && Choose(n, k) > 0 && Choose(n, c) * Choose(n - c, k) == Choose(n, k) * Choose(n - k, c)
    requires Pow(q, n - c) == Pow(q, k) * Pow(q, n - k - c)
    ensures Binomial(n, p, q, c) * (Choose(n - c, k) as real / Choose(n, k) as real) == Pow(q, k) * Binomial(n - k, p, q, c)
  {
    hide Choose, Pow;
    Cancel(Choose(n, c), Choose(n - c, k), Choose(n, k), Choose(n - k, c), Pow(p, c), Pow(q, k), Pow(q, n - k - c));
  }

  lemma Cancel(a: int, b: int, d: int, e: int, x: real, y: real, z: real)
    requires d > 0 && a * b == d * e
    ensures a as real * x * (y * z) * (b as real / d as real) == y * (e as real * x * z)
  {
    ProductAsReal(a, b);
    ProductAsReal(d, e);
    var q := b as real / d as real;
    assert a as real * q == e as real by {
      assert q * d as real == b as real;
      assert (a as real * q - e as real) * d as real == 0.0;
    }
  }

  lemma TimesAdds(x: real, y: real, z: real)
    ensures Times(x, y) + Times(x, z) == Times(x, y + z)
    ensures Times(x, 1.0 - y) == x - Times(x, y) && Times(x, 0.0) == 0.0
  {
  }

  lemma MeanUnfolds(n: nat, k: nat, p: real, q: real, c: nat)
    requires k <= n && c <= n
    ensures MeanTo(n, k, p, q, c + 1) == MeanTo(n, k, p, q, c) + Times(Binomial(n, p, q, c), 1.0 - FailRatio(n, c, k))
  {
    hide Binomial, FailRatio;
  }

  lemma TermUnfolds(n: nat, k: nat, p: real, q: real, c: nat)
    requires k <= n && c <= n
    ensures MeanTo(n, k, p, q, c + 1) == MeanTo(n, k, p, q, c) + Binomial(n, p, q, c) -
                                        if c <= n - k then Times(Pow(q, k), Binomial(n - k, p, q, c)) else 0.0
  {
    FailTerm(n, k, p, q, c);
    TimesAdds(Binomial(n, p, q, c), FailRatio(n, c, k), 0.0);
    hide Binomial, Pow, Choose, FailRatio;
    hide Times;
    MeanUnfolds(n, k, p, q, c);
  }

  /** What the first `m` terms miss of the first `m` probabilities is the chance that `k` attempts fail,
      times probabilities for the other `n - k`. */
  lemma {:induction false} MeanSplits(n: nat, k: nat, p: real, q: real, m: nat)
    requires k <= n && m <= n + 1
    ensures MeanTo(n, k, p, q, m) == Mass(n, p, q, m) - Times(Pow(q, k), Mass(n - k, p, q, if m <= n - k + 1 then m else n - k + 1))
  {
    hide Binomial, Pow, Choose, Times;
    if m == 0 {
      TimesAdds(Pow(q, k), 0.0, 0.0);
    } else {
      var c := m - 1;
      MeanSplits(n, k, p, q, c);
      TermUnfolds(n, k, p, q, c);
      hide MeanTo;
      if c <= n - k {
        TimesAdds(Pow(q, k), Mass(n - k, p, q, c), Binomial(n - k, p, q, c));
      }
    }
  }

  /** Unbiased: over `n` attempts that each succeed with probability `p`, the estimate's expectation is
      the chance that at least one of `k` attempts succeeds. */
  lemma Unbiased(n: nat, k: nat, p: real)
    requires k <= n && 0.0 <= p <= 1.0
    ensures Mean(n, k, p, 1.0 - p) == 1.0 - Pow(1.0 - p, k)
  {
    var q := 1.0 - p;
    MeanSplits(n, k, p, q, n + 1);
    MassIsOne(n, p, q);
    MassIsOne(n - k, p, q);
  }
}
