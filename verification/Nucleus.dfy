/** Top-p sampling: the fast path over the 256 most probable tokens, the full sort it must agree with, and
    what both of them keep. Probabilities are exact. */
module Nucleus {
  import opened Seqs

  const TOP_K_FAST: nat := 256

  datatype Result<T> = Ok(value: T) | ValueError

  datatype Params = Params(temperature: real, topP: real)

  /** The two range checks on a sampler's parameters. */
  function NewParams(temperature: real, topP: real): (r: Result<Params>)
    ensures r.Ok? <==> temperature > 0.0 && 0.0 < topP <= 1.0
    ensures r.Ok? ==> r.value.temperature == temperature && r.value.topP == topP
  {
    if temperature <= 0.0 then ValueError
    else if !(0.0 < topP <= 1.0) then ValueError
    else Ok(Params(temperature, topP))
  }

  // ---------------------------------------------------------------- orders

  /** `idx` names `k` different tokens, most probable first, and no token left out is more probable than
      one of them. Which of several equally probable tokens comes first is open. */
  ghost predicate TopK(w: seq<real>, idx: seq<nat>, k: nat)
  {
    && |idx| == k && NoDup(idx)
    && (forall i {:trigger idx[i]} :: 0 <= i < k ==> idx[i] < |w|)
    && (forall i, j {:trigger idx[i], idx[j]} :: 0 <= i < j < k ==> w[idx[i]] >= w[idx[j]])
    && (forall t: nat, i {:trigger w[t], idx[i]} :: t < |w| && t !in idx && 0 <= i < k ==> w[t] <= w[idx[i]])
  }

  ghost function First(idx: seq<nat>, n: nat): (s: set<nat>)
    requires n <= |idx| && NoDup(idx)
    ensures |s| == n
    ensures forall t :: t in s <==> exists i :: 0 <= i < n && idx[i] == t
  {
    if n == 0 then {} else First(idx, n - 1) + {idx[n - 1]}
  }

  lemma Ordered(w: seq<real>, b: seq<nat>, i: nat, j: nat)
    requires TopK(w, b, |b|)
    ensures i <= j < |b| ==> w[b[i]] >= w[b[j]]
  {
  }

  /** A token stands before the i-th or is no more probable than it. */
  lemma EarlierOrLess(w: seq<real>, b: seq<nat>, i: nat, t: nat)
    requires TopK(w, b, |b|) && i < |b| && t < |w|
    ensures (exists l :: 0 <= l < i && b[l] == t) || w[t] <= w[b[i]]
  {
    if t in b {
      var l :| 0 <= l < |b| && b[l] == t;
      Ordered(w, b, i, l);
    }
  }

  /** In two such orders the i-th value cannot be larger in the first than in the second. */
  lemma NotLarger(w: seq<real>, a: seq<nat>, b: seq<nat>, i: nat)
    requires TopK(w, a, |a|) && TopK(w, b, |b|) && i < |a| && i < |b|
    ensures w[a[i]] <= w[b[i]]
  {
    if w[a[i]] > w[b[i]] {
      forall t | t in First(a, i + 1) ensures t in First(b, i) {
        var j :| 0 <= j < i + 1 && a[j] == t;
        Ordered(w, a, j, i);
        EarlierOrLess(w, b, i, t);
      }
      Smaller(First(a, i + 1), First(b, i));
    }
  }

  lemma Smaller(x: set<nat>, y: set<nat>)
    requires forall t :: t in x ==> t in y
    ensures |x| <= |y|
    decreases |x|
  {
    if x != {} {
      var t :| t in x;
      Smaller(x - {t}, y - {t});
    }
  }

  /** However ties are broken, the i-th largest probability is the same number. */
  lemma SameValues(w: seq<real>, a: seq<nat>, b: seq<nat>, i: nat)
    requires TopK(w, a, |a|) && TopK(w, b, |b|) && i < |a| && i < |b|
    ensures w[a[i]] == w[b[i]]
  {
    NotLarger(w, a, b, i);
    NotLarger(w, b, a, i);
  }

  // ---------------------------------------------------------------- the nucleus

  /** Probability held by the first `n` tokens of an order. */
  function Mass(w: seq<real>, idx: seq<nat>, n: nat): real
    requires n <= |idx| && forall i :: 0 <= i < |idx| ==> idx[i] < |w|
  {
    if n == 0 then 0.0 else Mass(w, idx, n - 1) + w[idx[n - 1]]
  }

  function SumOf(p: seq<real>): real
  {
    if p == [] then 0.0 else SumOf(p[..|p| - 1]) + p[|p| - 1]
  }

  function CumSum(p: seq<real>): (c: seq<real>)
    ensures |c| == |p|
  {
    if p == [] then [] else
      var c := CumSum(p[..|p| - 1]);
      c + [(if c == [] then 0.0 else c[|c| - 1]) + p[|p| - 1]]
  }

  function Gather(w: seq<real>, idx: seq<nat>): (p: seq<real>)
    requires forall i :: 0 <= i < |idx| ==> idx[i] < |w|
    ensures |p| == |idx| && forall i :: 0 <= i < |idx| ==> p[i] == w[idx[i]]
  {
    seq(|idx|, i requires 0 <= i < |idx| => w[idx[i]])
  }

  /** Zero out what lies past the smallest prefix reaching `topP`, without renormalising. */
  function Kept(p: seq<real>, cum: seq<real>, topP: real): (r: seq<real>)
    requires |cum| == |p|
    ensures |r| == |p|
  {
    seq(|p|, i requires 0 <= i < |p| => if cum[i] - p[i] < topP then p[i] else 0.0)
  }

  function Normalised(p: seq<real>): (r: seq<real>)
    requires SumOf(p) != 0.0
    ensures |r| == |p|
  {
    var total := SumOf(p);
    seq(|p|, i requires 0 <= i < |p| => p[i] / total)
  }

  function Cut(w: seq<real>, idx: seq<nat>, topP: real): seq<real>
    requires forall i :: 0 <= i < |idx| ==> idx[i] < |w|
  {
    Kept(Gather(w, idx), CumSum(Gather(w, idx)), topP)
  }

  datatype Choice = Choice(idx: seq<nat>, probs: seq<real>)

  /** The fast path is taken when the top tokens already hold `topP` of the mass, or are all there are. */
  function UsesFull(w: seq<real>, topP: real, top: seq<nat>): bool
    requires top != [] && forall i :: 0 <= i < |top| ==> top[i] < |w|
  {
    var cum := CumSum(Gather(w, top));
    cum[|cum| - 1] < topP && |top| < |w|
  }

  function Nucleus(w: seq<real>, topP: real, top: seq<nat>, full: seq<nat>): Choice
    requires top != [] && forall i :: 0 <= i < |top| ==> top[i] < |w|
    requires forall i :: 0 <= i < |full| ==> full[i] < |w|
    requires SumOf(Cut(w, if UsesFull(w, topP, top) then full else top, topP)) != 0.0
  {
    var idx := if UsesFull(w, topP, top) then full else top;
    Choice(idx, Normalised(Cut(w, idx, topP)))
  }

  // ---------------------------------------------------------------- what is kept

  ghost predicate Probabilities(w: seq<real>)
  {
    w != [] && (forall i :: 0 <= i < |w| ==> w[i] >= 0.0) && SumOf(w) == 1.0
  }

  lemma {:induction false} CumIsMass(w: seq<real>, idx: seq<nat>, n: nat)
    requires n <= |idx| && forall i :: 0 <= i < |idx| ==> idx[i] < |w|
    ensures forall i :: 0 <= i < n ==> CumSum(Gather(w, idx)[..n])[i] == Mass(w, idx, i + 1)
  {
    if n > 0 {
      CumIsMass(w, idx, n - 1);
      assert Gather(w, idx)[..n][..n - 1] == Gather(w, idx)[..n - 1];
    }
  }

  lemma {:induction false} MassMono(w: seq<real>, idx: seq<nat>, m: nat, n: nat)
    requires m <= n <= |idx| && (forall i :: 0 <= i < |idx| ==> idx[i] < |w|) && forall i :: 0 <= i < |w| ==> w[i] >= 0.0
    ensures Mass(w, idx, m) <= Mass(w, idx, n)
  {
    if m < n { MassMono(w, idx, m, n - 1); }
  }

  /** The size of the nucleus: the first `n` tokens reach `topP` and no shorter prefix does. */
  ghost predicate Shortest(w: seq<real>, idx: seq<nat>, topP: real, n: nat)
    requires forall i :: 0 <= i < |idx| ==> idx[i] < |w|
  {
    0 < n <= |idx| && Mass(w, idx, n) >= topP && Mass(w, idx, n - 1) < topP
  }

  lemma {:induction false} ShortestExists(w: seq<real>, idx: seq<nat>, topP: real, k: nat) returns (n: nat)
    requires (forall i :: 0 <= i < |idx| ==> idx[i] < |w|) && 0.0 < topP && k <= |idx| && Mass(w, idx, k) >= topP
    ensures Shortest(w, idx, topP, n) && n <= k
  {
    if Mass(w, idx, k - 1) >= topP {
      n := ShortestExists(w, idx, topP, k - 1);
    } else {
      n := k;
    }
  }

  lemma CutIsPrefix(w: seq<real>, idx: seq<nat>, topP: real, n: nat)
    requires (forall i :: 0 <= i < |idx| ==> idx[i] < |w|) && (forall i :: 0 <= i < |w| ==> w[i] >= 0.0)
    requires Shortest(w, idx, topP, n)
    ensures forall i :: 0 <= i < |idx| ==> Cut(w, idx, topP)[i] == if i < n then w[idx[i]] else 0.0
  {
    CumIsMass(w, idx, |idx|);
    assert Gather(w, idx)[..|idx|] == Gather(w, idx);
    forall i | 0 <= i < |idx| ensures Cut(w, idx, topP)[i] == if i < n then w[idx[i]] else 0.0 {
      if i < n { MassMono(w, idx, i, n - 1); } else { MassMono(w, idx, n, i); }
    }
  }

  lemma {:induction false} PrefixSum(w: seq<real>, idx: seq<nat>, p: seq<real>, n: nat)
    requires |p| <= |idx| && (forall i :: 0 <= i < |idx| ==> idx[i] < |w|)
    requires forall i :: 0 <= i < |p| ==> p[i] == if i < n then w[idx[i]] else 0.0
    ensures SumOf(p) == Mass(w, idx, if |p| <= n then |p| else n)
  {
    if p != [] { PrefixSum(w, idx, p[..|p| - 1], n); }
  }

  lemma {:induction false} SumScaled(p: seq<real>, r: seq<real>, total: real)
    requires |r| == |p| && total != 0.0 && forall i :: 0 <= i < |p| ==> r[i] == p[i] / total
    ensures SumOf(r) == SumOf(p) / total
  {
    if p != [] {
      var n := |p| - 1;
      SumScaled(p[..n], r[..n], total);
      DivAdds(SumOf(p[..n]), p[n], total);
    }
  }

  lemma DivAdds(x: real, y: real, d: real)
    requires d != 0.0
    ensures x / d + y / d == (x + y) / d
  {
  }

  // ---------------------------------------------------------------- the whole vocabulary holds mass one

  ghost function Below(n: nat): (s: set<nat>)
    ensures |s| == n && forall t: nat :: t in s <==> t < n
  {
    if n == 0 then {} else Below(n - 1) + {n - 1}
  }

  /** A full order lists every token. */
  lemma Occurs(b: seq<nat>, n: nat, t: nat) returns (m: nat)
    requires |b| == n && NoDup(b) && (forall i :: 0 <= i < n ==> b[i] < n) && t < n
    ensures m < n && b[m] == t
  {
    if t !in b {
      forall u | u in First(b, n) ensures u in Below(n) - {t} {
        assert u in b;
      }
      Smaller(First(b, n), Below(n) - {t});
      assert false;
    }
    m :| 0 <= m < n && b[m] == t;
  }

  lemma {:induction false} MassPrefix(w: seq<real>, idx: seq<nat>, v: seq<real>, jdx: seq<nat>, n: nat)
    requires n <= |idx| && n <= |jdx|
    requires (forall i :: 0 <= i < |idx| ==> idx[i] < |w|) && (forall i :: 0 <= i < |jdx| ==> jdx[i] < |v|)
    requires forall i :: 0 <= i < n ==> w[idx[i]] == v[jdx[i]]
    ensures Mass(w, idx, n) == Mass(v, jdx, n)
  {
    if n > 0 { MassPrefix(w, idx, v, jdx, n - 1); }
  }

  lemma {:induction false} MassRemove(w: seq<real>, idx: seq<nat>, l: nat, n: nat)
    requires l < n <= |idx| && forall i :: 0 <= i < |idx| ==> idx[i] < |w|
    ensures |RemoveAt(idx, l)| == |idx| - 1 && forall i :: 0 <= i < |idx| - 1 ==> RemoveAt(idx, l)[i] < |w|
    ensures Mass(w, idx, n) == Mass(w, RemoveAt(idx, l), n - 1) + w[idx[l]]
  {
    if n == l + 1 {
      MassPrefix(w, idx, w, RemoveAt(idx, l), l);
    } else {
      MassRemove(w, idx, l, n - 1);
    }
  }

  lemma {:induction false} MassOfAll(w: seq<real>, idx: seq<nat>)
    requires |idx| == |w| && NoDup(idx) && forall i :: 0 <= i < |idx| ==> idx[i] < |w|
    ensures Mass(w, idx, |w|) == SumOf(w)
  {
    if w != [] {
      var n := |w| - 1;
      var l := Occurs(idx, |w|, |w| - 1);
      var rest := RemoveAt(idx, l);
      MassRemove(w, idx, l, |w|);
      RestBelow(idx, l, n);
      MassOfAll(w[..n], rest);
      MassPrefix(w, rest, w[..n], rest, n);
    }
  }

  lemma RestBelow(idx: seq<nat>, l: nat, n: nat)
    requires |idx| == n + 1 && NoDup(idx) && l <= n && idx[l] == n && forall i :: 0 <= i < |idx| ==> idx[i] <= n
    ensures |RemoveAt(idx, l)| == n && NoDup(RemoveAt(idx, l)) && forall i :: 0 <= i < n ==> RemoveAt(idx, l)[i] < n
  {
    var rest := RemoveAt(idx, l);
    forall i | 0 <= i < n ensures rest[i] < n {
      var j := if i < l then i else i + 1;
      assert rest[i] == idx[j] && j != l;
    }
  }

  // ---------------------------------------------------------------- the theorems

  /** The inputs of `nucleus`: softmax probabilities, the result of a top-k selection of 256 (or of all, if
      there are fewer), and a full descending sort. */
  ghost predicate Inputs(w: seq<real>, topP: real, top: seq<nat>, full: seq<nat>)
  {
    && Probabilities(w) && 0.0 < topP <= 1.0
    && TopK(w, top, if TOP_K_FAST < |w| then TOP_K_FAST else |w|) && TopK(w, full, |w|)
  }

  lemma LastCum(w: seq<real>, top: seq<nat>)
    requires top != [] && forall i :: 0 <= i < |top| ==> top[i] < |w|
    ensures CumSum(Gather(w, top))[|top| - 1] == Mass(w, top, |top|)
  {
    CumIsMass(w, top, |top|);
    assert Gather(w, top)[..|top|] == Gather(w, top);
  }

  /** Every distribution has a shortest prefix that reaches `topP` and is not empty. */
  ghost predicate AlwaysHasNucleus(topP: real)
  {
    forall w, full {:trigger TopK(w, full, |w|)} :: Probabilities(w) && TopK(w, full, |w|) ==> exists n: nat :: Shortest(w, full, topP, n)
  }

  /** A logit as the sampler scales it. */
  function Scaled(logit: real, temperature: real): real
    requires temperature != 0.0
  {
    logit / temperature
  }

  /** Scaling by the temperature is defined, and what was likelier stays likelier. */
  ghost predicate KeepsOrder(temperature: real)
  {
    temperature != 0.0 &&
    forall x, y {:trigger Scaled(x, temperature), Scaled(y, temperature)} :: x < y ==> Scaled(x, temperature) < Scaled(y, temperature)
  }

  /** Zero does not scale at all, and a negative temperature turns the order round. */
  lemma SignDecides(temperature: real)
    ensures KeepsOrder(temperature) <==> temperature > 0.0
  {
    if temperature > 0.0 {
      forall x, y | x < y ensures Scaled(x, temperature) < Scaled(y, temperature) {
        Quotients(x, y, temperature);
      }
    } else if temperature < 0.0 {
      Quotients(0.0, 1.0, -temperature);
      assert Scaled(1.0, temperature) == -(1.0 / -temperature) && Scaled(0.0, temperature) == 0.0;
    }
  }

  lemma Quotients(x: real, y: real, t: real)
    requires t > 0.0 && x < y
    ensures x / t < y / t
  {
    var q := (y - x) / t;
    assert q * t == y - x;
    assert q > 0.0;
    assert y / t == x / t + q;
  }

  /** The ranges the sampler accepts are exactly right: its parameters pass the checks if and only if scaling
      by the temperature keeps the order of the logits and every distribution has a nucleus for `top_p`. */
  lemma RangeIsExact(temperature: real, topP: real)
    ensures NewParams(temperature, topP).Ok? <==> KeepsOrder(temperature) && AlwaysHasNucleus(topP)
  {
    SignDecides(temperature);
    hide KeepsOrder;
    if 0.0 < topP <= 1.0 {
      forall w, full | Probabilities(w) && TopK(w, full, |w|) ensures exists n: nat :: Shortest(w, full, topP, n) {
        MassOfAll(w, full);
        var n := ShortestExists(w, full, topP, |w|);
      }
    } else {
      var w, full: seq<nat> := [1.0], [0];
      assert w[..0] == [];
      assert Probabilities(w) && TopK(w, full, |w|);
      assert Mass(w, full, 1) == Mass(w, full, 0) + w[full[0]] == 1.0;
      forall n: nat ensures !Shortest(w, full, topP, n) {
        assert 0 < n <= |full| ==> n == 1;
      }
    }
  }

  /** Whichever order is used reaches `topP`, and no earlier than the full sort does. */
  lemma SameSize(w: seq<real>, topP: real, top: seq<nat>, full: seq<nat>, idx: seq<nat>) returns (n: nat)
    requires Inputs(w, topP, top, full) && top != [] && idx == if UsesFull(w, topP, top) then full else top
    ensures Shortest(w, idx, topP, n) && Shortest(w, full, topP, n)
    ensures forall i :: 0 <= i < n ==> w[idx[i]] == w[full[i]]
  {
    LastCum(w, top);
    MassOfAll(w, full);
    hide Mass, CumSum, Gather, SumOf;
    if UsesFull(w, topP, top) {
      n := ShortestExists(w, full, topP, |w|);
    } else {
      if |top| == |w| { MassOfAll(w, top); }
      n := ShortestExists(w, top, topP, |top|);
      SameFront(w, top, full, n);
      MassPrefix(w, top, w, full, n);
      MassPrefix(w, top, w, full, n - 1);
    }
  }

  lemma SameFront(w: seq<real>, top: seq<nat>, full: seq<nat>, n: nat)
    requires TopK(w, top, |top|) && TopK(w, full, |w|) && n <= |top| <= |w|
    ensures n <= |full| && forall i :: 0 <= i < n ==> w[top[i]] == w[full[i]]
  {
    forall i | 0 <= i < n ensures w[top[i]] == w[full[i]] {
      SameValues(w, top, full, i);
    }
  }

  /** Cutting an order to its nucleus and renormalising gives a distribution that is zero past the nucleus
      and proportional to the probabilities inside it. */
  lemma CutNormalises(w: seq<real>, idx: seq<nat>, topP: real, n: nat)
    requires (forall i :: 0 <= i < |idx| ==> idx[i] < |w|) && (forall i :: 0 <= i < |w| ==> w[i] >= 0.0)
    requires 0.0 < topP && Shortest(w, idx, topP, n)
    ensures |Cut(w, idx, topP)| == |idx| && SumOf(Cut(w, idx, topP)) == Mass(w, idx, n) > 0.0
    ensures SumOf(Normalised(Cut(w, idx, topP))) == 1.0
    ensures forall i :: 0 <= i < |idx| ==> Normalised(Cut(w, idx, topP))[i] == if i < n then w[idx[i]] / Mass(w, idx, n) else 0.0
  {
    CutIsPrefix(w, idx, topP, n);
    PrefixSum(w, idx, Cut(w, idx, topP), n);
    hide Cut, Mass;
    var p, total := Cut(w, idx, topP), Mass(w, idx, n);
    SumScaled(p, Normalised(p), total);
    SelfRatio(total);
    forall i | 0 <= i < |idx| ensures Normalised(p)[i] == if i < n then w[idx[i]] / total else 0.0 {
      ZeroOver(total);
    }
  }

  lemma SelfRatio(x: real)
    requires x > 0.0
    ensures x / x == 1.0
  {
  }

  lemma ZeroOver(x: real)
    requires x > 0.0
    ensures 0.0 / x == 0.0
  {
  }

  /** `r` keeps the shortest prefix of `idx` that reaches `topP`, renormalised, and nothing after it. */
  ghost predicate IsNucleus(w: seq<real>, topP: real, idx: seq<nat>, r: seq<real>, n: nat)
    requires forall i :: 0 <= i < |idx| ==> idx[i] < |w|
  {
    && Shortest(w, idx, topP, n) && Mass(w, idx, n) > 0.0 && |r| == |idx| && SumOf(r) == 1.0
    && forall i :: 0 <= i < |idx| ==> r[i] == if i < n then w[idx[i]] / Mass(w, idx, n) else 0.0
  }

  /** Both keep `n` tokens with the same probabilities, position by position, and the same tokens unless the
      last one kept ties with the first one dropped. */
  ghost predicate SameNucleus(w: seq<real>, topP: real, r: Choice, ref: Choice, n: nat)
  {
    && (forall i :: 0 <= i < |r.idx| ==> r.idx[i] < |w|) && (forall i :: 0 <= i < |ref.idx| ==> ref.idx[i] < |w|)
    && IsNucleus(w, topP, r.idx, r.probs, n) && IsNucleus(w, topP, ref.idx, ref.probs, n)
    && (forall i :: 0 <= i < n ==> r.probs[i] == ref.probs[i] && w[r.idx[i]] == w[ref.idx[i]])
    && (n == |ref.idx| || w[ref.idx[n - 1]] > w[ref.idx[n]] ==> forall t :: t in r.idx[..n] <==> t in ref.idx[..n])
  }

  /** The inputs are such that the function is defined, and the full-sort reference too. */
  lemma Defined(w: seq<real>, topP: real, top: seq<nat>, full: seq<nat>)
    requires Inputs(w, topP, top, full)
    ensures top != [] && SumOf(Cut(w, if UsesFull(w, topP, top) then full else top, topP)) > 0.0 && SumOf(Cut(w, full, topP)) > 0.0
  {
    var n := SameSize(w, topP, top, full, if UsesFull(w, topP, top) then full else top);
    CutNormalises(w, if UsesFull(w, topP, top) then full else top, topP, n);
    CutNormalises(w, full, topP, n);
  }

  /** The fast path is exact. Whether or not the top 256 suffice, the result keeps the shortest prefix of a
      descending order whose mass reaches `topP` (never none), renormalised to sum to one; the full-sort
      reference keeps equally many, with the same probability at each position; and where the last token
      kept is strictly more probable than the first one dropped, it keeps the same set of tokens. */
  lemma NucleusExact(w: seq<real>, topP: real, top: seq<nat>, full: seq<nat>) returns (n: nat)
    requires Inputs(w, topP, top, full)
    requires top != [] && SumOf(Cut(w, if UsesFull(w, topP, top) then full else top, topP)) > 0.0 && SumOf(Cut(w, full, topP)) > 0.0
    ensures SameNucleus(w, topP, Nucleus(w, topP, top, full), Choice(full, Normalised(Cut(w, full, topP))), n)
  {
    hide Cut, Mass, Normalised, SumOf, UsesFull, SameNucleus, Shortest;
    var idx := if UsesFull(w, topP, top) then full else top;
    n := SameSize(w, topP, top, full, idx);
    Conclude(w, topP, idx, full, n);
  }

  lemma Conclude(w: seq<real>, topP: real, idx: seq<nat>, full: seq<nat>, n: nat)
    requires (forall i :: 0 <= i < |w| ==> w[i] >= 0.0) && 0.0 < topP
    requires TopK(w, idx, |idx|) && TopK(w, full, |w|) && Shortest(w, idx, topP, n) && Shortest(w, full, topP, n)
    requires forall i :: 0 <= i < n ==> w[idx[i]] == w[full[i]]
    ensures SumOf(Cut(w, idx, topP)) > 0.0 && SumOf(Cut(w, full, topP)) > 0.0
    ensures SameNucleus(w, topP, Choice(idx, Normalised(Cut(w, idx, topP))), Choice(full, Normalised(Cut(w, full, topP))), n)
  {
    hide Cut, Mass, Normalised, SumOf, IsNucleus;
    Agree(w, topP, idx, full, n);
    if n == |full| || w[full[n - 1]] > w[full[n]] {
      SameTokens(w, idx, full, n);
    }
  }

  lemma CutIsNucleus(w: seq<real>, idx: seq<nat>, topP: real, n: nat)
    requires (forall i :: 0 <= i < |idx| ==> idx[i] < |w|) && (forall i :: 0 <= i < |w| ==> w[i] >= 0.0)
    requires 0.0 < topP && Shortest(w, idx, topP, n)
    ensures SumOf(Cut(w, idx, topP)) > 0.0 && IsNucleus(w, topP, idx, Normalised(Cut(w, idx, topP)), n)
  {
    CutNormalises(w, idx, topP, n);
    hide Cut, Mass, SumOf;
  }

  /** Two orders that reach `topP` after equally many equally probable tokens give the same distribution. */
  lemma Agree(w: seq<real>, topP: real, idx: seq<nat>, full: seq<nat>, n: nat)
    requires (forall i :: 0 <= i < |w| ==> w[i] >= 0.0) && 0.0 < topP
    requires (forall i :: 0 <= i < |idx| ==> idx[i] < |w|) && (forall i :: 0 <= i < |full| ==> full[i] < |w|)
    requires Shortest(w, idx, topP, n) && Shortest(w, full, topP, n)
    requires forall i :: 0 <= i < n ==> w[idx[i]] == w[full[i]]
    ensures SumOf(Cut(w, idx, topP)) > 0.0 && SumOf(Cut(w, full, topP)) > 0.0
    ensures var p, q := Normalised(Cut(w, idx, topP)), Normalised(Cut(w, full, topP));
            && IsNucleus(w, topP, idx, p, n) && IsNucleus(w, topP, full, q, n)
            && forall i :: 0 <= i < n ==> p[i] == q[i]
  {
    CutIsNucleus(w, idx, topP, n);
    CutIsNucleus(w, full, topP, n);
    MassPrefix(w, idx, w, full, n);
    hide Cut, Mass, Normalised, SumOf;
  }

  lemma FirstIsPrefix(idx: seq<nat>, n: nat)
    requires n <= |idx| && NoDup(idx)
    ensures forall t :: t in First(idx, n) <==> t in idx[..n]
  {
    forall t ensures t in First(idx, n) <==> t in idx[..n] {
      if t in idx[..n] {
        var i :| 0 <= i < n && idx[..n][i] == t;
        assert idx[i] == t;
      }
      if t in First(idx, n) {
        var i :| 0 <= i < n && idx[i] == t;
        assert idx[..n][i] == t;
      }
    }
  }

  lemma SameSet(x: set<nat>, y: set<nat>)
    requires |x| == |y| && forall t :: t in x ==> t in y
    ensures forall t :: t in x <==> t in y
  {
    Smaller(y - x, {});
  }

  lemma SameTokens(w: seq<real>, a: seq<nat>, b: seq<nat>, n: nat)
    requires TopK(w, a, |a|) && TopK(w, b, |w|) && 0 < n <= |a| && n <= |b|
    requires forall i :: 0 <= i < n ==> w[a[i]] == w[b[i]]
    requires n == |b| || w[b[n - 1]] > w[b[n]]
    ensures forall t :: t in a[..n] <==> t in b[..n]
  {
    Into(w, a, b, n);
    FirstIsPrefix(a, n);
    FirstIsPrefix(b, n);
    SameSet(First(a, n), First(b, n));
  }

  lemma Into(w: seq<real>, a: seq<nat>, b: seq<nat>, n: nat)
    requires TopK(w, a, |a|) && TopK(w, b, |w|) && 0 < n <= |a| && n <= |b|
    requires forall i :: 0 <= i < n ==> w[a[i]] == w[b[i]]
    requires n == |b| || w[b[n - 1]] > w[b[n]]
    ensures forall t :: t in a[..n] ==> t in b[..n]
  {
    forall t | t in a[..n] ensures t in b[..n] {
      var i :| 0 <= i < n && a[..n][i] == t;
      assert a[i] == t && w[t] == w[b[i]];
      StandsWithin(w, b, n, i, t);
    }
  }

  /** A token as probable as one of the first `n`, all of them likelier than the rest, is one of them. */
  lemma StandsWithin(w: seq<real>, b: seq<nat>, n: nat, i: nat, t: nat)
    requires TopK(w, b, |w|) && i < n <= |b| && t < |w| && w[t] == w[b[i]] && (n == |b| || w[b[n - 1]] > w[b[n]])
    ensures t in b[..n]
  {
    var m := Occurs(b, |w|, t);
    Ordered(w, b, i, n - 1);
    Ordered(w, b, n, m);
    assert b[..n][m] == t;
  }
}
