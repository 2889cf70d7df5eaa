/** What one request alone would generate, first as a cache-free definition and then as the
    single-sequence loop over a contiguous KV cache. */
module Reference {
  import opened Seqs
  import opened Transformer

  /** Everything that decides one request's output. */
  datatype Job = Job(prompt: seq<Token>, maxNew: int, ignoreEos: bool)

  /** The stop test of the reference loop, applied to the output including the newest token. */
  predicate Stops(job: Job, maxContext: nat, eos: set<Token>, out: seq<Token>)
    requires out != []
  {
    || |out| >= job.maxNew
    || |job.prompt| + |out| >= maxContext
    || (out[|out| - 1] in eos && !job.ignoreEos)
  }

  /** Generation resumed after `out`, with no cache: every token is a function of the whole sequence. */
  ghost function Continue(net: Network, job: Job, maxContext: nat, eos: set<Token>, out: seq<Token>, smp: Option<Sampler>): (r: seq<Token>)
    requires job.prompt != []
    ensures |r| > |out| && r[..|out|] == out
    decreases maxContext - |job.prompt| - |out|
  {
    var (tok, smp') := Pick(net, smp, Logits(net, job.prompt + out));
    var out' := out + [tok];
    if Stops(job, maxContext, eos, out') then out' else Continue(net, job, maxContext, eos, out', smp')
  }

  /** The next `n` draws after `out`, stop tests aside: the tokens, and the state the request's own generator
      is left in. Each token takes exactly one draw. */
  ghost function Draws(net: Network, prompt: seq<Token>, out: seq<Token>, smp: Option<Sampler>, n: nat): (r: (seq<Token>, Option<Sampler>))
    requires prompt != []
    ensures |r.0| == |out| + n
    decreases n
  {
    if n == 0 then (out, smp) else
      var (tok, smp') := Pick(net, smp, Logits(net, prompt + out));
      Draws(net, prompt, out + [tok], smp', n - 1)
  }

  lemma {:induction false} DrawsAdd(net: Network, prompt: seq<Token>, out: seq<Token>, smp: Option<Sampler>, m: nat, n: nat)
    requires prompt != []
    ensures var d := Draws(net, prompt, out, smp, m);
            Draws(net, prompt, out, smp, m + n) == Draws(net, prompt, d.0, d.1, n)
    decreases m
  {
    if m > 0 {
      var (tok, smp') := Pick(net, smp, Logits(net, prompt + out));
      DrawsAdd(net, prompt, out + [tok], smp', m - 1, n);
    }
  }

  /** A job left to itself says as many tokens as its budget allows, at least one; exactly as many if nothing
      else may stop it. */
  lemma {:induction false} ContinueLength(net: Network, job: Job, maxContext: nat, eos: set<Token>, out: seq<Token>, smp: Option<Sampler>)
    requires job.prompt != [] && |out| < (if job.maxNew < 1 then 1 else job.maxNew)
    ensures var n := if job.maxNew < 1 then 1 else job.maxNew; var r := Continue(net, job, maxContext, eos, out, smp);
            |r| <= n && (job.ignoreEos && |job.prompt| + n <= maxContext ==> |r| == n)
    decreases maxContext - |job.prompt| - |out|
  {
    var (tok, smp') := Pick(net, smp, Logits(net, job.prompt + out));
    if !Stops(job, maxContext, eos, out + [tok]) {
      ContinueLength(net, job, maxContext, eos, out + [tok], smp');
    }
  }

  // ---------------------------------------------------------------- draw by draw

  lemma PickDraws(net: Network, smp: Option<Sampler>, lg: Vec, tok: Token, next: Option<Sampler>)
    ensures Drawn(net, smp, lg, tok, next) <==> (tok, next) == Pick(net, smp, lg)
  {
  }

  /** `gs` are the states the request's generator goes through while saying `out`, one draw per token, each on
      the logits of everything before it. */
  ghost predicate TraceOf(net: Network, prompt: seq<Token>, out: seq<Token>, smp: Option<Sampler>, end: Option<Sampler>, gs: seq<Option<Sampler>>)
    requires prompt != []
  {
    && |gs| == |out| + 1 && gs[0] == smp && gs[|out|] == end
    && forall i {:trigger out[i]} :: 0 <= i < |out| ==> Drawn(net, gs[i], Logits(net, prompt + out[..i]), out[i], gs[i + 1])
  }

  ghost predicate Traced(net: Network, prompt: seq<Token>, out: seq<Token>, smp: Option<Sampler>, end: Option<Sampler>)
    requires prompt != []
  {
    exists gs :: TraceOf(net, prompt, out, smp, end, gs)
  }

  lemma DrawsOneMore(net: Network, prompt: seq<Token>, smp: Option<Sampler>, n: nat)
    requires prompt != []
    ensures var (out, g) := Draws(net, prompt, [], smp, n); var (tok, g') := Pick(net, g, Logits(net, prompt + out));
            Draws(net, prompt, [], smp, n + 1) == (out + [tok], g')
  {
    DrawsAdd(net, prompt, [], smp, n, 1);
    var (out, g) := Draws(net, prompt, [], smp, n);
    var (tok, g') := Pick(net, g, Logits(net, prompt + out));
    assert Draws(net, prompt, out, g, 1) == Draws(net, prompt, out + [tok], g', 0);
  }

  lemma TraceOneMore(net: Network, prompt: seq<Token>, out: seq<Token>, smp: Option<Sampler>, end: Option<Sampler>, gs: seq<Option<Sampler>>,
                     tok: Token, next: Option<Sampler>)
    requires prompt != [] && TraceOf(net, prompt, out, smp, end, gs) && Drawn(net, end, Logits(net, prompt + out), tok, next)
    ensures TraceOf(net, prompt, out + [tok], smp, next, gs + [next])
  {
    var longer := out + [tok];
    hide Drawn;
    forall i | 0 <= i < |longer| ensures Drawn(net, (gs + [next])[i], Logits(net, prompt + longer[..i]), longer[i], (gs + [next])[i + 1]) {
      assert longer[..i] == out[..i];
      if i < |out| { var _ := out[i]; } else { assert out[..i] == out; }
    }
  }

  lemma {:induction false} DrawsTraced(net: Network, prompt: seq<Token>, smp: Option<Sampler>, n: nat)
    requires prompt != []
    ensures Traced(net, prompt, Draws(net, prompt, [], smp, n).0, smp, Draws(net, prompt, [], smp, n).1)
  {
    if n == 0 {
      assert TraceOf(net, prompt, [], smp, smp, [smp]);
    } else {
      hide Draws, Drawn, TraceOf;
      DrawsTraced(net, prompt, smp, n - 1);
      DrawsOneMore(net, prompt, smp, n - 1);
      var (out, g) := Draws(net, prompt, [], smp, n - 1);
      var (tok, g') := Pick(net, g, Logits(net, prompt + out));
      var gs :| TraceOf(net, prompt, out, smp, g, gs);
      PickDraws(net, g, Logits(net, prompt + out), tok, g');
      TraceOneMore(net, prompt, out, smp, g, gs, tok, g');
    }
  }

  lemma {:induction false} TraceIsDraws(net: Network, prompt: seq<Token>, out: seq<Token>, smp: Option<Sampler>, end: Option<Sampler>, gs: seq<Option<Sampler>>)
    requires prompt != [] && TraceOf(net, prompt, out, smp, end, gs)
    ensures Draws(net, prompt, [], smp, |out|) == (out, end)
    decreases |out|
  {
    if out != [] {
      var n := |out| - 1;
      var before := out[..n];
      hide Drawn, Draws;
      TracePrefix(net, prompt, out, smp, end, gs, n);
      TraceIsDraws(net, prompt, before, smp, gs[n], gs[..n + 1]);
      DrawsOneMore(net, prompt, smp, n);
      assert Drawn(net, gs[n], Logits(net, prompt + out[..n]), out[n], gs[n + 1]);
      PickDraws(net, gs[n], Logits(net, prompt + before), out[n], end);
      assert out == before + [out[n]];
    }
  }

  lemma TracePrefix(net: Network, prompt: seq<Token>, out: seq<Token>, smp: Option<Sampler>, end: Option<Sampler>, gs: seq<Option<Sampler>>, n: nat)
    requires prompt != [] && TraceOf(net, prompt, out, smp, end, gs) && n <= |out|
    ensures TraceOf(net, prompt, out[..n], smp, gs[n], gs[..n + 1])
  {
    hide Drawn;
    forall i | 0 <= i < n ensures Drawn(net, gs[..n + 1][i], Logits(net, prompt + out[..n][..i]), out[..n][i], gs[..n + 1][i + 1]) {
      assert out[..n][..i] == out[..i];
      var _ := out[i];
    }
  }

  /** `Draws` is exactly this: one draw per token, each from the state the one before left behind. */
  lemma TracedIff(net: Network, prompt: seq<Token>, out: seq<Token>, smp: Option<Sampler>, end: Option<Sampler>)
    requires prompt != []
    ensures Traced(net, prompt, out, smp, end) <==> Draws(net, prompt, [], smp, |out|) == (out, end)
  {
    hide TraceOf, Draws;
    if Traced(net, prompt, out, smp, end) {
      var gs :| TraceOf(net, prompt, out, smp, end, gs);
      TraceIsDraws(net, prompt, out, smp, end, gs);
    }
    if Draws(net, prompt, [], smp, |out|) == (out, end) {
      DrawsTraced(net, prompt, smp, |out|);
    }
  }

  ghost function Generate(net: Network, job: Job, maxContext: nat, eos: set<Token>, smp: Option<Sampler>): seq<Token>
    requires job.prompt != []
  {
    Continue(net, job, maxContext, eos, [], smp)
  }

  lemma {:induction false} ContinueStops(net: Network, job: Job, maxContext: nat, eos: set<Token>, out: seq<Token>, smp: Option<Sampler>)
    requires job.prompt != []
    ensures var r := Continue(net, job, maxContext, eos, out, smp);
            && Stops(job, maxContext, eos, r) && (forall n :: |out| < n < |r| ==> !Stops(job, maxContext, eos, r[..n]))
            && r == Draws(net, job.prompt, out, smp, |r| - |out|).0
    decreases maxContext - |job.prompt| - |out|
  {
    var (tok, smp') := Pick(net, smp, Logits(net, job.prompt + out));
    var r := Continue(net, job, maxContext, eos, out, smp);
    if !Stops(job, maxContext, eos, out + [tok]) {
      ContinueStops(net, job, maxContext, eos, out + [tok], smp');
      forall n | |out| < n < |r| ensures !Stops(job, maxContext, eos, r[..n]) {
        if n == |out| + 1 { assert r[..n] == out + [tok]; }
      }
    } else {
      assert Draws(net, job.prompt, out, smp, 1) == Draws(net, job.prompt, out + [tok], smp', 0);
    }
  }

  /** After the `n`-th token there is budget and context left, and the text has not ended or may not. */
  predicate MoreToSay(job: Job, maxContext: nat, eos: set<Token>, r: seq<Token>, n: nat)
    requires n < |r|
  {
    n + 1 < job.maxNew && |job.prompt| + n + 1 < maxContext && (r[n] in eos ==> job.ignoreEos)
  }

  /** `r` ends with the first token at which the budget is spent, the context is full, or the text ends and
      may end. */
  ghost predicate EndsThere(job: Job, maxContext: nat, eos: set<Token>, r: seq<Token>)
  {
    r != [] && forall n: nat {:trigger MoreToSay(job, maxContext, eos, r, n)} :: n < |r| ==> (MoreToSay(job, maxContext, eos, r, n) <==> n < |r| - 1)
  }

  lemma StopsThere(job: Job, maxContext: nat, eos: set<Token>, r: seq<Token>)
    requires r != [] && Stops(job, maxContext, eos, r) && forall n :: 0 < n < |r| ==> !Stops(job, maxContext, eos, r[..n])
    ensures EndsThere(job, maxContext, eos, r)
  {
    forall n: nat | n < |r| ensures MoreToSay(job, maxContext, eos, r, n) <==> n < |r| - 1 {
      if n < |r| - 1 { assert !Stops(job, maxContext, eos, r[..n + 1]); }
    }
  }

  /** What a request says on its own: it is said draw by draw, and ends where the job says. */
  lemma GenerateExact(net: Network, job: Job, maxContext: nat, eos: set<Token>, smp: Option<Sampler>)
    requires job.prompt != []
    ensures var r := Generate(net, job, maxContext, eos, smp);
            EndsThere(job, maxContext, eos, r) && exists end :: Traced(net, job.prompt, r, smp, end)
  {
    var r := Generate(net, job, maxContext, eos, smp);
    ContinueStops(net, job, maxContext, eos, [], smp);
    StopsThere(job, maxContext, eos, r);
    DrawsTraced(net, job.prompt, smp, |r|);
  }

  /** Admission caps the budget at the last usable position and then tests the budget alone; the
      reference tests the context limit at every token. Both stop at the same token. */
  lemma {:induction false} CapAgrees(net: Network, job: Job, maxContext: nat, eos: set<Token>, out: seq<Token>, smp: Option<Sampler>)
    requires job.prompt != []
    ensures var cap := maxContext - |job.prompt|;
            Continue(net, job, maxContext, eos, out, smp) ==
            Continue(net, job.(maxNew := if cap < job.maxNew then cap else job.maxNew), maxContext, eos, out, smp)
    decreases maxContext - |job.prompt| - |out|
  {
    var (tok, smp') := Pick(net, smp, Logits(net, job.prompt + out));
    if !Stops(job, maxContext, eos, out + [tok]) {
      CapAgrees(net, job, maxContext, eos, out + [tok], smp');
    }
  }

  /** One sequence's cache: a K/V pair per layer and position. */
  class ContiguousKVCache {
    const layers: nat
    const maxLen: nat
    const data: array2<KV>

    ghost predicate Shape()
    {
      data.Length0 == layers && data.Length1 == maxLen
    }

    constructor (layers: nat, maxLen: nat)
      ensures Shape() && fresh(data) && this.layers == layers && this.maxLen == maxLen
    {
      this.layers, this.maxLen := layers, maxLen;
      data := new KV[layers, maxLen]((l, p) => KV([], []));
    }

    /** Layers `lo` to `hi` hold the entries of the first `n` tokens of `t`. */
    ghost predicate Holds(net: Network, lo: nat, hi: nat, t: seq<Token>, n: nat)
      requires Shape() && hi <= layers
      reads data
    {
      n <= |t| && n <= maxLen && forall m: nat, j: nat :: lo <= m < hi && j < n ==> data[m, j] == Entry(net, t, m, j)
    }

    method Write(l: nat, start: nat, kv: seq<KV>)
      requires Shape() && l < layers && start + |kv| <= maxLen
      modifies data
      ensures forall m: nat, j: nat :: m < layers && j < maxLen ==>
                data[m, j] == if m == l && start <= j < start + |kv| then kv[j - start] else old(data[m, j])
    {
      for i := 0 to |kv|
        invariant forall m: nat, j: nat :: m < layers && j < maxLen ==>
                    data[m, j] == if m == l && start <= j < start + i then kv[j - start] else old(data[m, j])
      {
        data[l, start + i] := kv[i];
      }
    }

    function Read(l: nat, n: nat): (r: seq<KV>)
      requires Shape() && l < layers && n <= maxLen
      reads data
      ensures |r| == n && forall j :: 0 <= j < n ==> r[j] == data[l, j]
    {
      seq(n, j requires 0 <= j < n reads data => data[l, j])
    }
  }

  /** The keys column `t` of a single sequence attends to: causal within a prefill, all of them for a
      single decode token. */
  function Visible(isCausal: bool, t: nat, keys: seq<KV>): seq<KV>
    requires t < |keys|
  {
    if isCausal then keys[..t + 1] else keys
  }

  /** Store the K/V of the tokens fed at one layer. */
  method StoreLayer(net: Network, cache: ContiguousKVCache, l: nat, start: nat, x: seq<Vec>, ghost full: seq<Token>)
    requires cache.Shape() && l < net.layers == cache.layers && |full| == start + |x| <= cache.maxLen
    requires forall t: nat :: t < |x| ==> x[t] == Hidden(net, full, l, start + t)
    requires cache.Holds(net, l, l + 1, full, start)
    modifies cache.data
    ensures cache.Holds(net, l, l + 1, full, |full|)
    ensures forall m: nat, j: nat :: m < cache.layers && j < cache.maxLen && m != l ==> cache.data[m, j] == old(cache.data[m, j])
  {
    cache.Write(l, start, seq(|x|, t requires 0 <= t < |x| => net.project(l, x[t])));
  }

  lemma ReadEntries(net: Network, cache: ContiguousKVCache, l: nat, full: seq<Token>, keys: seq<KV>)
    requires cache.Shape() && l < cache.layers && cache.Holds(net, l, l + 1, full, |full|) && keys == cache.Read(l, |full|)
    ensures keys == Entries(net, full, l, |full|)
  {
  }

  /** What a column sees is its own prefix: causally within a prefill, or everything as the last token. */
  lemma SeesPrefix(net: Network, full: seq<Token>, l: nat, keys: seq<KV>, start: nat, n: nat, t: nat)
    requires keys == Entries(net, full, l, |full|) && t < n && |full| == start + n && (start == 0 || n == 1)
    ensures t < |keys| && Visible(n > 1, t, keys) == Entries(net, full, l, start + t + 1)
  {
  }

  method SingleLayer(net: Network, cache: ContiguousKVCache, l: nat, start: nat, x: seq<Vec>, ghost full: seq<Token>)
    returns (y: seq<Vec>)
    requires cache.Shape() && l < net.layers == cache.layers
    requires x != [] && |full| == start + |x| <= cache.maxLen && (start == 0 || |x| == 1)
    requires forall t: nat :: t < |x| ==> x[t] == Hidden(net, full, l, start + t)
    requires cache.Holds(net, l, l + 1, full, start)
    modifies cache.data
    ensures |y| == |x| && forall t: nat :: t < |x| ==> y[t] == Hidden(net, full, l + 1, start + t)
    ensures cache.Holds(net, l, l + 1, full, |full|)
    ensures forall m: nat, j: nat :: m < cache.layers && j < cache.maxLen && m != l ==> cache.data[m, j] == old(cache.data[m, j])
  {
    StoreLayer(net, cache, l, start, x, full);
    var keys := cache.Read(l, start + |x|);
    ReadEntries(net, cache, l, full, keys);
    y := AttendSingle(net, l, start, x, keys, full);
  }

  /** Every token fed attends to its own prefix. */
  method AttendSingle(net: Network, l: nat, start: nat, x: seq<Vec>, keys: seq<KV>, ghost full: seq<Token>) returns (y: seq<Vec>)
    requires keys == Entries(net, full, l, |full|) && |full| == start + |x| && (start == 0 || |x| == 1)
    requires forall t: nat :: t < |x| ==> x[t] == Hidden(net, full, l, start + t)
    ensures |y| == |x| && forall t: nat :: t < |x| ==> y[t] == Hidden(net, full, l + 1, start + t)
  {
    y := [];
    for t := 0 to |x|
      invariant |y| == t
      invariant forall k: nat :: k < t ==> y[k] == Hidden(net, full, l + 1, start + k)
    {
      SeesPrefix(net, full, l, keys, start, |x|, t);
      y := y + [net.attend(l, x[t], Visible(|x| > 1, t, keys))];
    }
  }

  /** Forward for one sequence: stores K/V for the tokens fed and returns the last token's logits. */
  method ForwardSingle(net: Network, ids: seq<Token>, start: nat, cache: ContiguousKVCache, ghost full: seq<Token>)
    returns (logits: Vec)
    requires cache.Shape() && net.layers == cache.layers
    requires ids != [] && |full| == start + |ids| <= cache.maxLen && full[start..] == ids && (start == 0 || |ids| == 1)
    requires cache.Holds(net, 0, net.layers, full, start)
    modifies cache.data
    ensures logits == Logits(net, full)
    ensures cache.Holds(net, 0, net.layers, full, |full|)
  {
    var x := seq(|ids|, t requires 0 <= t < |ids| => net.embed(ids[t], start + t));
    assert forall t: nat :: t < |x| ==> ids[t] == full[start + t];
    var l := 0;
    while l < net.layers
      invariant l <= net.layers && |x| == |ids|
      invariant forall t: nat :: t < |x| ==> x[t] == Hidden(net, full, l, start + t)
      invariant cache.Holds(net, 0, l, full, |full|)
      invariant cache.Holds(net, l, net.layers, full, start)
    {
      x := SingleLayer(net, cache, l, start, x, full);
      l := l + 1;
    }
    logits := net.logits(x[|ids| - 1]);
  }

  /** Entries cached for a sequence stay right when it grows. */
  lemma HoldsGrown(net: Network, cache: ContiguousKVCache, t: seq<Token>, tok: Token)
    requires cache.Shape() && net.layers == cache.layers
    requires cache.Holds(net, 0, net.layers, t, |t|)
    ensures cache.Holds(net, 0, net.layers, t + [tok], |t|)
  {
    forall m: nat, j: nat | m < net.layers && j < |t| ensures Entry(net, t, m, j) == Entry(net, t + [tok], m, j) {
      assert t[..j + 1] == (t + [tok])[..j + 1];
      Causal(net, t, t + [tok], m, j);
    }
  }

  /** The golden reference loop computes `Generate` for a greedy request. */
  method GenerateCached(net: Network, job: Job, maxContext: nat, eos: set<Token>) returns (out: seq<Token>)
    requires 0 < |job.prompt| <= maxContext
    ensures out == Generate(net, job, maxContext, eos, None)
  {
    var cache := new ContiguousKVCache(net.layers, maxContext);
    out := [];
    var logits := ForwardSingle(net, job.prompt, 0, cache, job.prompt);
    assert job.prompt + [] == job.prompt;
    while true
      invariant |job.prompt| + |out| <= maxContext
      invariant logits == Logits(net, job.prompt + out)
      invariant cache.Holds(net, 0, net.layers, job.prompt + out, |job.prompt + out|)
      invariant Generate(net, job, maxContext, eos, None) == Continue(net, job, maxContext, eos, out, None)
      decreases maxContext - |job.prompt| - |out|
    {
      var next := net.argmax(logits);
      ghost var before := job.prompt + out;
      out := out + [next];
      assert job.prompt + out == before + [next];
      var seqLen := |job.prompt| + |out|;
      if |out| >= job.maxNew || seqLen >= maxContext {
        break;
      }
      if next in eos && !job.ignoreEos {
        break;
      }
      HoldsGrown(net, cache, before, next);
      logits := ForwardSingle(net, [next], seqLen - 1, cache, job.prompt + out);
    }
  }
}
