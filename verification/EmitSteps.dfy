/** One forward step seen row by row: the emission loops say what the specification says, and the K/V
    pool then holds what the next step needs. */
module EmitSteps {
  import opened Seqs
  import opened Transformer
  import opened Cache
  import opened ModelRunner
  import opened Requests
  import opened Alloc
  import opened Invariant
  import opened StepSafety
  import opened SchedulerCache
  import Spec = SchedulerSpec

  // ---------------------------------------------------------------- tokens for a batch

  /** The tokens drawn for the rows `hs`, in order. */
  ghost predicate PickedFor(c: Spec.Config, reqs: seq<Req>, hs: seq<nat>, toks: seq<Token>, smps: seq<Option<Sampler>>)
  {
    |toks| == |smps| == |hs| &&
    forall i {:trigger hs[i]} {:trigger toks[i]} {:trigger smps[i]} :: 0 <= i < |hs| ==> hs[i] < |reqs| && Picked(c, reqs[hs[i]], toks[i], smps[i])
  }

  /** After the forward step: the rows fed have their whole sequence cached, the other running rows have
      what they had. */
  ghost predicate Advanced(c: Spec.Config, pool: KVPool, reqs: seq<Req>, hs: seq<nat>)
    requires pool.Shape() && c.net.layers <= pool.layers
    reads pool.data
  {
    && (forall i {:trigger hs[i]} :: 0 <= i < |hs| ==> hs[i] < |reqs| && Cached(c.net, pool, reqs[hs[i]].table, Full(reqs[hs[i]]), |Full(reqs[hs[i]])|))
    && (forall g {:trigger RowCached(c, pool, reqs[g])} :: 0 <= g < |reqs| && g !in hs && reqs[g].state == Running ==> RowCached(c, pool, reqs[g]))
  }

  method RunBatch(c: Spec.Config, pool: KVPool, ghost m: Memory, ghost reqs: seq<Req>, ghost hs: seq<nat>,
                  lists: seq<seq<Token>>, starts: seq<nat>, tables: seq<seq<nat>>, samplers: seq<Option<Sampler>>)
    returns (toks: seq<Token>, smps: seq<Option<Sampler>>)
    requires PoolFits(c, pool, m) && Rowable(c, pool, m, reqs, hs, starts) && AllCached(c, pool, reqs)
    requires |lists| == |tables| == |samplers| == |hs|
    requires forall i :: 0 <= i < |hs| ==> lists[i] == Suffix(Full(reqs[hs[i]]), starts[i])
    requires forall i :: 0 <= i < |hs| ==> tables[i] == reqs[hs[i]].table && samplers[i] == reqs[hs[i]].sampler
    modifies pool.data
    ensures PickedFor(c, reqs, hs, toks, smps) && |toks| == |smps| == |hs| && Advanced(c, pool, reqs, hs)
  {
    assert forall g {:trigger RowCached(c, pool, reqs[g])} :: 0 <= g < |reqs| && reqs[g].state == Running ==> RowCached(c, pool, reqs[g]);
    toks, smps := RunRows(c, pool, m, reqs, hs, lists, starts, tables, samplers);
  }

  // ---------------------------------------------------------------- prefill

  ghost predicate PrefillsTo(c: Spec.Config, t: Spec.State, hs: seq<nat>, goal: Spec.State)
  {
    Spec.Ok(t) && Spec.Named(t, hs) && Spec.Prefill(c, t, hs) == goal
  }

  /** The row's own value after its token is the one the specification gives it. */
  lemma PickedEmits(c: Spec.Config, q: Req, p: Req, tok: Token, smp: Option<Sampler>)
    requires q.prompt != [] && Picked(c, q, tok, smp)
    requires p == q.(state := p.state)
    ensures Spec.Emit(c, p) == Spec.EmitToken(c, p, tok, smp)
  {
  }

  lemma PrefillNext(c: Spec.Config, t: Spec.State, hs: seq<nat>, toks: seq<Token>, smps: seq<Option<Sampler>>, goal: Spec.State)
    requires PrefillsTo(c, t, hs, goal) && PickedFor(c, t.reqs, hs, toks, smps) && NoDup(hs) && hs != []
    ensures Spec.Ok(t) && hs[0] < |t.reqs|
    ensures var u := Spec.PrefillOne(c, t, hs[0]);
            && u.reqs == t.reqs[hs[0] := Spec.EmitToken(c, t.reqs[hs[0]].(state := Running), toks[0], smps[0])]
            && PrefillsTo(c, u, hs[1..], goal) && PickedFor(c, u.reqs, hs[1..], toks[1..], smps[1..]) && NoDup(hs[1..])
  {
    var h, u := hs[0], Spec.PrefillOne(c, t, hs[0]);
    PickedEmits(c, t.reqs[h], t.reqs[h].(state := Running), toks[0], smps[0]);
    forall i | 0 <= i < |hs[1..]|
      ensures hs[1..][i] < |u.reqs| && Picked(c, u.reqs[hs[1..][i]], toks[1..][i], smps[1..][i])
    {
      assert hs[i + 1] != hs[0];
      assert Picked(c, t.reqs[hs[i + 1]], toks[i + 1], smps[i + 1]);
    }
  }

  lemma WholeSlice(hs: seq<nat>, toks: seq<Token>, smps: seq<Option<Sampler>>)
    ensures hs[0..] == hs && toks[0..] == toks && smps[0..] == smps
  {
  }

  /** The `i`-th row comes next. */
  lemma NextSlice(hs: seq<nat>, toks: seq<Token>, smps: seq<Option<Sampler>>, i: nat)
    requires i < |hs| == |toks| == |smps|
    ensures hs[i..][0] == hs[i] && toks[i..][0] == toks[i] && smps[i..][0] == smps[i]
    ensures hs[i..][1..] == hs[i + 1..] && toks[i..][1..] == toks[i + 1..] && smps[i..][1..] == smps[i + 1..]
  {
  }

  /** Prefilling rows one call at a time is prefilling them in one call. */
  lemma PrefillSplit(c: Spec.Config, t: Spec.State, hs: seq<nat>, i: nat, goal: Spec.State)
    requires i < |hs| && PrefillsTo(c, t, hs[i..], goal)
    ensures [hs[i]] + hs[i + 1..] == hs[i..] && Spec.Ok(t) && Spec.Named(t, [hs[i]])
    ensures PrefillsTo(c, Spec.Prefill(c, t, [hs[i]]), hs[i + 1..], goal)
  {
    var rows := hs[i..];
    assert rows[0] == hs[i] && rows[1..] == hs[i + 1..];
    assert [hs[i]][1..] == [];
    assert Spec.Prefill(c, t, [hs[i]]) == Spec.PrefillOne(c, t, hs[i]);
  }

  lemma PrefillDone(c: Spec.Config, t: Spec.State, goal: Spec.State)
    requires PrefillsTo(c, t, [], goal)
    ensures t == goal
  {
  }

  /** A row that says one more token has its cache ready for the next step. */
  lemma EvolvedToken(c: Spec.Config, pool: KVPool, q: Req, r: Req)
    requires pool.Shape() && c.net.layers <= pool.layers && Cached(c.net, pool, q.table, Full(q), |Full(q)|)
    requires Evolved(c, q, r) && |r.out| == |q.out| + 1 && r.table == q.table
    ensures RowCached(c, pool, r)
  {
    assert r.out == q.out + [r.out[|q.out|]];
    CachedAfterToken(c, pool, q, r, r.out[|q.out|]);
  }

  lemma PrefillCached(c: Spec.Config, pool: KVPool, s: Spec.State, hs: seq<nat>, t: Spec.State)
    requires pool.Shape() && c.net.layers <= pool.layers && Advanced(c, pool, s.reqs, hs)
    requires Prefilled(s, hs, t) && AllEvolved(c, s.reqs, t.reqs)
    ensures AllCached(c, pool, t.reqs)
  {
    forall h | 0 <= h < |t.reqs| && t.reqs[h].state == Running ensures RowCached(c, pool, t.reqs[h]) {
      assert Evolved(c, s.reqs[h], t.reqs[h]);
      if h in hs {
        var i :| 0 <= i < |hs| && hs[i] == h;
        EvolvedToken(c, pool, s.reqs[h], t.reqs[h]);
      } else {
        assert RowCached(c, pool, s.reqs[h]);
      }
    }
  }

  lemma PrefillRowable(c: Spec.Config, pool: KVPool, s: Spec.State, hs: seq<nat>, rest: seq<nat>, starts: seq<nat>)
    requires MidInv(c, s, hs + rest) && PoolFits(c, pool, s.mem) && hs != []
    requires |starts| == |hs| && forall i :: 0 <= i < |hs| ==> starts[i] == 0
    ensures Rowable(c, pool, s.mem, s.reqs, hs, starts)
  {
    ListsMember(s.reqs, hs + rest, Admitted);
    NoDupFirst(hs, rest);
    forall i | 0 <= i < |hs| ensures hs[i] < |s.reqs| && Feedable(c, pool, s.reqs[hs[i]], starts[i]) {
      assert (hs + rest)[i] == hs[i];
      PrefillFeedable(c, pool, s, hs + rest, hs[i]);
    }
  }
}
