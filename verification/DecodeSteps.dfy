/** Decoding one turn at a time: where each turn of the capacity loop and of the emission loop leads, and
    why the K/V pool stays right. */
module DecodeSteps {
  import opened Seqs
  import opened Transformer
  import opened Cache
  import opened Requests
  import opened Alloc
  import opened Invariant
  import opened Preservation
  import opened StepSafety
  import opened Eviction
  import opened StepTheorem
  import opened SchedulerCache
  import opened EmitSteps
  import Spec = SchedulerSpec

  /** Serving row `i` of `hs` next leads to `goal`. */
  ghost predicate EnsuresTo(c: Spec.Config, s: Spec.State, hs: seq<nat>, i: nat, goal: Spec.Capacity)
  {
    Spec.Ok(s) && Spec.Named(s, hs) && i <= |hs| && Spec.EnsureCapacity(c, s, hs, i) == goal
  }

  /** The loop's invariant: the first `i` rows have the block of their next token. */
  ghost predicate Serving(c: Spec.Config, pool: KVPool, s: Spec.State, hs: seq<nat>, i: nat)
    reads pool.data
  {
    && Spec.Ok(s) && Inv(c, s, []) && PoolFits(c, pool, s.mem) && AllCached(c, pool, s.reqs)
    && Spec.Named(s, hs) && Active(s, hs) && i <= |hs| && ServedUpTo(s, hs, i)
  }

  lemma ServingRow(c: Spec.Config, pool: KVPool, s: Spec.State, hs: seq<nat>, i: nat, j: nat)
    requires Serving(c, pool, s, hs, i) && j < |hs|
    ensures Spec.Ok(s) && s.mem.blockSize > 0 && hs[j] < |s.reqs| && s.reqs[hs[j]].state == Running && !s.reqs[hs[j]].Done()
  {
    assert hs[j] in hs;
  }

  lemma GrowCached(c: Spec.Config, pool: KVPool, s: Spec.State, h: nat, t: Spec.State)
    requires Spec.Ok(s) && h < |s.reqs| && t == Spec.GrowOne(s, h) && Inv(c, t, [])
    requires PoolFits(c, pool, s.mem) && AllCached(c, pool, s.reqs) && s.reqs[h].state == Running
    requires s.reqs[h].table <= t.reqs[h].table
    ensures AllCached(c, pool, t.reqs)
  {
    OwnTable(t.mem, t.reqs, h);
    assert RowCached(c, pool, s.reqs[h]);
    CachedAfterGrow(c, pool, s.reqs[h], t.reqs[h]);
    AllCachedUpdate(c, pool, s.reqs, h, t.reqs[h]);
  }

  lemma {:induction false} GrowExtends(free: seq<nat>, table: seq<nat>, need: int)
    ensures table <= Grow(free, table, need).table
    decreases |free|
  {
    if |table| < need && free != [] {
      var n := |free| - 1;
      GrowExtends(free[..n], table + [free[n]], need);
    }
  }

  /** A row that got its block is done with. */
  lemma ServeGrown(c: Spec.Config, pool: KVPool, s: Spec.State, hs: seq<nat>, i: nat, h: nat, goal: Spec.Capacity)
    requires Serving(c, pool, s, hs, i) && i < |hs| && h == hs[i] && EnsuresTo(c, s, hs, i, goal)
    requires AppendSlot(s.mem, s.reqs[h]).ok
    ensures Serving(c, pool, Spec.GrowOne(s, h), hs, i + 1) && EnsuresTo(c, Spec.GrowOne(s, h), hs, i + 1, goal)
  {
    hide Inv, AllCached, Active, ServedUpTo, PoolFits;
    ServingRow(c, pool, s, hs, i, i);
    var t := Spec.GrowOne(s, h);
    GrowServes(c, s, hs, i, h, t);
    GrowTable(s, h);
    GrowCached(c, pool, s, h, t);
    GrowFits(c, pool, s, h);
  }

  lemma GrowTable(s: Spec.State, h: nat)
    requires Spec.Ok(s) && h < |s.reqs|
    ensures s.reqs[h].table <= Spec.GrowOne(s, h).reqs[h].table
  {
    if s.mem.kind.Blocks? {
      GrowExtends(s.mem.free, s.reqs[h].table, s.mem.Need(s.reqs[h]));
    }
  }

  lemma GrowFits(c: Spec.Config, pool: KVPool, s: Spec.State, h: nat)
    requires Spec.Ok(s) && h < |s.reqs| && PoolFits(c, pool, s.mem)
    ensures PoolFits(c, pool, Spec.GrowOne(s, h).mem)
  {
  }

  /** A row that found no block: nothing moved, preemption is on, and the victim is a running row. */
  lemma ServeDry(c: Spec.Config, pool: KVPool, s: Spec.State, hs: seq<nat>, i: nat, h: nat)
    requires Serving(c, pool, s, hs, i) && i < |hs| && h == hs[i] && !AppendSlot(s.mem, s.reqs[h]).ok
    ensures Spec.GrowOne(s, h) == s && c.preemption && s.mem.kind == Blocks(false)
  {
    ServingRow(c, pool, s, hs, i, i);
    DryUnchanged(c, s, h);
  }

  /** The victim leaves the batch and the loop goes on from the row that failed. */
  lemma ServeVictim(c: Spec.Config, pool: KVPool, s: Spec.State, hs: seq<nat>, i: nat, v: nat, goal: Spec.Capacity)
    requires Serving(c, pool, s, hs, i) && i < |hs| && EnsuresTo(c, s, hs, i, goal)
    requires !AppendSlot(s.mem, s.reqs[hs[i]]).ok && v == Spec.VictimIndex(s.reqs, hs)
    ensures v < |hs| && hs[v] < |s.reqs| && Spec.Ok(s) && hs[v] in s.running
    ensures var j: nat := if v < i then i - 1 else i;
            Serving(c, pool, Spec.Evict(s, hs[v]), RemoveAt(hs, v), j) && EnsuresTo(c, Spec.Evict(s, hs[v]), RemoveAt(hs, v), j, goal)
  {
    hide Inv, AllCached, ServedUpTo, PoolFits, Active, Spec.EnsureCapacity, Spec.Evict, RemoveAt, EnsuresTo, AppendSlot;
    ServeDry(c, pool, s, hs, i, hs[i]);
    var h := hs[v];
    ServingRow(c, pool, s, hs, i, v);
    RunningListed(c, s, h);
    EvictServes(c, s, hs, i, v, Spec.Evict(s, h));
    EvictCached(c, pool, s, h);
    NamedWithout(s, hs, v, Spec.Evict(s, h));
    VictimUnfold(c, s, hs, i, v, h, goal);
  }

  lemma NamedWithout(s: Spec.State, hs: seq<nat>, v: nat, t: Spec.State)
    requires Spec.Named(s, hs) && v < |hs| && |t.reqs| == |s.reqs|
    ensures Spec.Named(t, RemoveAt(hs, v)) && |RemoveAt(hs, v)| == |hs| - 1
  {
  }

  lemma VictimUnfold(c: Spec.Config, s: Spec.State, hs: seq<nat>, i: nat, v: nat, h: nat, goal: Spec.Capacity)
    requires EnsuresTo(c, s, hs, i, goal) && i < |hs| && !AppendSlot(s.mem, s.reqs[hs[i]]).ok
    requires Spec.GrowOne(s, hs[i]) == s && c.preemption && v == Spec.VictimIndex(s.reqs, hs) && h == hs[v] && h in s.running
    ensures EnsuresTo(c, Spec.Evict(s, h), RemoveAt(hs, v), if v < i then i - 1 else i, goal)
  {
    NamedWithout(s, hs, v, Spec.Evict(s, h));
  }

  lemma EvictCached(c: Spec.Config, pool: KVPool, s: Spec.State, h: nat)
    requires Spec.Ok(s) && h < |s.reqs| && h in s.running && PoolFits(c, pool, s.mem) && AllCached(c, pool, s.reqs)
    ensures PoolFits(c, pool, Spec.Evict(s, h).mem) && AllCached(c, pool, Spec.Evict(s, h).reqs)
  {
    AllCachedUpdate(c, pool, s.reqs, h, Spec.Evict(s, h).reqs[h]);
  }

  lemma ServedAll(c: Spec.Config, s: Spec.State, hs: seq<nat>, goal: Spec.Capacity)
    requires EnsuresTo(c, s, hs, |hs|, goal)
    ensures goal == Spec.Capacity(s, hs)
  {
  }

  lemma ServingStart(c: Spec.Config, pool: KVPool, s: Spec.State, batch: seq<nat>, active: seq<nat>, goal: Spec.Capacity)
    requires StepInv(c, s) && Spec.Ok(s) && PoolFits(c, pool, s.mem) && AllCached(c, pool, s.reqs)
    requires batch == Spec.Unfinished(s.reqs, s.running) && active == Spec.ByAdmission(s, batch)
    requires goal == Spec.EnsureCapacity(c, s, active, 0)
    ensures Serving(c, pool, s, active, 0) && EnsuresTo(c, s, active, 0, goal)
  {
    BatchActive(s, batch, active);
  }

  // ---------------------------------------------------------------- the forward step

  /** Every running row has a newest token, the one to feed. */
  lemma NewestToken(c: Spec.Config, pool: KVPool, s: Spec.State, hs: seq<nat>, i: nat)
    requires Serving(c, pool, s, hs, |hs|) && i < |hs|
    ensures hs[i] < |s.reqs| && s.reqs[hs[i]].out != []
    ensures var r := s.reqs[hs[i]]; [r.out[|r.out| - 1]] == Suffix(Full(r), r.SeqLen() - 1)
  {
    ServingRow(c, pool, s, hs, |hs|, i);
    var r := s.reqs[hs[i]];
    assert ReqOk(c, s.mem.blockSize, r);
    assert Full(r)[r.SeqLen() - 1] == r.out[|r.out| - 1];
  }

  lemma DecodeRowable(c: Spec.Config, pool: KVPool, s: Spec.State, hs: seq<nat>, starts: seq<nat>)
    requires Serving(c, pool, s, hs, |hs|) && hs != []
    requires |starts| == |hs| && forall i :: 0 <= i < |hs| ==> hs[i] < |s.reqs| && starts[i] == s.reqs[hs[i]].SeqLen() - 1
    ensures Rowable(c, pool, s.mem, s.reqs, hs, starts)
  {
    forall i | 0 <= i < |hs| ensures hs[i] < |s.reqs| && Feedable(c, pool, s.reqs[hs[i]], starts[i]) {
      ServingRow(c, pool, s, hs, |hs|, i);
      assert Covered(s.mem.blockSize, s.reqs[hs[i]]);
      assert RowCached(c, pool, s.reqs[hs[i]]);
      DecodeFeedable(c, pool, s, hs[i]);
    }
  }

  // ---------------------------------------------------------------- the emission loop

  ghost predicate EmitsTo(c: Spec.Config, t: Spec.State, hs: seq<nat>, goal: Spec.State)
  {
    Spec.Ok(t) && Spec.Named(t, hs) && Spec.EmitAll(c, t, hs) == goal
  }

  lemma EmitNext(c: Spec.Config, t: Spec.State, hs: seq<nat>, toks: seq<Token>, smps: seq<Option<Sampler>>, goal: Spec.State)
    requires EmitsTo(c, t, hs, goal) && PickedFor(c, t.reqs, hs, toks, smps) && NoDup(hs) && hs != []
    ensures Spec.Ok(t) && hs[0] < |t.reqs|
    ensures var u := Spec.With(t, hs[0], Spec.EmitToken(c, t.reqs[hs[0]], toks[0], smps[0]));
            && u.reqs == t.reqs[hs[0] := Spec.EmitToken(c, t.reqs[hs[0]], toks[0], smps[0])]
            && EmitsTo(c, u, hs[1..], goal) && PickedFor(c, u.reqs, hs[1..], toks[1..], smps[1..]) && NoDup(hs[1..])
  {
    var h := hs[0];
    var u := Spec.With(t, h, Spec.EmitToken(c, t.reqs[h], toks[0], smps[0]));
    PickedEmits(c, t.reqs[h], t.reqs[h], toks[0], smps[0]);
    forall i | 0 <= i < |hs[1..]|
      ensures hs[1..][i] < |u.reqs| && Picked(c, u.reqs[hs[1..][i]], toks[1..][i], smps[1..][i])
    {
      assert hs[i + 1] != hs[0];
      assert Picked(c, t.reqs[hs[i + 1]], toks[i + 1], smps[i + 1]);
    }
  }

  lemma EmitDone(c: Spec.Config, t: Spec.State, goal: Spec.State)
    requires EmitsTo(c, t, [], goal)
    ensures t == goal
  {
  }

  lemma EmitReady(c: Spec.Config, pool: KVPool, s: Spec.State, hs: seq<nat>, t: Spec.State)
    requires Serving(c, pool, s, hs, |hs|) && t == Spec.EmitAll(c, s, hs)
    ensures EmitsTo(c, s, hs, t) && NoDup(hs) && Emitted(s, hs, t) && AllEvolved(c, s.reqs, t.reqs) && t == s.(reqs := t.reqs)
  {
    EmitAllKeeps(c, s, hs, t);
  }

  lemma DecodeCached(c: Spec.Config, pool: KVPool, s: Spec.State, hs: seq<nat>, t: Spec.State)
    requires pool.Shape() && c.net.layers <= pool.layers && Advanced(c, pool, s.reqs, hs)
    requires Emitted(s, hs, t) && AllEvolved(c, s.reqs, t.reqs)
    ensures AllCached(c, pool, t.reqs)
  {
    forall h | 0 <= h < |t.reqs| && t.reqs[h].state == Running ensures RowCached(c, pool, t.reqs[h]) {
      assert Evolved(c, s.reqs[h], t.reqs[h]);
      if h in hs {
        var i :| 0 <= i < |hs| && hs[i] == h;
        EvolvedToken(c, pool, s.reqs[h], t.reqs[h]);
      } else {
        assert RowCached(c, pool, s.reqs[h]);
      }
    }
  }

  /** What decoding amounts to once the rows that go on are known. */
  lemma DecodeIs(c: Spec.Config, s: Spec.State, batch: seq<nat>, t: Spec.State, kept: seq<nat>)
    requires StepInv(c, s) && Spec.Ok(s) && batch == Spec.Unfinished(s.reqs, s.running) && batch != []
    requires Spec.Capacity(t, kept) == Spec.EnsureCapacity(c, s, Spec.ByAdmission(s, batch), 0)
    ensures Spec.Ok(t) && Spec.Named(t, kept) && Spec.Decode(c, s) == Spec.EmitAll(c, t, kept)
    ensures StepInv(c, Spec.Decode(c, s)) && Spec.Ok(Spec.Decode(c, s))
  {
    var _ := DecodeKeeps(c, s);
  }

  lemma DecodeNothing(c: Spec.Config, s: Spec.State)
    requires Spec.Ok(s) && Spec.Unfinished(s.reqs, s.running) == []
    ensures Spec.Decode(c, s) == s
  {
  }
}
