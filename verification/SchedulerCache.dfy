/** What the scheduler's requests have in the KV pool, and one forward step for some of them. */
module SchedulerCache {
  import opened Seqs
  import opened BlockMath
  import opened Transformer
  import opened Cache
  import opened ModelRunner
  import opened Requests
  import opened Alloc
  import opened Invariant
  import opened Preservation
  import opened Eviction
  import Spec = SchedulerSpec

  // ---------------------------------------------------------------- tables and the pool

  ghost function Full(r: Req): seq<Token>
  {
    r.prompt + r.out
  }

  /** The pool has the geometry the allocator hands out. */
  ghost predicate PoolFits(c: Spec.Config, pool: KVPool, m: Memory)
  {
    && pool.Shape() && pool.layers == c.net.layers
    && pool.numBlocks == m.numBlocks && pool.blockSize == m.blockSize
    && pool.maxLen == c.maxContext && (pool.paged <==> m.kind.Blocks?)
  }

  /** The K/V of every token the request has been fed is in its blocks: all but the newest. */
  ghost predicate RowCached(c: Spec.Config, pool: KVPool, r: Req)
    requires pool.Shape() && c.net.layers <= pool.layers
    reads pool.data
  {
    r.SeqLen() > 0 && Cached(c.net, pool, r.table, Full(r), r.SeqLen() - 1)
  }

  ghost predicate AllCached(c: Spec.Config, pool: KVPool, reqs: seq<Req>)
    requires pool.Shape() && c.net.layers <= pool.layers
    reads pool.data
  {
    forall h {:trigger RowCached(c, pool, reqs[h])} :: 0 <= h < |reqs| && reqs[h].state == Running ==> RowCached(c, pool, reqs[h])
  }

  /** A row that may be fed from position `start`: its earlier K/V is in place and there is room. */
  ghost predicate Feedable(c: Spec.Config, pool: KVPool, r: Req, start: nat)
    requires pool.Shape() && c.net.layers <= pool.layers
    reads pool.data
  {
    && start < |Full(r)| <= c.maxContext
    && Cache.TableOk(r.table, pool.numBlocks, pool.blockSize, |Full(r)|)
    && Cached(c.net, pool, r.table, Full(r), start)
    && (!pool.paged ==> |r.table| == 1)
  }

  /** A sequence within the multiset {0..n-1} names numbers below `n`, none twice. */
  lemma WithinIndices(t: seq<nat>, n: nat)
    requires forall b: nat {:trigger multiset(t)[b]} :: multiset(t)[b] <= Indices(n)[b]
    ensures NoDup(t) && forall k :: 0 <= k < |t| ==> t[k] < n
  {
    forall b: nat ensures multiset(t)[b] <= 1 {
      assert multiset(t)[b] <= Indices(n)[b];
    }
    NoDupFromMultiset(t);
    forall k | 0 <= k < |t| ensures t[k] < n {
      var b: nat := t[k];
      assert b in multiset(t);
      assert Indices(n)[b] >= 1;
    }
  }

  /** A request's table names existing blocks, none twice. */
  lemma OwnTable(m: Memory, reqs: seq<Req>, h: nat)
    requires BlocksPartitioned(m, reqs) && h < |reqs|
    ensures NoDup(reqs[h].table)
    ensures forall k :: 0 <= k < |reqs[h].table| ==> reqs[h].table[k] < m.numBlocks
  {
    TablesUpdate(reqs, h, reqs[h]);
    forall b: nat ensures multiset(reqs[h].table)[b] <= Indices(m.numBlocks)[b] {
      assert multiset(reqs[h].table)[b] <= Tables(reqs)[b];
    }
    WithinIndices(reqs[h].table, m.numBlocks);
  }

  /** Two requests share no block. */
  lemma TablesApart(m: Memory, reqs: seq<Req>, g: nat, h: nat)
    requires BlocksPartitioned(m, reqs) && g < |reqs| && h < |reqs| && g != h
    ensures NoShare(reqs[g].table, reqs[h].table)
  {
    if g < h { TablesPair(reqs, g, h); } else { TablesPair(reqs, h, g); }
    var x, y := multiset(reqs[g].table), multiset(reqs[h].table);
    forall b | b in reqs[g].table ensures b !in reqs[h].table {
      assert b in x;
      assert (x + y)[b] <= Tables(reqs)[b] <= Indices(m.numBlocks)[b] <= 1;
    }
  }

  /** Enough blocks for `n` tokens. */
  lemma TableHolds(m: Memory, reqs: seq<Req>, h: nat, n: int)
    requires BlocksPartitioned(m, reqs) && h < |reqs| && m.blockSize > 0
    requires n >= 0 && |reqs[h].table| >= CeilDiv(n, m.blockSize)
    ensures Cache.TableOk(reqs[h].table, m.numBlocks, m.blockSize, n)
  {
    OwnTable(m, reqs, h);
    CeilDivLeast(n, m.blockSize, |reqs[h].table|);
  }

  // ---------------------------------------------------------------- one forward step for some requests

  /** The rows handed to the runner: distinct requests, each feedable from its start. */
  ghost predicate Rowable(c: Spec.Config, pool: KVPool, m: Memory, reqs: seq<Req>, hs: seq<nat>, starts: seq<nat>)
    requires pool.Shape() && c.net.layers <= pool.layers
    reads pool.data
  {
    && BlocksPartitioned(m, reqs) && NoDup(hs) && |starts| == |hs| && hs != []
    && forall i {:trigger hs[i]} {:trigger starts[i]} :: 0 <= i < |hs| ==> hs[i] < |reqs| && Feedable(c, pool, reqs[hs[i]], starts[i])
  }

  function Suffix(t: seq<Token>, start: nat): seq<Token>
    requires start <= |t|
  {
    t[start..]
  }

  /** The next token of a request, and its sampler afterwards, as a cache-free pass gives them. */
  ghost predicate Picked(c: Spec.Config, r: Req, tok: Token, smp: Option<Sampler>)
  {
    Full(r) != [] && Drawn(c.net, r.sampler, Logits(c.net, Full(r)), tok, smp)
  }

  method RunRaw(c: Spec.Config, pool: KVPool, ghost m: Memory, ghost reqs: seq<Req>, ghost hs: seq<nat>,
                lists: seq<seq<Token>>, starts: seq<nat>, tables: seq<seq<nat>>, samplers: seq<Option<Sampler>>)
    returns (toks: seq<Token>, smps: seq<Option<Sampler>>)
    requires PoolFits(c, pool, m) && Rowable(c, pool, m, reqs, hs, starts)
    requires |lists| == |tables| == |samplers| == |hs|
    requires forall i :: 0 <= i < |hs| ==> lists[i] == Suffix(Full(reqs[hs[i]]), starts[i])
    requires forall i :: 0 <= i < |hs| ==> tables[i] == reqs[hs[i]].table && samplers[i] == reqs[hs[i]].sampler
    modifies pool.data
    ensures |toks| == |smps| == |hs|
    ensures forall i :: 0 <= i < |hs| ==> Picked(c, reqs[hs[i]], toks[i], smps[i])
    ensures forall i :: 0 <= i < |hs| ==> Cached(c.net, pool, reqs[hs[i]].table, Full(reqs[hs[i]]), |Full(reqs[hs[i]])|)
    ensures pool.OthersReadAsBefore(tables)
    ensures forall g {:trigger reqs[g]} :: 0 <= g < |reqs| && g !in hs ==> pool.Away(tables, reqs[g].table)
  {
    ghost var full := seq(|hs|, i requires 0 <= i < |hs| => Full(reqs[hs[i]]));
    RowsFit(c, pool, m, reqs, hs, lists, starts, tables, full);
    toks, smps := StepTokens(c.net, pool, lists, starts, tables, samplers, full);
    forall g | 0 <= g < |reqs| && g !in hs ensures pool.Away(tables, reqs[g].table) {
      OutsideBatch(m, reqs, hs, tables, pool, g);
    }
  }

  method RunRows(c: Spec.Config, pool: KVPool, ghost m: Memory, ghost reqs: seq<Req>, ghost hs: seq<nat>,
                 lists: seq<seq<Token>>, starts: seq<nat>, tables: seq<seq<nat>>, samplers: seq<Option<Sampler>>)
    returns (toks: seq<Token>, smps: seq<Option<Sampler>>)
    requires PoolFits(c, pool, m) && Rowable(c, pool, m, reqs, hs, starts)
    requires |lists| == |tables| == |samplers| == |hs|
    requires forall i :: 0 <= i < |hs| ==> lists[i] == Suffix(Full(reqs[hs[i]]), starts[i])
    requires forall i :: 0 <= i < |hs| ==> tables[i] == reqs[hs[i]].table && samplers[i] == reqs[hs[i]].sampler
    modifies pool.data
    ensures |toks| == |smps| == |hs|
    ensures forall i :: 0 <= i < |hs| ==> Picked(c, reqs[hs[i]], toks[i], smps[i])
    ensures forall i :: 0 <= i < |hs| ==> Cached(c.net, pool, reqs[hs[i]].table, Full(reqs[hs[i]]), |Full(reqs[hs[i]])|)
    ensures forall g {:trigger RowCached(c, pool, reqs[g])} :: 0 <= g < |reqs| && g !in hs && old(RowCached(c, pool, reqs[g])) ==> RowCached(c, pool, reqs[g])
  {
    toks, smps := RunRaw(c, pool, m, reqs, hs, lists, starts, tables, samplers);
    hide Picked, Rowable, BlocksPartitioned, Suffix;
    forall g | 0 <= g < |reqs| && g !in hs && old(RowCached(c, pool, reqs[g])) ensures RowCached(c, pool, reqs[g]) {
      var table, t, n := reqs[g].table, Full(reqs[g]), reqs[g].SeqLen() - 1;
      forall l: nat | l < c.net.layers ensures Holds(c.net, pool, l, table, t, n) {
        assert old(Holds(c.net, pool, l, table, t, n));
        forall j: nat | j < n
          ensures Cache.TableOk(table, pool.numBlocks, pool.blockSize, j + 1) && pool.At(l, table, j) == Entry(c.net, t, l, j)
        {
          assert pool.At(l, table, j) == old(pool.At(l, table, j));
        }
      }
    }
  }

  lemma RowsFit(c: Spec.Config, pool: KVPool, m: Memory, reqs: seq<Req>, hs: seq<nat>,
                lists: seq<seq<Token>>, starts: seq<nat>, tables: seq<seq<nat>>, full: seq<seq<Token>>)
    requires PoolFits(c, pool, m) && Rowable(c, pool, m, reqs, hs, starts)
    requires |lists| == |tables| == |full| == |hs|
    requires forall i :: 0 <= i < |hs| ==> lists[i] == Suffix(Full(reqs[hs[i]]), starts[i]) && full[i] == Full(reqs[hs[i]])
    requires forall i :: 0 <= i < |hs| ==> tables[i] == reqs[hs[i]].table
    ensures Feeds(BatchAccess(starts, Lens(lists), pool.maxLen), full)
    ensures pool.Rows(BatchAccess(starts, Lens(lists), pool.maxLen), tables)
    ensures forall i :: 0 <= i < |full| ==> Tail(full[i], starts[i], lists[i])
    ensures forall i :: 0 <= i < |full| ==> Cached(c.net, pool, tables[i], full[i], starts[i])
  {
    var a := BatchAccess(starts, Lens(lists), pool.maxLen);
    forall i | 0 <= i < |hs|
      ensures a.ns[i] >= 1 && |full[i]| == a.Total(i) && Tail(full[i], starts[i], lists[i])
      ensures Cache.TableOk(tables[i], pool.numBlocks, pool.blockSize, a.Total(i)) && a.Total(i) <= pool.maxLen
      ensures !pool.paged ==> |tables[i]| == 1
    {
      assert Feedable(c, pool, reqs[hs[i]], starts[i]);
    }
    forall i, j | 0 <= i < |tables| && 0 <= j < |tables| && i != j ensures NoShare(tables[i], tables[j]) {
      assert hs[i] != hs[j];
      TablesApart(m, reqs, hs[i], hs[j]);
    }
  }

  /** A request outside the batch shares no block with it. */
  lemma OutsideBatch(m: Memory, reqs: seq<Req>, hs: seq<nat>, tables: seq<seq<nat>>, pool: KVPool, g: nat)
    requires BlocksPartitioned(m, reqs) && |tables| == |hs| && g < |reqs| && g !in hs
    requires forall i {:trigger hs[i]} {:trigger tables[i]} :: 0 <= i < |hs| ==> hs[i] < |reqs| && tables[i] == reqs[hs[i]].table
    ensures pool.Away(tables, reqs[g].table)
  {
    forall i | 0 <= i < |tables| ensures NoShare(tables[i], reqs[g].table) {
      assert hs[i] in hs;
      TablesApart(m, reqs, hs[i], g);
    }
  }

  // ---------------------------------------------------------------- how a row's cache carries over

  /** Once a token is said, what was cached for the shorter sequence is what the longer one needs. */
  lemma CachedAfterToken(c: Spec.Config, pool: KVPool, q: Req, r: Req, tok: Token)
    requires pool.Shape() && c.net.layers <= pool.layers && Cached(c.net, pool, q.table, Full(q), |Full(q)|)
    requires Full(q) != [] && r.table == q.table && r.prompt == q.prompt && r.out == q.out + [tok]
    ensures RowCached(c, pool, r)
  {
    var t, u := Full(q), Full(r);
    assert u == t + [tok];
    forall l: nat, j: nat | l < c.net.layers && j < |t| ensures Entry(c.net, t, l, j) == Entry(c.net, u, l, j) {
      assert t[..j + 1] == u[..j + 1];
      Causal(c.net, t, u, l, j);
    }
    forall l: nat | l < c.net.layers ensures Holds(c.net, pool, l, r.table, u, |t|) {
      assert Holds(c.net, pool, l, q.table, t, |t|);
    }
  }

  lemma CachedNothing(c: Spec.Config, pool: KVPool, m: Memory, reqs: seq<Req>, h: nat)
    requires PoolFits(c, pool, m) && m.blockSize > 0 && BlocksPartitioned(m, reqs) && h < |reqs|
    ensures Cached(c.net, pool, reqs[h].table, Full(reqs[h]), 0)
  {
    OwnTable(m, reqs, h);
  }

  lemma LongerTable(pool: KVPool, table: seq<nat>, longer: seq<nat>, n: nat)
    requires pool.Shape() && table <= longer && NoDup(longer) && (forall k :: 0 <= k < |longer| ==> longer[k] < pool.numBlocks)
    requires Cache.TableOk(table, pool.numBlocks, pool.blockSize, n)
    ensures Cache.TableOk(longer, pool.numBlocks, pool.blockSize, n)
  {
    MulLe(|table|, |longer|, pool.blockSize);
  }

  lemma AtLonger(pool: KVPool, l: nat, table: seq<nat>, longer: seq<nat>, j: nat)
    requires pool.Shape() && l < pool.layers && table <= longer
    requires Cache.TableOk(table, pool.numBlocks, pool.blockSize, j + 1) && Cache.TableOk(longer, pool.numBlocks, pool.blockSize, j + 1)
    ensures pool.At(l, longer, j) == pool.At(l, table, j)
  {
    PositionInBlock(j, pool.blockSize, |table|);
  }

  lemma HoldsLonger(net: Network, pool: KVPool, l: nat, table: seq<nat>, longer: seq<nat>, t: seq<Token>, n: nat)
    requires pool.Shape() && l < pool.layers && Holds(net, pool, l, table, t, n)
    requires table <= longer && NoDup(longer) && (forall k :: 0 <= k < |longer| ==> longer[k] < pool.numBlocks)
    ensures Holds(net, pool, l, longer, t, n)
  {
    LongerTable(pool, table, longer, n);
    forall j: nat | j < n
      ensures Cache.TableOk(longer, pool.numBlocks, pool.blockSize, j + 1) && pool.At(l, longer, j) == Entry(net, t, l, j)
    {
      AtLonger(pool, l, table, longer, j);
    }
  }

  /** A longer table finds the same K/V. */
  lemma CachedAfterGrow(c: Spec.Config, pool: KVPool, q: Req, r: Req)
    requires pool.Shape() && c.net.layers <= pool.layers && RowCached(c, pool, q)
    requires r == q.(table := r.table) && q.table <= r.table && NoDup(r.table) && (forall k :: 0 <= k < |r.table| ==> r.table[k] < pool.numBlocks)
    ensures RowCached(c, pool, r)
  {
    var t, n := Full(q), q.SeqLen() - 1;
    forall l: nat | l < c.net.layers ensures Holds(c.net, pool, l, r.table, t, n) {
      HoldsLonger(c.net, pool, l, q.table, r.table, t, n);
    }
  }

  lemma PrefillFeedable(c: Spec.Config, pool: KVPool, s: Spec.State, pend: seq<nat>, h: nat)
    requires Inv(c, s, pend) && PoolFits(c, pool, s.mem) && h < |s.reqs| && s.reqs[h].state == Admitted
    ensures Feedable(c, pool, s.reqs[h], 0)
  {
    var r := s.reqs[h];
    assert ReqOk(c, s.mem.blockSize, r);
    CachedNothing(c, pool, s.mem, s.reqs, h);
    TableHolds(s.mem, s.reqs, h, r.SeqLen());
    SizeFacts(c, s.mem, r);
  }

  lemma DecodeFeedable(c: Spec.Config, pool: KVPool, s: Spec.State, h: nat)
    requires Inv(c, s, []) && PoolFits(c, pool, s.mem) && h < |s.reqs| && s.reqs[h].state == Running && !s.reqs[h].Done()
    requires Covered(s.mem.blockSize, s.reqs[h]) && RowCached(c, pool, s.reqs[h])
    ensures Feedable(c, pool, s.reqs[h], s.reqs[h].SeqLen() - 1)
  {
    var r := s.reqs[h];
    assert ReqOk(c, s.mem.blockSize, r);
    TableHolds(s.mem, s.reqs, h, r.SeqLen());
    SizeFacts(c, s.mem, r);
  }

  lemma AllCachedUpdate(c: Spec.Config, pool: KVPool, reqs: seq<Req>, h: nat, r: Req)
    requires pool.Shape() && c.net.layers <= pool.layers && AllCached(c, pool, reqs) && h < |reqs|
    requires r.state == Running ==> RowCached(c, pool, r)
    ensures AllCached(c, pool, reqs[h := r])
  {
    var rs := reqs[h := r];
    forall g | 0 <= g < |rs| && rs[g].state == Running ensures RowCached(c, pool, rs[g]) {
      assert g != h ==> RowCached(c, pool, reqs[g]);
    }
  }

  lemma AllCachedAppend(c: Spec.Config, pool: KVPool, reqs: seq<Req>, r: Req)
    requires pool.Shape() && c.net.layers <= pool.layers && AllCached(c, pool, reqs) && r.state != Running
    ensures AllCached(c, pool, reqs + [r])
  {
    var rs := reqs + [r];
    forall g | 0 <= g < |rs| && rs[g].state == Running ensures RowCached(c, pool, rs[g]) {
      assert RowCached(c, pool, reqs[g]);
    }
  }

  /** Values that keep the tokens and tables of running rows keep the cache. */
  lemma AllCachedSame(c: Spec.Config, pool: KVPool, qs: seq<Req>, rs: seq<Req>)
    requires pool.Shape() && c.net.layers <= pool.layers && AllCached(c, pool, qs) && |qs| == |rs|
    requires forall h {:trigger rs[h]} :: 0 <= h < |rs| && rs[h].state == Running ==>
               qs[h].state == Running && rs[h].table == qs[h].table && rs[h].prompt == qs[h].prompt && rs[h].out == qs[h].out
    ensures AllCached(c, pool, rs)
  {
    forall h | 0 <= h < |rs| && rs[h].state == Running ensures RowCached(c, pool, rs[h]) {
      assert RowCached(c, pool, qs[h]);
    }
  }
}
