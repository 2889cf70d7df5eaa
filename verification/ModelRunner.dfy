/** The forward passes: the batched, padded, pooled step the scheduler uses, and the single-sequence
    reference it is judged against. */
module ModelRunner {
  import opened Seqs
  import opened Transformer
  import opened Cache

  /** At layer `l`, the first `n` positions stored through `table` are the K/V entries a cache-free
      pass over `t` would compute. */
  ghost predicate Holds(net: Network, pool: KVPool, l: nat, table: seq<nat>, t: seq<Token>, n: nat)
    requires pool.Shape() && l < pool.layers
    reads pool.data
  {
    && n <= |t|
    && TableOk(table, pool.numBlocks, pool.blockSize, n)
    && forall j: nat :: j < n ==> TableOk(table, pool.numBlocks, pool.blockSize, j + 1) &&
                                  pool.At(l, table, j) == Entry(net, t, l, j)
  }

  ghost predicate Cached(net: Network, pool: KVPool, table: seq<nat>, t: seq<Token>, n: nat)
    requires pool.Shape() && net.layers <= pool.layers
    reads pool.data
  {
    forall l: nat :: l < net.layers ==> Holds(net, pool, l, table, t, n)
  }

  /** Row i of a step: `full[i]` is its whole sequence, of which the last `ns[i]` tokens are fed now. */
  ghost predicate Feeds(a: BatchAccess, full: seq<seq<Token>>)
  {
    a.Valid() && |full| == |a.ns| && forall i :: 0 <= i < |full| ==> |full[i]| == a.Total(i)
  }

  /** The real columns of `x` are the hidden vectors entering layer `l`; pad columns may be anything. */
  ghost predicate Entering(net: Network, a: BatchAccess, full: seq<seq<Token>>, x: seq<seq<Vec>>, l: nat)
    requires Feeds(a, full)
  {
    && |x| == |a.ns|
    && (forall i :: 0 <= i < |x| ==> |x[i]| == a.T())
    && forall i: nat, t: nat :: i < |x| && t < a.ns[i] ==> t < |x[i]| && x[i][t] == Hidden(net, full[i], l, a.starts[i] + t)
  }

  /** One attention row, given the keys gathered for it. */
  function AttendRow(net: Network, a: BatchAccess, l: nat, i: nat, xs: seq<Vec>, keys: seq<KV>): (r: seq<Vec>)
    requires a.starts != [] && |a.starts| == |a.ns| && i < |a.ns| && |xs| == a.T() && |keys| == a.Lk()
    ensures |r| == a.T()
    ensures forall t :: 0 <= t < a.T() ==> r[t] == net.attend(l, xs[t], a.Select(a.Lk(), i, t, keys, a.Lk()))
  {
    seq(a.T(), t requires 0 <= t < a.T() => net.attend(l, xs[t], a.Select(a.Lk(), i, t, keys, a.Lk())))
  }

  /** Whatever lies in the gathered tail, a real column gets the cache-free result. */
  lemma AttendRowExact(net: Network, a: BatchAccess, full: seq<seq<Token>>, l: nat, i: nat, x: seq<seq<Vec>>, keys: seq<KV>, t: nat)
    requires Feeds(a, full) && Entering(net, a, full, x, l) && i < |a.ns| && t < a.ns[i] && |keys| == a.Lk()
    requires forall j: nat :: j < a.Total(i) ==> keys[j] == Entry(net, full[i], l, j)
    ensures t < a.T()
    ensures AttendRow(net, a, l, i, x[i], keys)[t] == Hidden(net, full[i], l + 1, a.starts[i] + t)
  {
    var p := a.starts[i] + t;
    SelectIsPrefix(a, i, t, keys, a.Lk());
    assert a.Total(i) <= a.Lk();
    assert keys[..p + 1] == Entries(net, full[i], l, p + 1);
  }

  lemma AttendRowsExact(net: Network, a: BatchAccess, full: seq<seq<Token>>, l: nat, i: nat, x: seq<seq<Vec>>, keys: seq<KV>, row: seq<Vec>)
    requires Feeds(a, full) && Entering(net, a, full, x, l) && i < |a.ns| && |keys| == a.Lk()
    requires forall j: nat :: j < a.Total(i) ==> keys[j] == Entry(net, full[i], l, j)
    requires row == AttendRow(net, a, l, i, x[i], keys)
    ensures forall t: nat :: t < a.ns[i] ==> t < |row| && row[t] == Hidden(net, full[i], l + 1, a.starts[i] + t)
  {
    forall t: nat | t < a.ns[i] ensures t < |row| && row[t] == Hidden(net, full[i], l + 1, a.starts[i] + t) {
      AttendRowExact(net, a, full, l, i, x, keys, t);
    }
  }

  function Project(net: Network, l: nat, x: seq<seq<Vec>>): (kv: seq<seq<KV>>)
    ensures |kv| == |x|
    ensures forall i :: 0 <= i < |x| ==> |kv[i]| == |x[i]| && forall t :: 0 <= t < |x[i]| ==> kv[i][t] == net.project(l, x[i][t])
  {
    seq(|x|, i requires 0 <= i < |x| => seq(|x[i]|, t requires 0 <= t < |x[i]| => net.project(l, x[i][t])))
  }

  /** The projections of the real columns are the entries of the tokens fed. */
  lemma ProjectedEntries(net: Network, a: BatchAccess, full: seq<seq<Token>>, x: seq<seq<Vec>>, l: nat, kv: seq<seq<KV>>)
    requires Feeds(a, full) && Entering(net, a, full, x, l) && kv == Project(net, l, x)
    ensures |kv| == |a.ns| && forall i :: 0 <= i < |kv| ==> |kv[i]| == a.T()
    ensures forall i: nat, t: nat :: i < |kv| && t < a.ns[i] ==> t < |kv[i]| && kv[i][t] == Entry(net, full[i], l, a.starts[i] + t)
  {
  }

  /** The same, cell by cell. */
  ghost predicate CellsHold(net: Network, pool: KVPool, l: nat, table: seq<nat>, t: seq<Token>, n: nat)
    requires pool.Shape() && l < pool.layers
    reads pool.data
  {
    n <= |t| && forall j: nat, b: nat, o: nat :: j < n && b < pool.numBlocks && o < pool.blockSize && pool.IsCell(table, j, b, o) ==>
                  pool.data[l, b, o] == Entry(net, t, l, j)
  }

  lemma HoldsCells(net: Network, pool: KVPool, l: nat, table: seq<nat>, t: seq<Token>, n: nat)
    requires pool.Shape() && l < pool.layers
    ensures Holds(net, pool, l, table, t, n) <==> TableOk(table, pool.numBlocks, pool.blockSize, n) && CellsHold(net, pool, l, table, t, n)
  {
    if Holds(net, pool, l, table, t, n) {
      forall j: nat, b: nat, o: nat | j < n && b < pool.numBlocks && o < pool.blockSize && pool.IsCell(table, j, b, o)
        ensures pool.data[l, b, o] == Entry(net, t, l, j)
      {
        assert pool.At(l, table, j) == Entry(net, t, l, j);
      }
    }
    if TableOk(table, pool.numBlocks, pool.blockSize, n) && CellsHold(net, pool, l, table, t, n) {
      forall j: nat | j < n ensures TableOk(table, pool.numBlocks, pool.blockSize, j + 1) && pool.At(l, table, j) == Entry(net, t, l, j) {
        TableShorter(table, pool.numBlocks, pool.blockSize, n, j + 1);
        var b, o := pool.CellExists(table, j);
        assert pool.data[l, b, o] == Entry(net, t, l, j);
      }
    }
  }

  lemma RowTable(pool: KVPool, a: BatchAccess, tables: seq<seq<nat>>, full: seq<seq<Token>>, i: nat)
    requires pool.Rows(a, tables) && Feeds(a, full) && i < |tables|
    ensures i < |full| && |tables| == |a.starts| == |a.ns| && a.Total(i) == |full[i]|
    ensures TableOk(tables[i], pool.numBlocks, pool.blockSize, a.Total(i))
  {
  }

  /** Scatter one layer's projections; every row's cache then covers the tokens just fed. */
  method Store(net: Network, pool: KVPool, a: BatchAccess, tables: seq<seq<nat>>, l: nat, x: seq<seq<Vec>>,
               ghost full: seq<seq<Token>>)
    requires pool.Shape() && pool.Rows(a, tables) && l < pool.layers
    requires Feeds(a, full) && Entering(net, a, full, x, l)
    requires forall i :: 0 <= i < |tables| ==> Holds(net, pool, l, tables[i], full[i], a.starts[i])
    modifies pool.data
    ensures pool.Wrote(a, tables, l, Project(net, l, x)) && pool.OnlyBlocksOf(tables)
    ensures forall i :: 0 <= i < |tables| ==> Holds(net, pool, l, tables[i], full[i], a.Total(i))
  {
    var kv := Project(net, l, x);
    ProjectedEntries(net, a, full, x, l, kv);
    forall i | 0 <= i < |tables| ensures CellsHold(net, pool, l, tables[i], full[i], a.starts[i]) {
      HoldsCells(net, pool, l, tables[i], full[i], a.starts[i]);
    }
    hide Entering, Project, Holds, KVPool.IsCell, TableOk;
    pool.Write(a, tables, l, kv);
    forall i | 0 <= i < |tables| ensures Holds(net, pool, l, tables[i], full[i], a.Total(i)) {
      RowTable(pool, a, tables, full, i);
      forall j: nat, b: nat, o: nat | j < a.Total(i) && b < pool.numBlocks && o < pool.blockSize && pool.IsCell(tables[i], j, b, o)
        ensures pool.data[l, b, o] == Entry(net, full[i], l, j)
      {
        if j < a.starts[i] {
          pool.NotHit(a, tables, i, j, b, o);
          assert pool.data[l, b, o] == old(pool.data[l, b, o]);
        } else {
          assert pool.Hits(a, tables, i, j - a.starts[i], b, o);
        }
      }
      HoldsCells(net, pool, l, tables[i], full[i], a.Total(i));
    }
  }

  /** One layer of a step: project, scatter, gather, attend. */
  method Layer(net: Network, pool: KVPool, a: BatchAccess, tables: seq<seq<nat>>, l: nat, x: seq<seq<Vec>>,
               ghost full: seq<seq<Token>>)
    returns (y: seq<seq<Vec>>)
    requires pool.Shape() && pool.Rows(a, tables) && l < pool.layers
    requires Feeds(a, full) && Entering(net, a, full, x, l)
    requires forall i :: 0 <= i < |tables| ==> Holds(net, pool, l, tables[i], full[i], a.starts[i])
    modifies pool.data
    ensures pool.Wrote(a, tables, l, Project(net, l, x)) && pool.OnlyBlocksOf(tables)
    ensures forall i :: 0 <= i < |tables| ==> Holds(net, pool, l, tables[i], full[i], a.Total(i))
    ensures Entering(net, a, full, y, l + 1)
  {
    Store(net, pool, a, tables, l, x, full);
    y := Attention(net, pool, a, tables, l, x, full);
  }

  /** The attention rows of one sequence, read through its own table. */
  method AttendOne(net: Network, pool: KVPool, a: BatchAccess, table: seq<nat>, l: nat, i: nat, x: seq<seq<Vec>>, ghost full: seq<seq<Token>>)
    returns (row: seq<Vec>)
    requires pool.Shape() && l < pool.layers && Feeds(a, full) && Entering(net, a, full, x, l) && i < |a.ns|
    requires Holds(net, pool, l, table, full[i], a.Total(i)) && a.Lk() <= pool.maxLen && (!pool.paged ==> |table| == 1)
    ensures |row| == a.T()
    ensures forall t: nat :: t < a.ns[i] ==> t < |row| && row[t] == Hidden(net, full[i], l + 1, a.starts[i] + t)
  {
    var keys := pool.Gather(l, table, a.Lk(), a.Total(i));
    row := AttendRow(net, a, l, i, x[i], keys);
    AttendRowsExact(net, a, full, l, i, x, keys, row);
  }

  lemma LongestFits(pool: KVPool, a: BatchAccess, tables: seq<seq<nat>>)
    requires pool.Rows(a, tables)
    ensures a.Lk() <= pool.maxLen
  {
    var totals := seq(|a.ns|, i requires 0 <= i < |a.ns| => a.Total(i));
    assert a.Lk() in totals;
  }

  method Attention(net: Network, pool: KVPool, a: BatchAccess, tables: seq<seq<nat>>, l: nat, x: seq<seq<Vec>>,
                   ghost full: seq<seq<Token>>)
    returns (y: seq<seq<Vec>>)
    requires pool.Shape() && pool.Rows(a, tables) && l < pool.layers
    requires Feeds(a, full) && Entering(net, a, full, x, l)
    requires forall i :: 0 <= i < |tables| ==> Holds(net, pool, l, tables[i], full[i], a.Total(i))
    ensures Entering(net, a, full, y, l + 1)
  {
    LongestFits(pool, a, tables);
    hide Holds;
    y := [];
    for i := 0 to |a.ns|
      invariant |y| == i
      invariant forall k :: 0 <= k < i ==> |y[k]| == a.T()
      invariant forall k: nat, t: nat :: k < i && t < a.ns[k] ==> t < |y[k]| && y[k][t] == Hidden(net, full[k], l + 1, a.starts[k] + t)
    {
      var row := AttendOne(net, pool, a, tables[i], l, i, x, full);
      y := y + [row];
    }
  }

  function Lens(lists: seq<seq<Token>>): (ns: seq<nat>)
    ensures |ns| == |lists| && forall i :: 0 <= i < |lists| ==> ns[i] == |lists[i]|
  {
    seq(|lists|, i requires 0 <= i < |lists| => |lists[i]|)
  }

  /** Token ids of one row, right-padded with id 0. */
  function PadRow(toks: seq<Token>, n: nat): seq<Token>
    requires |toks| <= n
  {
    toks + seq(n - |toks|, _ => 0)
  }

  function EmbedRow(net: Network, a: BatchAccess, i: nat, ids: seq<Token>): (r: seq<Vec>)
    requires i < |a.starts|
    ensures |r| == |ids| && forall t: nat :: t < |ids| ==> r[t] == net.embed(ids[t], a.Position(i, t))
  {
    seq(|ids|, t requires 0 <= t < |ids| => net.embed(ids[t], a.Position(i, t)))
  }

  /** The tokens fed to a row are the tail of its sequence. */
  ghost predicate Tail(full: seq<Token>, start: nat, toks: seq<Token>)
  {
    |full| == start + |toks| && full[start..] == toks
  }

  lemma EmbedExact(net: Network, a: BatchAccess, full: seq<seq<Token>>, i: nat, toks: seq<Token>, t: nat)
    requires Feeds(a, full) && i < |a.ns| && Tail(full[i], a.starts[i], toks) && |toks| == a.ns[i]
    requires a.Total(i) <= a.maxLen && t < a.ns[i]
    ensures t < a.T()
    ensures EmbedRow(net, a, i, PadRow(toks, a.T()))[t] == Hidden(net, full[i], 0, a.starts[i] + t)
  {
    assert full[i][a.starts[i]..][t] == full[i][a.starts[i] + t];
  }

  method Embed(net: Network, a: BatchAccess, tokenLists: seq<seq<Token>>, ghost full: seq<seq<Token>>) returns (x: seq<seq<Vec>>)
    requires Feeds(a, full) && a.ns == Lens(tokenLists)
    requires forall i :: 0 <= i < |full| ==> Tail(full[i], a.starts[i], tokenLists[i]) && a.Total(i) <= a.maxLen
    ensures Entering(net, a, full, x, 0)
  {
    x := [];
    for i := 0 to |a.ns|
      invariant |x| == i
      invariant forall k :: 0 <= k < i ==> |x[k]| == a.T()
      invariant forall k: nat, t: nat :: k < i && t < a.ns[k] ==> t < |x[k]| && x[k][t] == Hidden(net, full[k], 0, a.starts[k] + t)
    {
      var row := EmbedRow(net, a, i, PadRow(tokenLists[i], a.T()));
      EmbedRowExact(net, a, full, i, tokenLists[i], row);
      hide Feeds, Tail, Hidden, EmbedRow, PadRow;
      x := x + [row];
    }
  }

  lemma EmbedRowExact(net: Network, a: BatchAccess, full: seq<seq<Token>>, i: nat, toks: seq<Token>, row: seq<Vec>)
    requires Feeds(a, full) && i < |full| && Tail(full[i], a.starts[i], toks) && a.Total(i) <= a.maxLen && a.ns[i] == |toks|
    requires |toks| <= a.T() && row == EmbedRow(net, a, i, PadRow(toks, a.T()))
    ensures forall t: nat :: t < a.ns[i] ==> t < |row| && row[t] == Hidden(net, full[i], 0, a.starts[i] + t)
  {
    forall t: nat | t < a.ns[i] ensures t < |row| && row[t] == Hidden(net, full[i], 0, a.starts[i] + t) {
      EmbedExact(net, a, full, i, toks, t);
    }
  }

  /** A layer's scatter leaves the other layers' K/V in place. */
  method LayerStep(net: Network, pool: KVPool, a: BatchAccess, tables: seq<seq<nat>>, l: nat, x: seq<seq<Vec>>,
                   ghost full: seq<seq<Token>>)
    returns (y: seq<seq<Vec>>)
    requires pool.Shape() && pool.Rows(a, tables) && l < net.layers == pool.layers
    requires Feeds(a, full) && Entering(net, a, full, x, l)
    requires forall i: nat, m: nat :: i < |full| && m < l ==> Holds(net, pool, m, tables[i], full[i], a.Total(i))
    requires forall i: nat, m: nat :: i < |full| && l <= m < net.layers ==> Holds(net, pool, m, tables[i], full[i], a.starts[i])
    modifies pool.data
    ensures Entering(net, a, full, y, l + 1) && pool.OnlyBlocksOf(tables)
    ensures forall i: nat, m: nat :: i < |full| && m < l + 1 ==> Holds(net, pool, m, tables[i], full[i], a.Total(i))
    ensures forall i: nat, m: nat :: i < |full| && l + 1 <= m < net.layers ==> Holds(net, pool, m, tables[i], full[i], a.starts[i])
  {
    y := Layer(net, pool, a, tables, l, x, full);
    forall i: nat, m: nat | i < |full| && m < l ensures Holds(net, pool, m, tables[i], full[i], a.Total(i)) {
      assert old(Holds(net, pool, m, tables[i], full[i], a.Total(i)));
    }
    forall i: nat, m: nat | i < |full| && l + 1 <= m < net.layers ensures Holds(net, pool, m, tables[i], full[i], a.starts[i]) {
      assert old(Holds(net, pool, m, tables[i], full[i], a.starts[i]));
    }
  }

  method RunLayers(net: Network, pool: KVPool, a: BatchAccess, tables: seq<seq<nat>>, x0: seq<seq<Vec>>, ghost full: seq<seq<Token>>)
    returns (x: seq<seq<Vec>>)
    requires pool.Shape() && pool.Rows(a, tables) && pool.layers == net.layers
    requires Feeds(a, full) && Entering(net, a, full, x0, 0)
    requires forall i: nat, m: nat :: i < |full| && m < net.layers ==> Holds(net, pool, m, tables[i], full[i], a.starts[i])
    modifies pool.data
    ensures Entering(net, a, full, x, net.layers) && pool.OnlyBlocksOf(tables)
    ensures forall i: nat, m: nat :: i < |full| && m < net.layers ==> Holds(net, pool, m, tables[i], full[i], a.Total(i))
  {
    x := x0;
    var l := 0;
    while l < net.layers
      invariant l <= net.layers
      invariant Entering(net, a, full, x, l)
      invariant forall i: nat, m: nat :: i < |full| && m < l ==> Holds(net, pool, m, tables[i], full[i], a.Total(i))
      invariant forall i: nat, m: nat :: i < |full| && l <= m < net.layers ==> Holds(net, pool, m, tables[i], full[i], a.starts[i])
      invariant pool.OnlyBlocksOf(tables)
    {
      x := LayerStep(net, pool, a, tables, l, x, full);
      l := l + 1;
    }
  }

  /** Next token per row. When no row samples this is plain argmax; otherwise each row with a sampler
      draws from its own generator and the others are still greedy. */
  method PickTokens(net: Network, logits: seq<Vec>, samplers: seq<Option<Sampler>>)
    returns (toks: seq<Token>, smps: seq<Option<Sampler>>)
    requires |logits| == |samplers|
    ensures |toks| == |smps| == |logits|
    ensures forall i :: 0 <= i < |logits| ==> Drawn(net, samplers[i], logits[i], toks[i], smps[i])
  {
    var greedy := seq(|logits|, i requires 0 <= i < |logits| => net.argmax(logits[i]));
    if forall i :: 0 <= i < |samplers| ==> samplers[i].None? {
      return greedy, samplers;
    }
    toks, smps := [], [];
    for i := 0 to |logits|
      invariant |toks| == |smps| == i
      invariant forall k :: 0 <= k < i ==> Drawn(net, samplers[k], logits[k], toks[k], smps[k])
    {
      match samplers[i] {
        case None => toks, smps := toks + [greedy[i]], smps + [None];
        case Some(s) =>
          var (tok, s') := net.draw(s, logits[i]);
          toks, smps := toks + [tok], smps + [Some(s')];
      }
    }
  }

  /** The logits of a row's last real column. */
  function LastLogits(net: Network, a: BatchAccess, i: nat, xs: seq<Vec>): Vec
    requires a.Valid() && i < |a.ns| && |xs| == a.T()
  {
    net.logits(xs[a.ns[i] - 1])
  }

  method Unembed(net: Network, a: BatchAccess, x: seq<seq<Vec>>, ghost full: seq<seq<Token>>) returns (r: seq<Vec>)
    requires Feeds(a, full) && Entering(net, a, full, x, net.layers)
    ensures |r| == |full|
    ensures forall i :: 0 <= i < |full| ==> full[i] != [] && r[i] == Logits(net, full[i])
  {
    r := [];
    for i := 0 to |a.ns|
      invariant |r| == i
      invariant forall k :: 0 <= k < i ==> full[k] != [] && r[k] == Logits(net, full[k])
    {
      r := r + [LastLogits(net, a, i, x[i])];
    }
  }

  method RunAll(net: Network, pool: KVPool, a: BatchAccess, tables: seq<seq<nat>>, x0: seq<seq<Vec>>, ghost full: seq<seq<Token>>)
    returns (x: seq<seq<Vec>>)
    requires pool.Shape() && pool.Rows(a, tables) && pool.layers == net.layers
    requires Feeds(a, full) && Entering(net, a, full, x0, 0)
    requires forall i: nat, m: nat :: i < |full| && m < net.layers ==> Holds(net, pool, m, tables[i], full[i], a.starts[i])
    modifies pool.data
    ensures Entering(net, a, full, x, net.layers) && pool.OthersReadAsBefore(tables)
    ensures forall i: nat, m: nat :: i < |full| && m < net.layers ==> Holds(net, pool, m, tables[i], full[i], a.Total(i))
  {
    x := RunLayers(net, pool, a, tables, x0, full);
    forall m: nat, other: seq<nat>, j: nat |
      m < pool.layers && TableOk(other, pool.numBlocks, pool.blockSize, j + 1) && pool.Away(tables, other)
      ensures pool.At(m, other, j) == old(pool.At(m, other, j))
    {
      var b := other[j / pool.blockSize];
      assert b in other;
      assert forall i :: 0 <= i < |tables| ==> NoShare(tables[i], other);
      assert !pool.InTables(tables, b);
    }
  }

  /** One forward step for a ragged batch. Each row gets the very token (and sampler state) it would
      get if its whole sequence were run alone with no cache, and its cache now covers the tokens fed.
      Whoever owns none of the batch's blocks reads its
      own K/V exactly as before. */
  method StepTokens(net: Network, pool: KVPool, tokenLists: seq<seq<Token>>, starts: seq<nat>, tables: seq<seq<nat>>,
                    samplers: seq<Option<Sampler>>, ghost full: seq<seq<Token>>)
    returns (toks: seq<Token>, smps: seq<Option<Sampler>>)
    requires pool.Shape() && pool.layers == net.layers
    requires |starts| == |tokenLists| == |samplers| == |full| == |tables|
    requires Feeds(BatchAccess(starts, Lens(tokenLists), pool.maxLen), full)
    requires pool.Rows(BatchAccess(starts, Lens(tokenLists), pool.maxLen), tables)
    requires forall i :: 0 <= i < |full| ==> Tail(full[i], starts[i], tokenLists[i])
    requires forall i :: 0 <= i < |full| ==> Cached(net, pool, tables[i], full[i], starts[i])
    modifies pool.data
    ensures |toks| == |smps| == |full|
    ensures forall i :: 0 <= i < |full| ==> full[i] != [] && Drawn(net, samplers[i], Logits(net, full[i]), toks[i], smps[i])
    ensures forall i :: 0 <= i < |full| ==> Cached(net, pool, tables[i], full[i], |full[i]|)
    ensures pool.OthersReadAsBefore(tables)
  {
    var a := BatchAccess(starts, Lens(tokenLists), pool.maxLen);
    var x := Embed(net, a, tokenLists, full);
    x := RunAll(net, pool, a, tables, x, full);
    var logits := Unembed(net, a, x, full);
    toks, smps := PickTokens(net, logits, samplers);
  }
}
