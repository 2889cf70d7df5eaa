/** The KV pools and one forward step's view of them: masks, positions, scatter and gather. */
module Cache {
  import opened Seqs
  import opened BlockMath
  import opened Transformer

  function MaxOf(xs: seq<nat>): (m: nat)
    requires xs != []
    ensures m in xs
    ensures forall i :: 0 <= i < |xs| ==> xs[i] <= m
  {
    if |xs| == 1 then xs[0] else
      var r := MaxOf(xs[1..]);
      assert forall i :: 1 <= i < |xs| ==> xs[i] == xs[1..][i - 1];
      if xs[0] >= r then xs[0] else r
  }

  /** What attention is told about which keys a query may read. */
  datatype Mask = Dense(rows: seq<seq<seq<bool>>>) | IsCausal | NoMask

  /** The geometry of a ragged batch: row i already holds `starts[i]` tokens and gets `ns[i]` more,
      right-padded to the longest row. */
  datatype BatchAccess = BatchAccess(starts: seq<nat>, ns: seq<nat>, maxLen: nat) {

    ghost predicate Valid()
    {
      |starts| == |ns| && ns != [] && forall i :: 0 <= i < |ns| ==> ns[i] >= 1
    }

    function Total(i: nat): nat
      requires i < |starts| == |ns|
    {
      starts[i] + ns[i]
    }

    function T(): (t: nat)
      requires ns != []
      ensures forall i :: 0 <= i < |ns| ==> ns[i] <= t
    {
      MaxOf(ns)
    }

    function Lk(): (lk: nat)
      requires |starts| == |ns| && ns != []
      ensures forall i :: 0 <= i < |ns| ==> Total(i) <= lk
    {
      var totals := seq(|ns|, i requires 0 <= i < |ns| => Total(i));
      assert forall i :: 0 <= i < |ns| ==> totals[i] == Total(i);
      MaxOf(totals)
    }

    function BuildMask(lk: nat): Mask
      requires |starts| == |ns| && ns != []
    {
      if |ns| == 1 && starts[0] == 0 && T() > 1 then IsCausal
      else if |ns| == 1 && T() == 1 then NoMask
      else Dense(seq(|ns|, i requires 0 <= i < |ns| =>
                   seq(T(), t => seq(lk, j => j <= starts[i] + t && j < Total(i)))))
    }

    /** May the query at column `t` of row `i` read key `j`? */
    predicate Admits(lk: nat, i: nat, t: nat, j: nat)
      requires |starts| == |ns| && i < |ns| && t < T() && j < lk
    {
      match BuildMask(lk)
      case IsCausal => j <= t
      case NoMask => true
      case Dense(rows) => rows[i][t][j]
    }

    /** The clamp only matters for pad columns of short rows. */
    function Position(i: nat, t: nat): int
      requires i < |starts|
    {
      if starts[i] + t > maxLen - 1 then maxLen - 1 else starts[i] + t
    }

    /** The keys a query attends to among the first `n`, in key order. */
    function Select(lk: nat, i: nat, t: nat, keys: seq<KV>, n: nat): seq<KV>
      requires |starts| == |ns| && i < |ns| && t < T() && n <= lk && n <= |keys|
    {
      if n == 0 then []
      else Select(lk, i, t, keys, n - 1) + (if Admits(lk, i, t, n - 1) then [keys[n - 1]] else [])
    }
  }

  /** Mask soundness: whichever of the three mask forms a batch uses, a real query sees exactly the
      keys up to its own absolute position. */
  lemma MaskSound(a: BatchAccess, i: nat, t: nat, j: nat)
    requires a.Valid() && i < |a.ns| && t < a.ns[i] && j < a.Lk()
    ensures t < a.T()
    ensures a.Admits(a.Lk(), i, t, j) <==> j <= a.starts[i] + t
  {
    if |a.ns| == 1 {
      assert a.T() == a.ns[0];
      assert a.Lk() == a.Total(0);
    }
  }

  lemma {:induction false} SelectIsPrefix(a: BatchAccess, i: nat, t: nat, keys: seq<KV>, n: nat)
    requires a.Valid() && i < |a.ns| && t < a.ns[i] && n <= a.Lk() && n <= |keys|
    ensures t < a.T()
    ensures a.Select(a.Lk(), i, t, keys, n) ==
            keys[..if n <= a.starts[i] + t + 1 then n else a.starts[i] + t + 1]
  {
    if n > 0 {
      SelectIsPrefix(a, i, t, keys, n - 1);
      MaskSound(a, i, t, n - 1);
    }
  }

  /** Every block a table names exists, none twice, and together they hold `n` positions. */
  ghost predicate TableOk(table: seq<nat>, numBlocks: nat, blockSize: nat, n: nat)
  {
    && NoDup(table)
    && (forall k :: 0 <= k < |table| ==> table[k] < numBlocks)
    && n <= |table| * blockSize
  }

  lemma TableShorter(table: seq<nat>, numBlocks: nat, blockSize: nat, n: nat, m: nat)
    requires TableOk(table, numBlocks, blockSize, n) && m <= n
    ensures TableOk(table, numBlocks, blockSize, m)
  {
  }

  lemma TableNotEmpty(table: seq<nat>, numBlocks: nat, blockSize: nat, n: nat)
    requires TableOk(table, numBlocks, blockSize, n) && n > 0 && blockSize > 0
    ensures table != [] && numBlocks > 0
  {
    if table != [] { assert table[0] < numBlocks; }
  }

  ghost predicate NoShare(s: seq<nat>, t: seq<nat>)
  {
    forall b :: b in s ==> b !in t
  }

  ghost predicate Disjoint(tables: seq<seq<nat>>)
  {
    forall i, j :: 0 <= i < |tables| && 0 <= j < |tables| && i != j ==> NoShare(tables[i], tables[j])
  }

  /** Both KV layouts. `paged`: `numBlocks` blocks of `blockSize` tokens, addressed through block
      tables. Otherwise: `numBlocks` contiguous slots, where the one-element table names the slot and
      `blockSize` is the slot's full length. One K and one V tensor per layer, paired here. */
  class KVPool {
    const layers: nat
    const numBlocks: nat
    const blockSize: nat
    const maxLen: nat
    const paged: bool
    const data: array3<KV>

    ghost predicate Shape()
    {
      && blockSize > 0
      && (!paged ==> blockSize == maxLen)
      && data.Length0 == layers && data.Length1 == numBlocks && data.Length2 == blockSize
    }

    constructor (layers: nat, numBlocks: nat, blockSize: nat, maxLen: nat, paged: bool)
      requires blockSize > 0 && (!paged ==> blockSize == maxLen)
      ensures Shape() && fresh(data)
      ensures this.layers == layers && this.numBlocks == numBlocks && this.blockSize == blockSize
      ensures this.maxLen == maxLen && this.paged == paged
    {
      this.layers, this.numBlocks, this.blockSize := layers, numBlocks, blockSize;
      this.maxLen, this.paged := maxLen, paged;
      data := new KV[layers, numBlocks, blockSize]((l, b, o) => KV([], []));
    }

    /** What the table's owner stored for position `j` of its sequence. */
    function At(l: nat, table: seq<nat>, j: nat): KV
      requires Shape() && l < layers && TableOk(table, numBlocks, blockSize, j + 1)
      reads data
      ensures 0 <= j / blockSize < |table| && table[j / blockSize] < numBlocks && 0 <= j % blockSize < blockSize
    {
      PositionInBlock(j, blockSize, |table|);
      data[l, table[j / blockSize], j % blockSize]
    }

    /** The rows of a step: each table is big enough for its row and no two share a block. */
    ghost predicate Rows(a: BatchAccess, tables: seq<seq<nat>>)
    {
      && a.Valid() && |tables| == |a.ns| && Disjoint(tables)
      && (forall i :: 0 <= i < |tables| ==>
                        TableOk(tables[i], numBlocks, blockSize, a.Total(i)) && a.Total(i) <= maxLen)
      && (!paged ==> forall i :: 0 <= i < |tables| ==> |tables[i]| == 1)
    }

    /** Column `t` of row `i` is a real token and lives in cell (b, o). */
    ghost predicate Hits(a: BatchAccess, tables: seq<seq<nat>>, i: nat, t: nat, b: nat, o: nat)
    {
      blockSize > 0 && i < |tables| && i < |a.ns| && i < |a.starts| && t < a.ns[i] &&
      IsCell(tables[i], a.starts[i] + t, b, o)
    }

    /** Position `p` of the sequence owning `table` is stored in cell (b, o). */
    ghost predicate IsCell(table: seq<nat>, p: nat, b: nat, o: nat)
      requires blockSize > 0
    {
      p / blockSize < |table| && table[p / blockSize] == b && p % blockSize == o
    }

    lemma CellUnique(table: seq<nat>, p: nat, q: nat, b: nat, o: nat)
      requires blockSize > 0 && NoDup(table) && IsCell(table, p, b, o) && IsCell(table, q, b, o)
      ensures p == q
    {
      CellDeterminesPosition(p, q, blockSize);
    }

    lemma CellExists(table: seq<nat>, p: nat) returns (b: nat, o: nat)
      requires blockSize > 0 && TableOk(table, numBlocks, blockSize, p + 1)
      ensures b < numBlocks && o < blockSize && b in table && IsCell(table, p, b, o)
      ensures b == table[p / blockSize] && o == p % blockSize
    {
      PositionInBlock(p, blockSize, |table|);
      b, o := table[p / blockSize], p % blockSize;
    }

    /** Across disjoint tables a cell belongs to one row and one position of it. */
    lemma OneOwner(tables: seq<seq<nat>>, i: nat, p: nat, i': nat, q: nat, b: nat, o: nat)
      requires blockSize > 0 && Disjoint(tables) && i < |tables| && i' < |tables| && NoDup(tables[i])
      requires IsCell(tables[i], p, b, o) && IsCell(tables[i'], q, b, o)
      ensures i == i' && p == q
    {
      assert b in tables[i] && b in tables[i'];
      var apart := NoShare(tables[i], tables[i']);
      if i == i' {
        CellUnique(tables[i], p, q, b, o);
      }
    }

    /** Every real column of the step is stored in its row's cell at layer `l`. */
    ghost predicate Placed(a: BatchAccess, tables: seq<seq<nat>>, l: nat, kv: seq<seq<KV>>)
      requires Shape() && l < layers
      reads data
    {
      forall i: nat, t: nat, b: nat, o: nat :: b < numBlocks && o < blockSize && Hits(a, tables, i, t, b, o)
        ==> i < |kv| && t < |kv[i]| && data[l, b, o] == kv[i][t]
    }

    /** Exactly the real columns of the step were stored, at layer `l`; every other cell of the
        pool is untouched. Pad columns hit no cell, so they are never written. */
    twostate predicate Wrote(a: BatchAccess, tables: seq<seq<nat>>, l: nat, kv: seq<seq<KV>>)
      requires Shape() && Rows(a, tables) && l < layers
      reads data
    {
      && Placed(a, tables, l, kv)
      && (forall m: nat, b: nat, o: nat :: m < layers && b < numBlocks && o < blockSize &&
            (m == l ==> forall i: nat, t: nat :: !Hits(a, tables, i, t, b, o))
            ==> data[m, b, o] == old(data[m, b, o]))
    }

    ghost predicate InTables(tables: seq<seq<nat>>, b: nat)
    {
      exists i :: 0 <= i < |tables| && b in tables[i]
    }

    /** Blocks named by none of the tables are as they were. */
    twostate predicate OnlyBlocksOf(tables: seq<seq<nat>>)
      requires Shape()
      reads data
    {
      forall m: nat, b: nat, o: nat :: m < layers && b < numBlocks && o < blockSize && !InTables(tables, b)
        ==> data[m, b, o] == old(data[m, b, o])
    }

    /** `other` shares no block with any of the tables. */
    ghost predicate Away(tables: seq<seq<nat>>, other: seq<nat>)
    {
      forall i {:trigger tables[i]} :: 0 <= i < |tables| ==> NoShare(tables[i], other)
    }

    /** Non-interference, seen from outside: a table away from the step's rows reads as before. */
    twostate predicate OthersReadAsBefore(tables: seq<seq<nat>>)
      requires Shape()
      reads data
    {
      forall m: nat, other: seq<nat>, j: nat {:trigger At(m, other, j)} ::
        m < layers && TableOk(other, numBlocks, blockSize, j + 1) && Away(tables, other)
        ==> At(m, other, j) == old(At(m, other, j))
    }

    lemma OutsideNotHit(a: BatchAccess, tables: seq<seq<nat>>, b: nat, o: nat)
      requires !InTables(tables, b)
      ensures forall i: nat, t: nat :: !Hits(a, tables, i, t, b, o)
    {
    }

    /** Scatter one step's K/V: row i's columns go to positions starts[i].. of its own sequence. */
    method Write(a: BatchAccess, tables: seq<seq<nat>>, l: nat, kv: seq<seq<KV>>)
      requires Shape() && Rows(a, tables) && l < layers
      requires |kv| == |a.ns| && forall i :: 0 <= i < |kv| ==> |kv[i]| == a.T()
      modifies data
      ensures Wrote(a, tables, l, kv) && OnlyBlocksOf(tables)
    {
      if a.T() == 1 {
        WriteDecode(a, tables, l, kv);
      } else {
        WritePrefill(a, tables, l, kv);
      }
      forall m: nat, b: nat, o: nat | m < layers && b < numBlocks && o < blockSize && !InTables(tables, b)
        ensures data[m, b, o] == old(data[m, b, o])
      {
        OutsideNotHit(a, tables, b, o);
      }
    }

    /** Decode: one token per row, a single scatter for the whole batch. */
    method WriteDecode(a: BatchAccess, tables: seq<seq<nat>>, l: nat, kv: seq<seq<KV>>)
      requires Shape() && Rows(a, tables) && l < layers && a.T() == 1
      requires |kv| == |a.ns| && forall i :: 0 <= i < |kv| ==> |kv[i]| == a.T()
      modifies data
      ensures Wrote(a, tables, l, kv)
    {
      for i := 0 to |a.ns|
        invariant forall i': nat, t: nat, b: nat, o: nat :: i' < i && b < numBlocks && o < blockSize &&
                    Hits(a, tables, i', t, b, o)
                    ==> t < |kv[i']| && data[l, b, o] == kv[i'][t]
        invariant forall m: nat, b: nat, o: nat :: m < layers && b < numBlocks && o < blockSize &&
                    (m == l ==> forall i': nat, t: nat :: i' < i ==> !Hits(a, tables, i', t, b, o))
                    ==> data[m, b, o] == old(data[m, b, o])
      {
        var b, o := Cell(a, tables, i, 0);
        data[l, b, o] := kv[i][0];
      }
    }

    /** Prefill: row by row, the real columns only. */
    method WritePrefill(a: BatchAccess, tables: seq<seq<nat>>, l: nat, kv: seq<seq<KV>>)
      requires Shape() && Rows(a, tables) && l < layers
      requires |kv| == |a.ns| && forall i :: 0 <= i < |kv| ==> |kv[i]| == a.T()
      modifies data
      ensures Wrote(a, tables, l, kv)
    {
      for i := 0 to |a.ns|
        invariant forall i': nat, t: nat, b: nat, o: nat :: i' < i && b < numBlocks && o < blockSize &&
                    Hits(a, tables, i', t, b, o)
                    ==> t < |kv[i']| && data[l, b, o] == kv[i'][t]
        invariant forall m: nat, b: nat, o: nat :: m < layers && b < numBlocks && o < blockSize &&
                    (m == l ==> forall i': nat, t: nat :: i' < i ==> !Hits(a, tables, i', t, b, o))
                    ==> data[m, b, o] == old(data[m, b, o])
      {
        for t := 0 to a.ns[i]
          invariant forall i': nat, t': nat, b: nat, o: nat :: (i' < i || (i' == i && t' < t)) && b < numBlocks && o < blockSize &&
                      Hits(a, tables, i', t', b, o)
                      ==> t' < |kv[i']| && data[l, b, o] == kv[i'][t']
          invariant forall m: nat, b: nat, o: nat :: m < layers && b < numBlocks && o < blockSize &&
                      (m == l ==> forall i': nat, t': nat :: (i' < i || (i' == i && t' < t)) ==> !Hits(a, tables, i', t', b, o))
                      ==> data[m, b, o] == old(data[m, b, o])
        {
          var b, o := Cell(a, tables, i, t);
          data[l, b, o] := kv[i][t];
        }
      }
    }

    /** The cell of column `t` of row `i`, which no other column of the step shares. */
    method Cell(a: BatchAccess, tables: seq<seq<nat>>, i: nat, t: nat) returns (b: nat, o: nat)
      requires Shape() && Rows(a, tables) && i < |tables| && t < a.ns[i]
      ensures b < numBlocks && o < blockSize
      ensures Hits(a, tables, i, t, b, o)
      ensures forall i': nat, t': nat :: Hits(a, tables, i', t', b, o) ==> i' == i && t' == t
    {
      var p := a.starts[i] + t;
      PositionInBlock(p, blockSize, |tables[i]|);
      if paged {
        b, o := tables[i][p / blockSize], p % blockSize;
      } else {
        FirstBlock(p, blockSize);
        b, o := tables[i][0], p;
      }
      assert IsCell(tables[i], p, b, o);
      forall i': nat, t': nat | Hits(a, tables, i', t', b, o) ensures i' == i && t' == t {
        OneOwner(tables, i, p, i', a.starts[i'] + t', b, o);
      }
    }

    /** Non-interference, seen from a row of the step: the cells of the positions it feeds are hit by
        its own columns, and those of its earlier positions by none, whatever the other rows write. */
    lemma RowCells(a: BatchAccess, tables: seq<seq<nat>>, i: nat, j: nat)
      requires Shape() && Rows(a, tables) && i < |tables| && j < a.Total(i)
      ensures TableOk(tables[i], numBlocks, blockSize, j + 1)
      ensures 0 <= j / blockSize < |tables[i]| && 0 <= j % blockSize < blockSize
      ensures j >= a.starts[i] ==> Hits(a, tables, i, j - a.starts[i], tables[i][j / blockSize], j % blockSize)
      ensures j < a.starts[i] ==>
                forall i': nat, t': nat :: !Hits(a, tables, i', t', tables[i][j / blockSize], j % blockSize)
    {
      var b, o := CellExists(tables[i], j);
      if j < a.starts[i] {
        NotHit(a, tables, i, j, b, o);
      }
    }

    lemma NotHit(a: BatchAccess, tables: seq<seq<nat>>, i: nat, j: nat, b: nat, o: nat)
      requires Shape() && Rows(a, tables) && i < |tables| && j < a.starts[i]
      requires IsCell(tables[i], j, b, o)
      ensures forall i': nat, t': nat :: !Hits(a, tables, i', t', b, o)
    {
      forall i': nat, t': nat ensures !Hits(a, tables, i', t', b, o) {
        EarlierCell(a, tables, i, j, i', t', b, o);
      }
    }

    /** A cell below a row's start is not the target of any column of the step. */
    lemma EarlierCell(a: BatchAccess, tables: seq<seq<nat>>, i: nat, j: nat, i': nat, t': nat, b: nat, o: nat)
      requires Shape() && Rows(a, tables) && i < |tables| && j < a.starts[i]
      requires IsCell(tables[i], j, b, o)
      ensures !Hits(a, tables, i', t', b, o)
    {
      if Hits(a, tables, i', t', b, o) {
        OneOwner(tables, i, j, i', a.starts[i'] + t', b, o);
      }
    }

    /** A table cut or padded with block 0 to exactly `nb` entries. */
    function Padded(table: seq<nat>, nb: nat): (r: seq<nat>)
      requires numBlocks > 0 && forall k :: 0 <= k < |table| ==> table[k] < numBlocks
      ensures |r| == nb && forall k :: 0 <= k < nb ==> r[k] < numBlocks
      ensures forall k :: 0 <= k < nb && k < |table| ==> r[k] == table[k]
    {
      seq(nb, k requires 0 <= k < nb => if k < |table| then table[k] else 0)
    }

    /** `r` starts with the `n` entries the table's owner stored. */
    ghost predicate ReadsRow(l: nat, table: seq<nat>, n: nat, r: seq<KV>)
      requires Shape() && l < layers && TableOk(table, numBlocks, blockSize, n)
      reads data
    {
      n <= |r| && forall j: nat :: j < n ==> TableOk(table, numBlocks, blockSize, j + 1) && r[j] == At(l, table, j)
    }

    function GatherPaged(l: nat, table: seq<nat>, lk: nat, n: nat): (r: seq<KV>)
      requires Shape() && l < layers && 0 < n <= lk && TableOk(table, numBlocks, blockSize, n)
      reads data
      ensures |r| == lk && ReadsRow(l, table, n, r)
    {
      var nb := CeilDiv(lk, blockSize);
      CeilDivBounds(lk, blockSize); CeilDivPositive(lk, blockSize);
      TableNotEmpty(table, numBlocks, blockSize, n);
      var r := GatherBlocks(l, Padded(table, nb), nb, lk);
      GatheredRow(l, table, n, nb, r);
      r
    }

    /** Copy the blocks out in table order and drop the tail of the last one. */
    function GatherBlocks(l: nat, padded: seq<nat>, nb: nat, lk: nat): (r: seq<KV>)
      requires Shape() && l < layers && |padded| == nb && lk <= nb * blockSize
      requires forall k :: 0 <= k < nb ==> padded[k] < numBlocks
      reads data
      ensures |r| == lk && forall j :: 0 <= j < lk ==> r[j] == CellOf(l, padded, nb, j)
    {
      seq(lk, j requires 0 <= j < lk reads data => CellOf(l, padded, nb, j))
    }

    lemma GatheredRow(l: nat, table: seq<nat>, n: nat, nb: nat, r: seq<KV>)
      requires Shape() && l < layers && numBlocks > 0 && TableOk(table, numBlocks, blockSize, n)
      requires n <= |r| <= nb * blockSize && forall j :: 0 <= j < |r| ==> r[j] == CellOf(l, Padded(table, nb), nb, j)
      ensures ReadsRow(l, table, n, r)
    {
      hide CellOf, At;
      forall j: nat | j < n ensures TableOk(table, numBlocks, blockSize, j + 1) && r[j] == At(l, table, j) {
        TableShorter(table, numBlocks, blockSize, n, j + 1);
        PaddedReads(l, table, nb, j);
        assert r[j] == CellOf(l, Padded(table, nb), nb, j);
      }
    }

    /** Padding a table with block 0 changes nothing its owner reads. */
    lemma PaddedReads(l: nat, table: seq<nat>, nb: nat, j: nat)
      requires Shape() && l < layers && TableOk(table, numBlocks, blockSize, j + 1)
      requires j < nb * blockSize && numBlocks > 0
      ensures CellOf(l, Padded(table, nb), nb, j) == At(l, table, j)
    {
      PositionInBlock(j, blockSize, |table|);
      PositionInBlock(j, blockSize, nb);
    }

    function CellOf(l: nat, padded: seq<nat>, nb: nat, j: nat): KV
      requires Shape() && l < layers && |padded| == nb && j < nb * blockSize
      requires forall k :: 0 <= k < nb ==> padded[k] < numBlocks
      reads data
    {
      PositionInBlock(j, blockSize, nb);
      data[l, padded[j / blockSize], j % blockSize]
    }

    function GatherSlot(l: nat, table: seq<nat>, lk: nat, n: nat): (r: seq<KV>)
      requires Shape() && l < layers && 0 < n <= lk <= blockSize && TableOk(table, numBlocks, blockSize, n)
      requires |table| == 1
      reads data
      ensures |r| == lk && ReadsRow(l, table, n, r)
    {
      var r := seq(lk, j requires 0 <= j < lk reads data => data[l, table[0], j]);
      SlotRow(l, table, n, r);
      r
    }

    lemma SlotRow(l: nat, table: seq<nat>, n: nat, r: seq<KV>)
      requires Shape() && l < layers && n <= |r| <= blockSize && TableOk(table, numBlocks, blockSize, n) && |table| == 1
      requires forall j :: 0 <= j < |r| ==> r[j] == data[l, table[0], j]
      ensures ReadsRow(l, table, n, r)
    {
      forall j: nat | j < n ensures TableOk(table, numBlocks, blockSize, j + 1) && r[j] == At(l, table, j) {
        TableShorter(table, numBlocks, blockSize, n, j + 1);
        FirstBlock(j, blockSize);
        assert r[j] == data[l, table[0], j];
      }
    }

    /** What attention reads for one row: `lk` keys, of which the first `n` are the row's own and the
        rest (another row's block 0, or stale cells) lie beyond the mask. */
    function Gather(l: nat, table: seq<nat>, lk: nat, n: nat): (r: seq<KV>)
      requires Shape() && l < layers && 0 < n <= lk <= maxLen && TableOk(table, numBlocks, blockSize, n)
      requires !paged ==> |table| == 1
      reads data
      ensures |r| == lk && ReadsRow(l, table, n, r)
    {
      if paged then GatherPaged(l, table, lk, n) else GatherSlot(l, table, lk, n)
    }
  }
}
