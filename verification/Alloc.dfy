/** What the two KV allocators do, as values. Slots are the special case of one block per request
    that is as long as the context. */
module Alloc {
  import opened Seqs
  import opened BlockMath
  import opened Requests

  /** `Blocks(true)` admits against worst-case commitments; `Blocks(false)` admits optimistically. */
  datatype Kind = Slots | Blocks(reserve: bool)

  datatype Memory = Memory(kind: Kind, numBlocks: nat, blockSize: nat, free: seq<nat>, committed: map<string, int>) {

    ghost predicate Shape() { blockSize > 0 }

    function Need(r: Req): int
      requires blockSize > 0
    {
      match kind
      case Slots => 1
      case Blocks(_) => CeilDiv(r.SeqLen(), blockSize)
    }

    function Worst(r: Req): int
      requires blockSize > 0
    {
      CeilDiv(|r.prompt| + r.maxNew, blockSize)
    }

    function FitsEver(promptLen: nat, maxNew: int): bool
      requires blockSize > 0
    {
      match kind
      case Slots => promptLen + maxNew <= blockSize
      case Blocks(_) => CeilDiv(promptLen + maxNew, blockSize) <= numBlocks
    }

    ghost predicate CanAllocate(r: Req, headroom: nat)
      requires blockSize > 0
    {
      match kind
      case Slots => |free| > 0
      case Blocks(reserve) =>
        if reserve then Sum(committed) + Worst(r) <= numBlocks
        else |free| >= Need(r) + headroom
    }

    /** The blocks popped off the end of the free list, in the order they come off. */
    function Taken(n: nat): seq<nat>
      requires n <= |free|
    {
      Reverse(free[|free| - n..])
    }

    /** Take the initial blocks of an admitted request. */
    function Allocate(r: Req): Memory
      requires blockSize > 0 && 0 <= Need(r) <= |free|
    {
      this.(free := free[..|free| - Need(r)],
            committed := if kind.Slots? then committed else committed[r.id := Worst(r)])
    }

    function Release(r: Req): Memory
    {
      this.(free := free + Reverse(r.table), committed := committed - {r.id})
    }
  }

  /** The front door's test in positions: prompt and budget within one slot, or within all blocks together. */
  lemma FitsEverPositions(m: Memory, promptLen: nat, maxNew: int)
    requires m.blockSize > 0
    ensures m.FitsEver(promptLen, maxNew) <==> promptLen + maxNew <= (if m.kind.Slots? then 1 else m.numBlocks) * m.blockSize
  {
    CeilDivLeast(promptLen + maxNew, m.blockSize, m.numBlocks);
  }

  /** Result of growing a table to `need` blocks; `ok` is false when the free list ran dry first. */
  datatype Growth = Growth(free: seq<nat>, table: seq<nat>, ok: bool)

  function Grow(free: seq<nat>, table: seq<nat>, need: int): (g: Growth)
    ensures multiset(g.free) + multiset(g.table) == multiset(free) + multiset(table)
    ensures |g.table| >= |table|
    decreases |free|
  {
    if |table| >= need then Growth(free, table, true)
    else if free == [] then Growth(free, table, false)
    else
      var n := |free| - 1;
      assert free == free[..n] + [free[n]];
      Grow(free[..n], table + [free[n]], need)
  }

  /** Make room for the token about to be fed. Slots reserve it all at admission. */
  function AppendSlot(m: Memory, r: Req): Growth
    requires m.blockSize > 0
  {
    match m.kind
    case Slots => Growth(m.free, r.table, true)
    case Blocks(_) => Grow(m.free, r.table, m.Need(r))
  }

  /** When at most one block is missing, growing takes exactly that block or fails and takes none. */
  lemma GrowByOne(free: seq<nat>, table: seq<nat>, need: int)
    requires |table| <= need <= |table| + 1
    ensures Grow(free, table, need) ==
            if |table| == need then Growth(free, table, true)
            else if free == [] then Growth(free, table, false)
            else Growth(free[..|free| - 1], table + [free[|free| - 1]], true)
  {
  }

  lemma {:induction false} ReverseAppend<T>(xs: seq<T>, x: T)
    ensures Reverse(xs + [x]) == [x] + Reverse(xs)
  {
    if xs == [] {
      assert xs + [x] == [x] && [x][1..] == [];
    } else {
      assert (xs + [x])[1..] == xs[1..] + [x];
      ReverseAppend(xs[1..], x);
    }
  }

  lemma {:induction false} ReverseTwice<T>(xs: seq<T>)
    ensures Reverse(Reverse(xs)) == xs
  {
    if xs != [] {
      ReverseTwice(xs[1..]);
      ReverseAppend(Reverse(xs[1..]), xs[0]);
      assert [xs[0]] + xs[1..] == xs;
    }
  }

  /** Giving blocks back undoes taking them: the free list is as it was, in the same order, and so are the
      commitments if the id was not in use. */
  lemma ReleaseUndoesAllocate(m: Memory, r: Req)
    requires m.blockSize > 0 && 0 <= m.Need(r) <= |m.free| && r.id !in m.committed
    ensures m.Allocate(r).Release(r.(table := m.Taken(m.Need(r)))) == m
  {
    TakenBack(m, m.Need(r));
    Uncommitted(m.committed, r.id, m.Worst(r));
    hide Memory.Need, Memory.Worst, Memory.Taken;
  }

  lemma TakenBack(m: Memory, n: nat)
    requires n <= |m.free|
    ensures m.free[..|m.free| - n] + Reverse(m.Taken(n)) == m.free
  {
    ReverseTwice(m.free[|m.free| - n..]);
  }

  lemma Uncommitted(committed: map<string, int>, id: string, worst: int)
    requires id !in committed
    ensures committed - {id} == committed && committed[id := worst] - {id} == committed
  {
  }

  /** And the blocks given back last are the first to be handed out again, in the order of the table. */
  lemma LastInFirstOut(m: Memory, r: Req)
    ensures |m.Release(r).free| >= |r.table| && m.Release(r).Taken(|r.table|) == r.table
  {
    var free := m.free + Reverse(r.table);
    assert free[|free| - |r.table|..] == Reverse(r.table);
    ReverseTwice(r.table);
  }

  // ---------------------------------------------------------------- all tables together

  /** Every block held by any request, with multiplicity. */
  ghost function Tables(reqs: seq<Req>): multiset<nat>
  {
    if reqs == [] then multiset{} else Tables(reqs[..|reqs| - 1]) + multiset(reqs[|reqs| - 1].table)
  }

  lemma {:induction false} TablesUpdate(reqs: seq<Req>, h: nat, r: Req)
    requires h < |reqs|
    ensures Tables(reqs[h := r]) == Tables(reqs) - multiset(reqs[h].table) + multiset(r.table)
    ensures multiset(reqs[h].table) <= Tables(reqs)
  {
    var n := |reqs| - 1;
    if h == n {
      assert reqs[h := r][..n] == reqs[..n];
    } else {
      TablesUpdate(reqs[..n], h, r);
      assert reqs[h := r][..n] == reqs[..n][h := r];
    }
  }

  lemma TablesAppend(reqs: seq<Req>, r: Req)
    ensures Tables(reqs + [r]) == Tables(reqs) + multiset(r.table)
  {
    assert (reqs + [r])[..|reqs|] == reqs;
  }

  /** Two different requests' tables, taken together, are part of what is held. */
  lemma {:induction false} TablesPair(reqs: seq<Req>, g: nat, h: nat)
    requires g < h < |reqs|
    ensures multiset(reqs[g].table) + multiset(reqs[h].table) <= Tables(reqs)
  {
    var n := |reqs| - 1;
    if h == n {
      TablesUpdate(reqs[..n], g, reqs[g]);
    } else {
      TablesPair(reqs[..n], g, h);
    }
  }

  /** Requests whose tables stay within commitments under distinct ids hold at most the committed sum. */
  lemma {:induction false} TablesWithinCommitted(reqs: seq<Req>, m: map<string, int>)
    requires forall k :: k in m ==> m[k] >= 0
    requires forall h :: 0 <= h < |reqs| && reqs[h].table != [] ==> reqs[h].id in m && |reqs[h].table| <= m[reqs[h].id]
    requires forall g, h :: 0 <= g < h < |reqs| && reqs[g].table != [] && reqs[h].table != [] ==> reqs[g].id != reqs[h].id
    ensures |Tables(reqs)| <= Sum(m)
  {
    if reqs == [] {
      SumNonNegative(m);
    } else {
      var r := reqs[|reqs| - 1];
      if r.table == [] {
        TablesWithinCommitted(reqs[..|reqs| - 1], m);
      } else {
        TablesWithinCommitted(reqs[..|reqs| - 1], m - {r.id});
        SumRemove(m, r.id);
      }
    }
  }

  lemma {:induction false} SumNonNegative(m: map<string, int>)
    requires forall k :: k in m ==> m[k] >= 0
    ensures Sum(m) >= 0
    decreases |m|
  {
    if m != map[] {
      var k :| k in m && Sum(m) == m[k] + Sum(m - {k});
      assert (m - {k}).Keys == m.Keys - {k};
      SumNonNegative(m - {k});
    }
  }
}
