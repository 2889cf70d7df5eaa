/** The two allocators as the engine updates them: in place, one free list, one table per request.
    Each method is proved against the value-level account in `Alloc`. */
module BlockManager {
  import opened Seqs
  import opened BlockMath
  import opened Requests
  import opened Alloc

  /** The initial free list [n-1, ..., 0]. */
  function Countdown(n: nat): (r: seq<nat>)
    ensures |r| == n && forall i :: 0 <= i < n ==> r[i] == n - 1 - i
  {
    if n == 0 then [] else [n - 1] + Countdown(n - 1)
  }

  lemma {:induction false} CountdownAll(n: nat)
    ensures multiset(Countdown(n)) == Indices(n)
  {
    if n > 0 { CountdownAll(n - 1); }
  }

  /** Contiguous slots: one full-length slot per request, reserved at admission. */
  class SlotManager {
    const nSlots: nat
    const maxLen: nat
    var freeSlots: seq<nat>

    ghost function Mem(): Memory
      reads this
    {
      Memory(Slots, nSlots, maxLen, freeSlots, map[])
    }

    constructor (nSlots: nat, maxLen: nat)
      ensures Mem() == Memory(Slots, nSlots, maxLen, Countdown(nSlots), map[])
      ensures this.nSlots == nSlots && this.maxLen == maxLen
    {
      this.nSlots, this.maxLen := nSlots, maxLen;
      freeSlots := Countdown(nSlots);
    }

    method CanAllocate(req: Request, headroom: nat) returns (ok: bool)
      requires maxLen > 0
      ensures ok == Mem().CanAllocate(req.Snap(), headroom)
    {
      ok := |freeSlots| > 0;
    }

    method Allocate(req: Request)
      requires maxLen > 0 && 0 <= Mem().Need(req.Snap()) <= |freeSlots|
      modifies this, req`table
      ensures Mem() == old(Mem().Allocate(req.Snap()))
      ensures req.table == old(Mem().Taken(Mem().Need(req.Snap())))
    {
      var n := |freeSlots| - 1;
      assert freeSlots[n..] == [freeSlots[n]];
      req.table := [freeSlots[n]];
      freeSlots := freeSlots[..n];
    }

    method AppendSlot(req: Request) returns (ok: bool)
      requires maxLen > 0
      ensures Alloc.AppendSlot(Mem(), req.Snap()) == Growth(freeSlots, req.table, ok)
    {
      ok := true;
    }

    /** Every slot-backed request holds exactly its one slot. */
    method Free(req: Request)
      requires |req.table| == 1
      modifies this, req`table
      ensures Mem() == old(Mem().Release(req.Snap())) && req.table == []
    {
      assert Reverse(req.table) == [req.table[0]];
      freeSlots := freeSlots + [req.table[0]];
      req.table := [];
    }
  }

  /** Fixed-size blocks handed out only when a sequence reaches them. */
  class BlockManager {
    const numBlocks: nat
    const blockSize: nat
    const reserveMaxNew: bool
    var freeBlocks: seq<nat>
    var committed: map<string, int>

    ghost function Mem(): Memory
      reads this
    {
      Memory(Blocks(reserveMaxNew), numBlocks, blockSize, freeBlocks, committed)
    }

    constructor (numBlocks: nat, blockSize: nat, reserveMaxNew: bool)
      ensures Mem() == Memory(Blocks(reserveMaxNew), numBlocks, blockSize, Countdown(numBlocks), map[])
      ensures this.numBlocks == numBlocks && this.blockSize == blockSize && this.reserveMaxNew == reserveMaxNew
    {
      this.numBlocks, this.blockSize, this.reserveMaxNew := numBlocks, blockSize, reserveMaxNew;
      freeBlocks := Countdown(numBlocks);
      committed := map[];
    }

    method CommittedTotal() returns (total: int)
      ensures total == Sum(committed)
    {
      total := 0;
      var rest := committed;
      while rest != map[]
        invariant total + Sum(rest) == Sum(committed)
        decreases |rest|
      {
        var k :| k in rest;
        SumRemove(rest, k);
        assert (rest - {k}).Keys == rest.Keys - {k};
        total := total + rest[k];
        rest := rest - {k};
      }
    }

    method CanAllocate(req: Request, headroom: nat) returns (ok: bool)
      requires blockSize > 0
      ensures ok == Mem().CanAllocate(req.Snap(), headroom)
    {
      var need := CeilDiv(req.SeqLen(), blockSize);
      if reserveMaxNew {
        var worst := CeilDiv(|req.prompt| + req.maxNew, blockSize);
        var total := CommittedTotal();
        ok := total + worst <= numBlocks;
      } else {
        ok := |freeBlocks| >= need + headroom;
      }
    }

    /** The source's assertion that the blocks are there is this method's precondition. */
    method Allocate(req: Request)
      requires blockSize > 0 && 0 <= Mem().Need(req.Snap()) <= |freeBlocks|
      modifies this, req`table
      ensures Mem() == old(Mem().Allocate(req.Snap()))
      ensures req.table == old(Mem().Taken(Mem().Need(req.Snap())))
    {
      hide CeilDiv, Reverse;
      req.table := Pop(CeilDiv(req.SeqLen(), blockSize));
      committed := committed[req.id := CeilDiv(|req.prompt| + req.maxNew, blockSize)];
    }

    /** Pop `n` blocks off the end of the free list. */
    method Pop(n: nat) returns (table: seq<nat>)
      requires n <= |freeBlocks|
      modifies this`freeBlocks
      ensures freeBlocks == old(freeBlocks)[..|old(freeBlocks)| - n]
      ensures table == Reverse(old(freeBlocks)[|old(freeBlocks)| - n..])
    {
      ghost var free := freeBlocks;
      table := [];
      for k := 0 to n
        invariant freeBlocks == free[..|free| - k] && table == Reverse(free[|free| - k..])
      {
        var last := |freeBlocks| - 1;
        assert free[last..] == [free[last]] + free[last + 1..];
        table := table + [freeBlocks[last]];
        freeBlocks := freeBlocks[..last];
      }
    }

    method AppendSlot(req: Request) returns (ok: bool)
      requires blockSize > 0
      modifies this`freeBlocks, req`table
      ensures old(Alloc.AppendSlot(Mem(), req.Snap())) == Growth(freeBlocks, req.table, ok)
    {
      var need := CeilDiv(req.SeqLen(), blockSize);
      while |req.table| < need
        invariant Grow(freeBlocks, req.table, need) == old(Grow(freeBlocks, req.table, need))
        decreases |freeBlocks|
      {
        if freeBlocks == [] {
          return false;
        }
        var n := |freeBlocks| - 1;
        req.table, freeBlocks := req.table + [freeBlocks[n]], freeBlocks[..n];
      }
      return true;
    }

    method Free(req: Request)
      modifies this, req`table
      ensures Mem() == old(Mem().Release(req.Snap())) && req.table == []
    {
      freeBlocks := freeBlocks + Reverse(req.table);
      req.table := [];
      committed := committed - {req.id};
    }
  }

  /** Whichever allocator the engine was configured with; the scheduler only uses this interface. */
  datatype Manager = Slotted(slots: SlotManager) | Paged(blocks: BlockManager) {

    function Obj(): object
    {
      match this
      case Slotted(m) => m
      case Paged(m) => m
    }

    ghost function Mem(): Memory
      reads Obj()
    {
      match this
      case Slotted(m) => m.Mem()
      case Paged(m) => m.Mem()
    }

    method CanAllocate(req: Request, headroom: nat) returns (ok: bool)
      requires Mem().blockSize > 0
      ensures ok == Mem().CanAllocate(req.Snap(), headroom)
    {
      match this
      case Slotted(m) => ok := m.CanAllocate(req, headroom);
      case Paged(m) => ok := m.CanAllocate(req, headroom);
    }

    method Allocate(req: Request)
      requires Mem().blockSize > 0 && 0 <= Mem().Need(req.Snap()) <= |Mem().free|
      modifies Obj(), req`table
      ensures Mem() == old(Mem().Allocate(req.Snap()))
      ensures req.table == old(Mem().Taken(Mem().Need(req.Snap())))
    {
      match this
      case Slotted(m) => m.Allocate(req);
      case Paged(m) => m.Allocate(req);
    }

    method AppendSlot(req: Request) returns (ok: bool)
      requires Mem().blockSize > 0
      modifies Obj(), req`table
      ensures var g := old(Alloc.AppendSlot(Mem(), req.Snap()));
              ok == g.ok && req.table == g.table && Mem() == old(Mem()).(free := g.free)
    {
      match this
      case Slotted(m) => ok := m.AppendSlot(req);
      case Paged(m) => ok := m.AppendSlot(req);
    }

    method Free(req: Request)
      requires Slotted? ==> |req.table| == 1
      modifies Obj(), req`table
      ensures Mem() == old(Mem().Release(req.Snap())) && req.table == []
    {
      match this
      case Slotted(m) => m.Free(req);
      case Paged(m) => m.Free(req);
    }
  }
}
