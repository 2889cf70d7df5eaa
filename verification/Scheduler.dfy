/** The scheduler as the engine runs it: lists of mutable requests, an allocator and a KV pool, all
    updated in place. The ghost state `s` says what each method must do at the level of values, and
    `Valid` ties every object to it; the tokens that come out of the shared pool are thereby the ones a
    cache-free pass would give. */
module Scheduler {
  import opened Seqs
  import opened BlockMath
  import opened Transformer
  import opened Cache
  import opened ModelRunner
  import opened Requests
  import opened Alloc
  import opened BlockManager
  import opened Invariant
  import opened Preservation
  import opened StepSafety
  import opened Eviction
  import opened Starvation
  import opened SchedulerCache
  import opened EmitSteps
  import opened DecodeSteps
  import Spec = SchedulerSpec
  import Runs

  /** `rs` are the objects the handles `hs` name. */
  ghost predicate Listed(all: seq<Request>, rs: seq<Request>, hs: seq<nat>)
  {
    |rs| == |hs| && forall i {:trigger rs[i]} {:trigger hs[i]} :: 0 <= i < |rs| ==> hs[i] < |all| && rs[i] == all[hs[i]]
  }

  ghost predicate Distinct(all: seq<Request>)
  {
    forall g, h {:trigger all[g], all[h]} :: 0 <= g < h < |all| ==> all[g] != all[h]
  }

  /** Every request object has the value the state gives its handle. */
  ghost predicate Mirrors(all: seq<Request>, reqs: seq<Req>)
    reads all
  {
    |reqs| == |all| && forall h {:trigger all[h]} {:trigger reqs[h]} :: 0 <= h < |all| ==> all[h].Snap() == reqs[h]
  }

  class Scheduler {
    const c: Spec.Config
    const pool: KVPool
    const manager: Manager
    var waiting: seq<Request>
    var running: seq<Request>
    var admitCounter: int
    ghost var all: seq<Request>   // every request ever submitted, by handle
    ghost var s: Spec.State

    ghost predicate Tied()
      reads this, all, manager.Obj()
    {
      && Distinct(all) && Mirrors(all, s.reqs)
      && Listed(all, waiting, s.waiting) && Listed(all, running, s.running) && Linked(s)
    }

    /** The counter, the allocator and the pool agree with the state. */
    ghost predicate Linked(t: Spec.State)
      reads `admitCounter, manager.Obj()
    {
      && admitCounter == t.admits && manager.Mem() == t.mem && (manager.Slotted? <==> t.mem.kind.Slots?)
      && t.mem.blockSize > 0 && PoolFits(c, pool, t.mem)
    }

    ghost predicate Valid()
      reads this, all, manager.Obj(), pool.data
    {
      Tied() && Spec.Ok(s) && StepInv(c, s) && AllCached(c, pool, s.reqs)
    }

    lemma TiedParts()
      requires Tied()
      ensures Distinct(all) && Mirrors(all, s.reqs) && Linked(s)
      ensures Listed(all, waiting, s.waiting) && Listed(all, running, s.running)
    {
    }

    lemma Links(t: Spec.State)
      requires Linked(t)
      ensures admitCounter == t.admits && manager.Mem() == t.mem && (manager.Slotted? <==> t.mem.kind.Slots?)
      ensures t.mem.blockSize > 0 && PoolFits(c, pool, t.mem)
    {
    }

    /** The geometry of the pool never changes, so only the counter and the memory need to match again. */
    lemma Relink(m: Memory, t: Spec.State)
      requires (manager.Slotted? <==> m.kind.Slots?) && m.blockSize > 0 && PoolFits(c, pool, m)
      requires t.mem == m.(free := t.mem.free, committed := t.mem.committed)
      requires admitCounter == t.admits && manager.Mem() == t.mem
      ensures Linked(t)
    {
    }

    lemma Parts()
      requires Valid()
      ensures Tied() && Spec.Ok(s) && StepInv(c, s) && AllCached(c, pool, s.reqs)
      ensures pool.Shape() && c.net.layers <= pool.layers && |all| == |s.reqs|
    {
    }

    lemma Whole()
      requires Tied() && Spec.Ok(s) && StepInv(c, s)
      requires pool.Shape() && c.net.layers <= pool.layers && AllCached(c, pool, s.reqs)
      ensures Valid()
    {
    }

    constructor (c: Spec.Config, pool: KVPool, manager: Manager)
      requires PoolFits(c, pool, manager.Mem()) && Matches(c, manager.Mem())
      requires manager.Slotted? <==> manager.Mem().kind.Slots?
      requires manager.Mem() == Runs.Start(manager.Mem().kind, manager.Mem().numBlocks, manager.Mem().blockSize).mem
      ensures Valid() && all == [] && this.c == c && this.pool == pool && this.manager == manager
      ensures s == Runs.Start(manager.Mem().kind, manager.Mem().numBlocks, manager.Mem().blockSize)
    {
      this.c, this.pool, this.manager := c, pool, manager;
      waiting, running, admitCounter := [], [], 0;
      all := [];
      s := Runs.Start(manager.Mem().kind, manager.Mem().numBlocks, manager.Mem().blockSize);
      Runs.StartOk(c, manager.Mem().kind, manager.Mem().numBlocks, manager.Mem().blockSize);
    }

    predicate HasWork()
      reads this
    {
      waiting != [] || running != []
    }

    lemma WorkListed()
      requires Valid()
      ensures HasWork() <==> Spec.HasWork(s)
    {
    }

    // ---------------------------------------------------------------- intake

    method Submit(req: Request)
      requires Valid() && req !in all && Runs.Acceptable(c, s, req.Snap())
      modifies this`waiting, this`all, this`s, req`maxNew, req`state
      ensures Valid() && all == old(all) + [req] && s == Spec.Submit(c, old(s), old(req.Snap()))
    {
      Runs.SubmitKeeps(c, s, req.Snap());
      InvOk(c, Spec.Submit(c, s, req.Snap()), []);
      AllCachedAppend(c, pool, s.reqs, Spec.Capped(c, req.Snap()));
      Enqueue(req);
    }

    /** Cap the budget and append to the queue. */
    method Enqueue(req: Request)
      requires Tied() && req !in all
      modifies this`waiting, this`all, this`s, req`maxNew, req`state
      ensures Tied() && all == old(all) + [req] && s == Spec.Submit(c, old(s), old(req.Snap()))
    {
      hide Linked;
      Links(s);
      var cap := c.maxContext - |req.prompt|;
      s := Spec.Submit(c, s, req.Snap());
      req.maxNew := if cap < req.maxNew then cap else req.maxNew;
      req.state := Waiting;
      waiting := waiting + [req];
      all := all + [req];
      Relink(s.mem, s);
    }

    /** The API thread sets the flag when the client disconnects; the engine reads it when it retires. */
    method Cancel(req: Request, ghost h: nat)
      requires Valid() && h < |all| && req == all[h]
      modifies req`cancelled, this`s
      ensures Valid() && s == Spec.Cancel(old(s), h)
    {
      hide *;
      Parts();
      Runs.CancelKeeps(c, s, h);
      InvOk(c, Spec.Cancel(s, h), []);
      CancelCached(c, pool, s, h);
      Flag(req, h);
      Whole();
    }

    method Flag(req: Request, ghost h: nat)
      requires Tied() && h < |all| && req == all[h]
      modifies req`cancelled, this`s
      ensures Tied() && s == Spec.Cancel(old(s), h) && unchanged(pool.data)
    {
      req.cancelled := true;
      s := Spec.Cancel(s, h);
    }

    // ---------------------------------------------------------------- 1. retire

    /** Objects already swept have been disconnected; the rest are as the state says. */
    ghost predicate Swept(done: set<nat>)
      reads this, all
    {
      |s.reqs| == |all| && forall h: nat {:trigger all[h]} {:trigger s.reqs[h]} :: h < |all| ==>
        all[h].Snap() == if h in done then Spec.Disconnect(s.reqs[h]) else s.reqs[h]
    }

    method SweepOneWaiting(req: Request, ghost h: nat, ghost done: set<nat>) returns (stays: bool)
      requires Distinct(all) && Swept(done) && h < |all| && req == all[h] && h !in done && s.reqs[h].state == Waiting
      modifies req`state
      ensures Swept(done + {h}) && stays == !s.reqs[h].cancelled
    {
      assert all[h].Snap() == s.reqs[h];
      stays := !req.cancelled;
      if req.cancelled {
        req.state := Dropped;
      }
    }

    method SweepWaiting() returns (keep: seq<Request>, ghost done: set<nat>)
      requires Distinct(all) && Swept({}) && Listed(all, waiting, s.waiting) && Lined(s, s.waiting, Waiting)
      modifies all
      ensures Swept(done) && Listed(all, keep, Spec.Filter(s.reqs, s.waiting))
      ensures done == Elems(s.waiting)
    {
      keep, done := [], {};
      ghost var kept: seq<nat> := [];
      NothingSwept(s.reqs, s.waiting);
      hide Swept, Spec.Filter, Elems;
      for i := 0 to |waiting|
        invariant Swept(done) && Listed(all, keep, kept) && kept == Spec.Filter(s.reqs, s.waiting[..i])
        invariant done == Elems(s.waiting[..i])
      {
        ghost var h := s.waiting[i];
        FilterStep(s.reqs, s.waiting, i);
        ElemsStep(s.waiting, i);
        var stays := SweepOneWaiting(waiting[i], h, done);
        if stays {
          keep := keep + [waiting[i]];
          kept := kept + [h];
        }
        done := done + {h};
      }
      assert s.waiting[..|waiting|] == s.waiting;
    }

    method SweepOneRunning(req: Request, ghost h: nat, ghost done: set<nat>)
      requires Distinct(all) && Swept(done) && h < |all| && req == all[h] && h !in done && s.reqs[h].state == Running
      modifies req`reason
      ensures Swept(done + {h})
    {
      assert all[h].Snap() == s.reqs[h];
      if req.cancelled && !req.Done() {
        req.reason := Some(Cancelled);
      }
    }

    method SweepRunning(ghost before: set<nat>)
      requires Distinct(all) && Swept(before) && Listed(all, running, s.running) && Lined(s, s.running, Running)
      requires before !! Elems(s.running)
      modifies all
      ensures Swept(before + Elems(s.running))
    {
      for i := 0 to |running|
        invariant Swept(before + Elems(s.running[..i]))
      {
        ElemsStep(s.running, i);
        assert s.running[i] in Elems(s.running);
        assert before + Elems(s.running[..i + 1]) == before + Elems(s.running[..i]) + {s.running[i]};
        SweepOneRunning(running[i], s.running[i], before + Elems(s.running[..i]));
      }
      assert s.running[..|running|] == s.running;
    }

    /** Every request a disconnection could change has been swept. */
    ghost predicate SweptEnough(done: set<nat>)
      reads this
    {
      && (forall h: nat {:trigger h in done} :: h in done ==> h < |s.reqs|)
      && forall h: nat {:trigger s.reqs[h]} :: h < |s.reqs| && (s.reqs[h].state == Waiting || s.reqs[h].state == Running) ==> h in done
    }

    method SweepBoth() returns (keep: seq<Request>, ghost done: set<nat>)
      requires Distinct(all) && Swept({}) && Listed(all, waiting, s.waiting) && Listed(all, running, s.running)
      requires Lined(s, s.waiting, Waiting) && Lined(s, s.running, Running)
      modifies all
      ensures Swept(done) && Listed(all, keep, Spec.Filter(s.reqs, s.waiting)) && SweptEnough(done)
    {
      keep, done := SweepWaiting();
      WaitingNotRunning(s, s.waiting, s.running);
      SweepRunning(done);
      done := done + Elems(s.running);
    }

    lemma SweptMirrors(done: set<nat>)
      requires Swept(done) && SweptEnough(done)
      ensures Mirrors(all, Spec.DisconnectAll(s.reqs))
    {
      forall h | 0 <= h < |all| ensures all[h].Snap() == Spec.DisconnectAll(s.reqs)[h] {
        var _ := s.reqs[h];
      }
    }

    /** Cancelled requests leave the queue, and end if they are running. */
    method DropCancelled()
      requires Tied() && Spec.Ok(s) && Lined(s, s.waiting, Waiting) && Lined(s, s.running, Running)
      modifies this`waiting, this`s, all
      ensures Tied() && s == Spec.DropCancelled(old(s)) && unchanged(pool.data) && all == old(all)
    {
      var keep; ghost var done;
      keep, done := SweepBoth();
      SweptMirrors(done);
      AdoptQueue(keep);
    }

    method AdoptQueue(keep: seq<Request>)
      requires Distinct(all) && Spec.Ok(s) && Mirrors(all, Spec.DisconnectAll(s.reqs))
      requires Listed(all, keep, Spec.Filter(s.reqs, s.waiting)) && Listed(all, running, s.running)
      requires Linked(s)
      modifies this`waiting, this`s
      ensures Tied() && s == Spec.DropCancelled(old(s))
    {
      waiting := keep;
      s := Spec.DropCancelled(s);
    }

    /** A finished row's memory goes back to the allocator. */
    method RetireOne(req: Request, ghost h: nat, ghost i: nat)
      requires Distinct(all) && Mirrors(all, s.reqs) && Linked(s) && Spec.Ok(s)
      requires i < |s.running| && s.running[i] == h && h < |all| && req == all[h]
      requires s.mem.kind.Slots? ==> |s.reqs[h].table| == 1
      modifies req`state, req`table, manager.Obj(), this`s
      ensures s == Spec.RetireOne(old(s), i) && Mirrors(all, s.reqs) && Linked(s)
    {
      hide Linked, Memory.Release, Spec.RetireOne;
      Links(s);
      ghost var m, t := s.mem, Spec.RetireOne(s, i);
      RetireOneParts(s, i);
      assert all[h].Snap() == s.reqs[h];
      req.state := Finished;
      manager.Free(req);
      s := t;
      Relink(m, t);
    }

    ghost predicate Retiring()
      reads this, all, manager.Obj()
    {
      Distinct(all) && Mirrors(all, s.reqs) && Linked(s) && Spec.Ok(s) && NoDup(s.running) && SlotsHeld(s)
    }

    /** Row `i` of the old list either stays or is retired. */
    method RetireNext(keep: seq<Request>, rows: seq<Request>, i: nat, ghost goal: Spec.State) returns (kept: seq<Request>)
      requires RetiresTo(s, |keep|, goal)
      requires Retiring() && |keep| <= i < |rows| && Listed(all, keep + rows[i..], s.running)
      modifies rows, manager.Obj(), this`s
      ensures Retiring() && s.waiting == old(s).waiting && all == old(all)
      ensures |kept| <= i + 1 && Listed(all, kept + rows[i + 1..], s.running)
      ensures RetiresTo(s, |kept|, goal)
    {
      hide Linked;
      var req := rows[i];
      ListedSplit(all, keep, rows, i, s.running);
      assert all[s.running[|keep|]].Snap() == s.reqs[s.running[|keep|]];
      if req.Done() {
        RetireOneFacts(s, |keep|);
        RetireOne(req, s.running[|keep|], |keep|);
        kept := keep;
      } else {
        kept := keep + [req];
      }
    }

    method RetireRows(rows: seq<Request>, ghost goal: Spec.State) returns (keep: seq<Request>)
      requires RetiresTo(s, 0, goal)
      requires Retiring() && Listed(all, rows, s.running)
      modifies rows, manager.Obj(), this`s
      ensures Retiring() && s.waiting == old(s).waiting && Listed(all, keep, s.running)
      ensures RetiresTo(s, |s.running|, goal)
    {
      hide *;
      keep := [];
      assert keep + rows[0..] == rows;
      for i := 0 to |rows|
        invariant Retiring() && s.waiting == old(s).waiting && all == old(all) && |keep| <= i
        invariant Listed(all, keep + rows[i..], s.running)
        invariant RetiresTo(s, |keep|, goal)
      {
        keep := RetireNext(keep, rows, i, goal);
      }
      assert keep + rows[|rows|..] == keep;
      ListedSize(all, keep, s.running);
    }

    method RetireFinished()
      requires Tied() && Spec.Ok(s) && NoDup(s.running) && SlotsHeld(s)
      modifies this`running, this`s, all, manager.Obj()
      ensures Tied() && s == Spec.RetireFrom(old(s), 0) && unchanged(pool.data) && all == old(all)
    {
      RunningAmongAll(all, running, s.running);
      var keep := RetireRows(running, Spec.RetireFrom(s, 0));
      running := keep;
    }

    method Retire()
      requires Valid()
      modifies this, all, manager.Obj()
      ensures Valid() && all == old(all) && s == Spec.Retire(old(s))
      ensures NoneDone(s, |s.running|)
    {
      hide *;
      Parts();
      RetireReady(c, s);
      RetireLeaves(c, pool, s);
      RetireObjects();
      Whole();
    }

    method RetireObjects()
      requires Tied() && Spec.Ok(s) && Lined(s, s.waiting, Waiting) && Lined(s, s.running, Running)
      requires NoDup(Spec.DropCancelled(s).running) && SlotsHeld(Spec.DropCancelled(s))
      modifies this`waiting, this`running, this`s, all, manager.Obj()
      ensures Tied() && s == Spec.Retire(old(s)) && unchanged(pool.data) && all == old(all)
    {
      hide *;
      DropCancelled();
      RetireFinished();
      RetireTwice(old(s));
    }

    // ---------------------------------------------------------------- 2. admit

    /** Starvation guard: requests evicted before go first, worst-treated first, then by arrival. */
    method SortWaiting()
      requires Tied() && Spec.Ok(s)
      modifies this`waiting, this`s
      ensures Tied() && s == Spec.SortWaiting(old(s)) && all == old(all) && unchanged(pool.data)
    {
      var keys := seq(|waiting|, i requires 0 <= i < |waiting| reads this, waiting => Key(0 - waiting[i].preempts, waiting[i].arrival));
      assert keys == Spec.WaitKeys(s.reqs, s.waiting);
      s := Spec.SortWaiting(s);
      waiting := Permute(waiting, Rank(keys));
    }

    method CanPop(n: nat, limit: int, ghost hs: seq<nat>) returns (ok: bool)
      requires Tied() && Spec.Ok(s) && n == |hs|
      ensures ok == Spec.CanPop(s, hs, limit)
    {
      if waiting == [] || n >= limit {
        return false;
      }
      assert all[s.waiting[0]].Snap() == s.reqs[s.waiting[0]];
      ok := manager.CanAllocate(waiting[0], |running| + n);
    }

    /** The head of the queue gets its memory and its place in the admission order. */
    method AdmitHead() returns (req: Request)
      requires Tied() && Spec.Ok(s) && s.waiting != [] && 0 <= s.mem.Need(s.reqs[s.waiting[0]]) <= |s.mem.free|
      modifies this`waiting, this`admitCounter, this`s, all, manager.Obj()
      ensures Tied() && s == Spec.AdmitOne(old(s)) && Listed(all, [req], [old(s).waiting[0]])
      ensures unchanged(pool.data) && all == old(all) && |waiting| < |old(waiting)|
    {
      hide Spec.AdmitOne, Linked, Mirrors;
      req := waiting[0];
      ghost var h := s.waiting[0];
      AdmitOneParts(s);
      AdmitObject(req, h);
      waiting := waiting[1..];
    }

    method AdmitObject(req: Request, ghost h: nat)
      requires Distinct(all) && Mirrors(all, s.reqs) && Linked(s) && Spec.Ok(s)
      requires s.waiting != [] && h == s.waiting[0] && h < |all| && req == all[h]
      requires 0 <= s.mem.Need(s.reqs[h]) <= |s.mem.free|
      modifies req`state, req`table, req`admitSeq, manager.Obj(), this`admitCounter, this`s
      ensures s == Spec.AdmitOne(old(s)) && Mirrors(all, s.reqs) && Linked(s) && all == old(all) && waiting == old(waiting) && running == old(running)
      ensures unchanged(pool.data)
    {
      hide *;
      AdmitOneParts(s);
      Links(s);
      ghost var t, mid := Spec.AdmitOne(s), s.reqs[h := s.reqs[h].(table := s.mem.Taken(s.mem.Need(s.reqs[h])))];
      TakeBlocks(req, h);
      MarkAdmitted(req, h, mid, t);
      Relink(old(s).mem, t);
    }

    method MarkAdmitted(req: Request, ghost h: nat, ghost reqs: seq<Req>, ghost next: Spec.State)
      requires Distinct(all) && Mirrors(all, reqs) && h < |all| && req == all[h]
      modifies req`state, req`admitSeq, this`admitCounter, this`s
      ensures Mirrors(all, reqs[h := reqs[h].(state := Admitted, admitSeq := old(admitCounter))])
      ensures s == next && admitCounter == old(admitCounter) + 1 && manager.Mem() == old(manager.Mem()) && unchanged(pool.data)
    {
      assert all[h].Snap() == reqs[h];
      req.state := Admitted;
      req.admitSeq := admitCounter;
      admitCounter := admitCounter + 1;
      s := next;
    }

    method TakeBlocks(req: Request, ghost h: nat)
      requires Distinct(all) && Mirrors(all, s.reqs) && Linked(s)
      requires h < |all| && req == all[h] && 0 <= s.mem.Need(s.reqs[h]) <= |s.mem.free|
      modifies req`table, manager.Obj()
      ensures manager.Mem() == s.mem.Allocate(s.reqs[h]) && unchanged(this) && unchanged(pool.data)
      ensures Mirrors(all, s.reqs[h := s.reqs[h].(table := s.mem.Taken(s.mem.Need(s.reqs[h])))])
    {
      assert all[h].Snap() == s.reqs[h];
      manager.Allocate(req);
    }

    /** Inside admission: `pend` has its memory but has not been prefilled. */
    ghost predicate Mid(pend: seq<nat>)
      reads this, all, manager.Obj(), pool.data
    {
      Tied() && Spec.Ok(s) && MidInv(c, s, pend) && AllCached(c, pool, s.reqs)
    }

    lemma MidParts(pend: seq<nat>)
      requires Mid(pend)
      ensures Tied() && Spec.Ok(s) && MidInv(c, s, pend) && AllCached(c, pool, s.reqs)
      ensures pool.Shape() && c.net.layers <= pool.layers && |all| == |s.reqs| && PoolFits(c, pool, s.mem)
    {
    }

    lemma MidWhole(pend: seq<nat>)
      requires Tied() && Spec.Ok(s) && MidInv(c, s, pend)
      requires pool.Shape() && c.net.layers <= pool.layers && AllCached(c, pool, s.reqs)
      ensures Mid(pend)
    {
    }

    method PopOne(ghost hs: seq<nat>, limit: int, ghost goal: Spec.Admission) returns (req: Request, ghost h: nat)
      requires Mid(hs) && PopsTo(s, hs, limit, goal) && RoomFor(c, s, limit) && Spec.CanPop(s, hs, limit)
      modifies this`waiting, this`admitCounter, this`s, all, manager.Obj()
      ensures Mid(hs + [h]) && PopsTo(s, hs + [h], limit, goal) && RoomFor(c, s, limit)
      ensures Listed(all, [req], [h]) && all == old(all) && |waiting| < |old(waiting)|
    {
      hide *;
      MidParts(hs);
      PopOneReady(c, pool, s, hs, limit, goal);
      h := s.waiting[0];
      req := AdmitHead();
      MidWhole(hs + [h]);
    }

    /** First come, first served, but the worst-treated first; stop at the first request that does not fit. */
    method PopAdmissible(limit: int) returns (batch: seq<Request>, ghost hs: seq<nat>)
      requires Valid() && RoomFor(c, s, limit)
      modifies this`waiting, this`admitCounter, this`s, all, manager.Obj()
      ensures Mid(hs) && Listed(all, batch, hs) && |batch| == |hs| && all == old(all)
      ensures Spec.Admission(s, hs) == Spec.PopAdmissible(Spec.SortWaiting(old(s)), [], limit)
    {
      hide *;
      Parts();
      SortReady(c, s, limit);
      ghost var goal := Spec.PopAdmissible(Spec.SortWaiting(s), [], limit);
      SortWaiting();
      MidWhole([]);
      batch, hs := [], [];
      NothingListed(all);
      var more := CanPopNow(0, limit, []);
      while more
        invariant Mid(hs) && PopsTo(s, hs, limit, goal) && RoomFor(c, s, limit)
        invariant Listed(all, batch, hs) && all == old(all) && |batch| == |hs|
        invariant Spec.Ok(s) && more == Spec.CanPop(s, hs, limit)
        decreases |waiting|
      {
        var req; ghost var h;
        req, h := PopOne(hs, limit, goal);
        ListedMore(all, batch, hs, req, h);
        batch, hs := batch + [req], hs + [h];
        more := CanPopNow(|batch|, limit, hs);
      }
      PopStops(s, hs, limit, goal);
    }

    method CanPopNow(n: nat, limit: int, ghost hs: seq<nat>) returns (ok: bool)
      requires Mid(hs) && n == |hs|
      ensures Spec.Ok(s) && ok == Spec.CanPop(s, hs, limit) && Mid(hs)
    {
      hide Inv, AllCached, PoolFits;
      ok := CanPop(n, limit, hs);
    }

    /** Append the token, test the two stop conditions in order, and tell the sink. */
    method Emit(req: Request, tok: Token, smp: Option<Sampler>, ghost h: nat, ghost reqs: seq<Req>)
      requires Distinct(all) && Mirrors(all, reqs) && h < |all| && req == all[h]
      modifies req`out, req`sampler, req`reason, req`stream
      ensures Mirrors(all, reqs[h := Spec.EmitToken(c, reqs[h], tok, smp)])
      ensures manager.Mem() == old(manager.Mem()) && unchanged(pool.data)
    {
      assert all[h].Snap() == reqs[h];
      req.out := req.out + [tok];
      req.sampler := smp;
      if |req.out| >= req.maxNew {
        req.reason := Some(Length);
      } else if tok in c.eos && !req.ignoreEos {
        req.reason := Some(Stop);
      }
      req.stream := req.stream + [(tok, req.Done())];
    }

    method EmitPrefilled(req: Request, tok: Token, smp: Option<Sampler>, ghost h: nat, ghost reqs: seq<Req>)
      requires Distinct(all) && Mirrors(all, reqs) && h < |all| && req == all[h]
      modifies req`state, req`out, req`sampler, req`reason, req`stream
      ensures Mirrors(all, reqs[h := Spec.EmitToken(c, reqs[h].(state := Running), tok, smp)])
      ensures manager.Mem() == old(manager.Mem()) && unchanged(pool.data)
    {
      assert all[h].Snap() == reqs[h];
      req.state := Running;
      Emit(req, tok, smp, h, reqs[h := reqs[h].(state := Running)]);
    }

    /** Prompt plus anything said before an eviction. */
    method GatherWhole(batch: seq<Request>, ghost hs: seq<nat>) returns (lists: seq<seq<Token>>, starts: seq<nat>)
      requires Mirrors(all, s.reqs) && Listed(all, batch, hs)
      ensures |lists| == |starts| == |hs| && forall i :: 0 <= i < |hs| ==> starts[i] == 0
      ensures forall i :: 0 <= i < |hs| ==> hs[i] < |s.reqs| && lists[i] == Suffix(Full(s.reqs[hs[i]]), starts[i])
    {
      RowValues(all, batch, s.reqs, hs);
      lists := seq(|batch|, i requires 0 <= i < |batch| reads batch => batch[i].prompt + batch[i].out);
      starts := seq(|batch|, i => 0);
    }

    method GatherRows(batch: seq<Request>, ghost hs: seq<nat>) returns (tables: seq<seq<nat>>, samplers: seq<Option<Sampler>>)
      requires Mirrors(all, s.reqs) && Listed(all, batch, hs)
      ensures |tables| == |samplers| == |hs|
      ensures forall i :: 0 <= i < |hs| ==> hs[i] < |s.reqs| && tables[i] == s.reqs[hs[i]].table && samplers[i] == s.reqs[hs[i]].sampler
    {
      RowValues(all, batch, s.reqs, hs);
      tables := seq(|batch|, i requires 0 <= i < |batch| reads batch => batch[i].table);
      samplers := seq(|batch|, i requires 0 <= i < |batch| reads batch => batch[i].sampler);
    }

    method PrefillForward(batch: seq<Request>, ghost hs: seq<nat>, ghost rest: seq<nat>)
      returns (toks: seq<Token>, smps: seq<Option<Sampler>>)
      requires Mid(hs + rest) && Listed(all, batch, hs) && batch != []
      modifies pool.data
      ensures Tied() && PickedFor(c, s.reqs, hs, toks, smps) && |toks| == |smps| == |hs| == |batch|
      ensures pool.Shape() && c.net.layers <= pool.layers && Advanced(c, pool, s.reqs, hs)
    {
      hide Inv, AllCached, Matches, Cached, PickedFor;
      var lists, starts := GatherWhole(batch, hs);
      var tables, samplers := GatherRows(batch, hs);
      PrefillRowable(c, pool, s, hs, rest, starts);
      toks, smps := RunBatch(c, pool, s.mem, s.reqs, hs, lists, starts, tables, samplers);
    }

    method PrefillEmit(batch: seq<Request>, ghost hs: seq<nat>, toks: seq<Token>, smps: seq<Option<Sampler>>, ghost goal: Spec.State)
      requires Distinct(all) && Mirrors(all, s.reqs) && Listed(all, batch, hs)
      requires PrefillsTo(c, s, hs, goal) && PickedFor(c, s.reqs, hs, toks, smps) && NoDup(hs)
      requires |batch| == |hs| == |toks| == |smps|
      modifies all
      ensures Mirrors(all, goal.reqs) && manager.Mem() == old(manager.Mem()) && unchanged(pool.data)
    {
      hide *;
      ghost var t := s;
      WholeSlice(hs, toks, smps);
      for i := 0 to |batch|
        invariant Distinct(all) && Mirrors(all, t.reqs)
        invariant PrefillsTo(c, t, hs[i..], goal) && PickedFor(c, t.reqs, hs[i..], toks[i..], smps[i..]) && NoDup(hs[i..])
        invariant manager.Mem() == old(manager.Mem()) && unchanged(pool.data)
      {
        NextSlice(hs, toks, smps, i);
        PrefillNext(c, t, hs[i..], toks[i..], smps[i..], goal);
        ListedAt(all, batch, hs, i);
        EmitPrefilled(batch[i], toks[i], smps[i], hs[i], t.reqs);
        t := Spec.PrefillOne(c, t, hs[i]);
      }
      PrefillDone(c, t, goal);
    }

    method JoinRunning(batch: seq<Request>, ghost hs: seq<nat>, ghost goal: Spec.State)
      requires Distinct(all) && Mirrors(all, goal.reqs) && Linked(s) && Listed(all, batch, hs)
      requires Listed(all, waiting, s.waiting) && Listed(all, running, s.running)
      requires goal.running == s.running + hs && goal.waiting == s.waiting && goal.mem == s.mem && goal.admits == s.admits
      modifies this`running, this`s
      ensures Tied() && s == goal && unchanged(pool.data) && all == old(all)
    {
      running := running + batch;
      s := goal;
    }

    /** One padded forward pass over prompt plus anything said before an eviction; each row says one token. */
    method Prefill(batch: seq<Request>, ghost hs: seq<nat>, ghost rest: seq<nat>)
      requires Mid(hs + rest) && Listed(all, batch, hs) && batch != [] && Spec.Ok(s) && Spec.Named(s, hs)
      modifies this`running, this`s, all, pool.data
      ensures Mid(rest) && s == Spec.Prefill(c, old(s), hs) && all == old(all)
    {
      hide *;
      MidParts(hs + rest);
      ghost var goal := Spec.Prefill(c, s, hs);
      PrefillReady(c, s, hs, rest, goal);
      var toks, smps := PrefillForward(batch, hs, rest);
      TiedParts();
      PrefillEmit(batch, hs, toks, smps, goal);
      JoinRunning(batch, hs, goal);
      PrefillCached(c, pool, old(s), hs, goal);
      MidWhole(rest);
    }

    /** Static batching: one padded prefill for the whole batch. */
    method AdmitStatic()
      requires Valid() && c.isStatic && running == []
      modifies this`waiting, this`running, this`admitCounter, this`s, all, manager.Obj(), pool.data
      ensures Valid() && s == Spec.Admit(c, old(s)) && all == old(all)
    {
      hide *;
      Parts();
      TiedParts();
      StaticRoom(c, s, all, running);
      var batch; ghost var hs;
      batch, hs := PopAdmissible(c.maxBatch);
      MidParts(hs);
      AdmitIs(c, old(s), s, hs);
      if batch != [] {
        assert hs + [] == hs;
        Prefill(batch, hs, []);
      } else {
        NoRows(c, all, hs, s);
      }
      MidValid();
    }

    /** Continuous batching: each admitted request is prefilled on its own and joins the running list at once. */
    method AdmitContinuous()
      requires Valid() && !c.isStatic
      modifies this`waiting, this`running, this`admitCounter, this`s, all, manager.Obj(), pool.data
      ensures Valid() && s == Spec.Admit(c, old(s)) && all == old(all)
    {
      hide *;
      Parts();
      TiedParts();
      ContinuousRoom(c, s, all, running);
      var room := c.maxBatch as int - |running|;
      var batch; ghost var hs;
      batch, hs := PopAdmissible(if room < 0 then 0 else room);
      MidParts(hs);
      AdmitIs(c, old(s), s, hs);
      PrefillEach(batch, hs, Spec.Admit(c, old(s)));
      MidValid();
    }

    method PrefillEach(batch: seq<Request>, ghost hs: seq<nat>, ghost goal: Spec.State)
      requires Mid(hs) && Listed(all, batch, hs) && |batch| == |hs| && PrefillsTo(c, s, hs, goal)
      modifies this`running, this`s, all, pool.data
      ensures Mid([]) && s == goal && all == old(all)
    {
      hide *;
      WholeSlice(hs, [], []);
      for i := 0 to |batch|
        invariant Mid(hs[i..]) && PrefillsTo(c, s, hs[i..], goal) && all == old(all) && Listed(all, batch, hs)
      {
        PrefillSplit(c, s, hs, i, goal);
        ListedOne(all, batch, hs, i);
        Prefill([batch[i]], [hs[i]], hs[i + 1..]);
      }
      assert hs[|batch|..] == [];
      PrefillDone(c, s, goal);
    }

    method Admit()
      requires Valid()
      modifies this`waiting, this`running, this`admitCounter, this`s, all, manager.Obj(), pool.data
      ensures Valid() && s == Spec.Admit(c, old(s)) && all == old(all)
    {
      hide *;
      Parts();
      TiedParts();
      if c.isStatic {
        if running != [] {
          StaticWaits(c, s, all, running);
          return;
        }
        AdmitStatic();
      } else {
        AdmitContinuous();
      }
    }

    lemma MidValid()
      requires Mid([])
      ensures Valid()
    {
    }

    // ---------------------------------------------------------------- 3. decode

    /** Inside the capacity loop, with `hs` the rows still in the batch and the first `i` of them served. */
    ghost predicate Busy(hs: seq<nat>, i: nat)
      reads this, all, manager.Obj(), pool.data
    {
      Tied() && Serving(c, pool, s, hs, i)
    }

    lemma BusyParts(hs: seq<nat>, i: nat)
      requires Busy(hs, i)
      ensures Tied() && Serving(c, pool, s, hs, i) && Spec.Ok(s) && |all| == |s.reqs| && Spec.Named(s, hs) && Mirrors(all, s.reqs)
    {
    }

    lemma BusyWhole(hs: seq<nat>, i: nat)
      requires Tied() && Serving(c, pool, s, hs, i)
      ensures Busy(hs, i) && i <= |hs|
    {
    }

    /** The victim: fewest evictions first, most recent admission first. */
    method Victim(active: seq<Request>, ghost hs: seq<nat>) returns (v: nat)
      requires Tied() && Listed(all, active, hs) && active != []
      ensures Tied() && v < |active| && Spec.Named(s, hs) && v == Spec.VictimIndex(s.reqs, hs)
    {
      hide Linked;
      RowKeys(all, active, s.reqs, hs);
      v := 0;
      for j := 1 to |active|
        invariant v < j && v == Spec.VictimIndex(s.reqs, hs[..j])
      {
        assert hs[..j + 1][..j] == hs[..j];
        if Less(Key(active[j].preempts, -active[j].admitSeq), Key(active[v].preempts, -active[v].admitSeq)) {
          v := j;
        }
      }
      assert hs[..|active|] == hs;
    }

    /** Give the row the block its next token needs, if there is one. */
    method GrowRow(req: Request, ghost h: nat) returns (ok: bool)
      requires Tied() && Spec.Ok(s) && h < |all| && req == all[h]
      modifies req`table, manager.Obj(), this`s
      ensures Tied() && s == Spec.GrowOne(old(s), h) && ok == Alloc.AppendSlot(old(s).mem, old(s).reqs[h]).ok
      ensures all == old(all) && unchanged(pool.data)
    {
      hide Alloc.AppendSlot;
      assert all[h].Snap() == s.reqs[h];
      ghost var t := Spec.GrowOne(s, h);
      ok := manager.AppendSlot(req);
      s := t;
    }

    /** Preempt and recompute: the row's memory goes back and it rejoins the queue with its tokens. */
    method Preempt(req: Request, ghost h: nat)
      requires Tied() && Spec.Ok(s) && h < |all| && req == all[h] && h in s.running && s.mem.kind.Blocks?
      modifies this`running, this`waiting, this`s, req`state, req`table, req`preempts, manager.Obj()
      ensures Tied() && s == Spec.Evict(old(s), h) && all == old(all) && unchanged(pool.data)
    {
      hide *;
      TiedParts();
      Links(s);
      ghost var t := Spec.Evict(s, h);
      EvictParts(s, h);
      EvictObject(req, h, t);
      Relink(old(s).mem, t);
      Requeue(req, h, old(s).waiting, old(s).running);
    }

    method EvictObject(req: Request, ghost h: nat, ghost t: Spec.State)
      requires Distinct(all) && Mirrors(all, s.reqs) && h < |all| && req == all[h] && manager.Mem() == s.mem
      requires manager.Slotted? ==> s.mem.kind.Slots?
      requires s.mem.kind.Blocks? && t.mem == s.mem.Release(s.reqs[h])
      requires t.reqs == s.reqs[h := s.reqs[h].(table := [], state := Waiting, preempts := s.reqs[h].preempts + 1)]
      modifies req`state, req`table, req`preempts, manager.Obj(), this`s
      ensures Mirrors(all, t.reqs) && manager.Mem() == t.mem && s == t && unchanged(pool.data)
      ensures unchanged(`all, `waiting, `running, `admitCounter)
    {
      hide Memory.Release, Listed, Linked;
      assert all[h].Snap() == s.reqs[h];
      manager.Free(req);
      req.state := Waiting;
      req.preempts := req.preempts + 1;
      s := t;
    }

    method Requeue(req: Request, ghost h: nat, ghost ws: seq<nat>, ghost rs: seq<nat>)
      requires Distinct(all) && Mirrors(all, s.reqs) && Linked(s) && h < |all| && req == all[h]
      requires Listed(all, waiting, ws) && Listed(all, running, rs) && h in rs
      requires s.waiting == ws + [h] && s.running == RemoveAt(rs, IndexOf(rs, h))
      modifies this`running, this`waiting
      ensures Tied() && unchanged(pool.data)
    {
      IndexListed(all, running, rs, h);
      ListedWithout(all, running, rs, IndexOf(rs, h));
      ListedPush(all, waiting, ws, h);
      hide Listed, RemoveAt, IndexOf;
      running := RemoveAt(running, IndexOf(running, req));
      waiting := waiting + [req];
    }

    /** One turn of the capacity loop. */
    method ServeRow(active: seq<Request>, ghost hs: seq<nat>, i: nat, ghost goal: Spec.Capacity)
      returns (rest: seq<Request>, ghost left: seq<nat>, j: nat)
      requires Busy(hs, i) && EnsuresTo(c, s, hs, i, goal) && Listed(all, active, hs) && |active| == |hs| && i < |active|
      modifies this`waiting, this`running, this`s, all, manager.Obj()
      ensures Busy(left, j) && EnsuresTo(c, s, left, j, goal) && Listed(all, rest, left) && |rest| == |left| && j <= |rest|
      ensures all == old(all) && (|rest| < |active| || (|rest| == |active| && j == i + 1))
    {
      hide *;
      BusyParts(hs, i);
      ListedAt(all, active, hs, i);
      ServingRow(c, pool, s, hs, i, i);
      var ok := GrowRow(active[i], hs[i]);
      if ok {
        ServeGrown(c, pool, old(s), hs, i, hs[i], goal);
        rest, left, j := active, hs, i + 1;
      } else {
        ServeDry(c, pool, old(s), hs, i, hs[i]);
        if !c.preemption {
          assert false;   // "out of KV blocks and preemption is disabled" is never raised
        }
        var v := Victim(active, hs);
        ListedAt(all, active, hs, v);
        ServeVictim(c, pool, s, hs, i, v, goal);
        BlocksKind(s);
        Preempt(active[v], hs[v]);
        ListedWithout(all, active, hs, v);
        rest, left := RemoveAt(active, v), RemoveAt(hs, v);
        j := if v < i then i - 1 else i;
      }
      BusyWhole(left, j);
    }

    /** Oldest admission first. */
    method SortByAdmission(batch: seq<Request>, ghost hs: seq<nat>) returns (active: seq<Request>, ghost order: seq<nat>)
      requires Valid() && Listed(all, batch, hs)
      ensures Valid() && Spec.Named(s, hs) && order == Spec.ByAdmission(s, hs)
      ensures Listed(all, active, order) && |active| == |order|
    {
      hide Inv, AllCached, PoolFits;
      RowKeys(all, batch, s.reqs, hs);
      var keys := seq(|batch|, i requires 0 <= i < |batch| reads batch => Key(batch[i].admitSeq, 0));
      assert keys == Spec.AdmitKeys(s.reqs, hs);
      active, order := Permute(batch, Rank(keys)), Spec.ByAdmission(s, hs);
    }

    /** Give every row the block its next token needs; evict when the pool is full. */
    method EnsureCapacity(batch: seq<Request>, ghost hs: seq<nat>) returns (active: seq<Request>, ghost kept: seq<nat>)
      requires Valid() && Listed(all, batch, hs) && UnfinishedAre(s, hs)
      modifies this`waiting, this`running, this`s, all, manager.Obj()
      ensures Busy(kept, |kept|) && Listed(all, active, kept) && |active| == |kept| && all == old(all)
      ensures Spec.Ok(old(s)) && Spec.Named(old(s), hs)
      ensures Spec.Capacity(s, kept) == Spec.EnsureCapacity(c, old(s), Spec.ByAdmission(old(s), hs), 0)
    {
      hide *;
      Parts();
      TiedParts();
      Links(s);
      active, kept := SortByAdmission(batch, hs);
      Parts();
      Links(s);
      ghost var goal := Spec.EnsureCapacity(c, s, kept, 0);
      UnfinishedStart(c, pool, s, hs, kept, goal);
      BusyWhole(kept, 0);
      var i: nat := 0;
      while i < |active|
        invariant Busy(kept, i) && EnsuresTo(c, s, kept, i, goal) && Listed(all, active, kept)
        invariant |active| == |kept| && i <= |active| && all == old(all)
        decreases |active|, |active| - i
      {
        active, kept, i := ServeRow(active, kept, i, goal);
      }
      ServedAll(c, s, kept, goal);
    }

    /** Rows of the running list that have not finished. */
    method UnfinishedRows() returns (batch: seq<Request>, ghost hs: seq<nat>)
      requires Valid()
      ensures Valid() && Listed(all, batch, hs) && |batch| == |hs| && UnfinishedAre(s, hs)
    {
      hide Inv, AllCached, PoolFits;
      batch, hs := UnfinishedOf(all, running, s.reqs, s.running);
    }

    static method UnfinishedOf(ghost all: seq<Request>, rows: seq<Request>, ghost reqs: seq<Req>, ghost rs: seq<nat>)
      returns (batch: seq<Request>, ghost hs: seq<nat>)
      requires Mirrors(all, reqs) && Listed(all, rows, rs) && forall i {:trigger rs[i]} :: 0 <= i < |rs| ==> rs[i] < |reqs|
      ensures Listed(all, batch, hs) && hs == Spec.Unfinished(reqs, rs)
    {
      RowKeys(all, rows, reqs, rs);
      batch, hs := [], [];
      for i := 0 to |rows|
        invariant Listed(all, batch, hs) && hs == Spec.Unfinished(reqs, rs[..i])
      {
        batch, hs := KeepUnfinished(all, rows, reqs, rs, i, batch, hs);
      }
      assert rs[..|rows|] == rs;
    }

    static method KeepUnfinished(ghost all: seq<Request>, rows: seq<Request>, ghost reqs: seq<Req>, ghost rs: seq<nat>, i: nat,
                                 sofar: seq<Request>, ghost had: seq<nat>)
      returns (batch: seq<Request>, ghost hs: seq<nat>)
      requires Listed(all, rows, rs) && i < |rows| && (forall j {:trigger rs[j]} :: 0 <= j < |rs| ==> rs[j] < |reqs|)
      requires rows[i].reason == reqs[rs[i]].reason && Listed(all, sofar, had) && had == Spec.Unfinished(reqs, rs[..i])
      ensures Listed(all, batch, hs) && hs == Spec.Unfinished(reqs, rs[..i + 1])
    {
      UnfinishedStep(reqs, rs, i);
      ListedAt(all, rows, rs, i);
      hide *;
      batch, hs := sofar, had;
      if !rows[i].Done() {
        ListedPush(all, batch, hs, rs[i]);
        batch, hs := batch + [rows[i]], hs + [rs[i]];
      }
    }

    /** The newest token of each row and its position. */
    method GatherLast(active: seq<Request>, ghost hs: seq<nat>) returns (lists: seq<seq<Token>>, starts: seq<nat>)
      requires Mirrors(all, s.reqs) && Listed(all, active, hs) && Serving(c, pool, s, hs, |hs|)
      ensures |lists| == |starts| == |hs|
      ensures forall i :: 0 <= i < |hs| ==> hs[i] < |s.reqs| && starts[i] == s.reqs[hs[i]].SeqLen() - 1
      ensures forall i :: 0 <= i < |hs| ==> lists[i] == Suffix(Full(s.reqs[hs[i]]), starts[i])
    {
      hide Inv, AllCached, PoolFits, Active, ServedUpTo;
      RowValues(all, active, s.reqs, hs);
      forall i | 0 <= i < |active|
        ensures active[i].out != [] && [active[i].out[|active[i].out| - 1]] == Suffix(Full(s.reqs[hs[i]]), s.reqs[hs[i]].SeqLen() - 1)
      {
        NewestToken(c, pool, s, hs, i);
      }
      lists := seq(|active|, i requires 0 <= i < |active| && active[i].out != [] reads active => [active[i].out[|active[i].out| - 1]]);
      starts := seq(|active|, i requires 0 <= i < |active| && active[i].out != [] reads active => active[i].SeqLen() - 1);
    }

    method DecodeForward(active: seq<Request>, ghost hs: seq<nat>)
      returns (toks: seq<Token>, smps: seq<Option<Sampler>>)
      requires Busy(hs, |hs|) && Listed(all, active, hs) && |active| == |hs| && active != []
      modifies pool.data
      ensures Tied() && PickedFor(c, s.reqs, hs, toks, smps) && |toks| == |smps| == |hs|
      ensures pool.Shape() && c.net.layers <= pool.layers && Advanced(c, pool, s.reqs, hs)
    {
      hide Inv, AllCached, Matches, Cached, PickedFor, ServedUpTo, Active;
      var lists, starts := GatherLast(active, hs);
      var tables, samplers := GatherRows(active, hs);
      DecodeRowable(c, pool, s, hs, starts);
      toks, smps := RunBatch(c, pool, s.mem, s.reqs, hs, lists, starts, tables, samplers);
    }

    method DecodeEmit(active: seq<Request>, ghost hs: seq<nat>, toks: seq<Token>, smps: seq<Option<Sampler>>, ghost goal: Spec.State)
      requires Distinct(all) && Mirrors(all, s.reqs) && Listed(all, active, hs)
      requires EmitsTo(c, s, hs, goal) && PickedFor(c, s.reqs, hs, toks, smps) && NoDup(hs)
      requires |active| == |hs| == |toks| == |smps|
      modifies all
      ensures Mirrors(all, goal.reqs) && manager.Mem() == old(manager.Mem()) && unchanged(pool.data)
    {
      hide *;
      ghost var t := s;
      WholeSlice(hs, toks, smps);
      for i := 0 to |active|
        invariant Distinct(all) && Mirrors(all, t.reqs)
        invariant EmitsTo(c, t, hs[i..], goal) && PickedFor(c, t.reqs, hs[i..], toks[i..], smps[i..]) && NoDup(hs[i..])
        invariant manager.Mem() == old(manager.Mem()) && unchanged(pool.data)
      {
        NextSlice(hs, toks, smps, i);
        EmitNext(c, t, hs[i..], toks[i..], smps[i..], goal);
        ListedAt(all, active, hs, i);
        Emit(active[i], toks[i], smps[i], hs[i], t.reqs);
        t := Spec.With(t, hs[i], Spec.EmitToken(c, t.reqs[hs[i]], toks[i], smps[i]));
      }
      EmitDone(c, t, goal);
    }

    method Settle(ghost goal: Spec.State)
      requires Distinct(all) && Mirrors(all, goal.reqs) && Linked(s)
      requires Listed(all, waiting, s.waiting) && Listed(all, running, s.running) && goal == s.(reqs := goal.reqs)
      modifies this`s
      ensures Tied() && s == goal && unchanged(pool.data)
    {
      s := goal;
    }

    /** Feed every surviving row its newest token; each says one more. */
    method DecodeRows(active: seq<Request>, ghost hs: seq<nat>, ghost goal: Spec.State)
      requires Busy(hs, |hs|) && Listed(all, active, hs) && |active| == |hs| && active != []
      requires Spec.Ok(s) && Spec.Named(s, hs) && goal == Spec.EmitAll(c, s, hs) && StepInv(c, goal) && Spec.Ok(goal)
      modifies this`s, all, pool.data
      ensures Valid() && s == goal && all == old(all)
    {
      hide *;
      BusyParts(hs, |hs|);
      EmitReady(c, pool, s, hs, goal);
      var toks, smps := DecodeForward(active, hs);
      TiedParts();
      DecodeEmit(active, hs, toks, smps, goal);
      Settle(goal);
      DecodeCached(c, pool, old(s), hs, goal);
      Whole();
    }

    method Decode()
      requires Valid()
      modifies this`waiting, this`running, this`s, all, manager.Obj(), pool.data
      ensures Valid() && s == Spec.Decode(c, old(s)) && all == old(all)
    {
      hide *;
      Parts();
      var batch; ghost var hs;
      batch, hs := UnfinishedRows();
      if batch == [] {
        NobodyDecodes(c, s, hs);
        return;
      }
      var active; ghost var kept;
      active, kept := EnsureCapacity(batch, hs);
      ghost var goal := Spec.Decode(c, old(s));
      UnfinishedDecode(c, old(s), hs, s, kept);
      if active == [] {
        BusyParts(kept, |kept|);
        NobodySurvives(c, pool, s, kept);
        Whole();
      } else {
        DecodeRows(active, kept, goal);
      }
    }

    // ---------------------------------------------------------------- the loop body

    /** Retire, admit, decode. */
    method Step()
      requires Valid()
      modifies this, all, manager.Obj(), pool.data
      ensures Valid() && s == Spec.Step(c, old(s)) && all == old(all)
    {
      hide *;
      Parts();
      ghost var before := s;
      Retire();
      Admit();
      Parts();
      StepIs(c, before, s);
      Decode();
    }
  }

  // ---------------------------------------------------------------- lemmas for admission

  /** Popping on with `hs` already taken leads to `goal`. */
  ghost predicate PopsTo(s: Spec.State, hs: seq<nat>, limit: int, goal: Spec.Admission)
  {
    Spec.Ok(s) && Spec.Named(s, hs) && Spec.PopAdmissible(s, hs, limit) == goal
  }

  ghost predicate RoomFor(c: Spec.Config, s: Spec.State, limit: int)
  {
    limit <= 0 || |s.running| + limit <= c.maxBatch
  }

  lemma NothingListed(all: seq<Request>)
    ensures Listed(all, [], [])
  {
  }

  lemma ListedMore(all: seq<Request>, rs: seq<Request>, hs: seq<nat>, r: Request, h: nat)
    requires Listed(all, rs, hs) && Listed(all, [r], [h])
    ensures Listed(all, rs + [r], hs + [h]) && |rs + [r]| == |hs + [h]|
  {
    assert [r][0] == r;
  }

  lemma ListedSize(all: seq<Request>, rs: seq<Request>, hs: seq<nat>)
    requires Listed(all, rs, hs)
    ensures |rs| == |hs|
  {
  }

  lemma ListedAt(all: seq<Request>, rs: seq<Request>, hs: seq<nat>, i: nat)
    requires Listed(all, rs, hs) && i < |rs|
    ensures |hs| == |rs| && hs[i] < |all| && rs[i] == all[hs[i]]
  {
  }

  /** The fields of the listed objects are those of their handles' values. */
  lemma RowValues(all: seq<Request>, rs: seq<Request>, reqs: seq<Req>, hs: seq<nat>)
    requires Listed(all, rs, hs) && Mirrors(all, reqs)
    ensures |hs| == |rs|
    ensures forall i {:trigger rs[i]} {:trigger hs[i]} :: 0 <= i < |rs| ==> hs[i] < |reqs| && rs[i].prompt == reqs[hs[i]].prompt && rs[i].out == reqs[hs[i]].out
    ensures forall i {:trigger rs[i]} {:trigger hs[i]} :: 0 <= i < |rs| ==> rs[i].table == reqs[hs[i]].table && rs[i].sampler == reqs[hs[i]].sampler
    ensures forall i {:trigger rs[i]} {:trigger hs[i]} :: 0 <= i < |rs| ==> rs[i].prompt + rs[i].out == Suffix(Full(reqs[hs[i]]), 0)
  {
    forall i | 0 <= i < |rs| ensures rs[i].Snap() == reqs[hs[i]] && rs[i].prompt + rs[i].out == Suffix(Full(reqs[hs[i]]), 0) {
      assert all[hs[i]].Snap() == reqs[hs[i]];
    }
  }

  lemma PrefillReady(c: Spec.Config, s: Spec.State, hs: seq<nat>, rest: seq<nat>, t: Spec.State)
    requires MidInv(c, s, hs + rest) && Spec.Ok(s) && Spec.Named(s, hs) && t == Spec.Prefill(c, s, hs)
    ensures PrefillsTo(c, s, hs, t) && NoDup(hs) && Prefilled(s, hs, t) && MidInv(c, t, rest) && AllEvolved(c, s.reqs, t.reqs) && Spec.Ok(t)
    ensures t.running == s.running + hs && t.waiting == s.waiting && t.mem == s.mem && t.admits == s.admits
  {
    PrefillPart(c, s, hs, rest, t);
    PendingOnce(c, s, hs, rest);
  }

  lemma ListedOne(all: seq<Request>, rs: seq<Request>, hs: seq<nat>, i: nat)
    requires Listed(all, rs, hs) && i < |rs|
    ensures Listed(all, [rs[i]], [hs[i]])
  {
  }

  lemma StaticRoom(c: Spec.Config, s: Spec.State, all: seq<Request>, running: seq<Request>)
    requires c.isStatic && running == [] && Listed(all, running, s.running)
    ensures s.running == [] && RoomFor(c, s, c.maxBatch) && Spec.Room(c, s) == c.maxBatch
  {
  }

  lemma ContinuousRoom(c: Spec.Config, s: Spec.State, all: seq<Request>, running: seq<Request>)
    requires !c.isStatic && Listed(all, running, s.running)
    ensures var room := c.maxBatch as int - |running|;
            var limit := if room < 0 then 0 else room;
            RoomFor(c, s, limit) && Spec.Room(c, s) == limit
  {
  }

  lemma StaticWaits(c: Spec.Config, s: Spec.State, all: seq<Request>, running: seq<Request>)
    requires Spec.Ok(s) && c.isStatic && running != [] && Listed(all, running, s.running)
    ensures Spec.Admit(c, s) == s
  {
  }

  /** Once the queue has been popped, the rest of admission is prefilling what was popped. */
  lemma AdmitIs(c: Spec.Config, s: Spec.State, t: Spec.State, hs: seq<nat>)
    requires Spec.Ok(s) && !(c.isStatic && s.running != []) && MidInv(c, t, hs)
    requires Spec.Admission(t, hs) == Spec.PopAdmissible(Spec.SortWaiting(s), [], Spec.Room(c, s))
    ensures Spec.Ok(t) && Spec.Named(t, hs) && Spec.Admit(c, s) == Spec.Prefill(c, t, hs) && PrefillsTo(c, t, hs, Spec.Admit(c, s))
  {
    InvOk(c, t, hs);
  }

  lemma NoRows(c: Spec.Config, all: seq<Request>, hs: seq<nat>, t: Spec.State)
    requires Listed(all, [], hs) && Spec.Ok(t) && Spec.Named(t, hs)
    ensures hs == [] && Spec.Prefill(c, t, hs) == t
  {
  }

  lemma ListedPush(all: seq<Request>, rs: seq<Request>, hs: seq<nat>, h: nat)
    requires Listed(all, rs, hs) && h < |all|
    ensures Listed(all, rs + [all[h]], hs + [h])
  {
  }

  lemma RowKeys(all: seq<Request>, rs: seq<Request>, reqs: seq<Req>, hs: seq<nat>)
    requires Listed(all, rs, hs) && Mirrors(all, reqs)
    ensures |hs| == |rs| && forall i {:trigger hs[i]} :: 0 <= i < |hs| ==> hs[i] < |reqs|
    ensures forall i {:trigger rs[i]} {:trigger hs[i]} :: 0 <= i < |rs| ==> Key(rs[i].preempts, -rs[i].admitSeq) == Spec.VictimKey(reqs[hs[i]])
    ensures forall i {:trigger rs[i]} {:trigger hs[i]} :: 0 <= i < |rs| ==> rs[i].admitSeq == reqs[hs[i]].admitSeq && rs[i].reason == reqs[hs[i]].reason
  {
    forall i | 0 <= i < |rs| ensures hs[i] < |reqs| && rs[i].Snap() == reqs[hs[i]] {
      assert all[hs[i]].Snap() == reqs[hs[i]];
    }
  }

  /** Eviction, field by field. */
  lemma EvictParts(s: Spec.State, h: nat)
    requires Spec.Ok(s) && h < |s.reqs| && h in s.running
    ensures var t := Spec.Evict(s, h);
            && t.reqs == s.reqs[h := s.reqs[h].(table := [], state := Waiting, preempts := s.reqs[h].preempts + 1)]
            && t.mem == s.mem.Release(s.reqs[h]) && t.mem == s.mem.(free := t.mem.free, committed := t.mem.committed)
            && t.waiting == s.waiting + [h] && t.running == RemoveAt(s.running, IndexOf(s.running, h)) && t.admits == s.admits
  {
  }

  /** An object stands in a list where its handle does. */
  lemma IndexListed(all: seq<Request>, rs: seq<Request>, hs: seq<nat>, h: nat)
    requires Distinct(all) && Listed(all, rs, hs) && h < |all| && h in hs
    ensures IndexOf(rs, all[h]) == IndexOf(hs, h) < |rs|
  {
    var k := IndexOf(hs, h);
    forall j | 0 <= j < k ensures rs[j] != all[h] {
      assert hs[j] != h;
    }
    assert rs[k] == all[h];
  }

  lemma ListedWithout(all: seq<Request>, rs: seq<Request>, hs: seq<nat>, v: nat)
    requires Listed(all, rs, hs) && v < |rs|
    ensures |hs| == |rs| && Listed(all, RemoveAt(rs, v), RemoveAt(hs, v)) && |RemoveAt(rs, v)| == |RemoveAt(hs, v)| == |rs| - 1
  {
  }

  lemma BlocksKind(s: Spec.State)
    requires s.mem.kind == Blocks(false)
    ensures s.mem.kind.Blocks?
  {
  }

  /** `hs` are the unfinished rows of the running list. */
  ghost predicate UnfinishedAre(s: Spec.State, hs: seq<nat>)
  {
    Spec.Ok(s) && hs == Spec.Unfinished(s.reqs, s.running)
  }

  lemma UnfinishedStart(c: Spec.Config, pool: KVPool, s: Spec.State, batch: seq<nat>, active: seq<nat>, goal: Spec.Capacity)
    requires StepInv(c, s) && Spec.Ok(s) && PoolFits(c, pool, s.mem) && AllCached(c, pool, s.reqs)
    requires UnfinishedAre(s, batch) && Spec.Named(s, batch) && active == Spec.ByAdmission(s, batch)
    requires goal == Spec.EnsureCapacity(c, s, active, 0)
    ensures Serving(c, pool, s, active, 0) && EnsuresTo(c, s, active, 0, goal) && |active| == |batch|
  {
    ServingStart(c, pool, s, batch, active, goal);
  }

  lemma UnfinishedStep(reqs: seq<Req>, hs: seq<nat>, i: nat)
    requires i < |hs| && forall j :: 0 <= j < |hs| ==> hs[j] < |reqs|
    ensures Spec.Unfinished(reqs, hs[..i + 1]) == Spec.Unfinished(reqs, hs[..i]) + (if reqs[hs[i]].Done() then [] else [hs[i]])
  {
    assert hs[..i + 1][..i] == hs[..i];
  }

  lemma UnfinishedDecode(c: Spec.Config, s: Spec.State, batch: seq<nat>, t: Spec.State, kept: seq<nat>)
    requires StepInv(c, s) && UnfinishedAre(s, batch) && batch != [] && Spec.Named(s, batch)
    requires Spec.Capacity(t, kept) == Spec.EnsureCapacity(c, s, Spec.ByAdmission(s, batch), 0)
    ensures Spec.Ok(t) && Spec.Named(t, kept) && Spec.Decode(c, s) == Spec.EmitAll(c, t, kept)
    ensures StepInv(c, Spec.Decode(c, s)) && Spec.Ok(Spec.Decode(c, s))
  {
    DecodeIs(c, s, batch, t, kept);
  }

  lemma NobodyDecodes(c: Spec.Config, s: Spec.State, hs: seq<nat>)
    requires UnfinishedAre(s, hs) && |hs| == 0
    ensures Spec.Ok(s) && Spec.Decode(c, s) == s
  {
    DecodeNothing(c, s);
  }

  lemma NobodySurvives(c: Spec.Config, pool: KVPool, t: Spec.State, kept: seq<nat>)
    requires Spec.Ok(t) && Spec.Named(t, kept) && |kept| == 0 && Serving(c, pool, t, kept, |kept|)
    ensures Spec.EmitAll(c, t, kept) == t && pool.Shape() && c.net.layers <= pool.layers && AllCached(c, pool, t.reqs)
  {
  }

  lemma StepIs(c: Spec.Config, s: Spec.State, t: Spec.State)
    requires Spec.Ok(s) && t == Spec.Admit(c, Spec.Retire(s)) && StepInv(c, t) && Spec.Ok(t)
    ensures Spec.Step(c, s) == Spec.Decode(c, t)
  {
  }

  lemma SortReady(c: Spec.Config, s: Spec.State, limit: int)
    requires StepInv(c, s) && Spec.Ok(s) && RoomFor(c, s, limit)
    ensures var q := Spec.SortWaiting(s);
            q.reqs == s.reqs && Spec.Ok(q) && Spec.Named(q, []) && MidInv(c, q, []) && RoomFor(c, q, limit)
            && PopsTo(q, [], limit, Spec.PopAdmissible(q, [], limit))
  {
    SortWaitingKeeps(c, s);
  }

  lemma PopOneReady(c: Spec.Config, pool: KVPool, s: Spec.State, hs: seq<nat>, limit: int, goal: Spec.Admission)
    requires PopsTo(s, hs, limit, goal) && RoomFor(c, s, limit) && MidInv(c, s, hs) && Spec.CanPop(s, hs, limit)
    requires pool.Shape() && c.net.layers <= pool.layers && AllCached(c, pool, s.reqs)
    ensures s.waiting != [] && s.waiting[0] < |s.reqs| && s.mem.blockSize > 0 && 0 <= s.mem.Need(s.reqs[s.waiting[0]]) <= |s.mem.free|
    ensures var t, h := Spec.AdmitOne(s), s.waiting[0];
            Spec.Ok(t) && MidInv(c, t, hs + [h]) && AllCached(c, pool, t.reqs) && PopsTo(t, hs + [h], limit, goal) && RoomFor(c, t, limit)
  {
    PopReady(c, s, hs, limit);
    PopUnfold(s, hs, limit);
    AllCachedUpdate(c, pool, s.reqs, s.waiting[0], Spec.AdmitOne(s).reqs[s.waiting[0]]);
  }

  lemma PopStops(s: Spec.State, hs: seq<nat>, limit: int, goal: Spec.Admission)
    requires PopsTo(s, hs, limit, goal) && !Spec.CanPop(s, hs, limit)
    ensures goal == Spec.Admission(s, hs)
  {
  }

  /** Admission, field by field. */
  lemma AdmitOneParts(s: Spec.State)
    requires Spec.Ok(s) && s.waiting != [] && 0 <= s.mem.Need(s.reqs[s.waiting[0]]) <= |s.mem.free|
    ensures s.waiting[0] < |s.reqs| && s.mem.blockSize > 0
    ensures var h, t := s.waiting[0], Spec.AdmitOne(s);
            var q := s.reqs[h].(table := s.mem.Taken(s.mem.Need(s.reqs[h])));
            && t.reqs == s.reqs[h := q][h := q.(state := Admitted, admitSeq := s.admits)]
            && t.mem == s.mem.Allocate(s.reqs[h]) && t.mem == s.mem.(free := t.mem.free, committed := t.mem.committed) && t.admits == s.admits + 1
            && t.waiting == s.waiting[1..] && t.running == s.running && t.fault == s.fault
  {
  }

  /** Retirement, field by field. */
  lemma RetireOneParts(s: Spec.State, i: nat)
    requires Spec.Ok(s) && i < |s.running|
    ensures s.running[i] < |s.reqs|
    ensures var h, t := s.running[i], Spec.RetireOne(s, i);
            && t.reqs == s.reqs[h := s.reqs[h].(state := Finished, table := [])] && t.mem == s.mem.Release(s.reqs[h])
            && t.mem == s.mem.(free := t.mem.free, committed := t.mem.committed) && t.admits == s.admits
            && s.mem.Release(s.reqs[h]) == s.mem.Release(s.reqs[h].(state := Finished))
  {
  }

  lemma CancelCached(c: Spec.Config, pool: KVPool, s: Spec.State, h: nat)
    requires h < |s.reqs| && pool.Shape() && c.net.layers <= pool.layers && AllCached(c, pool, s.reqs)
    ensures AllCached(c, pool, Spec.Cancel(s, h).reqs)
  {
    AllCachedSame(c, pool, s.reqs, Spec.Cancel(s, h).reqs);
  }

  lemma RetireTwice(s: Spec.State)
    requires Spec.Ok(s)
    ensures Spec.Retire(s) == Spec.RetireFrom(Spec.DropCancelled(s), 0)
  {
  }

  lemma RetireReady(c: Spec.Config, s: Spec.State)
    requires StepInv(c, s)
    ensures Spec.Ok(s) && Lined(s, s.waiting, Waiting) && Lined(s, s.running, Running)
    ensures NoDup(Spec.DropCancelled(s).running) && SlotsHeld(Spec.DropCancelled(s))
  {
    InvOk(c, s, []);
    ListsMember(s.reqs, s.waiting, Waiting);
    ListsMember(s.reqs, s.running, Running);
    DropCancelledKeeps(c, s);
    OneSlot(c, Spec.DropCancelled(s));
  }

  /** A slot is as long as the context, so one always suffices. */
  lemma OneSlot(c: Spec.Config, s: Spec.State)
    requires StepInv(c, s)
    ensures SlotsHeld(s)
  {
    ListsMember(s.reqs, s.running, Running);
    if s.mem.kind.Slots? {
      forall i | 0 <= i < |s.running| ensures s.running[i] < |s.reqs| && |s.reqs[s.running[i]].table| == 1 {
        var r := s.reqs[s.running[i]];
        assert ReqOk(c, s.mem.blockSize, r) && SettledOne(s.mem.blockSize, r);
        CeilDivPositive(r.SeqLen() - 1, s.mem.blockSize);
      }
    }
  }

  lemma RetireLeaves(c: Spec.Config, pool: KVPool, s: Spec.State)
    requires StepInv(c, s) && pool.Shape() && c.net.layers <= pool.layers && AllCached(c, pool, s.reqs)
    ensures Spec.Ok(s) && StepInv(c, Spec.Retire(s)) && AllCached(c, pool, Spec.Retire(s).reqs)
    ensures NoneDone(Spec.Retire(s), |Spec.Retire(s).running|)
  {
    RetireKeeps(c, s);
    RetireThins(c, s);
    RetireCached(c, pool, s.reqs, Spec.Retire(s).reqs);
  }

  lemma RetireCached(c: Spec.Config, pool: KVPool, qs: seq<Req>, rs: seq<Req>)
    requires pool.Shape() && c.net.layers <= pool.layers && AllCached(c, pool, qs) && AllThinned(qs, rs)
    ensures AllCached(c, pool, rs)
  {
    forall h | 0 <= h < |rs| && rs[h].state == Running
      ensures qs[h].state == Running && rs[h].table == qs[h].table && rs[h].prompt == qs[h].prompt && rs[h].out == qs[h].out
    {
      assert Thinned(qs[h], rs[h]);
    }
    AllCachedSame(c, pool, qs, rs);
  }

  /** Retiring from row `k` on leads to `goal`. */
  ghost predicate RetiresTo(s: Spec.State, k: nat, goal: Spec.State)
  {
    Spec.Ok(s) && k <= |s.running| && Spec.RetireFrom(s, k) == goal
  }

  lemma RunningAmongAll(all: seq<Request>, rs: seq<Request>, hs: seq<nat>)
    requires Listed(all, rs, hs)
    ensures forall r :: r in rs ==> r in all
  {
  }

  lemma ListedSplit(all: seq<Request>, keep: seq<Request>, rows: seq<Request>, i: nat, hs: seq<nat>)
    requires |keep| <= i < |rows| && Listed(all, keep + rows[i..], hs)
    ensures |keep| < |hs| && hs[|keep|] < |all| && rows[i] == all[hs[|keep|]]
    ensures Listed(all, keep + [rows[i]] + rows[i + 1..], hs)
    ensures Listed(all, keep + rows[i + 1..], RemoveAt(hs, |keep|))
  {
    assert (keep + rows[i..])[|keep|] == rows[i];
    assert keep + rows[i..] == keep + [rows[i]] + rows[i + 1..];
    assert keep + rows[i + 1..] == RemoveAt(keep + rows[i..], |keep|);
  }

  /** `hs` lists the requests in place `p`, none twice. */
  ghost predicate Lined(s: Spec.State, hs: seq<nat>, p: Phase)
  {
    && NoDup(hs)
    && (forall i {:trigger hs[i]} :: 0 <= i < |hs| ==> hs[i] < |s.reqs| && s.reqs[hs[i]].state == p)
    && (forall h: nat {:trigger s.reqs[h]} :: h < |s.reqs| && s.reqs[h].state == p ==> h in hs)
  }

  /** Slot-backed requests that run hold exactly one slot. */
  ghost predicate SlotsHeld(s: Spec.State)
  {
    s.mem.kind.Slots? ==> forall i {:trigger s.running[i]} :: 0 <= i < |s.running| ==> s.running[i] < |s.reqs| && |s.reqs[s.running[i]].table| == 1
  }

  lemma RetireOneFacts(s: Spec.State, i: nat)
    requires Spec.Ok(s) && i < |s.running| && NoDup(s.running) && SlotsHeld(s) && s.reqs[s.running[i]].Done()
    ensures NoDup(Spec.RetireOne(s, i).running) && SlotsHeld(Spec.RetireOne(s, i))
    ensures Spec.RetireFrom(s, i) == Spec.RetireFrom(Spec.RetireOne(s, i), i)
  {
  }

  lemma WaitingNotRunning(s: Spec.State, ws: seq<nat>, rs: seq<nat>)
    requires forall i {:trigger ws[i]} :: 0 <= i < |ws| ==> ws[i] < |s.reqs| && s.reqs[ws[i]].state == Waiting
    requires forall i {:trigger rs[i]} :: 0 <= i < |rs| ==> rs[i] < |s.reqs| && s.reqs[rs[i]].state == Running
    ensures Elems(ws) !! Elems(rs)
  {
  }

  ghost function Elems(hs: seq<nat>): set<nat>
  {
    set h {:trigger h in hs} | h in hs
  }

  lemma ElemsStep(hs: seq<nat>, i: nat)
    requires i < |hs| && NoDup(hs)
    ensures hs[i] !in Elems(hs[..i])
    ensures Elems(hs[..i + 1]) == Elems(hs[..i]) + {hs[i]}
  {
    assert hs[..i + 1] == hs[..i] + [hs[i]];
  }

  lemma NothingSwept(reqs: seq<Req>, hs: seq<nat>)
    ensures Spec.Filter(reqs, hs[..0]) == [] && Elems(hs[..0]) == {}
  {
  }

  lemma FilterStep(reqs: seq<Req>, hs: seq<nat>, i: nat)
    requires i < |hs| && forall j :: 0 <= j < |hs| ==> hs[j] < |reqs|
    ensures Spec.Filter(reqs, hs[..i + 1]) == Spec.Filter(reqs, hs[..i]) + (if reqs[hs[i]].cancelled then [] else [hs[i]])
  {
    assert hs[..i + 1][..i] == hs[..i];
  }
}
