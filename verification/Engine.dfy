/** The synchronous facade: build an engine from a memory budget, hand it a batch of prompts, and run it
    until nothing is left to do. */
module Engine {
  import opened Seqs
  import opened BlockMath
  import opened Transformer
  import opened Reference
  import opened Cache
  import opened Requests
  import opened Alloc
  import opened BlockManager
  import opened Invariant
  import opened StepSafety
  import opened StepTheorem
  import opened SchedulerCache
  import opened Scheduler
  import Spec = SchedulerSpec
  import Runs

  /** One prompt of a batch. */
  datatype Ask = Ask(prompt: seq<Token>, maxNew: int, sampler: Option<Sampler>)

  /** What the reference generates for a prompt on its own. */
  ghost function Alone(c: Spec.Config, a: Ask): seq<Token>
    requires a.prompt != []
  {
    Generate(c.net, Job(a.prompt, a.maxNew, false), c.maxContext, c.eos, a.sampler)
  }

  function Request0(a: Ask, id: string, arrival: int): Req
  {
    NewReq(id, a.prompt, a.maxNew, false, arrival, a.sampler)
  }

  /** Left to itself, the request will end up having said `want`. */
  ghost predicate Promised(c: Spec.Config, want: seq<Token>, r: Req)
  {
    r.prompt != [] && Completion(c, r) == want && !r.cancelled
  }

  /** The last requests of the state are the batch's first `i`, each on its way to its own output. */
  ghost predicate Enrolled(c: Spec.Config, s: Spec.State, n: nat, asks: seq<Ask>, i: nat)
    requires i <= |asks|
  {
    |s.reqs| == n + i && forall k {:trigger asks[k]} :: 0 <= k < i ==> asks[k].prompt != [] && Promised(c, Alone(c, asks[k]), s.reqs[n + k])
  }

  /** Ids and arrival times are those of the batch. */
  ghost predicate Named(s: Spec.State, n: nat, ids: seq<string>, now: int, i: nat)
    requires i <= |ids|
  {
    && |s.reqs| == n + i
    && (forall g {:trigger s.reqs[g]} :: 0 <= g < n ==> s.reqs[g].arrival < now && (s.reqs[g].Live() ==> s.reqs[g].id !in ids))
    && (forall g {:trigger s.reqs[g]} :: n <= g < n + i ==> s.reqs[g].arrival == now + (g - n) && s.reqs[g].id == ids[g - n])
  }

  /** A prompt of 1..maxContext-1 tokens that the pool can see through, its commitment covering it where
      commitments are kept. */
  ghost predicate Askable(c: Spec.Config, m: Memory, a: Ask)
    requires m.blockSize > 0
  {
    0 < |a.prompt| < c.maxContext && Fits(c, m, Spec.Capped(c, Request0(a, "", 0)))
    && (m.kind == Blocks(true) ==> PromptCovered(m.blockSize, Spec.Capped(c, Request0(a, "", 0))))
  }

  // ---------------------------------------------------------------- promises are kept

  lemma EnrollOne(c: Spec.Config, s: Spec.State, n: nat, asks: seq<Ask>, ids: seq<string>, now: int, i: nat)
    requires StepInv(c, s) && AllFit(c, s) && |ids| == |asks| && i < |asks| && NoDup(ids)
    requires Enrolled(c, s, n, asks, i) && Named(s, n, ids, now, i) && Askable(c, s.mem, asks[i])
    ensures var r := Request0(asks[i], ids[i], now + i); var t := Spec.Submit(c, s, r);
            && Runs.Acceptable(c, s, r) && Enrolled(c, t, n, asks, i + 1) && Named(t, n, ids, now, i + 1)
            && t.mem == s.mem && AllFit(c, t)
  {
    assert s.mem.blockSize > 0;
    hide *;
    EnrollNamed(c, s, n, asks, ids, now, i);
    EnrollFits(c, s, asks[i], ids[i], now + i);
    EnrollPromised(c, s, n, asks, ids[i], now, i);
  }

  lemma EnrollNamed(c: Spec.Config, s: Spec.State, n: nat, asks: seq<Ask>, ids: seq<string>, now: int, i: nat)
    requires |ids| == |asks| && i < |asks| && NoDup(ids) && s.mem.blockSize > 0
    requires Named(s, n, ids, now, i) && Askable(c, s.mem, asks[i])
    ensures var r := Request0(asks[i], ids[i], now + i);
            Runs.Acceptable(c, s, r) && Named(Spec.Submit(c, s, r), n, ids, now, i + 1)
  {
  }

  lemma EnrollFits(c: Spec.Config, s: Spec.State, a: Ask, id: string, now: int)
    requires s.mem.blockSize > 0 && AllFit(c, s) && Askable(c, s.mem, a)
    ensures var t := Spec.Submit(c, s, Request0(a, id, now)); t.mem == s.mem && AllFit(c, t)
  {
    var t := Spec.Submit(c, s, Request0(a, id, now));
    forall h | 0 <= h < |t.reqs| ensures Fits(c, t.mem, t.reqs[h]) {
      if h < |s.reqs| { assert Fits(c, s.mem, s.reqs[h]); }
    }
  }

  lemma EnrollPromised(c: Spec.Config, s: Spec.State, n: nat, asks: seq<Ask>, id: string, now: int, i: nat)
    requires i < |asks| && Enrolled(c, s, n, asks, i) && Runs.Acceptable(c, s, Request0(asks[i], id, now + i))
    ensures Enrolled(c, Spec.Submit(c, s, Request0(asks[i], id, now + i)), n, asks, i + 1)
  {
    var r := Request0(asks[i], id, now + i);
    var t := Spec.Submit(c, s, r);
    Runs.SubmitExpected(c, s, r);
    assert JobOf(r) == Job(asks[i].prompt, asks[i].maxNew, false);
    forall k | 0 <= k < i + 1 ensures asks[k].prompt != [] && Promised(c, Alone(c, asks[k]), t.reqs[n + k]) {
      if k < i { assert Promised(c, Alone(c, asks[k]), s.reqs[n + k]); }
    }
  }

  lemma StepPromises(c: Spec.Config, s: Spec.State, n: nat, asks: seq<Ask>)
    requires StepInv(c, s) && Spec.Ok(s) && Enrolled(c, s, n, asks, |asks|)
    ensures Enrolled(c, Spec.Step(c, s), n, asks, |asks|)
  {
    StepKeeps(c, s);
    var t := Spec.Step(c, s);
    forall k | 0 <= k < |asks| ensures asks[k].prompt != [] && Promised(c, Alone(c, asks[k]), t.reqs[n + k]) {
      assert Promised(c, Alone(c, asks[k]), s.reqs[n + k]);
      assert Evolved(c, s.reqs[n + k], t.reqs[n + k]);
    }
  }

  /** When the engine has nothing left to do, every request nobody cancelled has said all it was to say. */
  lemma IdleFulfilled(c: Spec.Config, s: Spec.State, h: nat, want: seq<Token>)
    requires StepInv(c, s) && !Spec.HasWork(s) && h < |s.reqs| && Promised(c, want, s.reqs[h])
    ensures s.reqs[h].state == Finished && s.reqs[h].out == want
  {
    assert ReqOk(c, s.mem.blockSize, s.reqs[h]);
    ListsMember(s.reqs, s.waiting, Waiting);
    ListsMember(s.reqs, s.running, Running);
    ListsMember(s.reqs, [], Admitted);
    assert h !in s.waiting && h !in s.running && h !in [];
    match s.reqs[h].reason
    case None =>
    case Some(why) => assert why == Length || why == Stop || why == Cancelled;
  }

  /** Work left strictly shrinks at every step. */
  ghost function Measure(s: Spec.State): int
  {
    if Spec.HasWork(s) then Runs.Remaining(s) + 1 else 0
  }

  lemma StepShrinks(c: Spec.Config, s: Spec.State)
    requires StepInv(c, s) && AllFit(c, s) && Spec.HasWork(s)
    ensures Spec.Ok(s) && AllFit(c, Spec.Step(c, s)) && 0 <= Measure(Spec.Step(c, s)) < Measure(s)
  {
    Runs.StepDrains(c, s);
  }

  // ---------------------------------------------------------------- the facade

  class Engine {
    const c: Spec.Config
    const sched: Scheduler

    ghost predicate Ready()
      reads sched, sched.all, sched.manager.Obj(), sched.pool.data
    {
      sched.c == c && sched.Valid() && AllFit(c, sched.s)
    }

    constructor (c: Spec.Config, paged: bool, budget: nat, blockSize: nat, bytesPerToken: nat)
      requires c.maxBatch > 0 && c.maxContext > 0 && blockSize > 0 && bytesPerToken > 0
      ensures Ready() && fresh(sched) && sched.all == [] && IsStart(sched.s) && this.c == c
      ensures paged ==> sched.s.mem.kind == Blocks(!c.preemption) && sched.s.mem.blockSize == blockSize
      ensures !paged ==> sched.s.mem.kind == Slots && 1 <= sched.s.mem.numBlocks <= c.maxBatch && sched.s.mem.blockSize == c.maxContext
    {
      hide Inv, StepInv, AllCached, Matches, PoolFits, Runs.Start, AllFit;
      var pool, manager;
      if paged {
        pool, manager := Blocked(c, budget, blockSize, bytesPerToken);
      } else {
        pool, manager := Contiguous(c, budget, bytesPerToken);
      }
      StartShape(c, manager.Mem());
      var sch := new Scheduler(c, pool, manager);
      this.c, sched := c, sch;
      new;
      StartFits(c, sched.s);
      ReadyWhole();
    }

    /** As many blocks as the byte budget holds; worst-case admission exactly when preemption is off. */
    static method Blocked(c: Spec.Config, budget: nat, blockSize: nat, bytesPerToken: nat) returns (pool: KVPool, manager: Manager)
      requires blockSize > 0 && bytesPerToken > 0
      ensures manager.Paged? && PoolFits(c, pool, manager.Mem())
      ensures manager.Mem() == Memory(Blocks(!c.preemption), budget / (blockSize * bytesPerToken), blockSize, Countdown(budget / (blockSize * bytesPerToken)), map[])
    {
      Quotient(budget, blockSize * bytesPerToken);
      var n := budget / (blockSize * bytesPerToken);
      pool := new KVPool(c.net.layers, n, blockSize, c.maxContext, true);
      var blocks := new BlockManager(n, blockSize, !c.preemption);
      manager := Paged(blocks);
    }

    /** At least one slot even if the budget is smaller than a slot, and at most one per batch row. */
    static method Contiguous(c: Spec.Config, budget: nat, bytesPerToken: nat) returns (pool: KVPool, manager: Manager)
      requires c.maxBatch > 0 && c.maxContext > 0 && bytesPerToken > 0
      ensures manager.Slotted? && PoolFits(c, pool, manager.Mem()) && 1 <= manager.Mem().numBlocks <= c.maxBatch
      ensures manager.Mem().numBlocks > 1 ==> manager.Mem().numBlocks * (c.maxContext * bytesPerToken) <= budget
      ensures manager.Mem().numBlocks < c.maxBatch ==> budget < (manager.Mem().numBlocks + 1) * (c.maxContext * bytesPerToken)
      ensures manager.Mem() == Memory(Slots, manager.Mem().numBlocks, c.maxContext, Countdown(manager.Mem().numBlocks), map[])
    {
      SlotsThatFit(budget, c.maxContext * bytesPerToken);
      var fit := budget / (c.maxContext * bytesPerToken);
      var atLeastOne := if fit < 1 then 1 else fit;
      var n := if c.maxBatch < atLeastOne then c.maxBatch else atLeastOne;
      pool := new KVPool(c.net.layers, n, c.maxContext, c.maxContext, false);
      var slots := new SlotManager(n, c.maxContext);
      manager := Slotted(slots);
    }

    method MakeRequests(asks: seq<Ask>, ids: seq<string>, now: int) returns (reqs: seq<Request>)
      requires Ready() && |ids| == |asks|
      ensures Ready() && fresh(reqs) && |reqs| == |asks| && Unsent(sched.all, reqs, asks, ids, now, 0)
    {
      hide Inv, AllCached, PoolFits, AllFit, Unsent;
      reqs := FreshRequests(sched.all, asks, ids, now);
    }

    /** Fresh requests for the batch, in order. */
    static method FreshRequests(ghost all: seq<Request>, asks: seq<Ask>, ids: seq<string>, now: int) returns (reqs: seq<Request>)
      requires |ids| == |asks|
      ensures fresh(reqs) && |reqs| == |asks| && Unsent(all, reqs, asks, ids, now, 0)
    {
      reqs := [];
      for i := 0 to |asks|
        invariant fresh(reqs) && |reqs| == i
        invariant forall j, k {:trigger reqs[j], reqs[k]} :: 0 <= j < k < i ==> reqs[j] != reqs[k]
        invariant forall k {:trigger reqs[k]} :: 0 <= k < i ==> reqs[k] !in all && reqs[k].Snap() == Request0(asks[k], ids[k], now + k)
      {
        var r := new Request(ids[i], asks[i].prompt, asks[i].maxNew, false, now + i, asks[i].sampler);
        reqs := reqs + [r];
      }
    }

    method SubmitOne(req: Request, ghost n: nat, ghost asks: seq<Ask>, ghost ids: seq<string>, ghost now: int, ghost i: nat)
      requires Ready() && |asks| == |ids| && NoDup(ids) && i < |asks| && req !in sched.all
      requires Enrolled(c, sched.s, n, asks, i) && Named(sched.s, n, ids, now, i) && Askable(c, sched.s.mem, asks[i])
      requires req.Snap() == Request0(asks[i], ids[i], now + i)
      modifies sched`waiting, sched`all, sched`s, req`maxNew, req`state
      ensures Ready() && sched.all == old(sched.all) + [req] && sched.s.mem == old(sched.s).mem
      ensures Enrolled(c, sched.s, n, asks, i + 1) && Named(sched.s, n, ids, now, i + 1)
    {
      ReadyParts();
      EnrollOne(c, sched.s, n, asks, ids, now, i);
      hide *;
      sched.Submit(req);
      ReadyWhole();
    }

    lemma ReadyParts()
      requires Ready()
      ensures sched.c == c && sched.Valid() && AllFit(c, sched.s) && StepInv(c, sched.s) && Spec.Ok(sched.s)
    {
    }

    lemma ReadyWhole()
      requires sched.c == c && sched.Valid() && sched.s.mem.blockSize > 0 && AllFit(c, sched.s)
      ensures Ready()
    {
    }

    /** The `i`-th request goes in; the ones after it are still as they were made. */
    method SubmitNext(reqs: seq<Request>, ghost n: nat, ghost asks: seq<Ask>, ghost ids: seq<string>, ghost now: int, i: nat)
      requires Ready() && |asks| == |ids| && NoDup(ids) && i < |reqs| && Unsent(sched.all, reqs, asks, ids, now, i)
      requires Enrolled(c, sched.s, n, asks, i) && Named(sched.s, n, ids, now, i) && Askables(c, sched.s.mem, asks)
      modifies sched`waiting, sched`all, sched`s, reqs
      ensures Ready() && sched.all == old(sched.all) + [reqs[i]] && Askables(c, sched.s.mem, asks)
      ensures Enrolled(c, sched.s, n, asks, i + 1) && Named(sched.s, n, ids, now, i + 1)
      ensures Unsent(sched.all, reqs, asks, ids, now, i + 1)
    {
      hide Ready, Enrolled, Named, AllFit, Askable;
      assert Askable(c, sched.s.mem, asks[i]);
      SubmitOne(reqs[i], n, asks, ids, now, i);
    }

    method SubmitAll(reqs: seq<Request>, ghost asks: seq<Ask>, ghost ids: seq<string>, ghost now: int)
      requires Ready() && |reqs| == |asks| == |ids| && NoDup(ids)
      requires Named(sched.s, |sched.all|, ids, now, 0)
      requires Askables(c, sched.s.mem, asks) && Unsent(sched.all, reqs, asks, ids, now, 0)
      modifies sched`waiting, sched`all, sched`s, reqs
      ensures Ready() && sched.all == old(sched.all) + reqs
      ensures Enrolled(c, sched.s, |old(sched.all)|, asks, |asks|)
    {
      hide *;
      ghost var n := |sched.all|;
      NoneEnrolled(c, sched.s, n, asks, ids, now);
      for i := 0 to |reqs|
        invariant Ready() && sched.all == old(sched.all) + reqs[..i] && Askables(c, sched.s.mem, asks)
        invariant Enrolled(c, sched.s, n, asks, i) && Named(sched.s, n, ids, now, i)
        invariant Unsent(sched.all, reqs, asks, ids, now, i)
      {
        SubmitNext(reqs, n, asks, ids, now, i);
      }
    }

    /** Step until there is nothing left to do; the work left shrinks at every step. */
    method Drain(ghost n: nat, ghost asks: seq<Ask>)
      requires Ready() && Enrolled(c, sched.s, n, asks, |asks|)
      modifies sched, sched.all, sched.manager.Obj(), sched.pool.data
      ensures Ready() && Enrolled(c, sched.s, n, asks, |asks|) && !Spec.HasWork(sched.s) && sched.all == old(sched.all)
    {
      hide *;
      ReadyParts();
      sched.WorkListed();
      while sched.HasWork()
        invariant Ready() && Enrolled(c, sched.s, n, asks, |asks|) && sched.all == old(sched.all)
        invariant sched.HasWork() <==> Spec.HasWork(sched.s)
        decreases Measure(sched.s)
      {
        ReadyParts();
        StepPromises(c, sched.s, n, asks);
        StepShrinks(c, sched.s);
        ghost var before := sched.s;
        sched.Step();
        sched.WorkListed();
        StepSame(c, before, sched.s);
        ReadyWhole();
      }
    }

    /** Whatever the batching mode, the memory mode, the pool size, and whatever else the engine has run
        before: every prompt of the batch gets exactly the output the single-request reference gives it,
        and the call returns. */
    method GenerateBatch(asks: seq<Ask>, ids: seq<string>, now: int) returns (outs: seq<seq<Token>>)
      requires Ready() && |ids| == |asks| && NoDup(ids) && Named(sched.s, |sched.all|, ids, now, 0)
      requires Askables(c, sched.s.mem, asks)
      modifies sched, sched.all, sched.manager.Obj(), sched.pool.data
      ensures Ready() && |outs| == |asks|
      ensures forall i :: 0 <= i < |asks| ==> asks[i].prompt != [] && outs[i] == Alone(c, asks[i])
    {
      hide *;
      ghost var n := |sched.all|;
      var reqs := MakeRequests(asks, ids, now);
      SubmitAll(reqs, asks, ids, now);
      Drain(n, asks);
      outs := Outputs(reqs, n, asks);
    }

    method Arrive(r: Req) returns (req: Request)
      requires sched.Valid() && r == NewReq(r.id, r.prompt, r.maxNew, r.ignoreEos, r.arrival, r.sampler)
      ensures sched.Valid() && fresh(req) && req.Snap() == r
    {
      hide Inv, AllCached, PoolFits;
      req := new Request(r.id, r.prompt, r.maxNew, r.ignoreEos, r.arrival, r.sampler);
    }

    /** One thing happens to the engine: a request arrives, a client disconnects, or the loop body runs. */
    method ServeOne(e: Runs.Event, reqs: seq<Request>, ghost rest: seq<Runs.Event>, ghost goal: Spec.State) returns (now: seq<Request>)
      requires sched.c == c && sched.Valid() && sched.all == reqs && LeadsTo(c, sched.s, [e] + rest, goal)
      modifies sched, sched.all, sched.manager.Obj(), sched.pool.data
      ensures sched.Valid() && sched.all == now && LeadsTo(c, sched.s, rest, goal)
      ensures now == reqs || (|now| > 0 && now == reqs + [now[|now| - 1]] && fresh(now[|now| - 1]))
    {
      hide *;
      sched.Parts();
      LeadsOn(c, sched.s, e, rest, goal);
      now := reqs;
      match e
      case Arrival(r) =>
        var req := Arrive(r);
        sched.Submit(req);
        now := reqs + [req];
      case Hangup(h) =>
        sched.Cancel(reqs[h], h);
      case Tick =>
        sched.Step();
    }

    /** A fresh engine serving any sequence of arrivals, disconnections and steps. At the end every request
        object holds a prefix of its stand-alone output, all of it if it stopped by itself, and its generator
        has made one draw per token. */
    method Serve(evs: seq<Runs.Event>) returns (reqs: seq<Request>)
      requires Ready() && sched.all == [] && IsStart(sched.s) && Runs.Possibles(c, sched.s, evs)
      modifies sched, sched.manager.Obj(), sched.pool.data
      ensures sched.Valid() && sched.s == Runs.Run(c, old(sched.s), evs) && |reqs| == |Runs.Submissions(evs)|
      ensures forall h {:trigger reqs[h]} :: 0 <= h < |reqs| ==> Served(c, Runs.Submissions(evs)[h], reqs[h].Snap())
    {
      hide *;
      ghost var s0 := sched.s;
      ghost var goal := Runs.Run(c, s0, evs);
      ReadyParts();
      StartMatches(c, s0);
      reqs := [];
      LeadsFrom(c, s0, evs);
      assert evs[0..] == evs;
      for i := 0 to |evs|
        invariant sched.Valid() && sched.all == reqs && fresh(reqs) && LeadsTo(c, sched.s, evs[i..], goal)
      {
        assert [evs[i]] + evs[i + 1..] == evs[i..];
        reqs := ServeOne(evs[i], reqs, evs[i + 1..], goal);
      }
      assert evs[|evs|..] == [];
      LeadsNowhere(c, sched.s, goal);
      sched.Parts();
      sched.TiedParts();
      AllServed(c, s0, evs, reqs);
    }

    method Outputs(reqs: seq<Request>, ghost n: nat, ghost asks: seq<Ask>) returns (outs: seq<seq<Token>>)
      requires Ready() && Enrolled(c, sched.s, n, asks, |asks|) && !Spec.HasWork(sched.s)
      requires |reqs| == |asks| && n + |reqs| == |sched.all| && sched.all[n..] == reqs
      ensures Ready() && |outs| == |asks|
      ensures forall i :: 0 <= i < |asks| ==> asks[i].prompt != [] && outs[i] == Alone(c, asks[i])
    {
      hide StepInv, AllFit, AllCached;
      ReadyParts();
      outs := seq(|reqs|, i requires 0 <= i < |reqs| reads reqs => reqs[i].out);
      forall i | 0 <= i < |asks| ensures asks[i].prompt != [] && outs[i] == Alone(c, asks[i]) {
        assert sched.all[n..][i] == sched.all[n + i];
        assert sched.all[n + i].Snap() == sched.s.reqs[n + i];
        assert Promised(c, Alone(c, asks[i]), sched.s.reqs[n + i]);
        IdleFulfilled(c, sched.s, n + i, Alone(c, asks[i]));
      }
    }
  }

  /** From the `i`-th on, the requests are as made and not yet known to the scheduler. */
  ghost predicate Unsent(all: seq<Request>, reqs: seq<Request>, asks: seq<Ask>, ids: seq<string>, now: int, i: nat)
    reads reqs
  {
    && |reqs| == |asks| == |ids|
    && (forall j, k {:trigger reqs[j], reqs[k]} :: 0 <= j < k < |reqs| ==> reqs[j] != reqs[k])
    && forall k {:trigger reqs[k]} :: i <= k < |reqs| ==> reqs[k] !in all && reqs[k].Snap() == Request0(asks[k], ids[k], now + k)
  }

  ghost predicate Askables(c: Spec.Config, m: Memory, asks: seq<Ask>)
  {
    m.blockSize > 0 && forall i {:trigger asks[i]} :: 0 <= i < |asks| ==> Askable(c, m, asks[i])
  }

  /** The events `es` lead from `s` to `goal`. */
  ghost predicate LeadsTo(c: Spec.Config, s: Spec.State, es: seq<Runs.Event>, goal: Spec.State)
  {
    Runs.Possibles(c, s, es) && Runs.Run(c, s, es) == goal
  }

  lemma LeadsFrom(c: Spec.Config, s: Spec.State, es: seq<Runs.Event>)
    requires Runs.Possibles(c, s, es)
    ensures LeadsTo(c, s, es, Runs.Run(c, s, es))
  {
  }

  lemma LeadsNowhere(c: Spec.Config, s: Spec.State, goal: Spec.State)
    requires LeadsTo(c, s, [], goal)
    ensures s == goal
  {
  }

  lemma LeadsOn(c: Spec.Config, s: Spec.State, e: Runs.Event, rest: seq<Runs.Event>, goal: Spec.State)
    requires LeadsTo(c, s, [e] + rest, goal)
    ensures Spec.Ok(s)
    ensures e.Arrival? ==> Runs.Acceptable(c, s, e.r) && LeadsTo(c, Spec.Submit(c, s, e.r), rest, goal)
                           && e.r == NewReq(e.r.id, e.r.prompt, e.r.maxNew, e.r.ignoreEos, e.r.arrival, e.r.sampler)
    ensures e.Hangup? ==> e.h < |s.reqs| && LeadsTo(c, Spec.Cancel(s, e.h), rest, goal)
    ensures e.Tick? ==> LeadsTo(c, Spec.Step(c, s), rest, goal)
  {
    assert ([e] + rest)[1..] == rest;
  }

  ghost predicate IsStart(s: Spec.State)
  {
    s == Runs.Start(s.mem.kind, s.mem.numBlocks, s.mem.blockSize)
  }

  lemma StartMatches(c: Spec.Config, s: Spec.State)
    requires StepInv(c, s)
    ensures Matches(c, s.mem)
  {
  }

  /** What the submission `sub` was owed, and what its request has said so far. */
  ghost predicate Served(c: Spec.Config, sub: Req, r: Req)
  {
    && sub.prompt != [] && Runs.Prefix(r.out, Runs.Expected(c, sub))
    && Traced(c.net, sub.prompt, r.out, sub.sampler, r.sampler)
    && (r.Done() && r.reason != Some(Cancelled) ==> r.out == Runs.Expected(c, sub))
  }

  lemma AllServed(c: Spec.Config, s: Spec.State, evs: seq<Runs.Event>, reqs: seq<Request>)
    requires IsStart(s) && Matches(c, s.mem) && Runs.Possibles(c, s, evs) && Mirrors(reqs, Runs.Run(c, s, evs).reqs)
    ensures |reqs| == |Runs.Submissions(evs)|
    ensures forall h {:trigger reqs[h]} :: 0 <= h < |reqs| ==> Served(c, Runs.Submissions(evs)[h], reqs[h].Snap())
  {
    SubmittedAll(c, s, evs);
    forall h: nat | h < |reqs| ensures Served(c, Runs.Submissions(evs)[h], reqs[h].Snap()) {
      Runs.ScheduleIndependence(c, s.mem.kind, s.mem.numBlocks, s.mem.blockSize, evs, h);
      assert reqs[h].Snap() == Runs.Run(c, s, evs).reqs[h];
    }
  }

  lemma SubmittedAll(c: Spec.Config, s: Spec.State, evs: seq<Runs.Event>)
    requires IsStart(s) && Matches(c, s.mem) && Runs.Possibles(c, s, evs)
    ensures |Runs.Run(c, s, evs).reqs| == |Runs.Submissions(evs)|
  {
    Runs.StartOk(c, s.mem.kind, s.mem.numBlocks, s.mem.blockSize);
    hide Inv, Settled, Runs.CourseOf, Runs.Run, Runs.Submissions, Runs.Possibles;
    Runs.RunCourse(c, [], s, evs);
    assert [] + Runs.Submissions(evs) == Runs.Submissions(evs);
  }

  lemma NoneEnrolled(c: Spec.Config, s: Spec.State, n: nat, asks: seq<Ask>, ids: seq<string>, now: int)
    requires Named(s, n, ids, now, 0)
    ensures Enrolled(c, s, n, asks, 0)
  {
  }

  /** A freshly built allocator is where a run starts. */
  lemma StartShape(c: Spec.Config, m: Memory)
    requires c.maxBatch > 0 && m == Memory(m.kind, m.numBlocks, m.blockSize, Countdown(m.numBlocks), map[])
    requires m.blockSize > 0
    requires m.kind.Slots? ==> m.numBlocks > 0 && m.blockSize == c.maxContext
    requires m.kind.Blocks? ==> m.kind.reserve == !c.preemption
    ensures Matches(c, m) && m == Runs.Start(m.kind, m.numBlocks, m.blockSize).mem
  {
  }

  lemma StartFits(c: Spec.Config, s: Spec.State)
    requires s == Runs.Start(s.mem.kind, s.mem.numBlocks, s.mem.blockSize) && s.mem.blockSize > 0
    ensures AllFit(c, s)
  {
  }

  lemma StepSame(c: Spec.Config, s: Spec.State, t: Spec.State)
    requires Spec.Ok(s) && t == Spec.Step(c, s)
    ensures t.mem.blockSize == s.mem.blockSize
  {
  }

  /** The quotient is the number of slots of `b` bytes that fit into `a`. */
  lemma SlotsThatFit(a: nat, b: nat)
    requires b > 0
    ensures a / b >= 0
    ensures forall n: nat {:trigger n * b} :: n * b <= a <==> n <= a / b
  {
    assert a == a / b * b + a % b;
    forall n: nat ensures n * b <= a <==> n <= a / b {
      if n <= a / b { MulLe(n, a / b, b); } else { MulLe(a / b + 1, n, b); }
    }
  }

  lemma Quotient(a: nat, b: nat)
    requires b > 0
    ensures a / b >= 0
  {
  }
}
