/** The front door's size test, `fits_ever`, against what the pool can really see through: it refuses some
    requests that would finish, and lets some through that block the queue. */
module FrontDoor {
  import opened Seqs
  import opened BlockMath
  import opened Requests
  import opened Alloc
  import opened SchedulerSpec
  import opened Invariant
  import opened StepSafety
  import opened StepTheorem
  import opened Runs
  import opened Stuck
  import opened SizeLimit

  /** The test as the front door makes it, with the budget already capped at the context. */
  predicate LetIn(m: Memory, r: Req)
    requires m.blockSize > 0
  {
    m.FitsEver(|r.prompt|, r.maxNew)
  }

  /** On slots and under worst-case admission the test is exact. */
  lemma ExactUnlessOptimistic(c: Config, m: Memory, r: Req)
    requires Matches(c, m) && JobOk(c, r) && m.kind != Blocks(false)
    ensures LetIn(m, r) <==> Fits(c, m, r)
  {
  }

  /** Under optimistic admission it is right about requests that must say their whole budget in exactly these
      cases: not when the last token, which is never stored, is what tips it over the pool, and not when a
      budget below zero takes blocks away that the prompt needs. */
  lemma OptimisticTest(c: Config, m: Memory, r: Req)
    requires m.blockSize > 0 && m.kind == Blocks(false) && JobOk(c, r) && r.reason == None && r.out == [] && r.ignoreEos
    ensures Fits(c, m, r) <==> CeilDiv(|r.prompt| + Budget(r) - 1, m.blockSize) <= m.numBlocks
    ensures Fits(c, m, r) && !LetIn(m, r) <==> r.maxNew >= 1 && |r.prompt| + r.maxNew - 1 == m.numBlocks * m.blockSize
    ensures LetIn(m, r) && !Fits(c, m, r) <==> LetIn(m, r) && CeilDiv(|r.prompt|, m.blockSize) > m.numBlocks
  {
    CompletionLength(c, r);
    var b, n, p := m.blockSize, m.numBlocks, |r.prompt|;
    CeilDivLeast(p + Budget(r) - 1, b, n);
    CeilDivLeast(p + r.maxNew, b, n);
    CeilDivLeast(p, b, n);
  }

  /** Whatever it lets in fits, if the pool holds the prompt. */
  lemma LetInFits(c: Config, m: Memory, r: Req)
    requires m.blockSize > 0 && m.kind == Blocks(false) && JobOk(c, r) && r.reason == None && r.out == []
    requires LetIn(m, r) && CeilDiv(|r.prompt|, m.blockSize) <= m.numBlocks
    ensures Fits(c, m, r)
  {
    CompletionLength(c, r);
    var b, n, p := m.blockSize, m.numBlocks, |r.prompt|;
    CeilDivLeast(p + |Completion(c, r)| - 1, b, n);
    CeilDivLeast(p + r.maxNew, b, n);
    CeilDivLeast(p, b, n);
  }

  // ---------------------------------------------------------------- a run for each mistake, on every pool

  /** One prompt token, and as many tokens to say as the pool has positions. */
  function JustFits(positions: nat): Req
  {
    NewReq("a", [0], positions, true, 0, None)
  }

  lemma StartNumbers(c: Config, numBlocks: nat, blockSize: nat)
    requires c.maxBatch > 0 && c.preemption && blockSize > 0
    ensures var s := Start(Blocks(false), numBlocks, blockSize);
            Matches(c, s.mem) && s.mem.kind == Blocks(false) && s.mem.numBlocks == numBlocks && s.mem.blockSize == blockSize && s.reqs == []
  {
  }

  /** It is refused, though alone on the engine it says everything it was asked for. */
  lemma RefusedThoughServed(c: Config, numBlocks: nat, blockSize: nat) returns (n: nat)
    requires c.maxBatch > 0 && c.preemption && blockSize > 0 && 0 < numBlocks * blockSize < c.maxContext
    ensures var s0, r := Start(Blocks(false), numBlocks, blockSize), JustFits(numBlocks * blockSize);
            var evs := [Arrival(r)] + Steps(n);
            && s0.mem.blockSize > 0 && !LetIn(s0.mem, Capped(c, r)) && Possibles(c, s0, evs) && |Run(c, s0, evs).reqs| == 1
            && Run(c, s0, evs).reqs[0].Done() && |Run(c, s0, evs).reqs[0].out| == r.maxNew
  {
    var s0, r := Start(Blocks(false), numBlocks, blockSize), JustFits(numBlocks * blockSize);
    StartNumbers(c, numBlocks, blockSize);
    var q := Capped(c, r);
    assert q == r && Acceptable(c, s0, r);
    OptimisticTest(c, s0.mem, q);
    ServeableFits(c, s0, r);
    SubmitExpected(c, s0, r);
    CompletionLength(c, q);
    hide *;
    n := AloneServedIff(c, Blocks(false), numBlocks, blockSize, r);
  }

  /** One prompt token more than the pool has positions, and a budget of minus one. */
  function TooLong(positions: nat): Req
  {
    NewReq("a", seq(positions + 1, _ => 0), -1, true, 0, None)
  }

  /** It is let in, and from the moment it arrives nothing can run. */
  lemma LetInThoughBlocked(c: Config, numBlocks: nat, blockSize: nat)
    requires c.maxBatch > 0 && c.preemption && blockSize > 0 && numBlocks * blockSize + 1 < c.maxContext
    ensures var s0, r := Start(Blocks(false), numBlocks, blockSize), TooLong(numBlocks * blockSize);
            && s0.mem.blockSize > 0 && LetIn(s0.mem, Capped(c, r)) && Ok(s0) && Possible(c, s0, Arrival(r))
            && Blocked(Apply(c, s0, Arrival(r)), 0)
  {
    var s0, r := Start(Blocks(false), numBlocks, blockSize), TooLong(numBlocks * blockSize);
    StartNumbers(c, numBlocks, blockSize);
    CeilDivLeast(numBlocks * blockSize, blockSize, numBlocks);
    CeilDivLeast(numBlocks * blockSize + 1, blockSize, numBlocks);
    TooBigAtOnce(c, s0, r);
  }

  /** Any request that an empty pool would not take, given to an idle engine without the front door's test (a
      batch call makes none), blocks it at once. */
  lemma TooBigAtOnce(c: Config, s0: State, r: Req)
    requires s0.mem.blockSize > 0 && s0.reqs == [] && s0.running == [] && Acceptable(c, s0, r) && !FitsNow(s0.mem, Capped(c, r))
    ensures Blocked(Submit(c, s0, r), 0)
  {
  }
}
