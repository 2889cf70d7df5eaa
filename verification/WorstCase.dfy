/** Where worst-case admission lets in more than there is and `allocate`'s own assertion fails: a budget so far
    below zero that its commitment falls short of the prompt, and an id used twice. Preemption is off. */
module WorstCase {
  import opened Seqs
  import opened BlockMath
  import opened Requests
  import opened Alloc
  import opened SchedulerSpec
  import opened Invariant
  import opened StepSafety
  import opened StepTheorem
  import opened Runs
  import opened FrontDoor
  import opened Faults
  import HeadroomRun

  /** What the theorem on runs says of the runs that worst-case admission is made for: they never run dry. */
  lemma {:induction false} PossibleNeverDry(c: Config, s: State, evs: seq<Event>)
    requires StepInv(c, s) && Possibles(c, s, evs) && s.mem.kind == Blocks(true)
    ensures AllSent(c, s, evs) && After(c, s, evs) == Run(c, s, evs) && !RunsDry(c, s, evs)
    decreases |evs|
  {
    if evs != [] {
      hide Apply, StepDry;
      ApplyKeeps(c, s, evs[0]);
      if evs[0] == Tick { SafeStep(c, s); }
      hide StepInv;
      PossibleNeverDry(c, Apply(c, s, evs[0]), evs[1..]);
    }
  }

  lemma SafeStep(c: Config, s: State)
    requires StepInv(c, s) && Ok(s) && s.mem.kind == Blocks(true)
    ensures !StepDry(c, s)
  {
    InvLoose(c, s);
    StepKeeps(c, s);
    hide Loose, Step, StepDry;
    StepFaultsIff(c, s);
  }

  lemma InvLoose(c: Config, s: State)
    requires StepInv(c, s) && s.mem.kind == Blocks(true)
    ensures Loose(s, [])
  {
    forall h | 0 <= h < |s.reqs| ensures SizeOk(s.mem.blockSize, s.reqs[h]) {
      NoneAdmitted(s.reqs, h);
      assert ReqOk(c, s.mem.blockSize, s.reqs[h]) && SettledOne(s.mem.blockSize, s.reqs[h]);
    }
  }

  // ---------------------------------------------------------------- one request, any budget

  /** A fresh engine that has been given `r`. */
  ghost function Given(c: Config, numBlocks: nat, blockSize: nat, r: Req): State
  {
    Submit(c, Start(Blocks(true), numBlocks, blockSize), r)
  }

  lemma GivenFields(c: Config, numBlocks: nat, blockSize: nat, r: Req, s: State)
    requires blockSize > 0 && Sendable(c, Start(Blocks(true), numBlocks, blockSize), r) && s == Given(c, numBlocks, blockSize, r)
    ensures Ok(s) && Loose(s, []) && s.reqs == [Capped(c, r)] && s.waiting == [0] && s.running == [] && !s.fault
    ensures s.mem.committed == map[] && |s.mem.free| == numBlocks && s.mem.blockSize == blockSize && s.mem.numBlocks == numBlocks
    ensures s.mem.kind == Blocks(true)
  {
    var s0 := Start(Blocks(true), numBlocks, blockSize);
    StartLoose(s0);
    LooseArrival(c, s0, r);
    LooseOk(s, []);
  }

  lemma CoveredSafe(c: Config, numBlocks: nat, blockSize: nat, r: Req, s: State)
    requires blockSize > 0 && !c.preemption && c.maxBatch > 0 && Sendable(c, Start(Blocks(true), numBlocks, blockSize), r)
    requires PromptCovered(blockSize, Capped(c, r)) && s == Given(c, numBlocks, blockSize, r) && Ok(s)
    ensures !Step(c, s).fault
  {
    var s0 := Start(Blocks(true), numBlocks, blockSize);
    StartOk(c, Blocks(true), numBlocks, blockSize);
    SubmitKeeps(c, s0, r);
    hide Step;
    StepKeeps(c, s);
  }

  /** The pool its commitment asks for: it lets the request in and is too small for the prompt. */
  function Exactly(c: Config, blockSize: nat, r: Req): nat
    requires blockSize > 0
  {
    var worst := WorstOf(blockSize, Capped(c, r));
    if worst < 0 then 0 else worst
  }

  lemma UncoveredFaults(c: Config, blockSize: nat, r: Req, s: State)
    requires blockSize > 0 && !c.preemption && c.maxBatch > 0
    requires Sendable(c, Start(Blocks(true), Exactly(c, blockSize, r), blockSize), r) && !PromptCovered(blockSize, Capped(c, r))
    requires s == Given(c, Exactly(c, blockSize, r), blockSize, r) && Ok(s)
    ensures LetIn(s.mem, Capped(c, r)) && Step(c, s).fault
  {
    GivenFields(c, Exactly(c, blockSize, r), blockSize, r, s);
    CappedFresh(c, s.reqs[0], r);
    hide *;
    UncoveredDry(c, s, s.reqs[0]);
    RetiresSorted(s);
    PopDryStep(c, s);
    MustFail(c, s);
  }

  lemma CappedFresh(c: Config, q: Req, r: Req)
    requires q == Capped(c, r) && r == NewReq(r.id, r.prompt, r.maxNew, r.ignoreEos, r.arrival, r.sampler) && r.prompt != []
    ensures !q.cancelled && !q.Done() && q.out == [] && q.prompt != [] && q.prompt == r.prompt
  {
  }

  lemma RetiresSorted(s: State)
    requires Ok(s) && |s.reqs| == 1 && s.waiting == [0] && !s.reqs[0].cancelled && !s.reqs[0].Done()
    ensures Retire(s) == s && SortWaiting(s) == s
  {
    HeadroomRun.RetiresNobody(s);
    HeadroomRun.SortedAlone(s, 0);
  }

  /** The commitment fits the pool and the prompt does not. */
  lemma UncoveredDry(c: Config, s: State, q: Req)
    requires Ok(s) && s.reqs == [q] && s.waiting == [0] && s.running == [] && s.mem.kind == Blocks(true) && s.mem.committed == map[]
    requires q.out == [] && q.prompt != [] && !PromptCovered(s.mem.blockSize, q) && c.maxBatch > 0
    requires s.mem.numBlocks == |s.mem.free| == if WorstOf(s.mem.blockSize, q) < 0 then 0 else WorstOf(s.mem.blockSize, q)
    ensures PopsDry(s, Room(c, s)) && LetIn(s.mem, q)
  {
    CeilDivPositive(|q.prompt|, s.mem.blockSize);
    assert Sum(s.mem.committed) == 0;
    assert q.SeqLen() == |q.prompt|;
    FirstOverdraws(s, Room(c, s));
  }

  lemma PopDryStep(c: Config, s: State)
    requires Ok(s) && Retire(s) == s && SortWaiting(s) == s && s.running == [] && PopsDry(s, Room(c, s))
    ensures AdmitDry(c, s) && StepDry(c, s)
  {
    hide Retire, SortWaiting, PopsDry, Admit, DecodeDry;
  }

  lemma MustFail(c: Config, s: State)
    requires !c.preemption && Loose(s, []) && Ok(s) && !s.fault && StepDry(c, s)
    ensures Step(c, s).fault
  {
    hide Loose, StepDry, Step;
    StepFaultsIff(c, s);
  }

  /** Every pool is safe with a request if and only if its commitment covers its prompt. */
  lemma CoveredIff(c: Config, blockSize: nat, r: Req)
    requires blockSize > 0 && !c.preemption && c.maxBatch > 0 && Sendable(c, Start(Blocks(true), 0, blockSize), r)
    ensures forall n: nat :: Ok(Given(c, n, blockSize, r))
    ensures PromptCovered(blockSize, Capped(c, r)) <==> forall n: nat :: !Step(c, Given(c, n, blockSize, r)).fault
  {
    forall n: nat ensures Ok(Given(c, n, blockSize, r)) {
      GivenFields(c, n, blockSize, r, Given(c, n, blockSize, r));
    }
    if PromptCovered(blockSize, Capped(c, r)) {
      forall n: nat ensures !Step(c, Given(c, n, blockSize, r)).fault {
        CoveredSafe(c, n, blockSize, r, Given(c, n, blockSize, r));
      }
    } else {
      var n := Exactly(c, blockSize, r);
      UncoveredFaults(c, blockSize, r, Given(c, n, blockSize, r));
    }
  }

  // ---------------------------------------------------------------- one id twice

  ghost predicate SmallConfig(c: Config)
  {
    !c.isStatic && !c.preemption && c.maxBatch == 3 && c.maxContext == 8
  }

  /** Four prompt tokens and one to say; the first two requests come under the same id. */
  function Ask(j: nat): Req
  {
    NewReq(if j < 2 then "a" else "b", [0, 0, 0, 0], 1, true, j, None)
  }

  /** A fresh engine with ten blocks of one token after the three have been submitted. */
  function Submitted(c: Config): State
  {
    Submit(c, Submit(c, Submit(c, Start(Blocks(true), 10, 1), Ask(0)), Ask(1)), Ask(2))
  }

  lemma SubmittedFields(c: Config, s: State)
    requires SmallConfig(c) && s == Submitted(c)
    ensures s.reqs == [Ask(0), Ask(1), Ask(2)] && s.waiting == [0, 1, 2] && s.running == [] && !s.fault
    ensures s.mem.kind == Blocks(true) && s.mem.blockSize == 1 && s.mem.numBlocks == 10 && |s.mem.free| == 10 && s.mem.committed == map[]
  {
    assert forall j: nat :: Capped(c, Ask(j)) == Ask(j);
  }

  lemma AskNumbers(j: nat)
    ensures Ask(j).SeqLen() == 4 && CeilDiv(Ask(j).SeqLen(), 1) == 4 && WorstOf(1, Ask(j)) == 5 && SizeOk(1, Ask(j))
  {
  }

  /** The two requests under one id count once. */
  lemma CountedOnce(reqs: seq<Req>, m: map<string, int>)
    requires reqs == [Ask(0), Ask(1), Ask(2)] && m == map[]
    ensures CommittedAfter(1, reqs, [], m) == map[]
    ensures CommittedAfter(1, reqs, [0], m) == CommittedAfter(1, reqs, [0, 1], m) == map["a" := 5]
  {
    AskNumbers(0);
    AskNumbers(1);
    hide WorstOf;
    assert [0][1..] == [] && [0, 1][1..] == [1] && [1][1..] == [];
    assert CommittedAfter(1, reqs, [0], m) == CommittedAfter(1, reqs, [], map["a" := 5]);
    assert CommittedAfter(1, reqs, [0, 1], m) == CommittedAfter(1, reqs, [1], map["a" := 5]) == CommittedAfter(1, reqs, [], map["a" := 5]["a" := 5]);
  }

  lemma TwelveNeeded(reqs: seq<Req>)
    requires reqs == [Ask(0), Ask(1), Ask(2)]
    ensures Needs(1, reqs, [0, 1, 2]) == 12
  {
    AskNumbers(0);
    AskNumbers(1);
    AskNumbers(2);
    NeedsOneMore(reqs, 2, []);
    NeedsOneMore(reqs, 1, [2]);
    NeedsOneMore(reqs, 0, [1, 2]);
    assert Needs(1, reqs, []) == 0;
    hide Needs, CeilDiv;
    assert [2] + [] == [2] && [1] + [2] == [1, 2] && [0] + [1, 2] == [0, 1, 2];
  }

  lemma NeedsOneMore(reqs: seq<Req>, h: nat, hs: seq<nat>)
    requires h < |reqs| && forall i :: 0 <= i < |hs| ==> hs[i] < |reqs|
    ensures Needs(1, reqs, [h] + hs) == CeilDiv(reqs[h].SeqLen(), 1) + Needs(1, reqs, hs)
  {
    assert ([h] + hs)[1..] == hs;
  }

  lemma ThreeLetIn(s: State)
    requires Ok(s) && s.reqs == [Ask(0), Ask(1), Ask(2)] && s.waiting == [0, 1, 2] && s.mem.committed == map[]
    requires s.mem.blockSize == 1 && s.mem.numBlocks == 10 && |s.mem.free| == 10
    ensures PopsDry(s, 3)
  {
    var w := s.waiting;
    CountedOnce(s.reqs, s.mem.committed);
    TwelveNeeded(s.reqs);
    SumAdd(map[], "a", 5);
    assert w[..0] == [] && w[..1] == [0] && w[..2] == [0, 1] && w[..3] == w;
    hide CommittedAfter, Needs, WorstOf;
    forall i | 0 <= i < 3 ensures Sum(CommittedAfter(1, s.reqs, w[..i], s.mem.committed)) + WorstOf(1, s.reqs[w[i]]) <= 10 {
      AskNumbers(i);
      assert s.reqs[w[i]] == Ask(i);
    }
    assert Overdrawn(s.mem, s.reqs, w, 3);
  }

  /** The third is let in although it needs more blocks than are left. */
  lemma ThirdPopFaults(c: Config, s: State)
    requires SmallConfig(c) && s == Submitted(c)
    ensures Ok(s) && Step(c, s).fault && AdmitDry(c, Retire(s))
    ensures forall j :: 0 <= j < 3 ==> LetIn(s.mem, Ask(j))
  {
    hide *;
    SubmittedFields(c, s);
    SubmittedLoose(s);
    ThirdRetires(s);
    SubmittedSorted(s);
    ThreeLetIn(s);
    EachLetIn(s.mem);
    ThirdRoom(c, s);
    PopDryStep(c, s);
    ConfigOff(c);
    MustFail(c, s);
  }

  lemma ThirdRetires(s: State)
    requires Ok(s) && s.reqs == [Ask(0), Ask(1), Ask(2)]
    ensures Retire(s) == s
  {
    HeadroomRun.RetiresNobody(s);
  }

  lemma ConfigOff(c: Config)
    requires SmallConfig(c)
    ensures !c.preemption
  {
  }

  lemma ThirdRoom(c: Config, s: State)
    requires SmallConfig(c) && s.running == []
    ensures Room(c, s) == 3
  {
  }

  lemma EachLetIn(m: Memory)
    requires m.kind == Blocks(true) && m.blockSize == 1 && m.numBlocks == 10
    ensures forall j :: 0 <= j < 3 ==> LetIn(m, Ask(j))
  {
    forall j | 0 <= j < 3 ensures LetIn(m, Ask(j)) { AskNumbers(j); }
  }

  lemma SubmittedLoose(s: State)
    requires s.reqs == [Ask(0), Ask(1), Ask(2)] && s.waiting == [0, 1, 2] && s.running == [] && s.mem.kind == Blocks(true) && s.mem.blockSize == 1
    ensures Loose(s, []) && Ok(s)
  {
    forall h | 0 <= h < 3 ensures SizeOk(1, s.reqs[h]) {
      AskNumbers(h);
      assert s.reqs[h] == Ask(h);
    }
    ThreeWaiting(s.reqs);
    LooseOk(s, []);
  }

  lemma ThreeWaiting(reqs: seq<Req>)
    requires reqs == [Ask(0), Ask(1), Ask(2)]
    ensures Lists(reqs, [0, 1, 2], Waiting) && Lists(reqs, [], Running) && Lists(reqs, [], Admitted)
  {
    var w: seq<nat> := [0, 1, 2];
    var a, b := multiset(w), Handles(reqs, Waiting);
    forall h: nat ensures a[h] == b[h] {}
    assert a == b;
    assert forall h: nat :: Handles(reqs, Running)[h] == 0 && Handles(reqs, Admitted)[h] == 0;
    assert Handles(reqs, Running) == multiset{} && Handles(reqs, Admitted) == multiset{};
  }

  lemma SubmittedSorted(s: State)
    requires Ok(s) && s.reqs == [Ask(0), Ask(1), Ask(2)] && s.waiting == [0, 1, 2]
    ensures SortWaiting(s) == s
  {
    RankInPlace(WaitKeys(s.reqs, s.waiting));
    hide Rank;
    assert SortWaiting(s).waiting == s.waiting;
  }
}
