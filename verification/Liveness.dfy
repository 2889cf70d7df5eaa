/** Progress: every step with work to do emits a token, so nothing livelocks and nothing starves. */
module Liveness {
  import opened Seqs
  import opened Requests
  import opened Alloc
  import opened SchedulerSpec
  import opened Invariant
  import opened Preservation
  import opened StepSafety
  import opened StepTheorem

  /** Tokens the request may still say. */
  function Rem(r: Req): int
  {
    if r.Done() then 0 else Budget(r) - |r.out|
  }

  ghost predicate Grew(q: Req, r: Req)
  {
    |r.out| > |q.out|
  }

  /** The tokens still to be said by the requests a set of handles names. */
  ghost function Total(reqs: seq<Req>, counted: nat -> bool): int
  {
    if reqs == [] then 0 else
      var n := |reqs| - 1;
      Total(reqs[..n], counted) + (if counted(n) then Rem(reqs[n]) else 0)
  }

  lemma RemEvolves(c: Config, b: nat, q: Req, r: Req)
    requires b > 0 && ReqOk(c, b, q) && ReqOk(c, b, r) && Evolved(c, q, r)
    ensures 0 <= Rem(r) <= Rem(q)
    ensures Grew(q, r) ==> Rem(r) < Rem(q)
  {
  }

  lemma LastEvolves(c: Config, b: nat, qs: seq<Req>, rs: seq<Req>)
    requires b > 0 && qs != [] && |qs| == |rs| && AllReqsOk(c, b, qs) && AllReqsOk(c, b, rs) && AllEvolved(c, qs, rs)
    ensures var n := |qs| - 1;
            && AllReqsOk(c, b, qs[..n]) && AllReqsOk(c, b, rs[..n]) && AllEvolved(c, qs[..n], rs[..n])
            && 0 <= Rem(rs[n]) <= Rem(qs[n]) && (Grew(qs[n], rs[n]) ==> Rem(rs[n]) < Rem(qs[n]))
  {
    var n := |qs| - 1;
    assert ReqOk(c, b, qs[n]) && ReqOk(c, b, rs[n]) && Evolved(c, qs[n], rs[n]);
    RemEvolves(c, b, qs[n], rs[n]);
    hide ReqOk, Evolved, Rem;
    forall h | 0 <= h < n ensures ReqOk(c, b, qs[..n][h]) && ReqOk(c, b, rs[..n][h]) && Evolved(c, qs[..n][h], rs[..n][h]) {
      assert ReqOk(c, b, qs[h]) && ReqOk(c, b, rs[h]) && Evolved(c, qs[h], rs[h]);
    }
  }

  /** A total taken over fewer, further advanced requests is smaller; strictly so where one advanced. */
  lemma {:induction false} TotalDrops(c: Config, b: nat, qs: seq<Req>, rs: seq<Req>, before: nat -> bool, after: nat -> bool)
    requires b > 0 && |qs| == |rs| && AllReqsOk(c, b, qs) && AllReqsOk(c, b, rs) && AllEvolved(c, qs, rs)
    requires forall h: nat {:trigger after(h)} :: h < |qs| && after(h) ==> before(h)
    ensures 0 <= Total(rs, after) <= Total(qs, before)
    ensures (exists h: nat {:trigger Grew(qs[h], rs[h])} :: h < |qs| && before(h) && Grew(qs[h], rs[h])) ==> Total(rs, after) < Total(qs, before)
  {
    if qs != [] {
      var n := |qs| - 1;
      LastEvolves(c, b, qs, rs);
      hide AllReqsOk, AllEvolved, Rem;
      TotalDrops(c, b, qs[..n], rs[..n], before, after);
      var _ := after(n);
      if h: nat :| h < |qs| && before(h) && Grew(qs[h], rs[h]) {
        if h < n {
          assert Grew(qs[..n][h], rs[..n][h]);
        }
      }
    }
  }

  // ---------------------------------------------------------------- somebody always makes progress

  /** With the pool to itself, the head of the queue fits. */
  lemma HeadFits(c: Config, s: State, h: nat)
    requires Inv(c, s, []) && Ok(s) && s.running == [] && h < |s.reqs|
    requires s.reqs[h].state == Waiting && FitsNow(s.mem, s.reqs[h])
    ensures s.mem.CanAllocate(s.reqs[h], 0)
  {
    NobodyHolds(c, s);
    FreeCount(s);
    assert ReqOk(c, s.mem.blockSize, s.reqs[h]);
    assert Matches(c, s.mem) && s.reqs[h].reason == None && JobOk(c, s.reqs[h]) && ProgressOk(s.reqs[h]);
    hide *;
    FitsEmpty(c, s.mem, s.reqs[h]);
  }

  /** An empty pool takes any request that fits it. */
  lemma FitsEmpty(c: Config, m: Memory, r: Req)
    requires Matches(c, m) && r.reason == None && JobOk(c, r) && ProgressOk(r) && FitsNow(m, r)
    requires |m.free| == m.numBlocks && (m.kind == Blocks(true) ==> Sum(m.committed) == 0)
    ensures m.CanAllocate(r, 0)
  {
    SizeFacts(c, m, r);
    hide JobOk, ProgressOk;
  }

  lemma NobodyHolds(c: Config, s: State)
    requires Inv(c, s, []) && s.running == []
    ensures Tables(s.reqs) == multiset{} && Commitments(s.mem.blockSize, s.reqs) == map[]
    ensures multiset(s.mem.free) == Indices(s.mem.numBlocks)
    ensures s.mem.kind == Blocks(true) ==> Sum(s.mem.committed) == 0
  {
    ListsMember(s.reqs, s.running, Running);
    ListsMember(s.reqs, [], Admitted);
    forall g | 0 <= g < |s.reqs| ensures s.reqs[g].table == [] && !s.reqs[g].Holds() {
      assert ReqOk(c, s.mem.blockSize, s.reqs[g]);
      assert g !in s.running;
      assert g !in [];
    }
    NoTables(s.reqs);
    NoCommitments(s.mem.blockSize, s.reqs);
  }

  lemma {:induction false} NoCommitments(b: nat, reqs: seq<Req>)
    requires b > 0 && forall g :: 0 <= g < |reqs| ==> !reqs[g].Holds()
    ensures Commitments(b, reqs) == map[]
  {
    if reqs != [] {
      NoCommitments(b, reqs[..|reqs| - 1]);
    }
  }

  lemma FitCarries(c: Config, s: State, t: State)
    requires Ok(s) && AllFit(c, s) && AllEvolved(c, s.reqs, t.reqs) && SamePool(s, t)
    ensures AllFit(c, t)
  {
    forall h | 0 <= h < |t.reqs| ensures Fits(c, t.mem, t.reqs[h]) {
      assert Evolved(c, s.reqs[h], t.reqs[h]);
      assert Fits(c, s.mem, s.reqs[h]);
    }
  }

  /** Whoever waits, or runs and has more to say, could go on with the pool to itself. */
  ghost predicate NowFit(s: State)
    requires s.mem.blockSize > 0
  {
    RunningFit(s) && forall h {:trigger s.reqs[h]} :: 0 <= h < |s.reqs| && s.reqs[h].state == Waiting ==> FitsNow(s.mem, s.reqs[h])
  }

  lemma FitMeansNow(c: Config, s: State)
    requires StepInv(c, s) && AllFit(c, s)
    ensures NowFit(s)
  {
    FitMeansRunning(c, s);
    forall h | 0 <= h < |s.reqs| && s.reqs[h].state == Waiting ensures FitsNow(s.mem, s.reqs[h]) {
      assert ReqOk(c, s.mem.blockSize, s.reqs[h]) && Fits(c, s.mem, s.reqs[h]);
      FitsMeansNow(c, s.mem, s.reqs[h]);
    }
  }

  lemma SortedNonEmpty(c: Config, s: State, q: State)
    requires StepInv(c, s) && Ok(s) && s.waiting != [] && NowFit(s) && q == SortWaiting(s)
    ensures q.waiting != [] && StepInv(c, q) && Ok(q) && q.reqs[q.waiting[0]].state == Waiting && FitsNow(q.mem, q.reqs[q.waiting[0]])
  {
    SortWaitingKeeps(c, s);
    assert |multiset(q.waiting)| == |q.waiting| && |multiset(s.waiting)| == |s.waiting|;
    ListsMember(q.reqs, q.waiting, Waiting);
    var _ := s.reqs[q.waiting[0]];
  }

  /** With nothing running and somebody waiting, somebody is admitted. */
  lemma SomebodyAdmitted(c: Config, s: State, q: State, a: Admission)
    requires StepInv(c, s) && Ok(s) && s.running == [] && s.waiting != [] && NowFit(s)
    requires q == SortWaiting(s) && a == PopAdmissible(q, [], Room(c, s))
    ensures a.batch != []
  {
    SortedNonEmpty(c, s, q);
    HeadFits(c, q, q.waiting[0]);
    assert CanPop(q, [], Room(c, s));
    PoppedStays(c, q, q.waiting[0], Room(c, s), a);
  }

  lemma PoppedStays(c: Config, q: State, h: nat, limit: int, a: Admission)
    requires StepInv(c, q) && Ok(q) && CanPop(q, [], limit) && h == q.waiting[0] && a == PopAdmissible(q, [], limit)
    requires limit <= 0 || |q.running| + limit <= c.maxBatch
    ensures a.batch != []
  {
    PopReady(c, q, [], limit);
    assert [] + [h] == [h];
    PopUnfold(q, [], limit);
    PopOnly(AdmitOne(q), [h], limit, a);
    assert h in [h];
  }

  /** Somebody's output grew. */
  ghost predicate SomeGrew(qs: seq<Req>, rs: seq<Req>)
  {
    |qs| == |rs| && exists h: nat {:trigger Grew(qs[h], rs[h])} :: h < |qs| && Grew(qs[h], rs[h])
  }

  lemma GrowthThrough(c: Config, ps: seq<Req>, qs: seq<Req>, rs: seq<Req>)
    requires AllEvolved(c, ps, qs) && AllEvolved(c, qs, rs) && (SomeGrew(ps, qs) || SomeGrew(qs, rs))
    ensures SomeGrew(ps, rs)
  {
    if SomeGrew(ps, qs) {
      var h: nat :| h < |ps| && Grew(ps[h], qs[h]);
      assert Evolved(c, qs[h], rs[h]);
      assert Grew(ps[h], rs[h]);
    } else {
      var h: nat :| h < |qs| && Grew(qs[h], rs[h]);
      assert Evolved(c, ps[h], qs[h]);
      assert Grew(ps[h], rs[h]);
    }
  }

  lemma BatchGrows(s: State, q: State, a: Admission, t: State)
    requires Ok(s) && AdmittedBy(s, q, a, t) && a.batch != [] && Named(a.s, a.batch)
    ensures SomeGrew(s.reqs, t.reqs)
  {
    var h := a.batch[0];
    assert h in a.batch;
    var _ := a.s.reqs[h];
    var _ := t.reqs[h];
    assert Grew(s.reqs[h], t.reqs[h]);
  }

  lemma DecodedGrows(s: State, t: State, kept: seq<nat>)
    requires Decoded(s, t, kept) && kept != []
    ensures SomeGrew(s.reqs, t.reqs)
  {
    var h := kept[0];
    assert h in kept;
    var _ := t.reqs[h];
    assert Grew(s.reqs[h], t.reqs[h]);
  }

  lemma StillOk(c: Config, r: State, t: State)
    requires StepInv(c, t) && Ok(r) && t == Admit(c, r)
    ensures Ok(t) && !t.fault && SamePool(r, t)
  {
    InvOk(c, t, []);
  }

  lemma AfterRetireProgress(c: Config, r: State, t: State)
    requires StepInv(c, r) && Ok(r) && HasWork(r) && NoneDone(r, |r.running|) && NowFit(r) && t == Admit(c, r)
    ensures Ok(t) && !t.fault && SomeGrew(r.reqs, Decode(c, t).reqs)
  {
    hide Inv, Settled, Admit, Decode, NowFit, AllEvolved, Decoded, RunningFit, AdmittedBy, SomeGrew, PopAdmissible;
    var a := AdmitKeeps(c, r);
    StillOk(c, r, t);
    var kept := DecodeKeeps(c, t);
    if !(c.isStatic && r.running != []) && a.batch != [] {
      AdmissionNamed(c, r, a);
      BatchGrows(r, SortWaiting(r), a, t);
    } else {
      NothingAdmitted(c, r, a, t);
      DecodedGrows(t, Decode(c, t), kept);
    }
    GrowthThrough(c, r.reqs, t.reqs, Decode(c, t).reqs);
  }

  /** No livelock: a step that still has work after retiring emits at least one token, preemption or not. */
  lemma StepProgress(c: Config, s: State)
    requires StepInv(c, s) && AllFit(c, s) && Ok(s) && HasWork(Retire(s))
    ensures SomeGrew(s.reqs, Step(c, s).reqs)
  {
    RetireKeeps(c, s);
    FitCarries(c, s, Retire(s));
    FitMeansNow(c, Retire(s));
    AfterRetireProgress(c, Retire(s), Admit(c, Retire(s)));
    StepTail(c, Retire(s));
    GrowthThrough(c, s.reqs, Retire(s).reqs, Step(c, s).reqs);
  }

  lemma StepTail(c: Config, r: State)
    requires StepInv(c, r) && Ok(r)
    ensures AllEvolved(c, r.reqs, Decode(c, Admit(c, r)).reqs)
  {
    var _ := AdmitKeeps(c, r);
    var _ := DecodeKeeps(c, Admit(c, r));
    AllEvolvedTrans(c, r.reqs, Admit(c, r).reqs, Decode(c, Admit(c, r)).reqs);
  }

  lemma AdmissionNamed(c: Config, s: State, a: Admission)
    requires StepInv(c, s) && Ok(s) && a == PopAdmissible(SortWaiting(s), [], Room(c, s))
    ensures Named(a.s, a.batch)
  {
  }

  /** If nobody was admitted, the running rows are the old, unfinished ones, and there are some. */
  lemma NothingAdmitted(c: Config, r: State, a: Admission, t: State)
    requires StepInv(c, r) && Ok(r) && HasWork(r) && NoneDone(r, |r.running|) && NowFit(r) && t == Admit(c, r)
    requires c.isStatic && r.running != [] ==> t == r
    requires !(c.isStatic && r.running != []) ==>
               a == PopAdmissible(SortWaiting(r), [], Room(c, r)) && AdmittedBy(r, SortWaiting(r), a, t) && a.batch == []
    ensures Ok(t) && t.running != [] && NoneDone(t, |t.running|) && RunningFit(t)
  {
    if !(c.isStatic && r.running != []) {
      if r.running == [] {
        SomebodyAdmitted(c, r, SortWaiting(r), a);
      }
      hide *;
      NobodyNew(r, SortWaiting(r), a, t);
    }
  }

  lemma NobodyNew(r: State, q: State, a: Admission, t: State)
    requires Ok(r) && Ok(t) && NoneDone(r, |r.running|) && AdmittedBy(r, q, a, t) && a.batch == []
    requires RunningFit(r) && SamePool(r, t)
    ensures t.running == r.running && NoneDone(t, |t.running|) && RunningFit(t)
  {
    hide SortWaiting;
    forall h | 0 <= h < |t.reqs| && t.reqs[h].state == Running && !t.reqs[h].Done() ensures FitsNow(t.mem, t.reqs[h]) {
      var _ := a.s.reqs[h];
      var _ := r.reqs[h];
      assert h !in a.batch;
    }
    assert t.running == r.running;
    forall j | 0 <= j < |t.running| ensures !t.reqs[t.running[j]].Done() {
      var _ := a.s.reqs[r.running[j]];
      var _ := t.reqs[r.running[j]];
      assert r.running[j] !in a.batch;
    }
  }
}
