/** Why worst-case admission needs the live ids to be distinct: its commitments are kept by id, so two requests
    under one id are counted once. Three requests, eight blocks of one token each, preemption off. */
module DuplicateIds {
  import opened Seqs
  import opened Requests
  import opened Alloc
  import opened SchedulerSpec
  import opened StepSafety
  import opened Headroom
  import Runs
  import HeadroomRun

  ghost predicate SmallConfig(c: Config)
  {
    !c.isStatic && !c.preemption && c.maxBatch == 3 && c.maxContext == 8
  }

  /** Two prompt tokens, at most two to say; the first two requests come under the same id. */
  function Ask(j: nat): Req
  {
    NewReq(if j < 2 then "a" else "b", [0, 0], 2, true, j, None)
  }

  /** The queue from the `k`-th request on. */
  function From(k: nat): seq<nat>
    requires k <= 3
  {
    seq(3 - k, i requires 0 <= i < 3 - k => k + i)
  }

  /** What has been committed once `k` requests are in. */
  function Committed(k: nat): map<string, int>
  {
    if k == 0 then map[] else if k < 3 then map["a" := 4] else map["a" := 4, "b" := 4]
  }

  /** The first `k` requests hold two blocks each; the others wait. */
  ghost predicate Popped(s: State, k: nat)
  {
    && k <= 3 && s.mem.kind == Blocks(true) && s.mem.numBlocks == 8 && s.mem.blockSize == 1
    && |s.mem.free| == 8 - 2 * k && s.mem.committed == Committed(k)
    && s.waiting == From(k) && s.running == [] && s.admits == k && !s.fault && |s.reqs| == 3
    && (forall j {:trigger s.reqs[j]} :: 0 <= j < k ==>
          |s.reqs[j].table| == 2 && s.reqs[j] == Ask(j).(state := Admitted, table := s.reqs[j].table, admitSeq := j))
    && (forall j {:trigger s.reqs[j]} :: k <= j < 3 ==> s.reqs[j] == Ask(j))
  }

  /** A fresh engine after the three have been submitted. */
  function Submitted(c: Config): State
  {
    Submit(c, Submit(c, Submit(c, Runs.Start(Blocks(true), 8, 1), Ask(0)), Ask(1)), Ask(2))
  }

  lemma SubmittedPopped(c: Config)
    requires SmallConfig(c)
    ensures Ok(Submitted(c)) && Popped(Submitted(c), 0)
  {
    assert forall j: nat :: Capped(c, Ask(j)) == Ask(j);
  }

  lemma CommittedSum(k: nat)
    requires k <= 2
    ensures Sum(Committed(k)) <= 4
  {
    SumAdd(map[], "a", 4);
  }

  lemma PopNumbers(s: State, k: nat)
    requires Popped(s, k) && k < 3
    ensures s.waiting != [] && s.waiting[0] == k && s.reqs[k] == Ask(k)
    ensures s.mem.Need(Ask(k)) == 2 <= |s.mem.free| && s.mem.Worst(Ask(k)) == 4
  {
  }

  lemma PopNext(s: State, k: nat, t: State)
    requires Ok(s) && Popped(s, k) && k < 3 && s.waiting != [] && 0 <= s.mem.Need(s.reqs[s.waiting[0]]) <= |s.mem.free| && t == AdmitOne(s)
    ensures Popped(t, k + 1)
  {
    PopNumbers(s, k);
    PopMemory(s.mem, k);
    hide Memory.Need, Memory.Worst, Memory.Taken, Memory.Allocate;
    assert s.waiting[1..] == From(k + 1);
  }

  lemma PopMemory(m: Memory, k: nat)
    requires m.kind == Blocks(true) && m.blockSize > 0 && k < 3 && m.committed == Committed(k)
    requires m.Need(Ask(k)) == 2 <= |m.free| && m.Worst(Ask(k)) == 4
    ensures |m.Taken(2)| == 2 && |m.Allocate(Ask(k)).free| == |m.free| - 2 && m.Allocate(Ask(k)).committed == Committed(k + 1)
    ensures m.Allocate(Ask(k)) == m.(free := m.Allocate(Ask(k)).free, committed := m.Allocate(Ask(k)).committed)
  {
    hide Memory.Need, Memory.Worst;
  }

  /** The admission test lets all three through. */
  lemma {:induction false} PopsAll(s: State, batch: seq<nat>, k: nat, a: Admission)
    requires Ok(s) && Named(s, batch) && Popped(s, k) && |batch| == k && batch + From(k) == From(0) && a == PopAdmissible(s, batch, 3)
    ensures Popped(a.s, 3) && a.batch == From(0)
    decreases 3 - k
  {
    if k < 3 {
      PopAllowed(s, batch, k);
      hide Popped, PopAdmissible, CanPop, AdmitOne, Memory.Need;
      var t := AdmitOne(s);
      PopNext(s, k, t);
      FromNext(batch, k);
      PopUnfold(s, batch, 3);
      PopsAll(t, batch + [k], k + 1, a);
    } else {
      NoneLeft(s, batch, a);
      assert batch + [] == batch;
    }
  }

  lemma PopAllowed(s: State, batch: seq<nat>, k: nat)
    requires Ok(s) && Popped(s, k) && |batch| == k < 3
    ensures s.waiting != [] && s.waiting[0] == k && CanPop(s, batch, 3) && 0 <= s.mem.Need(s.reqs[k]) <= |s.mem.free|
  {
    PopNumbers(s, k);
    CommittedSum(k);
    hide Memory.Need, Memory.Worst, Committed;
  }

  lemma FromNext(batch: seq<nat>, k: nat)
    requires k < 3
    ensures batch + [k] + From(k + 1) == batch + From(k)
  {
    assert From(k) == [k] + From(k + 1);
  }

  lemma NoneLeft(s: State, batch: seq<nat>, a: Admission)
    requires Ok(s) && Named(s, batch) && Popped(s, 3) && a == PopAdmissible(s, batch, 3)
    ensures a == Admission(s, batch) && From(3) == []
  {
    assert From(3) == [];
    assert !CanPop(s, batch, 3);
  }

  // ---------------------------------------------------------------- prefill

  /** Prefilling says one token each and touches nothing else. */
  lemma {:induction false} PrefillValues(c: Config, s: State, hs: seq<nat>, t: State)
    requires Ok(s) && Named(s, hs) && NoDup(hs) && t == Prefill(c, s, hs)
    ensures t.running == s.running + hs && t.mem == s.mem && t.fault == s.fault && |t.reqs| == |s.reqs|
    ensures forall h {:trigger t.reqs[h]} :: 0 <= h < |s.reqs| ==>
              t.reqs[h] == if h in hs then Emit(c, s.reqs[h].(state := Running)) else s.reqs[h]
    decreases |hs|
  {
    if hs != [] {
      hide Emit, Ok;
      var u := PrefillOne(c, s, hs[0]);
      assert hs == [hs[0]] + hs[1..];
      assert hs[0] !in hs[1..];
      PrefillValues(c, u, hs[1..], t);
      forall h | 0 <= h < |s.reqs| ensures t.reqs[h] == if h in hs then Emit(c, s.reqs[h].(state := Running)) else s.reqs[h] {
        assert h in hs <==> h == hs[0] || h in hs[1..];
        var _ := t.reqs[h];
      }
    }
  }

  /** All three run, two tokens stored and one said each, and two blocks are free. */
  ghost predicate Crowded(t: State)
  {
    && t.mem.kind == Blocks(true) && t.mem.blockSize == 1 && |t.mem.free| == 2 && !t.fault && t.running == From(0) && |t.reqs| == 3
    && forall j {:trigger t.reqs[j]} :: 0 <= j < 3 ==>
         t.reqs[j].state == Running && !t.reqs[j].Done() && t.reqs[j].admitSeq == j && |t.reqs[j].table| == 2 && t.reqs[j].SeqLen() == 3
  }

  lemma FirstToken(c: Config, q: Req, j: nat, r: Req)
    requires q == Ask(j).(state := Running, table := q.table, admitSeq := j) && r == Emit(c, q)
    ensures r.state == Running && !r.Done() && r.admitSeq == j && r.table == q.table && r.SeqLen() == 3
  {
  }

  lemma PrefillCrowds(c: Config, s: State, t: State)
    requires Ok(s) && Popped(s, 3) && Named(s, From(0)) && t == Prefill(c, s, From(0))
    ensures Crowded(t)
  {
    hide Emit, Prefill;
    PrefillValues(c, s, From(0), t);
    forall j | 0 <= j < 3
      ensures t.reqs[j].state == Running && !t.reqs[j].Done() && t.reqs[j].admitSeq == j && |t.reqs[j].table| == 2 && t.reqs[j].SeqLen() == 3
    {
      assert From(0)[j] == j;
      var q := s.reqs[j].(state := Running);
      assert t.reqs[j] == Emit(c, q);
      FirstToken(c, q, j, t.reqs[j]);
    }
  }

  // ---------------------------------------------------------------- the step

  lemma AlreadySorted(s: State)
    requires Ok(s) && Popped(s, 0)
    ensures SortWaiting(s) == s
  {
    RankInPlace(WaitKeys(s.reqs, s.waiting));
    hide Rank;
    assert SortWaiting(s).waiting == s.waiting;
  }

  lemma AdmitsAll(c: Config, s: State)
    requires SmallConfig(c) && Ok(s) && Popped(s, 0)
    ensures Crowded(Admit(c, s))
  {
    hide PopAdmissible, Prefill, Crowded, SortWaiting;
    AlreadySorted(s);
    assert Room(c, s) == 3;
    var a := PopAdmissible(s, [], 3);
    assert !a.s.fault && a.batch == From(0) && Popped(a.s, 3) by {
      assert [] + From(0) == From(0);
      PopsAll(s, [], 0, a);
    }
    hide From, Popped;
    PrefillCrowds(c, a.s, Prefill(c, a.s, a.batch));
  }

  ghost predicate Unstopped(reqs: seq<Req>, hs: seq<nat>)
  {
    (forall i :: 0 <= i < |hs| ==> hs[i] < |reqs|) && Unfinished(reqs, hs) == hs
  }

  lemma UnfinishedNext(reqs: seq<Req>, hs: seq<nat>, x: nat)
    requires Unstopped(reqs, hs) && x < |reqs| && !reqs[x].Done()
    ensures Unstopped(reqs, hs + [x])
  {
    assert (hs + [x])[..|hs|] == hs;
  }

  lemma AllUnfinished(reqs: seq<Req>)
    requires |reqs| == 3 && !reqs[0].Done() && !reqs[1].Done() && !reqs[2].Done()
    ensures Unstopped(reqs, [0, 1, 2])
  {
    assert Unstopped(reqs, []);
    hide Unstopped;
    UnfinishedNext(reqs, [], 0);
    UnfinishedNext(reqs, [] + [0], 1);
    UnfinishedNext(reqs, [] + [0] + [1], 2);
    assert [] + [0] + [1] + [2] == [0, 1, 2];
  }

  lemma OldestFirst(t: State)
    requires |t.reqs| == 3 && forall j {:trigger t.reqs[j]} :: 0 <= j < 3 ==> t.reqs[j].admitSeq == j
    ensures ByAdmission(t, [0, 1, 2]) == [0, 1, 2]
  {
    RankInPlace(AdmitKeys(t.reqs, [0, 1, 2]));
    hide Rank;
  }

  lemma AllSettled(t: State)
    requires Crowded(t)
    ensures Unserved(t, From(0), 0) && From(0) == [0, 1, 2]
  {
    forall j | 0 <= j < 3 ensures SettledOne(1, t.reqs[From(0)[j]]) {
      var _ := t.reqs[j];
    }
  }

  lemma CrowdedRows(t: State)
    requires Ok(t) && Crowded(t)
    ensures Unfinished(t.reqs, t.running) == DecodeRows(t) == From(0) && Unserved(t, From(0), 0) && Opening(1, t.reqs, From(0)) == 3
  {
    AllSettled(t);
    AllUnfinished(t.reqs);
    OldestFirst(t);
    hide From, Unfinished, ByAdmission, Opening, Unserved;
    AllOpen(t.reqs, [0, 1, 2]);
  }

  lemma CrowdedFaults(c: Config, t: State)
    requires !c.preemption && Ok(t) && Crowded(t)
    ensures Decode(c, t).fault
  {
    CrowdedRows(t);
    CrowdedParts(t);
    hide *;
    DecodeFaultsIff(c, t);
    FaultStays(c, t);
  }

  lemma FaultStays(c: Config, t: State)
    requires Ok(t) && Unfinished(t.reqs, t.running) != [] && EnsureCapacity(c, t, DecodeRows(t), 0).s.fault
    ensures Decode(c, t).fault
  {
    hide EnsureCapacity, Unfinished, EmitAll, ByAdmission;
  }

  lemma CrowdedParts(t: State)
    requires Ok(t) && Crowded(t)
    ensures t.mem.blockSize == 1 && |t.mem.free| == 2 && t.mem.kind.Blocks? && !t.fault && NoDup(From(0)) && Named(t, From(0)) && From(0) != []
    ensures forall j {:trigger From(0)[j]} :: 0 <= j < |From(0)| ==> t.reqs[From(0)[j]].state == Running
  {
    forall j | 0 <= j < |From(0)| ensures t.reqs[From(0)[j]].state == Running {
      var _ := t.reqs[j];
    }
  }

  /** Committed twice under one id and counted once: all three are admitted, and their first decode asks for a
      block that is not there. With three ids that cannot happen (`Runs.RunSafe`). */
  lemma DuplicateFaults(c: Config)
    requires SmallConfig(c)
    ensures Ok(Submitted(c)) && Step(c, Submitted(c)).fault
    ensures forall j :: 0 <= j < 3 ==> Ask(j).prompt != [] && Submitted(c).mem.FitsEver(|Ask(j).prompt|, Ask(j).maxNew)
  {
    var s := Submitted(c);
    SubmittedPopped(c);
    HeadroomRun.RetiresNobody(s);
    AdmitsAll(c, s);
    hide Admit, Decode, Retire, Crowded, Popped;
    CrowdedFaults(c, Admit(c, s));
  }
}
