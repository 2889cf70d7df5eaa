/** Every transition of the scheduler keeps the invariant, and neither of its assertions can fail. */
module Preservation {
  import opened Seqs
  import opened BlockMath
  import opened Transformer
  import opened Requests
  import opened Alloc
  import opened SchedulerSpec
  import opened Invariant

  lemma InvOk(c: Config, s: State, pend: seq<nat>)
    requires Inv(c, s, pend)
    ensures Ok(s) && Named(s, pend)
  {
    ListsMember(s.reqs, s.waiting, Waiting);
    ListsMember(s.reqs, s.running, Running);
    ListsMember(s.reqs, pend, Admitted);
    forall h | 0 <= h < |s.reqs| ensures s.reqs[h].prompt != [] {
      assert ReqOk(c, s.mem.blockSize, s.reqs[h]);
    }
  }

  lemma RunningListed(c: Config, s: State, h: nat)
    requires Inv(c, s, []) && h < |s.reqs| && s.reqs[h].state == Running
    ensures h in s.running
  {
    ListsMember(s.reqs, s.running, Running);
  }

  // ---------------------------------------------------------------- sizes

  lemma SizeFacts(c: Config, m: Memory, r: Req)
    requires Matches(c, m) && JobOk(c, r) && ProgressOk(r)
    ensures r.reason == None ==> m.Need(r) == CeilDiv(r.SeqLen(), m.blockSize) >= 1
    ensures r.out != [] ==> 1 <= CeilDiv(r.SeqLen() - 1, m.blockSize)
    ensures CeilDiv(r.SeqLen() - 1, m.blockSize) <= CeilDiv(r.SeqLen(), m.blockSize) <= CeilDiv(r.SeqLen() - 1, m.blockSize) + 1
  {
    var b := m.blockSize;
    CeilDivPositive(r.SeqLen(), b);
    CeilDivPositive(r.SeqLen() - 1, b);
    CeilDivStep(r.SeqLen() - 1, b);
  }

  /** Where the commitment covers the prompt, it covers whatever the request may come to store. */
  lemma WorstFacts(c: Config, b: nat, r: Req)
    requires b > 0 && JobOk(c, r) && ProgressOk(r) && PromptCovered(b, r)
    ensures r.reason == None ==> CeilDiv(r.SeqLen(), b) <= WorstOf(b, r)
    ensures r.out != [] ==> CeilDiv(r.SeqLen() - 1, b) <= WorstOf(b, r)
    ensures WorstOf(b, r) >= 1
  {
    CeilDivPositive(|r.prompt|, b);
    if r.SeqLen() <= |r.prompt| + r.maxNew {
      CeilDivMono(r.SeqLen(), |r.prompt| + r.maxNew, b);
    }
    if r.SeqLen() - 1 <= |r.prompt| + r.maxNew {
      CeilDivMono(r.SeqLen() - 1, |r.prompt| + r.maxNew, b);
    }
  }

  lemma FreeCount(s: State)
    requires BlocksPartitioned(s.mem, s.reqs)
    ensures |s.mem.free| == s.mem.numBlocks - |Tables(s.reqs)|
  {
    IndicesSize(s.mem.numBlocks);
    assert |multiset(s.mem.free) + Tables(s.reqs)| == |s.mem.free| + |Tables(s.reqs)|;
  }

  lemma TableWithinWorst(c: Config, m: Memory, r: Req)
    requires Matches(c, m) && ReqOk(c, m.blockSize, r) && PromptCovered(m.blockSize, r)
    ensures |r.table| <= WorstOf(m.blockSize, r)
    ensures r.table != [] ==> r.Holds()
    ensures WorstOf(m.blockSize, r) >= 0
  {
    WorstFacts(c, m.blockSize, r);
  }

  /** Worst-case mode: the blocks in use never exceed what has been committed, and each holder's table
      stays within its own commitment. */
  lemma UsedWithinCommitted(c: Config, m: Memory, reqs: seq<Req>)
    requires Matches(c, m) && AllReqsOk(c, m.blockSize, reqs) && Committable(m.blockSize, reqs)
    ensures |Tables(reqs)| <= Sum(Commitments(m.blockSize, reqs))
  {
    var k := Commitments(m.blockSize, reqs);
    forall h | 0 <= h < |reqs| && reqs[h].table != []
      ensures reqs[h].id in k && |reqs[h].table| <= k[reqs[h].id]
    {
      TableWithinWorst(c, m, reqs[h]);
      CommitmentsValue(m.blockSize, reqs, h);
    }
    forall g, h | 0 <= g < h < |reqs| && reqs[g].table != [] && reqs[h].table != []
      ensures reqs[g].id != reqs[h].id
    {
      TableWithinWorst(c, m, reqs[g]);
      TableWithinWorst(c, m, reqs[h]);
      assert IdsDiffer(reqs[g], reqs[h]);
    }
    CommitmentsNonNegative(c, m, reqs);
    TablesWithinCommitted(reqs, k);
  }

  lemma CommitmentsNonNegative(c: Config, m: Memory, reqs: seq<Req>)
    requires Matches(c, m) && AllReqsOk(c, m.blockSize, reqs) && Committable(m.blockSize, reqs)
    ensures forall k :: k in Commitments(m.blockSize, reqs) ==> Commitments(m.blockSize, reqs)[k] >= 0
  {
    forall k | k in Commitments(m.blockSize, reqs) ensures Commitments(m.blockSize, reqs)[k] >= 0 {
      CommitmentsDomain(m.blockSize, reqs, k);
      var h :| 0 <= h < |reqs| && reqs[h].Holds() && reqs[h].id == k;
      CommitmentsValue(m.blockSize, reqs, h);
      TableWithinWorst(c, m, reqs[h]);
    }
  }

  // ---------------------------------------------------------------- changing one request

  /** How a list's content changes when request `h` goes from state `p` to state `q`. */
  ghost predicate Moved(before: seq<nat>, after: seq<nat>, h: nat, p: Phase, q: Phase, list: Phase)
  {
    multiset(after) == multiset(before) - (if p == list then multiset{h} else multiset{})
                                        + (if q == list then multiset{h} else multiset{})
  }

  /** Request `h` becomes `r`, its blocks coming from or going to the free list. */
  ghost predicate Changes(s: State, pend: seq<nat>, h: nat, r: Req, t: State, pend': seq<nat>)
    requires h < |s.reqs|
  {
    && t.reqs == s.reqs[h := r] && t.fault == s.fault && t.admits >= s.admits
    && t.mem == s.mem.(free := t.mem.free, committed := t.mem.committed)
    && Moved(s.waiting, t.waiting, h, s.reqs[h].state, r.state, Waiting)
    && Moved(s.running, t.running, h, s.reqs[h].state, r.state, Running)
    && Moved(pend, pend', h, s.reqs[h].state, r.state, Admitted)
    && multiset(t.mem.free) + multiset(r.table) == multiset(s.mem.free) + multiset(s.reqs[h].table)
  }

  lemma ListMoves(reqs: seq<Req>, before: seq<nat>, after: seq<nat>, h: nat, r: Req, list: Phase)
    requires h < |reqs| && Lists(reqs, before, list) && Moved(before, after, h, reqs[h].state, r.state, list)
    ensures Lists(reqs[h := r], after, list)
  {
    HandlesUpdate(reqs, h, r, list);
  }

  lemma BlocksMove(m: Memory, free: seq<nat>, committed: map<string, int>, reqs: seq<Req>, h: nat, r: Req)
    requires h < |reqs| && BlocksPartitioned(m, reqs)
    requires multiset(free) + multiset(r.table) == multiset(m.free) + multiset(reqs[h].table)
    ensures BlocksPartitioned(m.(free := free, committed := committed), reqs[h := r])
  {
    TablesUpdate(reqs, h, r);
    var a, b := multiset(reqs[h].table), multiset(r.table);
    var f, g, u := multiset(free), multiset(m.free), Tables(reqs);
    forall x: nat ensures (f + (u - a + b))[x] == (g + u)[x] {
      assert (f + b)[x] == (g + a)[x];
    }
    assert f + (u - a + b) == g + u;
  }

  lemma AdmitsChange(reqs: seq<Req>, h: nat, r: Req, admits: int, admits': int)
    requires h < |reqs| && AdmitsBounded(reqs, admits) && admits <= admits' && (r.Holds() ==> r.admitSeq < admits')
    ensures AdmitsBounded(reqs[h := r], admits')
  {
  }

  lemma ReqChanges(c: Config, b: nat, reqs: seq<Req>, h: nat, r: Req)
    requires b > 0 && h < |reqs| && AllReqsOk(c, b, reqs) && ReqOk(c, b, r)
    ensures AllReqsOk(c, b, reqs[h := r])
  {
  }

  lemma ChangeKeeps(c: Config, s: State, pend: seq<nat>, h: nat, r: Req, t: State, pend': seq<nat>)
    requires Inv(c, s, pend) && h < |s.reqs| && Changes(s, pend, h, r, t, pend')
    requires ReqOk(c, s.mem.blockSize, r) && AllPairsOk(t.reqs) && (r.Holds() ==> r.admitSeq < t.admits)
    requires CommittedOk(t.mem, t.reqs) && |t.running| + |pend'| <= c.maxBatch
    ensures Inv(c, t, pend')
  {
    ListMoves(s.reqs, s.waiting, t.waiting, h, r, Waiting);
    ListMoves(s.reqs, s.running, t.running, h, r, Running);
    ListMoves(s.reqs, pend, pend', h, r, Admitted);
    BlocksMove(s.mem, t.mem.free, t.mem.committed, s.reqs, h, r);
    ReqChanges(c, s.mem.blockSize, s.reqs, h, r);
    AdmitsChange(s.reqs, h, r, s.admits, t.admits);
  }

  /** Commitments of a holder that stays one do not move. */
  lemma CommittedKept(s: State, h: nat, r: Req, m: Memory)
    requires h < |s.reqs| && s.mem.blockSize > 0 && CommittedOk(s.mem, s.reqs)
    requires r.id == s.reqs[h].id && r.prompt == s.reqs[h].prompt && r.maxNew == s.reqs[h].maxNew
    requires s.reqs[h].Holds() && r.Holds() && m == s.mem.(free := m.free)
    ensures CommittedOk(m, s.reqs[h := r])
  {
    if m.kind == Blocks(true) {
      CommittableUpdate(m.blockSize, s.reqs, h, r);
      CommitmentsUpdate(m.blockSize, s.reqs, h, r);
      CommitmentsValue(m.blockSize, s.reqs, h);
    }
  }

  lemma CommittedReleased(s: State, h: nat, r: Req, m: Memory)
    requires h < |s.reqs| && s.mem.blockSize > 0 && CommittedOk(s.mem, s.reqs) && s.mem.kind == Blocks(true)
    requires r.id == s.reqs[h].id && r.prompt == s.reqs[h].prompt && r.maxNew == s.reqs[h].maxNew
    requires forall k :: k in s.mem.committed ==> s.mem.committed[k] >= 0
    requires s.reqs[h].Holds() && !r.Holds() && m == s.mem.(free := m.free, committed := s.mem.committed - {r.id})
    ensures CommittedOk(m, s.reqs[h := r])
  {
    CommittableUpdate(m.blockSize, s.reqs, h, r);
    CommitmentsUpdate(m.blockSize, s.reqs, h, r);
    CommitmentsValue(m.blockSize, s.reqs, h);
    SumRemove(s.mem.committed, r.id);
  }

  // ---------------------------------------------------------------- admission

  /** Admission never pops more blocks than there are: what `can_allocate` promised is there. */
  lemma AllocationFits(c: Config, s: State, pend: seq<nat>, h: nat, headroom: nat)
    requires Inv(c, s, pend) && h < |s.reqs| && s.reqs[h].state == Waiting && s.mem.CanAllocate(s.reqs[h], headroom)
    ensures 0 <= s.mem.Need(s.reqs[h]) <= |s.mem.free|
  {
    assert ReqOk(c, s.mem.blockSize, s.reqs[h]);
    SizeFacts(c, s.mem, s.reqs[h]);
    if s.mem.kind == Blocks(true) {
      FreeCount(s);
      UsedWithinCommitted(c, s.mem, s.reqs);
      assert PromptCovered(s.mem.blockSize, s.reqs[h]);
      WorstFacts(c, s.mem.blockSize, s.reqs[h]);
    }
  }

  lemma TakenSplits(m: Memory, n: nat)
    requires n <= |m.free|
    ensures multiset(m.free) == multiset(m.free[..|m.free| - n]) + multiset(m.Taken(n))
    ensures |m.Taken(n)| == n
  {
    assert m.free == m.free[..|m.free| - n] + m.free[|m.free| - n..];
  }

  lemma AdmitOneKeeps(c: Config, s: State, pend: seq<nat>, headroom: nat)
    requires Inv(c, s, pend) && s.waiting != [] && |s.running| + |pend| < c.maxBatch
    requires s.waiting[0] < |s.reqs| && s.mem.CanAllocate(s.reqs[s.waiting[0]], headroom)
    ensures Ok(s) && 0 <= s.mem.Need(s.reqs[s.waiting[0]]) <= |s.mem.free|
    ensures Inv(c, AdmitOne(s), pend + [s.waiting[0]])
  {
    AdmitOneReady(c, s, pend, headroom);
    AdmitOneStep(c, s, pend, s.waiting[0]);
  }

  lemma AdmitOneReady(c: Config, s: State, pend: seq<nat>, headroom: nat)
    requires Inv(c, s, pend) && s.waiting != []
    requires s.waiting[0] < |s.reqs| && s.mem.CanAllocate(s.reqs[s.waiting[0]], headroom)
    ensures Ok(s) && s.reqs[s.waiting[0]].state == Waiting
    ensures 0 <= s.mem.Need(s.reqs[s.waiting[0]]) <= |s.mem.free|
    ensures s.mem.kind == Blocks(true) ==> Sum(s.mem.committed) + s.mem.Worst(s.reqs[s.waiting[0]]) <= s.mem.numBlocks
  {
    InvOk(c, s, pend);
    ListsMember(s.reqs, s.waiting, Waiting);
    AllocationFits(c, s, pend, s.waiting[0], headroom);
  }

  lemma AdmitOneStep(c: Config, s: State, pend: seq<nat>, h: nat)
    requires Inv(c, s, pend) && |s.running| + |pend| < c.maxBatch
    requires Ok(s) && s.waiting != [] && s.waiting[0] == h && s.reqs[h].state == Waiting
    requires 0 <= s.mem.Need(s.reqs[h]) <= |s.mem.free|
    requires s.mem.kind == Blocks(true) ==> Sum(s.mem.committed) + s.mem.Worst(s.reqs[h]) <= s.mem.numBlocks
    ensures Inv(c, AdmitOne(s), pend + [h])
  {
    var r := s.reqs[h].(state := Admitted, table := s.mem.Taken(s.mem.Need(s.reqs[h])), admitSeq := s.admits);
    assert ReqOk(c, s.mem.blockSize, s.reqs[h]);
    AdmitOneReqOk(c, s.mem, s.reqs[h], s.admits);
    AdmitOneChanges(s, pend, h, r);
    AdmitOnePairs(s, h, r);
    AdmitOneCommits(s, h, r);
    ChangeKeeps(c, s, pend, h, r, AdmitOne(s), pend + [h]);
  }

  lemma AdmitOneMoves(s: State, pend: seq<nat>, h: nat)
    requires s.waiting != [] && s.waiting[0] == h
    ensures Moved(s.waiting, s.waiting[1..], h, Waiting, Admitted, Waiting)
    ensures Moved(pend, pend + [h], h, Waiting, Admitted, Admitted)
  {
    assert s.waiting == [h] + s.waiting[1..];
  }

  lemma AdmitOneChanges(s: State, pend: seq<nat>, h: nat, r: Req)
    requires Ok(s) && s.waiting != [] && s.waiting[0] == h && s.reqs[h].state == Waiting
    requires s.reqs[h].table == [] && 0 <= s.mem.Need(s.reqs[h]) <= |s.mem.free|
    requires r == s.reqs[h].(state := Admitted, table := s.mem.Taken(s.mem.Need(s.reqs[h])), admitSeq := s.admits)
    ensures Changes(s, pend, h, r, AdmitOne(s), pend + [h])
  {
    AdmitOneMoves(s, pend, h);
    TakenSplits(s.mem, s.mem.Need(s.reqs[h]));
    hide Memory.Need, Memory.Taken, Moved;
  }

  lemma AdmitOneReqOk(c: Config, m: Memory, r: Req, admits: int)
    requires Matches(c, m) && ReqOk(c, m.blockSize, r) && r.state == Waiting && 0 <= m.Need(r) <= |m.free|
    ensures ReqOk(c, m.blockSize, r.(state := Admitted, table := m.Taken(m.Need(r)), admitSeq := admits))
  {
    SizeFacts(c, m, r);
    TakenSplits(m, m.Need(r));
  }

  lemma AdmitOnePairs(s: State, h: nat, r: Req)
    requires h < |s.reqs| && AllPairsOk(s.reqs) && AdmitsBounded(s.reqs, s.admits)
    requires s.reqs[h].Live() && r == s.reqs[h].(state := Admitted, table := r.table, admitSeq := s.admits)
    ensures AllPairsOk(s.reqs[h := r])
  {
    forall g | 0 <= g < h ensures PairOk(s.reqs[g], r) { assert PairOk(s.reqs[g], s.reqs[h]); }
    forall g | h < g < |s.reqs| ensures PairOk(r, s.reqs[g]) { assert PairOk(s.reqs[h], s.reqs[g]); }
    PairsUpdate(s.reqs, h, r);
  }

  lemma AdmitOneCommits(s: State, h: nat, r: Req)
    requires Ok(s) && h < |s.reqs| && CommittedOk(s.mem, s.reqs) && s.reqs[h].state == Waiting
    requires r == s.reqs[h].(state := Admitted, table := r.table, admitSeq := s.admits)
    requires 0 <= s.mem.Need(s.reqs[h]) <= |s.mem.free|
    requires s.mem.kind == Blocks(true) ==> Sum(s.mem.committed) + s.mem.Worst(s.reqs[h]) <= s.mem.numBlocks
    ensures CommittedOk(s.mem.Allocate(s.reqs[h]), s.reqs[h := r])
  {
    if s.mem.kind == Blocks(true) {
      CommittableUpdate(s.mem.blockSize, s.reqs, h, r);
      CommitmentsUpdate(s.mem.blockSize, s.reqs, h, r);
      WaitingUnused(s.mem.blockSize, s.reqs, h);
      SumAdd(s.mem.committed, r.id, s.mem.Worst(r));
    }
  }

  lemma WaitingUnused(b: nat, reqs: seq<Req>, h: nat)
    requires b > 0 && h < |reqs| && IdsApart(reqs) && reqs[h].state == Waiting
    ensures reqs[h].id !in Commitments(b, reqs)
  {
    CommitmentsDomain(b, reqs, reqs[h].id);
    forall g | 0 <= g < |reqs| && reqs[g].Holds() ensures reqs[g].id != reqs[h].id {
      assert g < h ==> IdsDiffer(reqs[g], reqs[h]);
      assert h < g ==> IdsDiffer(reqs[h], reqs[g]);
    }
  }

  // ---------------------------------------------------------------- holders that stay, holders that leave

  ghost predicate SameJob(q: Req, r: Req)
  {
    q.id == r.id && q.prompt == r.prompt && q.maxNew == r.maxNew && q.arrival == r.arrival && q.ignoreEos == r.ignoreEos
  }

  lemma StayKeeps(c: Config, s: State, pend: seq<nat>, h: nat, r: Req, t: State, pend': seq<nat>)
    requires Inv(c, s, pend) && h < |s.reqs| && Changes(s, pend, h, r, t, pend')
    requires s.reqs[h].Holds() && r.Holds() && SameJob(s.reqs[h], r) && r.admitSeq == s.reqs[h].admitSeq
    requires t.mem.committed == s.mem.committed && t.admits == s.admits
    requires ReqOk(c, s.mem.blockSize, r) && |t.running| + |pend'| <= c.maxBatch
    ensures Inv(c, t, pend')
  {
    PairsKept(s.reqs, h, r);
    CommittedKept(s, h, r, t.mem);
    assert s.reqs[h].admitSeq < s.admits;
    ChangeKeeps(c, s, pend, h, r, t, pend');
  }

  lemma LeaveKeeps(c: Config, s: State, pend: seq<nat>, h: nat, r: Req, t: State, pend': seq<nat>)
    requires Inv(c, s, pend) && h < |s.reqs| && Changes(s, pend, h, r, t, pend')
    requires s.reqs[h].Holds() && !r.Holds() && SameJob(s.reqs[h], r)
    requires t.mem == s.mem.Release(s.reqs[h])
    requires ReqOk(c, s.mem.blockSize, r) && |t.running| + |pend'| <= c.maxBatch
    ensures Inv(c, t, pend')
  {
    PairsKept(s.reqs, h, r);
    ReleaseCommitted(c, s, h, r);
    ChangeKeeps(c, s, pend, h, r, t, pend');
  }

  lemma ReleaseCommitted(c: Config, s: State, h: nat, r: Req)
    requires Matches(c, s.mem) && AllReqsOk(c, s.mem.blockSize, s.reqs) && CommittedOk(s.mem, s.reqs)
    requires h < |s.reqs| && s.reqs[h].Holds() && !r.Holds() && SameJob(s.reqs[h], r)
    ensures CommittedOk(s.mem.Release(s.reqs[h]), s.reqs[h := r])
  {
    if s.mem.kind == Blocks(true) {
      CommitmentsNonNegative(c, s.mem, s.reqs);
      CommittedReleased(s, h, r, s.mem.Release(s.reqs[h]));
    }
  }

  // ---------------------------------------------------------------- emitting a token

  /** A row whose table covers its last token may emit; its table then covers all but the new one. */
  lemma EmitReqOk(c: Config, b: nat, r: Req, tok: Token, smp: Option<Sampler>)
    requires b > 0 && JobOk(c, r) && Streamed(r) && r.state == Running
    requires r.reason == None && |r.out| < Budget(r) && r.preempts <= |r.out|
    requires |r.table| == CeilDiv(r.SeqLen(), b)
    ensures ReqOk(c, b, EmitToken(c, r, tok, smp))
  {
    var e := EmitToken(c, r, tok, smp);
    assert e.SeqLen() - 1 == r.SeqLen();
    CeilDivStep(r.SeqLen(), b);
  }

  lemma PrefillOneReqOk(c: Config, b: nat, r: Req)
    requires b > 0 && ReqOk(c, b, r) && r.state == Admitted
    ensures ReqOk(c, b, Emit(c, r.(state := Running)))
  {
    var q := r.(state := Running);
    assert q.SeqLen() == r.SeqLen();
    var (tok, smp) := Pick(c.net, q.sampler, Logits(c.net, q.prompt + q.out));
    EmitReqOk(c, b, q, tok, smp);
  }

  lemma PrefillOneKeeps(c: Config, s: State, pend: seq<nat>)
    requires Inv(c, s, pend) && pend != []
    ensures Ok(s) && pend[0] < |s.reqs| && s.reqs[pend[0]].state == Admitted
    ensures Inv(c, PrefillOne(c, s, pend[0]), pend[1..])
  {
    InvOk(c, s, pend);
    ListsMember(s.reqs, pend, Admitted);
    var h := pend[0];
    var r := Emit(c, s.reqs[h].(state := Running));
    assert ReqOk(c, s.mem.blockSize, s.reqs[h]);
    PrefillOneReqOk(c, s.mem.blockSize, s.reqs[h]);
    PrefillOneChanges(c, s, pend, h, r);
    StayKeeps(c, s, pend, h, r, PrefillOne(c, s, h), pend[1..]);
  }

  lemma PrefillOneChanges(c: Config, s: State, pend: seq<nat>, h: nat, r: Req)
    requires Ok(s) && pend != [] && pend[0] == h < |s.reqs| && s.reqs[h].state == Admitted
    requires r == Emit(c, s.reqs[h].(state := Running))
    ensures Changes(s, pend, h, r, PrefillOne(c, s, h), pend[1..])
  {
    assert pend == [h] + pend[1..];
  }

  lemma EmitOneKeeps(c: Config, s: State, h: nat)
    requires Inv(c, s, []) && Ok(s) && h < |s.reqs| && s.reqs[h].state == Running && !s.reqs[h].Done()
    requires |s.reqs[h].table| == CeilDiv(s.reqs[h].SeqLen(), s.mem.blockSize)
    ensures Inv(c, With(s, h, Emit(c, s.reqs[h])), [])
  {
    var q := s.reqs[h];
    var r := Emit(c, q);
    assert ReqOk(c, s.mem.blockSize, q);
    assert ReqOk(c, s.mem.blockSize, r) by {
      var (tok, smp) := Pick(c.net, q.sampler, Logits(c.net, q.prompt + q.out));
      EmitReqOk(c, s.mem.blockSize, q, tok, smp);
    }
    StayKeeps(c, s, [], h, r, With(s, h, r), []);
  }

  // ---------------------------------------------------------------- growing a table

  lemma GrowReqOk(c: Config, m: Memory, r: Req)
    requires Matches(c, m) && ReqOk(c, m.blockSize, r) && r.state == Running && !r.Done()
    ensures ReqOk(c, m.blockSize, r.(table := AppendSlot(m, r).table))
    ensures AppendSlot(m, r).ok ==> |AppendSlot(m, r).table| == CeilDiv(r.SeqLen(), m.blockSize)
    ensures !AppendSlot(m, r).ok ==> m.free == [] && m.kind.Blocks? && AppendSlot(m, r) == Growth(m.free, r.table, false)
                                     && |r.table| < CeilDiv(r.SeqLen(), m.blockSize)
  {
    SizeFacts(c, m, r);
    if m.kind.Blocks? {
      GrowByOne(m.free, r.table, m.Need(r));
    }
  }

  lemma GrowOneKeeps(c: Config, s: State, h: nat)
    requires Inv(c, s, []) && Ok(s) && h < |s.reqs| && s.reqs[h].state == Running && !s.reqs[h].Done()
    ensures Inv(c, GrowOne(s, h), [])
  {
    var g := AppendSlot(s.mem, s.reqs[h]);
    var r := s.reqs[h].(table := g.table);
    assert ReqOk(c, s.mem.blockSize, s.reqs[h]);
    GrowReqOk(c, s.mem, s.reqs[h]);
    StayKeeps(c, s, [], h, r, GrowOne(s, h), []);
  }

  // ---------------------------------------------------------------- giving memory back

  lemma RetireOneKeeps(c: Config, s: State, i: nat)
    requires Inv(c, s, []) && Ok(s) && i < |s.running| && s.reqs[s.running[i]].Done()
    ensures Inv(c, RetireOne(s, i), [])
  {
    hide Changes, CommittedOk, BlocksPartitioned, AllPairsOk;
    ListsMember(s.reqs, s.running, Running);
    var h := s.running[i];
    var r := s.reqs[h].(state := Finished, table := []);
    assert ReqOk(c, s.mem.blockSize, s.reqs[h]);
    RetireOneChanges(s, i, h, r);
    LeaveKeeps(c, s, [], h, r, RetireOne(s, i), []);
  }

  lemma RetireOneChanges(s: State, i: nat, h: nat, r: Req)
    requires Ok(s) && i < |s.running| && h == s.running[i] && s.reqs[h].state == Running
    requires r == s.reqs[h].(state := Finished, table := [])
    ensures Changes(s, [], h, r, RetireOne(s, i), [])
  {
    RemoveAtMultiset(s.running, i);
  }

  lemma EvictKeeps(c: Config, s: State, h: nat)
    requires Inv(c, s, []) && Ok(s) && h < |s.reqs| && s.reqs[h].state == Running && !s.reqs[h].Done()
    ensures h in s.running && Inv(c, Evict(s, h), [])
  {
    hide Changes, CommittedOk, BlocksPartitioned, AllPairsOk;
    ListsMember(s.reqs, s.running, Running);
    var q := s.reqs[h];
    var r := q.(table := [], state := Waiting, preempts := q.preempts + 1);
    assert ReqOk(c, s.mem.blockSize, q);
    EvictReqOk(c, s.mem.blockSize, q, r);
    EvictChanges(s, h, r);
    hide Lists, ReqOk, Evict;
    EvictOneLess(s, h);
    LeaveKeeps(c, s, [], h, r, Evict(s, h), []);
  }

  lemma EvictReqOk(c: Config, b: nat, q: Req, r: Req)
    requires b > 0 && ReqOk(c, b, q) && q.state == Running && !q.Done() && r == q.(table := [], state := Waiting, preempts := q.preempts + 1)
    ensures ReqOk(c, b, r)
  {
  }

  lemma EvictOneLess(s: State, h: nat)
    requires Ok(s) && h < |s.reqs| && h in s.running
    ensures |Evict(s, h).running| <= |s.running| && Evict(s, h).mem == s.mem.Release(s.reqs[h])
  {
  }

  lemma EvictChanges(s: State, h: nat, r: Req)
    requires Ok(s) && h < |s.reqs| && h in s.running && s.reqs[h].state == Running
    requires r == s.reqs[h].(table := [], state := Waiting, preempts := s.reqs[h].preempts + 1)
    ensures Changes(s, [], h, r, Evict(s, h), [])
  {
    RemoveAtMultiset(s.running, IndexOf(s.running, h));
  }
}
