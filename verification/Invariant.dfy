/** What holds in every reachable state of the scheduler, between steps and inside them. */
module Invariant {
  import opened Seqs
  import opened BlockMath
  import opened Requests
  import opened Alloc
  import opened SchedulerSpec

  /** The number of tokens a request may emit: at least one, whatever its budget says. */
  function Budget(r: Req): int
  {
    if r.maxNew < 1 then 1 else r.maxNew
  }

  // ---------------------------------------------------------------- one request

  /** The sink has been told every token once, in order, and told of the end with the last one only. */
  ghost predicate Streamed(r: Req)
  {
    && |r.stream| == |r.out|
    && forall i :: 0 <= i < |r.out| ==>
         r.stream[i] == (r.out[i], i == |r.out| - 1 && (r.reason == Some(Length) || r.reason == Some(Stop)))
  }

  /** A budget may be zero or negative; the request then says one token. */
  ghost predicate JobOk(c: Config, r: Req)
  {
    0 < |r.prompt| < c.maxContext && |r.prompt| + r.maxNew <= c.maxContext
  }

  /** Progress: the budget is never exceeded, only a request that has stopped has spent it, every
      eviction was paid for by at least one token, and nobody ends as cancelled unasked. */
  ghost predicate ProgressOk(r: Req)
  {
    && |r.out| <= Budget(r) && (r.reason == None ==> |r.out| < Budget(r))
    && r.preempts <= |r.out| && (r.reason == Some(Cancelled) ==> r.cancelled)
    && match r.state
       case Running => r.preempts < |r.out|
       case Finished => r.Done() && r.out != []
       case Dropped => r.cancelled && r.reason == None
       case _ => r.reason == None
  }

  /** The reason given for stopping is the true one: "length" when the budget is spent, "stop" when the text
      ended within it and was allowed to, and whoever has met either condition has stopped for it. */
  ghost predicate Reasoned(c: Config, r: Req)
  {
    if r.out == [] then r.reason == None || r.reason == Some(Cancelled)
    else
      var ended := r.out[|r.out| - 1] in c.eos && !r.ignoreEos;
      && (r.reason == Some(Length) <==> |r.out| >= r.maxNew)
      && (r.reason == Some(Stop) <==> |r.out| < r.maxNew && ended)
  }

  /** Lazy allocation: enough blocks for the tokens stored, at most enough for the next one. */
  ghost predicate TableOk(b: nat, r: Req)
    requires b > 0
  {
    match r.state
    case Admitted => |r.table| == CeilDiv(r.SeqLen(), b)
    case Running => CeilDiv(r.SeqLen() - 1, b) <= |r.table| <= CeilDiv(if r.Done() then r.SeqLen() - 1 else r.SeqLen(), b)
    case _ => r.table == []
  }

  ghost predicate ReqOk(c: Config, b: nat, r: Req)
    requires b > 0
  {
    JobOk(c, r) && ProgressOk(r) && TableOk(b, r) && Streamed(r) && Reasoned(c, r)
  }

  ghost predicate AllReqsOk(c: Config, b: nat, reqs: seq<Req>)
    requires b > 0
  {
    forall h {:trigger ReqOk(c, b, reqs[h])} :: 0 <= h < |reqs| ==> ReqOk(c, b, reqs[h])
  }

  // ---------------------------------------------------------------- two requests

  /** Memory holders have distinct admission numbers, and requests arrive in submission order. */
  ghost predicate PairOk(q: Req, r: Req)
  {
    && q.arrival < r.arrival
    && (q.Holds() && r.Holds() ==> q.admitSeq != r.admitSeq)
  }

  ghost predicate AllPairsOk(reqs: seq<Req>)
  {
    forall g, h {:trigger PairOk(reqs[g], reqs[h])} :: 0 <= g < h < |reqs| ==> PairOk(reqs[g], reqs[h])
  }

  ghost predicate IdsDiffer(q: Req, r: Req)
  {
    q.Live() && r.Live() ==> q.id != r.id
  }

  /** Live requests have distinct ids. */
  ghost predicate IdsApart(reqs: seq<Req>)
  {
    forall g, h {:trigger IdsDiffer(reqs[g], reqs[h])} :: 0 <= g < h < |reqs| ==> IdsDiffer(reqs[g], reqs[h])
  }

  /** The worst case committed for the request covers its prompt, which it does unless the budget is so far
      below zero that it takes a block away. */
  predicate PromptCovered(b: nat, r: Req)
    requires b > 0
  {
    CeilDiv(|r.prompt|, b) <= CeilDiv(|r.prompt| + r.maxNew, b)
  }

  /** What worst-case admission relies on: one commitment per live request, and none that falls short. */
  ghost predicate Committable(b: nat, reqs: seq<Req>)
    requires b > 0
  {
    IdsApart(reqs) && forall h {:trigger PromptCovered(b, reqs[h])} :: 0 <= h < |reqs| ==> PromptCovered(b, reqs[h])
  }

  ghost predicate AdmitsBounded(reqs: seq<Req>, admits: int)
  {
    forall h {:trigger reqs[h].Holds()} :: 0 <= h < |reqs| && reqs[h].Holds() ==> reqs[h].admitSeq < admits
  }

  // ---------------------------------------------------------------- the lists and the memory

  /** The handles of the requests in a given place, each once. */
  ghost function Handles(reqs: seq<Req>, p: Phase): (m: multiset<nat>)
    ensures forall h: nat :: m[h] == if h < |reqs| && reqs[h].state == p then 1 else 0
  {
    if reqs == [] then multiset{} else
      var n := |reqs| - 1;
      if reqs[n].state == p then Handles(reqs[..n], p) + multiset{n} else Handles(reqs[..n], p)
  }

  /** `hs` lists the requests in place `p`: all of them, nothing else, none twice. */
  ghost predicate Lists(reqs: seq<Req>, hs: seq<nat>, p: Phase)
  {
    multiset(hs) == Handles(reqs, p)
  }

  /** The free list and the tables partition the pool. */
  ghost predicate BlocksPartitioned(m: Memory, reqs: seq<Req>)
  {
    multiset(m.free) + Tables(reqs) == Indices(m.numBlocks)
  }

  /** The commitments the memory holders call for. */
  ghost function Commitments(b: nat, reqs: seq<Req>): map<string, int>
    requires b > 0
  {
    if reqs == [] then map[] else
      var n := |reqs| - 1;
      var m := Commitments(b, reqs[..n]);
      if reqs[n].Holds() then m[reqs[n].id := CeilDiv(|reqs[n].prompt| + reqs[n].maxNew, b)] else m
  }

  /** Only worst-case admission reads the commitments, which are kept by request id; only there must ids be
      distinct and budgets not too far below zero. */
  ghost predicate CommittedOk(m: Memory, reqs: seq<Req>)
    requires m.blockSize > 0
  {
    m.kind == Blocks(true) ==>
      Committable(m.blockSize, reqs) && m.committed == Commitments(m.blockSize, reqs) && Sum(m.committed) <= m.numBlocks
  }

  /** The engine builds the allocator to match its configuration. */
  ghost predicate Matches(c: Config, m: Memory)
  {
    && m.blockSize > 0 && c.maxBatch > 0
    && (m.kind.Slots? ==> m.blockSize == c.maxContext && m.numBlocks > 0)
    && (m.kind.Blocks? ==> m.kind.reserve == !c.preemption)
  }

  /** `pend` lists the requests that have been allocated but not prefilled yet; between steps it is empty. */
  ghost predicate Inv(c: Config, s: State, pend: seq<nat>)
  {
    && Matches(c, s.mem) && !s.fault
    && Lists(s.reqs, s.waiting, Waiting) && Lists(s.reqs, s.running, Running) && Lists(s.reqs, pend, Admitted)
    && |s.running| + |pend| <= c.maxBatch
    && AllReqsOk(c, s.mem.blockSize, s.reqs) && AllPairsOk(s.reqs) && AdmitsBounded(s.reqs, s.admits)
    && BlocksPartitioned(s.mem, s.reqs) && CommittedOk(s.mem, s.reqs)
  }

  // ---------------------------------------------------------------- updating one request

  lemma ListsMember(reqs: seq<Req>, hs: seq<nat>, p: Phase)
    requires Lists(reqs, hs, p)
    ensures forall h :: h in hs <==> 0 <= h < |reqs| && reqs[h].state == p
    ensures forall i :: 0 <= i < |hs| ==> hs[i] < |reqs| && reqs[hs[i]].state == p
    ensures NoDup(hs)
  {
    forall h: nat ensures h in hs <==> 0 <= h < |reqs| && reqs[h].state == p {
      assert h in hs <==> multiset(hs)[h] > 0;
      assert Handles(reqs, p)[h] > 0 <==> h < |reqs| && reqs[h].state == p;
    }
    forall i | 0 <= i < |hs| ensures hs[i] < |reqs| && reqs[hs[i]].state == p {
      assert hs[i] in hs;
    }
    forall h ensures multiset(hs)[h] <= 1 {
      assert Handles(reqs, p)[h] <= 1;
    }
    NoDupFromMultiset(hs);
  }

  lemma HandlesUpdate(reqs: seq<Req>, h: nat, r: Req, p: Phase)
    requires h < |reqs|
    ensures Handles(reqs[h := r], p) ==
            Handles(reqs, p) - (if reqs[h].state == p then multiset{h} else multiset{})
                             + (if r.state == p then multiset{h} else multiset{})
  {
  }

  /** Changing one request keeps the pairwise facts if it clashes with none of the others. */
  lemma PairsUpdate(reqs: seq<Req>, h: nat, r: Req)
    requires h < |reqs| && AllPairsOk(reqs)
    requires forall g :: 0 <= g < h ==> PairOk(reqs[g], r)
    requires forall g :: h < g < |reqs| ==> PairOk(r, reqs[g])
    ensures AllPairsOk(reqs[h := r])
  {
  }

  lemma IdsUpdate(reqs: seq<Req>, h: nat, r: Req)
    requires h < |reqs| && IdsApart(reqs) && r.id == reqs[h].id && (r.Live() ==> reqs[h].Live())
    ensures IdsApart(reqs[h := r])
  {
    var rs := reqs[h := r];
    forall g, k | 0 <= g < k < |rs| ensures IdsDiffer(rs[g], rs[k]) {
      assert IdsDiffer(reqs[g], reqs[k]);
    }
  }

  lemma CommittableUpdate(b: nat, reqs: seq<Req>, h: nat, r: Req)
    requires b > 0 && h < |reqs| && Committable(b, reqs) && r.id == reqs[h].id && (r.Live() ==> reqs[h].Live())
    requires r.prompt == reqs[h].prompt && r.maxNew == reqs[h].maxNew
    ensures Committable(b, reqs[h := r])
  {
    IdsUpdate(reqs, h, r);
    hide IdsApart;
    var rs := reqs[h := r];
    forall g | 0 <= g < |rs| ensures PromptCovered(b, rs[g]) {
      assert PromptCovered(b, reqs[g]);
    }
  }

  /** It clashes with none when it keeps its identity and gains no place it did not have. */
  lemma PairsKept(reqs: seq<Req>, h: nat, r: Req)
    requires h < |reqs| && AllPairsOk(reqs)
    requires r.arrival == reqs[h].arrival
    requires r.Holds() ==> reqs[h].Holds() && r.admitSeq == reqs[h].admitSeq
    ensures AllPairsOk(reqs[h := r])
  {
    forall g | 0 <= g < h ensures PairOk(reqs[g], r) { assert PairOk(reqs[g], reqs[h]); }
    forall g | h < g < |reqs| ensures PairOk(r, reqs[g]) { assert PairOk(reqs[h], reqs[g]); }
    PairsUpdate(reqs, h, r);
  }

  // ---------------------------------------------------------------- commitments

  function WorstOf(b: nat, r: Req): int
    requires b > 0
  {
    CeilDiv(|r.prompt| + r.maxNew, b)
  }

  /** Every commitment belongs to a holder, under its id. */
  lemma {:induction false} CommitmentsDomain(b: nat, reqs: seq<Req>, k: string)
    requires b > 0
    ensures k in Commitments(b, reqs) <==> exists h :: 0 <= h < |reqs| && reqs[h].Holds() && reqs[h].id == k
  {
    if reqs != [] {
      var n := |reqs| - 1;
      CommitmentsDomain(b, reqs[..n], k);
      if exists h :: 0 <= h < |reqs| && reqs[h].Holds() && reqs[h].id == k {
        var h :| 0 <= h < |reqs| && reqs[h].Holds() && reqs[h].id == k;
        assert h < n ==> reqs[..n][h] == reqs[h];
      }
    }
  }

  lemma {:induction false} CommitmentsValue(b: nat, reqs: seq<Req>, h: nat)
    requires b > 0 && h < |reqs| && reqs[h].Holds() && IdsApart(reqs)
    ensures reqs[h].id in Commitments(b, reqs) && Commitments(b, reqs)[reqs[h].id] == WorstOf(b, reqs[h])
  {
    var n := |reqs| - 1;
    if h < n {
      CommitmentsValue(b, reqs[..n], h);
      assert IdsDiffer(reqs[h], reqs[n]);
    }
  }

  /** A new holder under an unused id adds its commitment; a released one takes its own away. */
  lemma {:induction false} CommitmentsUpdate(b: nat, reqs: seq<Req>, h: nat, r: Req)
    requires b > 0 && h < |reqs| && IdsApart(reqs) && r.id == reqs[h].id
    requires r.prompt == reqs[h].prompt && r.maxNew == reqs[h].maxNew && reqs[h].Live()
    ensures Commitments(b, reqs[h := r]) ==
            if r.Holds() then Commitments(b, reqs)[r.id := WorstOf(b, r)] else Commitments(b, reqs) - {r.id}
  {
    var n := |reqs| - 1;
    if h == n {
      assert reqs[h := r][..n] == reqs[..n];
      forall g | 0 <= g < n && reqs[..n][g].Live() ensures reqs[..n][g].id != r.id {
        assert IdsDiffer(reqs[g], reqs[n]);
      }
      UnusedId(b, reqs[..n], r.id);
    } else {
      CommitmentsUpdate(b, reqs[..n], h, r);
      assert reqs[h := r][..n] == reqs[..n][h := r];
      assert IdsDiffer(reqs[h], reqs[n]);
    }
  }

  lemma UnusedId(b: nat, reqs: seq<Req>, k: string)
    requires b > 0 && forall h :: 0 <= h < |reqs| && reqs[h].Live() ==> reqs[h].id != k
    ensures k !in Commitments(b, reqs)
  {
    CommitmentsDomain(b, reqs, k);
  }
}
