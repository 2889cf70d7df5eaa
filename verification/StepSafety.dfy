/** The whole step keeps the invariant, never faults, and changes each request only in the ways a
    schedule may: it never forgets a token and never alters what the request will finally say. */
module StepSafety {
  import opened Seqs
  import opened BlockMath
  import opened Transformer
  import opened Reference
  import opened Requests
  import opened Alloc
  import opened SchedulerSpec
  import opened Invariant
  import opened Preservation

  // ---------------------------------------------------------------- what a request will say

  function JobOf(r: Req): Job { Job(r.prompt, r.maxNew, r.ignoreEos) }

  /** The output this request ends with if it is left alone from here on: what it has said if it stopped
      by itself, otherwise that plus what the reference goes on to say. */
  ghost function Completion(c: Config, r: Req): seq<Token>
    requires r.prompt != []
  {
    if r.reason == Some(Length) || r.reason == Some(Stop) then r.out
    else Continue(c.net, JobOf(r), c.maxContext, c.eos, r.out, r.sampler)
  }

  /** `r` is a later value of request `q`. */
  ghost predicate Evolved(c: Config, q: Req, r: Req)
  {
    && SameJob(q, r) && q.prompt != []
    && Completion(c, q) == Completion(c, r)
    && |q.out| <= |r.out| && r.out[..|q.out|] == q.out
    && (r.out, r.sampler) == Draws(c.net, q.prompt, q.out, q.sampler, |r.out| - |q.out|)
    && (q.Done() ==> r.out == q.out && r.stream == q.stream && r.reason == q.reason)
    && (r.cancelled == q.cancelled)
    && q.preempts <= r.preempts
  }

  ghost predicate AllEvolved(c: Config, qs: seq<Req>, rs: seq<Req>)
  {
    |qs| == |rs| && forall h {:trigger Evolved(c, qs[h], rs[h])} :: 0 <= h < |qs| ==> Evolved(c, qs[h], rs[h])
  }

  lemma EvolvedTrans(c: Config, p: Req, q: Req, r: Req)
    requires Evolved(c, p, q) && Evolved(c, q, r)
    ensures Evolved(c, p, r)
  {
    assert r.out[..|p.out|] == r.out[..|q.out|][..|p.out|];
    DrawsAdd(c.net, p.prompt, p.out, p.sampler, |q.out| - |p.out|, |r.out| - |q.out|);
  }

  lemma AllEvolvedTrans(c: Config, ps: seq<Req>, qs: seq<Req>, rs: seq<Req>)
    requires AllEvolved(c, ps, qs) && AllEvolved(c, qs, rs)
    ensures AllEvolved(c, ps, rs)
  {
    forall h | 0 <= h < |ps| ensures Evolved(c, ps[h], rs[h]) {
      EvolvedTrans(c, ps[h], qs[h], rs[h]);
    }
  }

  lemma AllEvolvedRefl(c: Config, s: State)
    requires Ok(s)
    ensures AllEvolved(c, s.reqs, s.reqs)
  {
    forall h | 0 <= h < |s.reqs| ensures Evolved(c, s.reqs[h], s.reqs[h]) {
      assert s.reqs[h].out[..|s.reqs[h].out|] == s.reqs[h].out;
    }
  }

  lemma OneEvolved(c: Config, s: State, h: nat, r: Req)
    requires Ok(s) && h < |s.reqs| && Evolved(c, s.reqs[h], r)
    ensures AllEvolved(c, s.reqs, s.reqs[h := r])
  {
    AllEvolvedRefl(c, s);
    forall g | 0 <= g < |s.reqs| ensures Evolved(c, s.reqs[g], s.reqs[h := r][g]) {
      assert Evolved(c, s.reqs[g], s.reqs[g]);
    }
  }

  /** Bookkeeping that touches neither the tokens nor the sampler nor a normal finish. */
  lemma QuietEvolved(c: Config, q: Req, r: Req)
    requires q.prompt != [] && SameJob(q, r) && r.out == q.out && r.stream == q.stream && r.sampler == q.sampler
    requires r.reason == q.reason || (q.reason == None && r.reason == Some(Cancelled))
    requires r.cancelled == q.cancelled && q.preempts <= r.preempts
    ensures Evolved(c, q, r)
  {
    assert r.out[..|q.out|] == q.out;
  }

  /** Emitting follows the reference: the token is the one the reference would add, and the budget capped
      at submission stops at the same token as the reference's own test of the context limit. */
  lemma EmitEvolved(c: Config, q: Req)
    requires JobOk(c, q) && q.reason == None
    ensures Evolved(c, q, Emit(c, q)) && |Emit(c, q).out| == |q.out| + 1
    ensures Drawn(c.net, q.sampler, Logits(c.net, q.prompt + q.out), Emit(c, q).out[|q.out|], Emit(c, q).sampler)
  {
    var r := Emit(c, q);
    var (tok, smp) := Pick(c.net, q.sampler, Logits(c.net, q.prompt + q.out));
    assert r.out == q.out + [tok];
    assert r.out[..|q.out|] == q.out;
    assert JobOf(r) == JobOf(q);
  }

  /** How much a request that has not stopped will have said in the end. */
  lemma CompletionLength(c: Config, r: Req)
    requires JobOk(c, r) && r.reason == None && |r.out| < Budget(r)
    ensures |Completion(c, r)| <= Budget(r) && (r.ignoreEos ==> |Completion(c, r)| == Budget(r))
  {
    ContinueLength(c.net, JobOf(r), c.maxContext, c.eos, r.out, r.sampler);
  }

  // ---------------------------------------------------------------- settled states

  /** Exact lazy allocation: between steps each running request owns exactly the blocks of the tokens
      stored so far; its newest token has been emitted but not fed, so it owns no storage yet. */
  ghost predicate Settled(b: nat, reqs: seq<Req>)
    requires b > 0
  {
    forall h {:trigger SettledOne(b, reqs[h])} :: 0 <= h < |reqs| ==> SettledOne(b, reqs[h])
  }

  ghost predicate SettledOne(b: nat, r: Req)
    requires b > 0
  {
    r.state == Running ==> |r.table| == CeilDiv(r.SeqLen() - 1, b)
  }

  ghost predicate StepInv(c: Config, s: State)
  {
    Inv(c, s, []) && Settled(s.mem.blockSize, s.reqs)
  }

  lemma SettledUpdate(b: nat, reqs: seq<Req>, h: nat, r: Req)
    requires b > 0 && h < |reqs| && Settled(b, reqs) && SettledOne(b, r)
    ensures Settled(b, reqs[h := r])
  {
    var rs := reqs[h := r];
    forall g | 0 <= g < |reqs| ensures SettledOne(b, rs[g]) {
      assert SettledOne(b, reqs[g]);
    }
  }

  // ---------------------------------------------------------------- changing many requests pointwise

  lemma {:induction false} TablesSame(qs: seq<Req>, rs: seq<Req>)
    requires |qs| == |rs| && forall h :: 0 <= h < |qs| ==> qs[h].table == rs[h].table
    ensures Tables(qs) == Tables(rs)
  {
    if qs != [] {
      TablesSame(qs[..|qs| - 1], rs[..|qs| - 1]);
    }
  }

  lemma {:induction false} CommitmentsSame(b: nat, qs: seq<Req>, rs: seq<Req>)
    requires b > 0 && |qs| == |rs|
    requires forall h :: 0 <= h < |qs| ==> SameJob(qs[h], rs[h]) && (qs[h].Holds() <==> rs[h].Holds())
    ensures Commitments(b, qs) == Commitments(b, rs)
  {
    if qs != [] {
      var n := |qs| - 1;
      forall h | 0 <= h < n ensures SameJob(qs[..n][h], rs[..n][h]) {
        assert SameJob(qs[h], rs[h]);
      }
      CommitmentsSame(b, qs[..n], rs[..n]);
      assert SameJob(qs[n], rs[n]);
    }
  }

  /** No list, table, id or admission number moves; each request stays in order by itself. */
  ghost predicate Quiet(q: Req, r: Req)
  {
    && SameJob(q, r) && r.table == q.table && r.admitSeq == q.admitSeq
    && (r.Holds() <==> q.Holds()) && (r.Live() ==> q.Live())
  }

  ghost predicate AllQuiet(qs: seq<Req>, rs: seq<Req>)
  {
    |qs| == |rs| && forall h {:trigger Quiet(qs[h], rs[h])} :: 0 <= h < |qs| ==> Quiet(qs[h], rs[h])
  }

  lemma PairQuiet(p: Req, q: Req, p': Req, q': Req)
    requires PairOk(p, q) && Quiet(p, p') && Quiet(q, q')
    ensures PairOk(p', q')
  {
  }

  lemma IdsQuiet(qs: seq<Req>, rs: seq<Req>)
    requires AllQuiet(qs, rs) && IdsApart(qs)
    ensures IdsApart(rs)
  {
    forall g, h | 0 <= g < h < |rs| ensures IdsDiffer(rs[g], rs[h]) {
      assert Quiet(qs[g], rs[g]) && Quiet(qs[h], rs[h]) && IdsDiffer(qs[g], qs[h]);
    }
  }

  lemma CommittableQuiet(b: nat, qs: seq<Req>, rs: seq<Req>)
    requires b > 0 && AllQuiet(qs, rs) && Committable(b, qs)
    ensures Committable(b, rs)
  {
    IdsQuiet(qs, rs);
    forall h | 0 <= h < |rs| ensures PromptCovered(b, rs[h]) {
      assert PromptCovered(b, qs[h]) && Quiet(qs[h], rs[h]);
    }
  }

  lemma QuietKeeps(c: Config, m: Memory, qs: seq<Req>, rs: seq<Req>, admits: int)
    requires m.blockSize > 0 && AllQuiet(qs, rs)
    requires AllPairsOk(qs) && AdmitsBounded(qs, admits) && BlocksPartitioned(m, qs) && CommittedOk(m, qs)
    ensures AllPairsOk(rs) && AdmitsBounded(rs, admits) && BlocksPartitioned(m, rs) && CommittedOk(m, rs)
  {
    forall h | 0 <= h < |qs| ensures SameJob(qs[h], rs[h]) && qs[h].table == rs[h].table && (qs[h].Holds() <==> rs[h].Holds()) {
      assert Quiet(qs[h], rs[h]);
    }
    TablesSame(qs, rs);
    CommitmentsSame(m.blockSize, qs, rs);
    forall g, h | 0 <= g < h < |rs| ensures PairOk(rs[g], rs[h]) {
      assert Quiet(qs[g], rs[g]) && Quiet(qs[h], rs[h]);
      PairQuiet(qs[g], qs[h], rs[g], rs[h]);
    }
    if m.kind == Blocks(true) { CommittableQuiet(m.blockSize, qs, rs); }
    forall h | 0 <= h < |rs| && rs[h].Holds() ensures rs[h].admitSeq < admits {
      assert Quiet(qs[h], rs[h]);
    }
  }

  // ---------------------------------------------------------------- retire

  lemma {:induction false} FilterCounts(reqs: seq<Req>, hs: seq<nat>, h: nat)
    requires forall i :: 0 <= i < |hs| ==> hs[i] < |reqs|
    ensures multiset(Filter(reqs, hs))[h] == if h < |reqs| && !reqs[h].cancelled then multiset(hs)[h] else 0
  {
    if hs != [] {
      var n := |hs| - 1;
      FilterCounts(reqs, hs[..n], h);
      assert multiset(hs) == multiset(hs[..n]) + multiset{hs[n]} by { assert hs == hs[..n] + [hs[n]]; }
    }
  }

  lemma HandlesSame(qs: seq<Req>, rs: seq<Req>, p: Phase)
    requires |qs| == |rs| && forall h :: 0 <= h < |qs| ==> (qs[h].state == p <==> rs[h].state == p)
    ensures Handles(qs, p) == Handles(rs, p)
  {
  }

  lemma FilterLists(reqs: seq<Req>, hs: seq<nat>)
    requires Lists(reqs, hs, Waiting) && forall i :: 0 <= i < |hs| ==> hs[i] < |reqs|
    ensures Lists(DisconnectAll(reqs), Filter(reqs, hs), Waiting)
  {
    var f: multiset<nat> := multiset(Filter(reqs, hs));
    var g := Handles(DisconnectAll(reqs), Waiting);
    forall h: nat ensures f[h] == g[h] {
      FilterOne(reqs, hs, h);
    }
    assert f == g;
  }

  lemma FilterOne(reqs: seq<Req>, hs: seq<nat>, h: nat)
    requires Lists(reqs, hs, Waiting) && forall i :: 0 <= i < |hs| ==> hs[i] < |reqs|
    ensures multiset(Filter(reqs, hs))[h] == Handles(DisconnectAll(reqs), Waiting)[h]
  {
    FilterCounts(reqs, hs, h);
    assert multiset(hs)[h] == Handles(reqs, Waiting)[h];
  }

  lemma DisconnectOk(c: Config, b: nat, q: Req)
    requires b > 0 && ReqOk(c, b, q) && SettledOne(b, q)
    ensures ReqOk(c, b, Disconnect(q)) && SettledOne(b, Disconnect(q))
    ensures Quiet(q, Disconnect(q)) && Evolved(c, q, Disconnect(q))
  {
    QuietEvolved(c, q, Disconnect(q));
  }

  lemma DisconnectAllOk(c: Config, b: nat, qs: seq<Req>, rs: seq<Req>)
    requires b > 0 && AllReqsOk(c, b, qs) && Settled(b, qs) && rs == DisconnectAll(qs)
    ensures AllReqsOk(c, b, rs) && Settled(b, rs) && AllQuiet(qs, rs) && AllEvolved(c, qs, rs)
  {
    forall h | 0 <= h < |qs|
      ensures ReqOk(c, b, rs[h]) && SettledOne(b, rs[h]) && Quiet(qs[h], rs[h]) && Evolved(c, qs[h], rs[h])
    {
      assert ReqOk(c, b, qs[h]) && SettledOne(b, qs[h]);
      DisconnectOk(c, b, qs[h]);
    }
  }

  lemma DisconnectHandles(qs: seq<Req>)
    ensures Handles(DisconnectAll(qs), Running) == Handles(qs, Running)
    ensures Handles(DisconnectAll(qs), Admitted) == Handles(qs, Admitted)
  {
    HandlesSame(qs, DisconnectAll(qs), Running);
    HandlesSame(qs, DisconnectAll(qs), Admitted);
  }

  lemma DropCancelledKeeps(c: Config, s: State)
    requires StepInv(c, s)
    ensures Ok(s) && StepInv(c, DropCancelled(s)) && AllEvolved(c, s.reqs, DropCancelled(s).reqs)
  {
    InvOk(c, s, []);
    var rs := DisconnectAll(s.reqs);
    DisconnectAllOk(c, s.mem.blockSize, s.reqs, rs);
    QuietKeeps(c, s.mem, s.reqs, rs, s.admits);
    FilterLists(s.reqs, s.waiting);
    DisconnectHandles(s.reqs);
  }

  lemma RetireOneEffect(c: Config, s: State, i: nat)
    requires StepInv(c, s) && Ok(s) && i < |s.running| && s.reqs[s.running[i]].Done()
    ensures StepInv(c, RetireOne(s, i)) && AllEvolved(c, s.reqs, RetireOne(s, i).reqs)
  {
    RetireOneKeeps(c, s, i);
    var h := s.running[i];
    var r := s.reqs[h].(state := Finished, table := []);
    QuietEvolved(c, s.reqs[h], r);
    OneEvolved(c, s, h, r);
    SettledUpdate(s.mem.blockSize, s.reqs, h, r);
  }

  /** The first `n` running rows are unfinished. */
  ghost predicate NoneDone(s: State, n: nat)
    requires Ok(s) && n <= |s.running|
  {
    forall j :: 0 <= j < n ==> !s.reqs[s.running[j]].Done()
  }

  lemma RetireOneSkips(s: State, i: nat)
    requires Ok(s) && i < |s.running| && NoneDone(s, i) && NoDup(s.running)
    ensures NoneDone(RetireOne(s, i), i)
  {
  }

  lemma {:induction false} RetireFromKeeps(c: Config, s: State, i: nat, t: State)
    requires StepInv(c, s) && Ok(s) && i <= |s.running| && NoneDone(s, i) && t == RetireFrom(s, i)
    ensures StepInv(c, t) && AllEvolved(c, s.reqs, t.reqs) && NoneDone(t, |t.running|) && t.waiting == s.waiting
    decreases |s.running| - i
  {
    if i == |s.running| {
      AllEvolvedRefl(c, s);
    } else if s.reqs[s.running[i]].Done() {
      var u := RetireOne(s, i);
      RetireOneEffect(c, s, i);
      ListsMember(s.reqs, s.running, Running);
      RetireOneSkips(s, i);
      RetireFromKeeps(c, u, i, t);
      AllEvolvedTrans(c, s.reqs, u.reqs, t.reqs);
    } else {
      RetireFromKeeps(c, s, i + 1, t);
    }
  }

  lemma RetireKeeps(c: Config, s: State)
    requires StepInv(c, s)
    ensures Ok(s) && StepInv(c, Retire(s)) && AllEvolved(c, s.reqs, Retire(s).reqs)
    ensures NoneDone(Retire(s), |Retire(s).running|)
    ensures Retire(s).waiting == Filter(s.reqs, s.waiting)
  {
    DropCancelledKeeps(c, s);
    var t := DropCancelled(s);
    RetireFromKeeps(c, t, 0, Retire(s));
    AllEvolvedTrans(c, s.reqs, t.reqs, Retire(s).reqs);
  }

  // ---------------------------------------------------------------- admit

  lemma SortWaitingKeeps(c: Config, s: State)
    requires StepInv(c, s) && Ok(s)
    ensures StepInv(c, SortWaiting(s)) && SortWaiting(s).reqs == s.reqs
    ensures multiset(SortWaiting(s).waiting) == multiset(s.waiting)
  {
    SortKeepsElements(s.waiting, WaitKeys(s.reqs, s.waiting));
  }

  /** Admission took requests strictly from the front of the queue. */
  ghost predicate FromFront(w: seq<nat>, batch: seq<nat>, rest: seq<nat>, all: seq<nat>)
  {
    |rest| <= |w| && rest == w[|w| - |rest|..] && all == batch + w[..|w| - |rest|]
  }

  lemma FrontShift(w: seq<nat>, batch: seq<nat>, rest: seq<nat>, all: seq<nat>)
    requires w != [] && FromFront(w[1..], batch + [w[0]], rest, all)
    ensures FromFront(w, batch, rest, all)
  {
    assert w[..|w| - |rest|] == [w[0]] + w[1..][..|w| - 1 - |rest|];
  }

  /** Inside admission: the invariant with the batch still to be prefilled. */
  ghost predicate MidInv(c: Config, s: State, batch: seq<nat>)
  {
    Inv(c, s, batch) && Settled(s.mem.blockSize, s.reqs)
  }

  lemma AdmitOneEffect(c: Config, s: State, pend: seq<nat>, headroom: nat)
    requires MidInv(c, s, pend) && s.waiting != [] && |s.running| + |pend| < c.maxBatch
    requires s.waiting[0] < |s.reqs| && s.mem.CanAllocate(s.reqs[s.waiting[0]], headroom)
    ensures Ok(s) && 0 <= s.mem.Need(s.reqs[s.waiting[0]]) <= |s.mem.free|
    ensures MidInv(c, AdmitOne(s), pend + [s.waiting[0]]) && Named(AdmitOne(s), pend + [s.waiting[0]])
    ensures AllEvolved(c, s.reqs, AdmitOne(s).reqs)
  {
    AdmitOneKeeps(c, s, pend, headroom);
    var h := s.waiting[0];
    var r := AdmitOne(s).reqs[h];
    QuietEvolved(c, s.reqs[h], r);
    OneEvolved(c, s, h, r);
    SettledUpdate(s.mem.blockSize, s.reqs, h, r);
    InvOk(c, AdmitOne(s), pend + [h]);
  }

  /** `can_allocate` guards every `allocate`: the pop loop never faults, and it takes requests strictly
      from the front of the queue, so nothing overtakes the first one that does not fit. */
  lemma {:induction false} PopKeeps(c: Config, s: State, batch: seq<nat>, limit: int, a: Admission)
    requires MidInv(c, s, batch) && Ok(s) && Named(s, batch)
    requires limit <= 0 || |s.running| + limit <= c.maxBatch
    requires a == PopAdmissible(s, batch, limit)
    ensures MidInv(c, a.s, a.batch) && AllEvolved(c, s.reqs, a.s.reqs)
    ensures FromFront(s.waiting, batch, a.s.waiting, a.batch)
    decreases |s.waiting|, 1
  {
    if CanPop(s, batch, limit) {
      PopReady(c, s, batch, limit);
      PopUnfold(s, batch, limit);
      PopStep(c, s, batch, limit, AdmitOne(s), batch + [s.waiting[0]], a);
    } else {
      AllEvolvedRefl(c, s);
    }
  }

  lemma PopReady(c: Config, s: State, batch: seq<nat>, limit: int)
    requires MidInv(c, s, batch) && Ok(s) && CanPop(s, batch, limit) && (limit <= 0 || |s.running| + limit <= c.maxBatch)
    ensures 0 <= s.mem.Need(s.reqs[s.waiting[0]]) <= |s.mem.free|
    ensures MidInv(c, AdmitOne(s), batch + [s.waiting[0]]) && Named(AdmitOne(s), batch + [s.waiting[0]])
    ensures AllEvolved(c, s.reqs, AdmitOne(s).reqs)
  {
    AdmitOneEffect(c, s, batch, |s.running| + |batch|);
  }

  lemma PopUnfold(s: State, batch: seq<nat>, limit: int)
    requires Ok(s) && Named(s, batch) && CanPop(s, batch, limit) && 0 <= s.mem.Need(s.reqs[s.waiting[0]]) <= |s.mem.free|
    requires Named(AdmitOne(s), batch + [s.waiting[0]])
    ensures PopAdmissible(s, batch, limit) == PopAdmissible(AdmitOne(s), batch + [s.waiting[0]], limit)
  {
  }

  lemma {:induction false} PopStep(c: Config, s: State, batch: seq<nat>, limit: int, t: State, b2: seq<nat>, a: Admission)
    requires s.waiting != [] && MidInv(c, t, b2) && b2 == batch + [s.waiting[0]]
    requires t.waiting == s.waiting[1..] && t.running == s.running && AllEvolved(c, s.reqs, t.reqs)
    requires limit <= 0 || |t.running| + limit <= c.maxBatch
    requires Ok(t) && Named(t, b2) && a == PopAdmissible(t, b2, limit)
    ensures MidInv(c, a.s, a.batch) && AllEvolved(c, s.reqs, a.s.reqs)
    ensures FromFront(s.waiting, batch, a.s.waiting, a.batch)
    decreases |s.waiting|, 0
  {
    PopKeeps(c, t, b2, limit, a);
    AllEvolvedTrans(c, s.reqs, t.reqs, a.s.reqs);
    FrontShift(s.waiting, batch, a.s.waiting, a.batch);
  }

  lemma PrefillReqEffect(c: Config, b: nat, q: Req, r: Req)
    requires b > 0 && ReqOk(c, b, q) && q.state == Admitted && r == Emit(c, q.(state := Running))
    ensures Evolved(c, q, r) && SettledOne(b, r) && |r.out| == |q.out| + 1 && r.state == Running && r.table == q.table
  {
    var p := q.(state := Running);
    QuietEvolved(c, q, p);
    EmitEvolved(c, p);
    EvolvedTrans(c, q, p, r);
    assert r.SeqLen() - 1 == q.SeqLen();
  }

  lemma PrefillOneEffect(c: Config, s: State, pend: seq<nat>, h: nat, r: Req)
    requires MidInv(c, s, pend) && Ok(s) && pend != [] && h == pend[0] && h < |s.reqs|
    requires r == Emit(c, s.reqs[h].(state := Running))
    ensures MidInv(c, PrefillOne(c, s, h), pend[1..]) && AllEvolved(c, s.reqs, s.reqs[h := r])
    ensures |r.out| == |s.reqs[h].out| + 1 && r.state == Running && r.table == s.reqs[h].table
  {
    PrefillOneKeeps(c, s, pend);
    assert ReqOk(c, s.mem.blockSize, s.reqs[h]);
    PrefillReqEffect(c, s.mem.blockSize, s.reqs[h], r);
    OneEvolved(c, s, h, r);
    SettledUpdate(s.mem.blockSize, s.reqs, h, r);
  }

  /** Every admitted request emits one token and joins the running list behind those already there. */
  ghost predicate Prefilled(s: State, hs: seq<nat>, t: State)
  {
    && |t.reqs| == |s.reqs| && t.running == s.running + hs && t.waiting == s.waiting && t.mem == s.mem && t.admits == s.admits
    && (forall h {:trigger t.reqs[h]} :: 0 <= h < |s.reqs| && h !in hs ==> t.reqs[h] == s.reqs[h])
    && (forall h {:trigger t.reqs[h]} :: 0 <= h < |s.reqs| && h in hs ==> |t.reqs[h].out| == |s.reqs[h].out| + 1 && t.reqs[h].state == Running && t.reqs[h].table == s.reqs[h].table)
  }

  /** Prefilling the first of the requests that were admitted leaves the others still to be prefilled. */
  lemma {:induction false} PrefillPart(c: Config, s: State, hs: seq<nat>, rest: seq<nat>, t: State)
    requires MidInv(c, s, hs + rest) && Ok(s) && Named(s, hs) && t == Prefill(c, s, hs)
    ensures MidInv(c, t, rest) && AllEvolved(c, s.reqs, t.reqs)
    ensures Prefilled(s, hs, t)
    decreases |hs|
  {
    hide MidInv, AllEvolved, Ok;
    if hs == [] {
      AllEvolvedRefl(c, s);
      assert hs + rest == rest;
    } else {
      hide Prefilled;
      var u := PrefillOne(c, s, hs[0]);
      PrefillFirst(c, s, hs, rest, u);
      PendingOnce(c, s, hs, rest);
      PrefillPart(c, u, hs[1..], rest, t);
      AllEvolvedTrans(c, s.reqs, u.reqs, t.reqs);
      PrefilledStep(s, hs, u.reqs[hs[0]], u, t);
    }
  }

  lemma PrefillFirst(c: Config, s: State, hs: seq<nat>, rest: seq<nat>, u: State)
    requires MidInv(c, s, hs + rest) && Ok(s) && Named(s, hs) && hs != [] && u == PrefillOne(c, s, hs[0])
    ensures MidInv(c, u, hs[1..] + rest) && AllEvolved(c, s.reqs, u.reqs) && Ok(u) && Named(u, hs[1..])
    ensures hs[0] < |s.reqs| == |u.reqs| && u == s.(reqs := s.reqs[hs[0] := u.reqs[hs[0]]], running := s.running + [hs[0]])
    ensures |u.reqs[hs[0]].out| == |s.reqs[hs[0]].out| + 1 && u.reqs[hs[0]].state == Running && u.reqs[hs[0]].table == s.reqs[hs[0]].table
  {
    hide MidInv, Inv, AllEvolved, Emit;
    var h := hs[0];
    var r := Emit(c, s.reqs[h].(state := Running));
    PrefillOneEffect(c, s, hs + rest, h, r);
    assert (hs + rest)[1..] == hs[1..] + rest;
  }

  lemma PendingOnce(c: Config, s: State, hs: seq<nat>, rest: seq<nat>)
    requires MidInv(c, s, hs + rest)
    ensures NoDup(hs)
  {
    ListsMember(s.reqs, hs + rest, Admitted);
    NoDupFirst(hs, rest);
  }

  lemma NoDupFirst(xs: seq<nat>, ys: seq<nat>)
    requires NoDup(xs + ys)
    ensures NoDup(xs)
  {
    forall i, j | 0 <= i < j < |xs| ensures xs[i] != xs[j] {
      assert (xs + ys)[i] == xs[i] && (xs + ys)[j] == xs[j];
    }
  }

  lemma PrefillKeeps(c: Config, s: State, hs: seq<nat>, t: State)
    requires MidInv(c, s, hs) && Ok(s) && Named(s, hs) && t == Prefill(c, s, hs)
    ensures StepInv(c, t) && AllEvolved(c, s.reqs, t.reqs)
    ensures Prefilled(s, hs, t)
  {
    assert hs + [] == hs;
    PrefillPart(c, s, hs, [], t);
  }

  lemma PrefilledStep(s: State, hs: seq<nat>, r: Req, u: State, t: State)
    requires hs != [] && NoDup(hs) && hs[0] < |s.reqs|
    requires u == s.(reqs := s.reqs[hs[0] := r], running := s.running + [hs[0]])
    requires |r.out| == |s.reqs[hs[0]].out| + 1 && r.state == Running && r.table == s.reqs[hs[0]].table
    requires Prefilled(u, hs[1..], t)
    ensures Prefilled(s, hs, t)
  {
    assert hs == [hs[0]] + hs[1..];
    assert hs[0] !in hs[1..];
    assert forall h :: h in hs <==> h == hs[0] || h in hs[1..];
  }
}
