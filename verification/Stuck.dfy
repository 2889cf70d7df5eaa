/** A request that an empty pool would not take, once it heads the queue of an engine with nothing running,
    blocks everybody for good. */
module Stuck {
  import opened Seqs
  import opened BlockMath
  import opened Requests
  import opened Alloc
  import opened SchedulerSpec
  import opened Invariant
  import opened Preservation
  import opened StepSafety
  import opened Eviction
  import opened StepTheorem
  import opened Liveness
  import opened Runs

  /** In the queue, and its client is still there. */
  predicate Queues(r: Req)
  {
    r.state == Waiting && !r.cancelled
  }

  /** Nothing runs, and the request first in line would not go into an empty pool. */
  ghost predicate Blocked(s: State, h: nat)
  {
    && s.mem.blockSize > 0 && s.running == []
    && h < |s.reqs| && Queues(s.reqs[h]) && !FitsNow(s.mem, s.reqs[h])
    && forall g {:trigger s.reqs[g]} :: 0 <= g < |s.reqs| && g != h && Queues(s.reqs[g]) ==> Less(WaitKey(s.reqs[h]), WaitKey(s.reqs[g]))
  }

  /** Nobody has said anything more. */
  ghost predicate Silent(s: State, t: State)
  {
    |s.reqs| <= |t.reqs| && forall g {:trigger t.reqs[g]} :: 0 <= g < |s.reqs| ==> t.reqs[g].out == s.reqs[g].out
  }

  /** How an engine gets there: a row that has the whole pool and needs one block more is its own victim, and
      is then first in line unless another request has been evicted more often. */
  lemma LoneEvicted(c: Config, s: State, h: nat)
    requires Inv(c, s, []) && Ok(s) && h < |s.reqs| && s.running == [h] && !s.reqs[h].Done() && !s.reqs[h].cancelled
    requires !AppendSlot(s.mem, s.reqs[h]).ok
    requires forall g {:trigger s.reqs[g]} :: 0 <= g < |s.reqs| && Queues(s.reqs[g]) ==> s.reqs[g].preempts <= s.reqs[h].preempts
    ensures h in s.running && Blocked(Evict(s, h), h)
  {
    LoneRow(c, s, h);
    DryUnchanged(c, s, h);
    LoneHolds(c, s, h);
    FreeCount(s);
    hide *;
    EvictedBlocked(s, h);
  }

  lemma EvictedBlocked(s: State, h: nat)
    requires Ok(s) && h < |s.reqs| && s.running == [h] && !s.reqs[h].cancelled && s.mem.kind == Blocks(false)
    requires CeilDiv(s.reqs[h].SeqLen(), s.mem.blockSize) > s.mem.numBlocks
    requires forall g {:trigger s.reqs[g]} :: 0 <= g < |s.reqs| && Queues(s.reqs[g]) ==> s.reqs[g].preempts <= s.reqs[h].preempts
    ensures h in s.running && Blocked(Evict(s, h), h)
  {
    var t := Evict(s, h);
    assert t.reqs[h].SeqLen() == s.reqs[h].SeqLen();
    forall g | 0 <= g < |t.reqs| && g != h && Queues(t.reqs[g]) ensures Less(WaitKey(t.reqs[h]), WaitKey(t.reqs[g])) {
      assert t.reqs[g] == s.reqs[g];
    }
  }

  lemma LoneRow(c: Config, s: State, h: nat)
    requires Inv(c, s, []) && h < |s.reqs| && s.running == [h]
    ensures s.reqs[h].state == Running && OnlyActiveHold(s, [h])
  {
    ListsMember(s.reqs, s.running, Running);
  }

  lemma {:induction false} NothingToRetire(s: State)
    requires Ok(s) && s.running == []
    ensures Retire(s) == DropCancelled(s)
  {
  }

  lemma DropKeepsBlocked(s: State, h: nat)
    requires Ok(s) && Blocked(s, h)
    ensures Blocked(DropCancelled(s), h) && Silent(s, DropCancelled(s))
  {
    var t := DropCancelled(s);
    forall g | 0 <= g < |t.reqs| && g != h && Queues(t.reqs[g]) ensures Less(WaitKey(t.reqs[h]), WaitKey(t.reqs[g])) {
      var _ := s.reqs[g];
    }
  }

  /** The request stands first in the sorted queue. */
  lemma StandsFirst(c: Config, s: State, h: nat)
    requires StepInv(c, s) && Ok(s) && Blocked(s, h) && forall g {:trigger g in s.waiting} :: g in s.waiting ==> g < |s.reqs| && Queues(s.reqs[g])
    ensures SortWaiting(s).waiting != [] && SortWaiting(s).waiting[0] == h
  {
    ListsMember(s.reqs, s.waiting, Waiting);
    hide Inv, StepInv, Settled;
    var q := SortWaiting(s);
    var g := SomebodyFirst(s, h);
    assert g in s.waiting;
    hide SortWaiting, WaitKey;
    var _ := s.reqs[g];
  }

  /** Nobody in the queue comes before whoever stands first once it is sorted. */
  lemma SomebodyFirst(s: State, h: nat) returns (g: nat)
    requires Ok(s) && h in s.waiting
    ensures SortWaiting(s).waiting != [] && SortWaiting(s).waiting[0] == g && g in s.waiting
    ensures !Less(WaitKey(s.reqs[h]), WaitKey(s.reqs[g]))
  {
    var k: nat :| k < |s.waiting| && s.waiting[k] == h;
    var keys := WaitKeys(s.reqs, s.waiting);
    var p := Rank(keys);
    RankSorts(keys);
    RankFinds(keys, k);
    var i: nat :| i < |p| && p[i] == k;
    hide Rank, SortedBy;
    FirstIsLeast(keys, p, i);
    g := s.waiting[p[0]];
  }

  lemma FirstIsLeast(keys: seq<Key>, p: seq<nat>, i: nat)
    requires (forall j :: 0 <= j < |p| ==> p[j] < |keys|) && SortedBy(keys, p) && i < |p|
    ensures !Less(keys[p[i]], keys[p[0]])
  {
    if i > 0 { assert InOrder(keys, p[0], p[i]); }
  }

  /** Every index has its place in the sorted list. */
  lemma RankFinds(keys: seq<Key>, k: nat)
    requires k < |keys|
    ensures exists i: nat :: i < |Rank(keys)| && Rank(keys)[i] == k
  {
    var ids := seq(|keys|, i => i);
    SortKeepsElements(ids, keys);
    var sorted := Permute(ids, Rank(keys));
    assert ids[k] == k && k in ids;
    assert k in multiset(ids);
    assert k in multiset(sorted);
    var i: nat :| i < |sorted| && sorted[i] == k;
    assert Rank(keys)[i] == k;
  }

  lemma NeverFits(c: Config, s: State, h: nat, room: nat)
    requires StepInv(c, s) && Blocked(s, h)
    ensures !s.mem.CanAllocate(s.reqs[h], room)
  {
    NobodyHolds(c, s);
    FreeCount(s);
    hide Inv;
  }

  /** Admission admits nobody, so nobody decodes. */
  lemma AdmitsNobody(c: Config, s: State, h: nat)
    requires StepInv(c, s) && Ok(s) && Blocked(s, h) && forall g {:trigger g in s.waiting} :: g in s.waiting ==> g < |s.reqs| && Queues(s.reqs[g])
    ensures Admit(c, s) == SortWaiting(s) && !SortWaiting(s).fault && Decode(c, SortWaiting(s)) == SortWaiting(s)
  {
    StandsFirst(c, s, h);
    NeverFits(c, s, h, 0);
    hide SortWaiting, Memory.CanAllocate;
    var q := SortWaiting(s);
    assert !CanPop(q, [], Room(c, s));
    assert PopAdmissible(q, [], Room(c, s)) == Admission(q, []);
    assert Unfinished(q.reqs, q.running) == [];
  }

  lemma DropCancelledQueues(c: Config, s: State, t: State)
    requires StepInv(c, t) && Ok(s) && t == DropCancelled(s)
    ensures forall g {:trigger g in t.waiting} :: g in t.waiting ==> g < |t.reqs| && Queues(t.reqs[g])
  {
    ListsMember(t.reqs, t.waiting, Waiting);
    NobodyCancelled(s, t);
    hide Inv, DropCancelled, StepInv, Settled;
  }

  lemma NobodyCancelled(s: State, t: State)
    requires Ok(s) && t == DropCancelled(s)
    ensures forall g {:trigger t.reqs[g]} :: 0 <= g < |t.reqs| ==> t.reqs[g].state == Waiting ==> !t.reqs[g].cancelled
  {
  }

  /** A step changes nothing but the order of the queue and what clients have cancelled. */
  lemma StepStaysBlocked(c: Config, s: State, h: nat)
    requires StepInv(c, s) && Ok(s) && Blocked(s, h)
    ensures Blocked(Step(c, s), h) && Silent(s, Step(c, s))
  {
    var t := DropCancelled(s);
    DropCancelledKeeps(c, s);
    NothingToRetire(s);
    DropKeepsBlocked(s, h);
    DropCancelledQueues(c, s, t);
    AdmitsNobody(c, t, h);
    hide DropCancelled, Retire, Admit, Decode, Inv;
    assert Step(c, s) == SortWaiting(t);
    assert SortWaiting(t).reqs == t.reqs;
  }

  lemma ApplyStaysBlocked(c: Config, s: State, e: Event, h: nat)
    requires StepInv(c, s) && Ok(s) && Possible(c, s, e) && e != Hangup(h) && Blocked(s, h)
    ensures Blocked(Apply(c, s, e), h) && Silent(s, Apply(c, s, e))
  {
    hide Step;
    match e
    case Tick => StepStaysBlocked(c, s, h);
    case Hangup(g) =>
      var t := Cancel(s, g);
      forall k | 0 <= k < |t.reqs| && k != h && Queues(t.reqs[k]) ensures Less(WaitKey(t.reqs[h]), WaitKey(t.reqs[k])) {
        var _ := s.reqs[k];
      }
    case Arrival(r) =>
      var t := Submit(c, s, r);
      forall k | 0 <= k < |t.reqs| && k != h && Queues(t.reqs[k]) ensures Less(WaitKey(t.reqs[h]), WaitKey(t.reqs[k])) {
        if k < |s.reqs| { var _ := s.reqs[k]; } else { var _ := s.reqs[h]; }
      }
  }

  /** Whatever arrives and whoever else disconnects, the engine runs nothing and nobody says another token as
      long as that one client stays: the request is not run and evicted over and over, it stops the queue. */
  lemma {:induction false} RunStaysBlocked(c: Config, s: State, evs: seq<Event>, h: nat)
    requires StepInv(c, s) && Possibles(c, s, evs) && Hangup(h) !in evs && Blocked(s, h)
    ensures Blocked(Run(c, s, evs), h) && Silent(s, Run(c, s, evs))
    decreases |evs|
  {
    if evs != [] {
      hide StepInv, Blocked, Apply, Possible, Silent, Ok;
      var t := Apply(c, s, evs[0]);
      ApplyKeeps(c, s, evs[0]);
      assert evs[0] in evs;
      ApplyStaysBlocked(c, s, evs[0], h);
      RunStaysBlocked(c, t, evs[1..], h);
      SilentTrans(s, t, Run(c, t, evs[1..]));
    } else {
      SilentRefl(s);
    }
  }

  lemma SilentRefl(s: State)
    ensures Silent(s, s)
  {
  }

  lemma SilentTrans(s: State, t: State, u: State)
    requires Silent(s, t) && Silent(t, u)
    ensures Silent(s, u)
  {
    forall g | 0 <= g < |s.reqs| ensures u.reqs[g].out == s.reqs[g].out {
      var _ := t.reqs[g];
    }
  }
}
