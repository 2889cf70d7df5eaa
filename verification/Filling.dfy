/** Admission uses the room there is: it stops only when the queue is empty, the batch is full, or the first in
    line does not fit. */
module Filling {
  import opened Seqs
  import opened BlockMath
  import opened Requests
  import opened Alloc
  import opened SchedulerSpec
  import opened Invariant
  import opened Preservation
  import opened StepSafety
  import opened StepTheorem
  import opened Starvation

  lemma {:induction false} PopEnds(s: State, batch: seq<nat>, limit: int, a: Admission)
    requires Ok(s) && Named(s, batch) && a == PopAdmissible(s, batch, limit) && !a.s.fault
    ensures !CanPop(a.s, a.batch, limit)
    decreases |s.waiting|
  {
    if CanPop(s, batch, limit) {
      PopEnds(AdmitOne(s), batch + [s.waiting[0]], limit, a);
    }
  }

  /** There is no memory for request `r` beside `rows` rows that may each need a block with their next token:
      no slot is free; or, optimistically, fewer blocks than its tokens and the rows need; or the commitments
      and its own worst case exceed the pool. */
  ghost predicate NoRoom(m: Memory, r: Req, rows: nat)
    requires m.blockSize > 0
  {
    match m.kind
    case Slots => m.free == []
    case Blocks(reserve) =>
      if reserve then Sum(m.committed) + CeilDiv(|r.prompt| + r.maxNew, m.blockSize) > m.numBlocks
      else |m.free| < CeilDiv(|r.prompt| + |r.out|, m.blockSize) + rows
  }

  /** Nobody in the queue has been evicted more often than its first, or as often and arrived before it. */
  ghost predicate FirstInLine(t: State)
    requires Ok(t) && t.waiting != []
  {
    var first := t.reqs[t.waiting[0]];
    forall g {:trigger g in t.waiting} :: g in t.waiting ==>
      t.reqs[g].preempts < first.preempts || (t.reqs[g].preempts == first.preempts && first.arrival <= t.reqs[g].arrival)
  }

  /** Nothing more could have been admitted in turn. */
  ghost predicate Filled(c: Config, t: State)
    requires Ok(t)
  {
    || t.waiting == [] || |t.running| == c.maxBatch
    || (FirstInLine(t) && NoRoom(t.mem, t.reqs[t.waiting[0]], |t.running|))
  }

  lemma NotAllowed(m: Memory, r: Req, rows: nat)
    requires m.blockSize > 0
    ensures m.CanAllocate(r, rows) <==> !NoRoom(m, r, rows)
  {
  }

  lemma QueueHeadKept(c: Config, r: State, a: Admission, t: State)
    requires StepInv(c, t) && Ok(r) && Ok(a.s) && Ok(t) && AdmittedBy(r, SortWaiting(r), a, t) && t.waiting != []
    ensures a.s.waiting == t.waiting && t.waiting[0] < |a.s.reqs| && t.reqs[t.waiting[0]] == a.s.reqs[t.waiting[0]]
    ensures t.reqs[t.waiting[0]] == r.reqs[t.waiting[0]]
  {
    var h := t.waiting[0];
    ListsMember(t.reqs, t.waiting, Waiting);
    assert h in t.waiting;
    var _ := t.reqs[h];
    var _ := a.s.reqs[h];
  }

  /** Whoever waits behind the first does not come before it. */
  lemma BehindFirst(c: Config, r: State, a: Admission, t: State, j: nat)
    requires StepInv(c, r) && StepInv(c, t) && Ok(r) && Ok(t) && AdmittedBy(r, SortWaiting(r), a, t) && j < |t.waiting|
    ensures var first, other := t.reqs[t.waiting[0]], t.reqs[t.waiting[j]];
            other.preempts < first.preempts || (other.preempts == first.preempts && first.arrival <= other.arrival)
  {
    hide *;
    var n := QueueTail(r, a, t, j);
    WaitersKept(c, r, a, t, t.waiting[0]);
    WaitersKept(c, r, a, t, t.waiting[j]);
    if t.waiting[j] != t.waiting[0] {
      SortedOrder(c, r, SortWaiting(r), n, n + j);
      KeysTell(r.reqs[t.waiting[0]], r.reqs[t.waiting[j]]);
    }
  }

  lemma QueueTail(r: State, a: Admission, t: State, j: nat) returns (n: nat)
    requires Ok(r) && AdmittedBy(r, SortWaiting(r), a, t) && j < |t.waiting|
    ensures n + j < |SortWaiting(r).waiting| && SortWaiting(r).waiting[n] == t.waiting[0] && SortWaiting(r).waiting[n + j] == t.waiting[j]
    ensures t.waiting[0] in t.waiting && t.waiting[j] in t.waiting
  {
    hide SortWaiting;
    n := |SortWaiting(r).waiting| - |t.waiting|;
  }

  lemma KeysTell(q: Req, r: Req)
    requires Less(WaitKey(q), WaitKey(r))
    ensures r.preempts < q.preempts || (r.preempts == q.preempts && q.arrival <= r.arrival)
  {
  }

  lemma SortedFirst(c: Config, r: State, a: Admission, t: State)
    requires StepInv(c, r) && StepInv(c, t) && Ok(r) && Ok(t) && AdmittedBy(r, SortWaiting(r), a, t) && t.waiting != []
    ensures FirstInLine(t)
  {
    hide StepInv, SortWaiting, AdmittedBy;
    forall g | g in t.waiting
      ensures t.reqs[g].preempts < t.reqs[t.waiting[0]].preempts ||
              (t.reqs[g].preempts == t.reqs[t.waiting[0]].preempts && t.reqs[t.waiting[0]].arrival <= t.reqs[g].arrival)
    {
      var j :| 0 <= j < |t.waiting| && t.waiting[j] == g;
      BehindFirst(c, r, a, t, j);
    }
  }

  lemma WaitersKept(c: Config, r: State, a: Admission, t: State, g: nat)
    requires StepInv(c, t) && Ok(r) && Ok(t) && AdmittedBy(r, SortWaiting(r), a, t) && g in t.waiting
    ensures g < |r.reqs| && g < |t.reqs| && t.reqs[g] == r.reqs[g]
  {
    ListsMember(t.reqs, t.waiting, Waiting);
    var _ := t.reqs[g];
    var _ := a.s.reqs[g];
  }

  /** Admission is as large as it can be without overtaking: unless a static batch is still running, it leaves
      nobody waiting whose turn it is and for whom there is room. */
  lemma AdmitsAllItCan(c: Config, r: State)
    requires StepInv(c, r) && Ok(r)
    ensures !(c.isStatic && r.running != []) ==> Filled(c, Admit(c, r))
    ensures c.isStatic && r.running != [] ==> Admit(c, r) == r
  {
    if !(c.isStatic && r.running != []) {
      var a := AdmitKeeps(c, r);
      var t := Admit(c, r);
      InvOk(c, t, []);
      PopFinished(c, r, a, t);
      if t.waiting != [] {
        QueueHeadKept(c, r, a, t);
        SortedFirst(c, r, a, t);
        NotAllowed(t.mem, t.reqs[t.waiting[0]], |t.running|);
      }
    }
  }

  /** The pop loop ended for one of its three reasons. */
  lemma PopFinished(c: Config, r: State, a: Admission, t: State)
    requires StepInv(c, r) && StepInv(c, t) && Ok(r) && Ok(t) && !(c.isStatic && r.running != []) && t == Admit(c, r)
    requires a == PopAdmissible(SortWaiting(r), [], Room(c, r)) && AdmittedBy(r, SortWaiting(r), a, t)
    ensures t.waiting == [] || |t.running| == c.maxBatch || !t.mem.CanAllocate(a.s.reqs[t.waiting[0]], |t.running|)
  {
    PopEnds(SortWaiting(r), [], Room(c, r), a);
  }

  /** So in every step: a slot or a block freed by retirement is available to the queue in the same step. */
  lemma StepFillsUp(c: Config, s: State)
    requires StepInv(c, s) && Ok(s)
    ensures var r := Retire(s);
            if c.isStatic && r.running != [] then Admit(c, r) == r else Filled(c, Admit(c, r))
  {
    RetireKeeps(c, s);
    AdmitsAllItCan(c, Retire(s));
  }
}
