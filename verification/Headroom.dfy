/** The headroom of admission: what it leaves for the next token, and how much a decode step can evict. */
module Headroom {
  import opened Seqs
  import opened BlockMath
  import opened Requests
  import opened Alloc
  import opened SchedulerSpec
  import opened Invariant
  import opened Preservation
  import opened StepSafety
  import opened Eviction
  import opened StepTheorem

  // ---------------------------------------------------------------- what admission leaves free

  /** Optimistic admission leaves one block less than there are rows running or just admitted: the test is
      made before the request itself is counted. */
  lemma {:induction false} HeadroomLeft(s: State, batch: seq<nat>, limit: int, a: Admission)
    requires Ok(s) && Named(s, batch) && s.mem.kind == Blocks(false) && a == PopAdmissible(s, batch, limit) && !a.s.fault
    requires batch != [] ==> |s.mem.free| >= |s.running| + |batch| - 1
    ensures a.batch != [] ==> |a.s.mem.free| >= |s.running| + |a.batch| - 1
    decreases |s.waiting|
  {
    if CanPop(s, batch, limit) && 0 <= s.mem.Need(s.reqs[s.waiting[0]]) <= |s.mem.free| {
      HeadroomLeft(AdmitOne(s), batch + [s.waiting[0]], limit, a);
    }
  }

  // ---------------------------------------------------------------- when decoding evicts nobody

  /** The token about to be fed is the first of a new block. */
  predicate Opens(b: nat, r: Req)
    requires b > 0
  {
    (r.SeqLen() - 1) % b == 0
  }

  /** How many of the rows need a fresh block. */
  function Opening(b: nat, reqs: seq<Req>, rows: seq<nat>): (n: nat)
    requires b > 0 && forall j :: 0 <= j < |rows| ==> rows[j] < |reqs|
    ensures n <= |rows|
  {
    if rows == [] then 0 else (if Opens(b, reqs[rows[0]]) then 1 else 0) + Opening(b, reqs, rows[1..])
  }

  /** From the `i`-th on, rows own the blocks of what they have stored, as between steps. */
  ghost predicate Unserved(s: State, active: seq<nat>, i: nat)
    requires s.mem.blockSize > 0
  {
    forall j {:trigger active[j]} :: i <= j < |active| ==> active[j] < |s.reqs| && SettledOne(s.mem.blockSize, s.reqs[active[j]])
  }

  lemma OpensMeansOneMore(b: nat, n: nat)
    requires b > 0
    ensures CeilDiv(n + 1, b) == CeilDiv(n, b) + (if n % b == 0 then 1 else 0)
  {
    CeilDivBounds(n, b);
    CeilDivBounds(n + 1, b);
    CeilDivStep(n, b);
    var q := n / b;
    assert n == q * b + n % b;
    if n % b == 0 {
      CeilDivLeast(n, b, q);
      CeilDivLeast(n + 1, b, q);
    } else {
      assert (q + 1) * b == q * b + b;
      CeilDivLeast(n + 1, b, q + 1);
      CeilDivLeast(n, b, q);
    }
  }

  /** Serving one row: it takes a block exactly if its next token opens one, and finds it unless none is free. */
  lemma ServeOne(s: State, h: nat)
    requires Ok(s) && h < |s.reqs| && s.reqs[h].state == Running && s.mem.kind.Blocks?
    requires SettledOne(s.mem.blockSize, s.reqs[h])
    ensures AppendSlot(s.mem, s.reqs[h]).ok <==> !Opens(s.mem.blockSize, s.reqs[h]) || s.mem.free != []
    ensures AppendSlot(s.mem, s.reqs[h]).ok ==>
              |AppendSlot(s.mem, s.reqs[h]).free| == |s.mem.free| - (if Opens(s.mem.blockSize, s.reqs[h]) then 1 else 0)
  {
    var r := s.reqs[h];
    OpensMeansOneMore(s.mem.blockSize, r.SeqLen() - 1);
    GrowByOne(s.mem.free, r.table, s.mem.Need(r));
  }

  /** Only the rows' lengths matter. */
  lemma {:induction false} OpeningSame(b: nat, qs: seq<Req>, rs: seq<Req>, rows: seq<nat>)
    requires b > 0 && |qs| == |rs| && forall j :: 0 <= j < |rows| ==> rows[j] < |qs|
    requires forall j :: 0 <= j < |rows| ==> rs[rows[j]].SeqLen() == qs[rows[j]].SeqLen()
    ensures Opening(b, rs, rows) == Opening(b, qs, rows)
  {
    if rows != [] { OpeningSame(b, qs, rs, rows[1..]); }
  }

  lemma {:induction false} OpeningRemove(b: nat, reqs: seq<Req>, rows: seq<nat>, v: nat)
    requires b > 0 && v < |rows| && forall j :: 0 <= j < |rows| ==> rows[j] < |reqs|
    ensures var rest := RemoveAt(rows, v);
            (forall j :: 0 <= j < |rest| ==> rest[j] < |reqs|) && Opening(b, reqs, rest) <= Opening(b, reqs, rows)
  {
    var rest := RemoveAt(rows, v);
    if v == 0 {
      assert rest == rows[1..];
    } else {
      assert rest[0] == rows[0] && rest[1..] == RemoveAt(rows[1..], v - 1);
      OpeningRemove(b, reqs, rows[1..], v - 1);
    }
  }

  lemma OpeningNext(b: nat, reqs: seq<Req>, active: seq<nat>, i: nat)
    requires b > 0 && i < |active| && forall j :: 0 <= j < |active| ==> active[j] < |reqs|
    ensures Opening(b, reqs, active[i..]) == Opening(b, reqs, active[i + 1..]) + (if Opens(b, reqs[active[i]]) then 1 else 0)
  {
    assert active[i..][1..] == active[i + 1..];
  }

  lemma UnservedGrow(s: State, active: seq<nat>, i: nat, t: State)
    requires Ok(s) && Named(s, active) && NoDup(active) && i < |active| && Unserved(s, active, i) && t == GrowOne(s, active[i])
    ensures Unserved(t, active, i + 1)
    ensures Opening(s.mem.blockSize, t.reqs, active[i + 1..]) == Opening(s.mem.blockSize, s.reqs, active[i + 1..])
  {
    forall j | i + 1 <= j < |active| ensures active[j] < |t.reqs| && t.reqs[active[j]] == s.reqs[active[j]] {
      assert active[i] != active[j];
    }
    OpeningSame(s.mem.blockSize, s.reqs, t.reqs, active[i + 1..]);
  }

  /** The loop never returns more rows than it was given. */
  lemma {:induction false} NeverMore(c: Config, s: State, active: seq<nat>, i: nat)
    requires Ok(s) && Named(s, active) && i <= |active|
    ensures |EnsureCapacity(c, s, active, i).active| <= |active|
    decreases |active|, |active| - i
  {
    if i < |active| {
      var t := GrowOne(s, active[i]);
      if AppendSlot(s.mem, s.reqs[active[i]]).ok {
        NeverMore(c, t, active, i + 1);
      } else {
        var v := VictimIndex(t.reqs, active);
        if c.preemption && active[v] in t.running {
          NeverMore(c, Evict(t, active[v]), RemoveAt(active, v), if v < i then i - 1 else i);
        }
      }
    }
  }

  lemma ActiveRow(s: State, active: seq<nat>, i: nat)
    requires Active(s, active) && i < |active|
    ensures active[i] < |s.reqs| && s.reqs[active[i]].state == Running && !s.reqs[active[i]].Done() && NoDup(active)
  {
    assert active[i] in active;
  }

  lemma AfterGrow(c: Config, s: State, active: seq<nat>, i: nat, t: State)
    requires Ok(s) && Named(s, active) && i < |active| && AppendSlot(s.mem, s.reqs[active[i]]).ok && t == GrowOne(s, active[i])
    ensures EnsureCapacity(c, s, active, i) == EnsureCapacity(c, t, active, i + 1)
    ensures |t.mem.free| == |AppendSlot(s.mem, s.reqs[active[i]]).free| && t.mem.blockSize == s.mem.blockSize && t.mem.kind == s.mem.kind
  {
  }

  /** After a failure the loop goes on without the victim. */
  lemma AfterDry(c: Config, s: State, active: seq<nat>, i: nat) returns (v: nat)
    requires Inv(c, s, []) && Ok(s) && Named(s, active) && Active(s, active) && i < |active| && !AppendSlot(s.mem, s.reqs[active[i]]).ok
    ensures v < |active| && active[v] in s.running && active[v] < |s.reqs| && s.mem.free == [] && v == VictimIndex(s.reqs, active)
    ensures EnsureCapacity(c, s, active, i) == EnsureCapacity(c, Evict(s, active[v]), RemoveAt(active, v), if v < i then i - 1 else i)
    ensures |EnsureCapacity(c, s, active, i).active| < |active|
  {
    ActiveRow(s, active, i);
    DryUnchanged(c, s, active[i]);
    v := VictimIndex(s.reqs, active);
    ActiveRow(s, active, v);
    RunningListed(c, s, active[v]);
    hide Inv, Active;
    NeverMore(c, Evict(s, active[v]), RemoveAt(active, v), if v < i then i - 1 else i);
  }

  /** Exactly when nobody is evicted: if and only if there is a free block for every row whose next token
      opens one. */
  lemma {:induction false} EvictsNobodyIff(c: Config, s: State, active: seq<nat>, i: nat)
    requires Inv(c, s, []) && Ok(s) && Named(s, active) && Active(s, active) && i <= |active| && ServedUpTo(s, active, i)
    requires s.mem.kind.Blocks? && Unserved(s, active, i)
    ensures |EnsureCapacity(c, s, active, i).active| == |active| <==> Opening(s.mem.blockSize, s.reqs, active[i..]) <= |s.mem.free|
    decreases |active| - i
  {
    hide Inv, Active, ServedUpTo, AppendSlot, GrowOne;
    if i == |active| {
    } else {
      hide EnsureCapacity;
      var h := active[i];
      ActiveRow(s, active, i);
      ServeOne(s, h);
      OpeningNext(s.mem.blockSize, s.reqs, active, i);
      if AppendSlot(s.mem, s.reqs[h]).ok {
        var t := GrowOne(s, h);
        GrowServes(c, s, active, i, h, t);
        UnservedGrow(s, active, i, t);
        AfterGrow(c, s, active, i, t);
        EvictsNobodyIff(c, t, active, i + 1);
      } else {
        var _ := AfterDry(c, s, active, i);
      }
    }
  }

  /** Exactly when the error "out of KV blocks and preemption is disabled" is raised: if and only if there is
      not a free block for every row whose next token opens one. Nothing is asked of ids or commitments. */
  lemma {:induction false} FaultsIff(c: Config, s: State, active: seq<nat>, i: nat)
    requires Ok(s) && Named(s, active) && NoDup(active) && i <= |active| && s.mem.kind.Blocks? && Unserved(s, active, i)
    requires !c.preemption && !s.fault && forall j {:trigger active[j]} :: i <= j < |active| ==> s.reqs[active[j]].state == Running
    ensures EnsureCapacity(c, s, active, i).s.fault <==> Opening(s.mem.blockSize, s.reqs, active[i..]) > |s.mem.free|
    decreases |active| - i
  {
    hide AppendSlot, GrowOne;
    if i < |active| {
      hide EnsureCapacity;
      var h := active[i];
      ServeOne(s, h);
      OpeningNext(s.mem.blockSize, s.reqs, active, i);
      if AppendSlot(s.mem, s.reqs[h]).ok {
        var t := GrowOne(s, h);
        UnservedGrow(s, active, i, t);
        AfterGrow(c, s, active, i, t);
        GrowLeaves(s, active, i, t);
        FaultsIff(c, t, active, i + 1);
      } else {
        DryFaults(c, s, active, i);
      }
    }
  }

  /** The same for the decode of a state whose running rows own the blocks of what they have stored. */
  lemma DecodeFaultsIff(c: Config, t: State)
    requires Ok(t) && t.mem.kind.Blocks? && !c.preemption && !t.fault && NoDup(DecodeRows(t)) && Unserved(t, DecodeRows(t), 0)
    requires forall j {:trigger DecodeRows(t)[j]} :: 0 <= j < |DecodeRows(t)| ==> t.reqs[DecodeRows(t)[j]].state == Running
    ensures EnsureCapacity(c, t, DecodeRows(t), 0).s.fault <==> Opening(t.mem.blockSize, t.reqs, DecodeRows(t)) > |t.mem.free|
  {
    hide DecodeRows, EnsureCapacity, Opening, Unserved;
    FaultsIff(c, t, DecodeRows(t), 0);
    assert DecodeRows(t)[0..] == DecodeRows(t);
  }

  lemma GrowLeaves(s: State, active: seq<nat>, i: nat, t: State)
    requires Ok(s) && Named(s, active) && NoDup(active) && i < |active| && t == GrowOne(s, active[i])
    requires forall j {:trigger active[j]} :: i <= j < |active| ==> s.reqs[active[j]].state == Running
    ensures t.fault == s.fault && Named(t, active)
    ensures forall j {:trigger active[j]} :: i + 1 <= j < |active| ==> t.reqs[active[j]].state == Running
  {
  }

  lemma DryFaults(c: Config, s: State, active: seq<nat>, i: nat)
    requires Ok(s) && Named(s, active) && i < |active| && !c.preemption && !AppendSlot(s.mem, s.reqs[active[i]]).ok
    ensures EnsureCapacity(c, s, active, i).s.fault
  {
  }

  // ---------------------------------------------------------------- at most one eviction after admission

  /** A running row gives at least one block back when it is evicted. */
  lemma EvictFrees(c: Config, s: State, h: nat, t: State)
    requires Inv(c, s, []) && Ok(s) && h < |s.reqs| && h in s.running && s.reqs[h].state == Running && t == Evict(s, h)
    ensures |t.mem.free| >= |s.mem.free| + 1
  {
    assert ReqOk(c, s.mem.blockSize, s.reqs[h]);
    SizeFacts(c, s.mem, s.reqs[h]);
  }

  lemma OpeningWithout(b: nat, reqs: seq<Req>, active: seq<nat>, i: nat, v: nat, rest: seq<nat>, j: nat)
    requires b > 0 && i < |active| && v < |active| && forall k :: 0 <= k < |active| ==> active[k] < |reqs|
    requires rest == RemoveAt(active, v) && j == if v < i then i - 1 else i
    requires j <= |rest| && forall k :: 0 <= k < |rest| ==> rest[k] < |reqs|
    ensures Opening(b, reqs, rest[j..]) <= Opening(b, reqs, active[i..])
  {
    if v < i {
      assert rest[j..] == active[i..];
    } else {
      assert rest[j..] == RemoveAt(active[i..], v - i);
      OpeningRemove(b, reqs, active[i..], v - i);
    }
  }

  lemma UnservedEvict(s: State, active: seq<nat>, i: nat, v: nat, t: State)
    requires Ok(s) && Named(s, active) && NoDup(active) && i < |active| && v < |active| && Unserved(s, active, i)
    requires active[v] in s.running && t == Evict(s, active[v])
    ensures var j: nat := if v < i then i - 1 else i;
            && Unserved(t, RemoveAt(active, v), j) && Named(t, RemoveAt(active, v))
            && Opening(s.mem.blockSize, t.reqs, RemoveAt(active, v)[j..]) <= Opening(s.mem.blockSize, s.reqs, active[i..])
  {
    var rest, j: nat := RemoveAt(active, v), if v < i then i - 1 else i;
    forall k | j <= k < |rest| ensures rest[k] < |t.reqs| && t.reqs[rest[k]] == s.reqs[rest[k]] && SettledOne(s.mem.blockSize, s.reqs[rest[k]]) {
      var l := if k < v then k else k + 1;
      assert rest[k] == active[l] && l != v;
    }
    hide SettledOne, Opening, Evict;
    OpeningSame(s.mem.blockSize, s.reqs, t.reqs, rest[j..]);
    OpeningWithout(s.mem.blockSize, s.reqs, active, i, v, rest, j);
  }

  /** If the free blocks are short of the need by one, one eviction settles it. */
  lemma {:induction false} EvictsAtMostOne(c: Config, s: State, active: seq<nat>, i: nat)
    requires Inv(c, s, []) && Ok(s) && Named(s, active) && Active(s, active) && i <= |active| && ServedUpTo(s, active, i)
    requires s.mem.kind.Blocks? && Unserved(s, active, i) && Opening(s.mem.blockSize, s.reqs, active[i..]) <= |s.mem.free| + 1
    ensures |EnsureCapacity(c, s, active, i).active| >= |active| - 1
    decreases |active| - i
  {
    hide Inv, Active, ServedUpTo, AppendSlot, GrowOne;
    if i < |active| {
      hide EnsureCapacity, Evict;
      var h := active[i];
      ActiveRow(s, active, i);
      ServeOne(s, h);
      OpeningNext(s.mem.blockSize, s.reqs, active, i);
      if AppendSlot(s.mem, s.reqs[h]).ok {
        var t := GrowOne(s, h);
        GrowServes(c, s, active, i, h, t);
        UnservedGrow(s, active, i, t);
        AfterGrow(c, s, active, i, t);
        EvictsAtMostOne(c, t, active, i + 1);
      } else {
        OneEviction(c, s, active, i);
      }
    }
  }

  lemma OneEviction(c: Config, s: State, active: seq<nat>, i: nat)
    requires Inv(c, s, []) && Ok(s) && Named(s, active) && Active(s, active) && i < |active| && ServedUpTo(s, active, i)
    requires s.mem.kind.Blocks? && Unserved(s, active, i) && Opening(s.mem.blockSize, s.reqs, active[i..]) <= 1
    requires !AppendSlot(s.mem, s.reqs[active[i]]).ok
    ensures |EnsureCapacity(c, s, active, i).active| >= |active| - 1
  {
    hide Inv, ServedUpTo, AppendSlot, EnsureCapacity;
    var v := AfterDry(c, s, active, i);
    ActiveRow(s, active, v);
    var t := Evict(s, active[v]);
    var j: nat := if v < i then i - 1 else i;
    EvictServes(c, s, active, i, v, t);
    EvictFrees(c, s, active[v], t);
    UnservedEvict(s, active, i, v, t);
    EvictsNobodyIff(c, t, RemoveAt(active, v), j);
  }

  lemma UnfinishedSize(reqs: seq<Req>, hs: seq<nat>)
    requires forall i :: 0 <= i < |hs| ==> hs[i] < |reqs|
    ensures |Unfinished(reqs, hs)| <= |hs|
  {
    if hs != [] { UnfinishedSize(reqs, hs[..|hs| - 1]); }
  }

  /** The rows the decode of state `t` starts from. */
  function DecodeRows(t: State): (hs: seq<nat>)
    requires Ok(t)
    ensures Named(t, hs)
  {
    ByAdmission(t, Unfinished(t.reqs, t.running))
  }

  /** Rows are served oldest admission first. */
  lemma OldestFirst(c: Config, t: State)
    requires StepInv(c, t) && Ok(t)
    ensures forall i, j {:trigger DecodeRows(t)[i], DecodeRows(t)[j]} :: 0 <= i < j < |DecodeRows(t)| ==>
              t.reqs[DecodeRows(t)[i]].admitSeq < t.reqs[DecodeRows(t)[j]].admitSeq
  {
    var batch := Unfinished(t.reqs, t.running);
    var rows := DecodeRows(t);
    BatchActive(t, batch, rows);
    var keys := AdmitKeys(t.reqs, batch);
    RankSorts(keys);
    forall i, j | 0 <= i < j < |rows| ensures t.reqs[rows[i]].admitSeq < t.reqs[rows[j]].admitSeq {
      assert rows[i] in rows && rows[j] in rows && rows[i] != rows[j];
      assert InOrder(keys, Rank(keys)[i], Rank(keys)[j]);
      AdmittedApart(t.reqs, rows[i], rows[j]);
    }
  }

  lemma AdmittedApart(reqs: seq<Req>, g: nat, h: nat)
    requires AllPairsOk(reqs) && g < |reqs| && h < |reqs| && g != h && reqs[g].state == Running && reqs[h].state == Running
    ensures reqs[g].admitSeq != reqs[h].admitSeq
  {
    assert g < h ==> PairOk(reqs[g], reqs[h]);
    assert h < g ==> PairOk(reqs[h], reqs[g]);
  }

  lemma DecodeReady(c: Config, t: State)
    requires StepInv(c, t) && Ok(t)
    ensures Active(t, DecodeRows(t)) && ServedUpTo(t, DecodeRows(t), 0) && Unserved(t, DecodeRows(t), 0)
    ensures |DecodeRows(t)| <= |t.running|
  {
    var batch := Unfinished(t.reqs, t.running);
    BatchActive(t, batch, DecodeRows(t));
    UnfinishedSize(t.reqs, t.running);
    forall j | 0 <= j < |DecodeRows(t)| ensures DecodeRows(t)[j] < |t.reqs| && SettledOne(t.mem.blockSize, t.reqs[DecodeRows(t)[j]]) {
      assert SettledOne(t.mem.blockSize, t.reqs[DecodeRows(t)[j]]);
    }
  }

  /** In any state between admission and decoding: nobody is evicted if and only if every unfinished row
      whose next token opens a block can have one. */
  lemma DecodeEvictsNobodyIff(c: Config, t: State)
    requires StepInv(c, t) && Ok(t) && t.mem.kind.Blocks?
    ensures |EnsureCapacity(c, t, DecodeRows(t), 0).active| == |DecodeRows(t)| <==> Opening(t.mem.blockSize, t.reqs, DecodeRows(t)) <= |t.mem.free|
  {
    DecodeReady(c, t);
    EvictsNobodyIff(c, t, DecodeRows(t), 0);
    assert DecodeRows(t)[0..] == DecodeRows(t);
  }

  /** What the headroom buys: a step that admits anybody evicts at most one row. */
  lemma AdmissionEvictsAtMostOne(c: Config, s: State, t: State)
    requires StepInv(c, s) && Ok(s) && s.mem.kind == Blocks(false) && t == Admit(c, s) && |t.running| > |s.running|
    ensures |EnsureCapacity(c, t, DecodeRows(t), 0).active| >= |DecodeRows(t)| - 1
  {
    hide Inv, EnsureCapacity, PopAdmissible, DecodeRows;
    var a := AdmitKeeps(c, s);
    AdmittedRoom(c, s, a, t);
    DecodeReady(c, t);
    assert DecodeRows(t)[0..] == DecodeRows(t);
    EvictsAtMostOne(c, t, DecodeRows(t), 0);
  }

  lemma AdmittedRoom(c: Config, s: State, a: Admission, t: State)
    requires Ok(s) && s.mem.kind == Blocks(false) && !(c.isStatic && s.running != []) && |t.running| > |s.running|
    requires a == PopAdmissible(SortWaiting(s), [], Room(c, s)) && !a.s.fault && AdmittedBy(s, SortWaiting(s), a, t)
    ensures t.mem.kind.Blocks? && |t.running| <= |t.mem.free| + 1
  {
    HeadroomLeft(SortWaiting(s), [], Room(c, s), a);
  }

  /** With one-token blocks every row needs a fresh block at every step. */
  lemma {:induction false} AllOpen(reqs: seq<Req>, rows: seq<nat>)
    requires forall j :: 0 <= j < |rows| ==> rows[j] < |reqs|
    ensures Opening(1, reqs, rows) == |rows|
  {
    if rows != [] { AllOpen(reqs, rows[1..]); }
  }

  // ---------------------------------------------------------------- whole steps

  /** Nobody's eviction count has changed. */
  ghost predicate SameCounts(qs: seq<Req>, rs: seq<Req>)
  {
    |qs| == |rs| && forall h {:trigger rs[h]} :: 0 <= h < |qs| ==> rs[h].preempts == qs[h].preempts
  }

  lemma {:induction false} RetireFromCounts(s: State, i: nat)
    requires Ok(s) && i <= |s.running|
    ensures SameCounts(s.reqs, RetireFrom(s, i).reqs)
    decreases |s.running| - i
  {
    if i < |s.running| {
      if s.reqs[s.running[i]].Done() {
        RetireFromCounts(RetireOne(s, i), i);
        CountsTrans(s.reqs, RetireOne(s, i).reqs, RetireFrom(s, i).reqs);
      } else {
        RetireFromCounts(s, i + 1);
      }
    }
  }

  lemma CountsTrans(ps: seq<Req>, qs: seq<Req>, rs: seq<Req>)
    requires SameCounts(ps, qs) && |qs| == |rs|
    ensures SameCounts(ps, rs) <==> SameCounts(qs, rs)
  {
    if SameCounts(ps, rs) {
      forall h | 0 <= h < |qs| ensures rs[h].preempts == qs[h].preempts {
        var _ := qs[h];
      }
    }
    if SameCounts(qs, rs) {
      forall h | 0 <= h < |ps| ensures rs[h].preempts == ps[h].preempts {
        var _ := qs[h];
      }
    }
  }

  lemma RetireCounts(s: State)
    requires Ok(s)
    ensures SameCounts(s.reqs, Retire(s).reqs)
  {
    RetireFromCounts(DropCancelled(s), 0);
    CountsTrans(s.reqs, DropCancelled(s).reqs, Retire(s).reqs);
  }

  lemma {:induction false} PrefillCounts(c: Config, s: State, hs: seq<nat>)
    requires Ok(s) && Named(s, hs)
    ensures SameCounts(s.reqs, Prefill(c, s, hs).reqs)
    decreases |hs|
  {
    if hs != [] {
      var u := PrefillOne(c, s, hs[0]);
      PrefillCounts(c, u, hs[1..]);
      CountsTrans(s.reqs, u.reqs, Prefill(c, s, hs).reqs);
    }
  }

  lemma AdmitCounts(c: Config, s: State)
    requires Ok(s)
    ensures SameCounts(s.reqs, Admit(c, s).reqs)
  {
    hide Prefill, PopAdmissible;
    if !(c.isStatic && s.running != []) {
      var a := PopAdmissible(SortWaiting(s), [], Room(c, s));
      PopOnly(SortWaiting(s), [], Room(c, s), a);
      assert SameCounts(s.reqs, a.s.reqs);
      if !a.s.fault {
        PrefillCounts(c, a.s, a.batch);
        CountsTrans(s.reqs, a.s.reqs, Admit(c, s).reqs);
      }
    }
  }

  lemma {:induction false} EmitAllCounts(c: Config, s: State, hs: seq<nat>)
    requires Ok(s) && Named(s, hs)
    ensures SameCounts(s.reqs, EmitAll(c, s, hs).reqs)
    decreases |hs|
  {
    if hs != [] {
      var u := With(s, hs[0], Emit(c, s.reqs[hs[0]]));
      EmitAllCounts(c, u, hs[1..]);
      CountsTrans(s.reqs, u.reqs, EmitAll(c, s, hs).reqs);
    }
  }

  /** A list without repetition that lies within another is not longer, and as long only if it is all of it. */
  lemma {:induction false} Within(xs: seq<nat>, ys: seq<nat>)
    requires NoDup(xs) && NoDup(ys) && forall h {:trigger h in xs} :: h in xs ==> h in ys
    ensures |xs| <= |ys|
    ensures |xs| == |ys| <==> forall h {:trigger h in ys} :: h in ys ==> h in xs
  {
    if xs == [] {
      if ys != [] { assert ys[0] in ys; }
    } else {
      var x := xs[0];
      assert x in xs;
      var v := IndexOf(ys, x);
      RemovedMembers(xs, 0);
      RemovedMembers(ys, v);
      assert RemoveAt(xs, 0) == xs[1..];
      forall h | h in xs[1..] ensures h in RemoveAt(ys, v) {
        assert h in RemoveAt(xs, 0);
      }
      Within(xs[1..], RemoveAt(ys, v));
      WithinBack(xs, ys, v);
    }
  }

  /** Putting the same element back on both sides changes nothing. */
  lemma WithinBack(xs: seq<nat>, ys: seq<nat>, v: nat)
    requires xs != [] && v < |ys| && ys[v] == xs[0]
    requires forall h {:trigger h in xs[1..]} :: h in xs[1..] <==> h in xs && h != xs[0]
    requires forall h {:trigger h in RemoveAt(ys, v)} :: h in RemoveAt(ys, v) <==> h in ys && h != xs[0]
    ensures (forall h {:trigger h in ys} :: h in ys ==> h in xs)
       <==> (forall h {:trigger h in RemoveAt(ys, v)} :: h in RemoveAt(ys, v) ==> h in xs[1..])
  {
    if forall h {:trigger h in ys} :: h in ys ==> h in xs {
      forall h | h in RemoveAt(ys, v) ensures h in xs[1..] {
        assert h in ys;
      }
    }
    if forall h {:trigger h in RemoveAt(ys, v)} :: h in RemoveAt(ys, v) ==> h in xs[1..] {
      forall h | h in ys ensures h in xs {
        if h != xs[0] {
          assert h in RemoveAt(ys, v);
          assert h in xs[1..];
        }
      }
    }
  }

  /** The loop sends somebody back exactly if it returns fewer rows than it was given. */
  lemma OutcomeCounts(s: State, active: seq<nat>, t: State, kept: seq<nat>)
    requires s.mem.blockSize > 0 && Outcome(s, active, t, kept) && Active(s, active) && NoDup(kept)
    ensures SameCounts(s.reqs, t.reqs) <==> |kept| == |active|
  {
    Within(kept, active);
    if SameCounts(s.reqs, t.reqs) {
      forall h | h in active ensures h in kept {
        var _ := t.reqs[h];
      }
    }
    if |kept| == |active| {
      forall h | 0 <= h < |s.reqs| ensures t.reqs[h].preempts == s.reqs[h].preempts {
        var _ := t.reqs[h];
        assert h in active ==> h in kept;
      }
    }
  }

  lemma DecodeCounts(c: Config, t: State)
    requires StepInv(c, t) && Ok(t)
    ensures SameCounts(t.reqs, Decode(c, t).reqs) <==> |EnsureCapacity(c, t, DecodeRows(t), 0).active| == |DecodeRows(t)|
  {
    hide Inv, Settled, EnsureCapacity, EmitAll, Outcome;
    var k := EnsureCapacity(c, t, DecodeRows(t), 0);
    DecodeReady(c, t);
    EnsureKeeps(c, t, DecodeRows(t), 0, k);
    OutcomeCounts(t, DecodeRows(t), k.s, k.active);
    if Unfinished(t.reqs, t.running) == [] {
      assert DecodeRows(t) == [];
    } else {
      EmitAllCounts(c, k.s, k.active);
      CountsOnto(t.reqs, k.s.reqs, EmitAll(c, k.s, k.active).reqs);
    }
  }

  lemma CountsOnto(ps: seq<Req>, qs: seq<Req>, rs: seq<Req>)
    requires SameCounts(qs, rs)
    ensures SameCounts(ps, rs) <==> SameCounts(ps, qs)
  {
    assert |qs| == |rs| && forall h :: 0 <= h < |qs| ==> rs[h].preempts == qs[h].preempts;
    if SameCounts(ps, rs) {
      forall h | 0 <= h < |ps| ensures qs[h].preempts == ps[h].preempts {
        assert rs[h].preempts == qs[h].preempts;
      }
    }
    if SameCounts(ps, qs) {
      forall h | 0 <= h < |ps| ensures rs[h].preempts == ps[h].preempts {
        assert qs[h].preempts == ps[h].preempts;
      }
    }
  }

  /** A step evicts nobody if and only if, once it has retired and admitted, there is a free block for every
      unfinished row whose next token opens one. */
  lemma StepEvictsNobodyIff(c: Config, s: State, t: State)
    requires StepInv(c, s) && Ok(s) && s.mem.kind.Blocks? && t == Admit(c, Retire(s))
    ensures SameCounts(s.reqs, Step(c, s).reqs) <==> Opening(t.mem.blockSize, t.reqs, DecodeRows(t)) <= |t.mem.free|
  {
    hide *;
    StepParts(c, s, t);
    DecodeEvictsNobodyIff(c, t);
    DecodeCounts(c, t);
    CountsTrans(s.reqs, t.reqs, Step(c, s).reqs);
  }

  /** Up to the decode, a step keeps the invariant and evicts nobody. */
  lemma StepParts(c: Config, s: State, t: State)
    requires StepInv(c, s) && Ok(s) && t == Admit(c, Retire(s))
    ensures StepInv(c, Retire(s)) && StepInv(c, t) && Ok(t) && t.mem.kind == s.mem.kind && t.mem.blockSize == s.mem.blockSize
    ensures SameCounts(s.reqs, t.reqs) && |t.reqs| == |s.reqs| && Step(c, s) == Decode(c, t)
  {
    hide Decode, Retire, Settled, SameCounts;
    RetireKeeps(c, s);
    RetireCounts(s);
    var r := Retire(s);
    var _ := AdmitKeeps(c, r);
    AdmitCounts(c, r);
    hide Admit;
    CountsTrans(s.reqs, r.reqs, t.reqs);
  }

  // ---------------------------------------------------------------- one block more

  /** Every pop leaves a block for the newcomer too: the pop loop's test with one added to the headroom. */
  ghost predicate Roomy(s: State, batch: seq<nat>, limit: int)
    requires Ok(s) && Named(s, batch)
    decreases |s.waiting|
  {
    CanPop(s, batch, limit) && 0 <= s.mem.Need(s.reqs[s.waiting[0]]) <= |s.mem.free| ==>
      && |s.mem.free| >= s.mem.Need(s.reqs[s.waiting[0]]) + |s.running| + |batch| + 1
      && Roomy(AdmitOne(s), batch + [s.waiting[0]], limit)
  }

  lemma {:induction false} RoomyLeft(s: State, batch: seq<nat>, limit: int, a: Admission)
    requires Ok(s) && Named(s, batch) && a == PopAdmissible(s, batch, limit) && !a.s.fault && Roomy(s, batch, limit)
    requires batch != [] ==> |s.mem.free| >= |s.running| + |batch|
    ensures a.batch != [] ==> |a.s.mem.free| >= |s.running| + |a.batch|
    decreases |s.waiting|
  {
    if CanPop(s, batch, limit) && 0 <= s.mem.Need(s.reqs[s.waiting[0]]) <= |s.mem.free| {
      RoomyLeft(AdmitOne(s), batch + [s.waiting[0]], limit, a);
    }
  }

  lemma RoomyRoom(c: Config, s: State, a: Admission, t: State)
    requires Ok(s) && !(c.isStatic && s.running != []) && |t.running| > |s.running|
    requires a == PopAdmissible(SortWaiting(s), [], Room(c, s)) && !a.s.fault && AdmittedBy(s, SortWaiting(s), a, t)
    requires Roomy(SortWaiting(s), [], Room(c, s))
    ensures |t.running| <= |t.mem.free|
  {
    RoomyLeft(SortWaiting(s), [], Room(c, s), a);
  }

  /** Counting the newcomer in its own headroom would be enough: a step that admits somebody, each with a
      block to spare for itself as well, evicts nobody. */
  lemma RoomyEvictsNobody(c: Config, s: State, r: State, t: State)
    requires StepInv(c, s) && Ok(s) && s.mem.kind == Blocks(false) && r == Retire(s) && t == Admit(c, r)
    requires |t.running| > |r.running| && Roomy(SortWaiting(r), [], Room(c, r))
    ensures SameCounts(s.reqs, Step(c, s).reqs)
  {
    hide *;
    StepParts(c, s, t);
    StepEvictsNobodyIff(c, s, t);
    RoomyAdmit(c, r, t);
    DecodeReady(c, t);
  }

  lemma RoomyAdmit(c: Config, r: State, t: State)
    requires StepInv(c, r) && Ok(r) && t == Admit(c, r) && |t.running| > |r.running| && Roomy(SortWaiting(r), [], Room(c, r))
    ensures |t.running| <= |t.mem.free|
  {
    hide Inv, PopAdmissible, Roomy;
    var a := AdmitKeeps(c, r);
    RoomyRoom(c, r, a, t);
  }
}
