/** With preemption off: exactly when a step fails. Nothing is asked of ids or budgets, so the commitments may be
    anything; what is kept as long as nothing has failed is where each request is and how big its table is. */
module Faults {
  import opened Seqs
  import opened BlockMath
  import opened Requests
  import opened Alloc
  import opened SchedulerSpec
  import opened Invariant
  import opened Preservation
  import opened StepSafety
  import opened Eviction
  import opened StepTheorem
  import opened Headroom
  import opened Runs

  // ---------------------------------------------------------------- what is kept whatever the commitments say

  ghost predicate SizeOk(b: nat, r: Req)
    requires b > 0
  {
    && r.prompt != []
    && match r.state
       case Waiting => r.table == []
       case Admitted => |r.table| == CeilDiv(r.SeqLen(), b)
       case Running => |r.table| == CeilDiv(r.SeqLen() - 1, b)
       case _ => true
  }

  ghost predicate Sizes(b: nat, reqs: seq<Req>)
    requires b > 0
  {
    forall h {:trigger SizeOk(b, reqs[h])} :: 0 <= h < |reqs| ==> SizeOk(b, reqs[h])
  }

  /** `pend` lists the requests that have their blocks but have not been prefilled. */
  ghost predicate Loose(s: State, pend: seq<nat>)
  {
    && s.mem.kind == Blocks(true) && s.mem.blockSize > 0
    && Lists(s.reqs, s.waiting, Waiting) && Lists(s.reqs, s.running, Running) && Lists(s.reqs, pend, Admitted)
    && Sizes(s.mem.blockSize, s.reqs)
  }

  lemma LooseOk(s: State, pend: seq<nat>)
    requires Loose(s, pend)
    ensures Ok(s) && Named(s, pend)
  {
    ListsMember(s.reqs, s.waiting, Waiting);
    ListsMember(s.reqs, s.running, Running);
    ListsMember(s.reqs, pend, Admitted);
    forall h | 0 <= h < |s.reqs| ensures s.reqs[h].prompt != [] {
      assert SizeOk(s.mem.blockSize, s.reqs[h]);
    }
  }

  lemma LooseMove(s: State, pend: seq<nat>, h: nat, r: Req, t: State, pend': seq<nat>)
    requires Loose(s, pend) && h < |s.reqs| && Changes(s, pend, h, r, t, pend') && SizeOk(s.mem.blockSize, r)
    ensures Loose(t, pend')
  {
    ListMoves(s.reqs, s.waiting, t.waiting, h, r, Waiting);
    ListMoves(s.reqs, s.running, t.running, h, r, Running);
    ListMoves(s.reqs, pend, pend', h, r, Admitted);
    SizesUpdate(s.mem.blockSize, s.reqs, h, r);
  }

  lemma SizesUpdate(b: nat, reqs: seq<Req>, h: nat, r: Req)
    requires b > 0 && h < |reqs| && Sizes(b, reqs) && SizeOk(b, r)
    ensures Sizes(b, reqs[h := r])
  {
    var rs := reqs[h := r];
    forall g | 0 <= g < |rs| ensures SizeOk(b, rs[g]) {
      assert SizeOk(b, reqs[g]);
    }
  }

  // ---------------------------------------------------------------- retire

  lemma LooseDrop(s: State)
    requires Loose(s, []) && Ok(s)
    ensures Loose(DropCancelled(s), [])
  {
    FilterLists(s.reqs, s.waiting);
    DisconnectHandles(s.reqs);
    DisconnectSizes(s.mem.blockSize, s.reqs);
    hide Sizes, DisconnectAll, Filter;
  }

  lemma DisconnectSizes(b: nat, reqs: seq<Req>)
    requires b > 0 && Sizes(b, reqs)
    ensures Sizes(b, DisconnectAll(reqs))
  {
    var rs := DisconnectAll(reqs);
    forall h | 0 <= h < |rs| ensures SizeOk(b, rs[h]) {
      assert SizeOk(b, reqs[h]);
    }
  }

  lemma LooseRetireOne(s: State, i: nat)
    requires Loose(s, []) && Ok(s) && i < |s.running| && s.reqs[s.running[i]].Done()
    ensures Loose(RetireOne(s, i), [])
  {
    ListsMember(s.reqs, s.running, Running);
    var h := s.running[i];
    var r := s.reqs[h].(state := Finished, table := []);
    assert SizeOk(s.mem.blockSize, s.reqs[h]);
    RetireOneChanges(s, i, h, r);
    hide Changes, Lists;
    LooseMove(s, [], h, r, RetireOne(s, i), []);
  }

  lemma {:induction false} LooseRetireFrom(s: State, i: nat)
    requires Loose(s, []) && Ok(s) && i <= |s.running|
    ensures Loose(RetireFrom(s, i), []) && RetireFrom(s, i).fault == s.fault
    decreases |s.running| - i
  {
    hide Loose;
    if i < |s.running| {
      if s.reqs[s.running[i]].Done() {
        LooseRetireOne(s, i);
        LooseRetireFrom(RetireOne(s, i), i);
      } else {
        LooseRetireFrom(s, i + 1);
      }
    }
  }

  lemma LooseRetire(s: State)
    requires Loose(s, []) && Ok(s)
    ensures Loose(Retire(s), []) && Retire(s).fault == s.fault
  {
    LooseDrop(s);
    hide Loose;
    LooseRetireFrom(DropCancelled(s), 0);
  }

  // ---------------------------------------------------------------- admit

  lemma LooseSort(s: State)
    requires Loose(s, []) && Ok(s)
    ensures Loose(SortWaiting(s), [])
  {
    SortKeepsElements(s.waiting, WaitKeys(s.reqs, s.waiting));
  }

  lemma LooseAdmitOne(s: State, pend: seq<nat>, h: nat)
    requires Loose(s, pend) && Ok(s) && s.waiting != [] && h == s.waiting[0] && 0 <= s.mem.Need(s.reqs[h]) <= |s.mem.free|
    ensures Loose(AdmitOne(s), pend + [h]) && Named(AdmitOne(s), pend + [h])
  {
    ListsMember(s.reqs, s.waiting, Waiting);
    var r := s.reqs[h].(state := Admitted, table := s.mem.Taken(s.mem.Need(s.reqs[h])), admitSeq := s.admits);
    assert SizeOk(s.mem.blockSize, s.reqs[h]);
    assert r.SeqLen() == s.reqs[h].SeqLen();
    AdmitOneChanges(s, pend, h, r);
    hide Changes, Lists, AdmitOne;
    LooseMove(s, pend, h, r, AdmitOne(s), pend + [h]);
    LooseOk(AdmitOne(s), pend + [h]);
  }

  lemma {:induction false} LoosePop(s: State, batch: seq<nat>, limit: int, a: Admission)
    requires Loose(s, batch) && Ok(s) && Named(s, batch) && a == PopAdmissible(s, batch, limit) && !a.s.fault
    ensures Loose(a.s, a.batch)
    decreases |s.waiting|
  {
    hide Loose;
    if CanPop(s, batch, limit) {
      var h := s.waiting[0];
      LooseAdmitOne(s, batch, h);
      hide AdmitOne, CanPop;
      LoosePop(AdmitOne(s), batch + [h], limit, a);
    }
  }

  lemma LoosePrefillOne(c: Config, s: State, pend: seq<nat>)
    requires Loose(s, pend) && Ok(s) && pend != [] && Named(s, pend)
    ensures Loose(PrefillOne(c, s, pend[0]), pend[1..]) && PrefillOne(c, s, pend[0]).fault == s.fault
  {
    ListsMember(s.reqs, pend, Admitted);
    var h := pend[0];
    assert SizeOk(s.mem.blockSize, s.reqs[h]);
    hide Lists, Emit, PrefillOne, SizeOk, Sizes;
    PrefillSize(c, s.mem.blockSize, s.reqs[h]);
    var r := Emit(c, s.reqs[h].(state := Running));
    PrefillOneChanges(c, s, pend, h, r);
    hide Changes;
    LooseMove(s, pend, h, r, PrefillOne(c, s, h), pend[1..]);
    PrefillQuiet(c, s, h);
  }

  lemma PrefillSize(c: Config, b: nat, q: Req)
    requires b > 0 && SizeOk(b, q) && q.state == Admitted
    ensures SizeOk(b, Emit(c, q.(state := Running)))
  {
    assert Emit(c, q.(state := Running)).SeqLen() - 1 == q.SeqLen();
  }

  lemma PrefillQuiet(c: Config, s: State, h: nat)
    requires Ok(s) && h < |s.reqs|
    ensures PrefillOne(c, s, h).fault == s.fault
  {
  }

  lemma {:induction false} LoosePrefill(c: Config, s: State, hs: seq<nat>)
    requires Loose(s, hs) && Ok(s) && Named(s, hs)
    ensures Loose(Prefill(c, s, hs), []) && Prefill(c, s, hs).fault == s.fault
    decreases |hs|
  {
    hide Loose;
    if hs != [] {
      LoosePrefillOne(c, s, hs);
      LoosePrefill(c, PrefillOne(c, s, hs[0]), hs[1..]);
    }
  }

  lemma LooseAdmit(c: Config, s: State)
    requires Loose(s, []) && Ok(s) && !Admit(c, s).fault
    ensures Loose(Admit(c, s), [])
  {
    hide Loose, PopAdmissible, Prefill, SortWaiting;
    if !(c.isStatic && s.running != []) {
      LooseSort(s);
      var a := PopAdmissible(SortWaiting(s), [], Room(c, s));
      LoosePop(SortWaiting(s), [], Room(c, s), a);
      LoosePrefill(c, a.s, a.batch);
    }
  }

  // ---------------------------------------------------------------- decode

  /** Without preemption the capacity loop that does not fail gives every row its block and drops nobody. */
  ghost predicate AllGrown(s: State, rows: seq<nat>, u: State)
    requires s.mem.blockSize > 0
  {
    && u == s.(reqs := u.reqs, mem := u.mem) && SamePool(s, u) && |u.reqs| == |s.reqs|
    && forall h {:trigger u.reqs[h]} :: 0 <= h < |s.reqs| ==>
         if h in rows then GoesOn(s.mem.blockSize, s.reqs[h], u.reqs[h]) else u.reqs[h] == s.reqs[h]
  }

  lemma {:induction false} GrowsAll(c: Config, s: State, active: seq<nat>, i: nat, k: Capacity)
    requires Ok(s) && Named(s, active) && NoDup(active) && i <= |active| && s.mem.kind.Blocks? && Unserved(s, active, i)
    requires !c.preemption && (forall j {:trigger active[j]} :: i <= j < |active| ==> s.reqs[active[j]].state == Running)
    requires k == EnsureCapacity(c, s, active, i) && !k.s.fault
    ensures k.active == active && AllGrown(s, active[i..], k.s)
    decreases |active| - i
  {
    if i < |active| {
      var h := active[i];
      if !AppendSlot(s.mem, s.reqs[h]).ok {
        DryFaults(c, s, active, i);
      } else {
        var t := GrowOne(s, h);
        GrownRow(s, h, t);
        UnservedGrow(s, active, i, t);
        AfterGrow(c, s, active, i, t);
        GrowLeaves(s, active, i, t);
        hide GrowOne, AppendSlot, EnsureCapacity, Ok, AllGrown, Unserved;
        GrowsAll(c, t, active, i + 1, k);
        GrownFirst(s, active, i, t, k.s);
      }
    }
  }

  lemma GrownRow(s: State, h: nat, t: State)
    requires Ok(s) && h < |s.reqs| && s.reqs[h].state == Running && s.mem.kind.Blocks? && SettledOne(s.mem.blockSize, s.reqs[h])
    requires AppendSlot(s.mem, s.reqs[h]).ok && t == GrowOne(s, h)
    ensures AllGrown(s, [h], t)
  {
    var r := s.reqs[h];
    OpensMeansOneMore(s.mem.blockSize, r.SeqLen() - 1);
    GrowByOne(s.mem.free, r.table, s.mem.Need(r));
    assert t.reqs[h].SeqLen() == r.SeqLen();
  }

  lemma GrownFirst(s: State, active: seq<nat>, i: nat, t: State, u: State)
    requires s.mem.blockSize > 0 && NoDup(active) && i < |active| && active[i] < |s.reqs|
    requires AllGrown(s, [active[i]], t) && t.mem.blockSize > 0 && AllGrown(t, active[i + 1..], u)
    ensures AllGrown(s, active[i..], u)
  {
    var h := active[i];
    var rest := active[i + 1..];
    assert active[i..] == [h] + rest;
    assert h !in rest;
    forall g | 0 <= g < |s.reqs|
      ensures if g in active[i..] then GoesOn(s.mem.blockSize, s.reqs[g], u.reqs[g]) else u.reqs[g] == s.reqs[g]
    {
      assert g in active[i..] <==> g == h || g in rest;
      var _ := t.reqs[g];
      var _ := u.reqs[g];
    }
  }

  lemma {:induction false} EmitAllValues(c: Config, s: State, hs: seq<nat>, t: State)
    requires Ok(s) && Named(s, hs) && NoDup(hs) && t == EmitAll(c, s, hs)
    ensures forall h {:trigger t.reqs[h]} :: 0 <= h < |s.reqs| ==> t.reqs[h] == if h in hs then Emit(c, s.reqs[h]) else s.reqs[h]
    decreases |hs|
  {
    if hs != [] {
      hide Emit, Ok;
      var u := With(s, hs[0], Emit(c, s.reqs[hs[0]]));
      assert hs == [hs[0]] + hs[1..];
      assert hs[0] !in hs[1..];
      EmitAllValues(c, u, hs[1..], t);
      forall h | 0 <= h < |s.reqs| ensures t.reqs[h] == if h in hs then Emit(c, s.reqs[h]) else s.reqs[h] {
        assert h in hs <==> h == hs[0] || h in hs[1..];
        var _ := t.reqs[h];
      }
    }
  }

  /** The rows a decode starts from. */
  lemma LooseRows(t: State)
    requires Loose(t, []) && Ok(t)
    ensures NoDup(DecodeRows(t)) && Named(t, DecodeRows(t)) && Unserved(t, DecodeRows(t), 0)
    ensures forall j {:trigger DecodeRows(t)[j]} :: 0 <= j < |DecodeRows(t)| ==> t.reqs[DecodeRows(t)[j]].state == Running
    ensures DecodeRows(t) == [] <==> Unfinished(t.reqs, t.running) == []
  {
    var rows := DecodeRows(t);
    BatchActive(t, Unfinished(t.reqs, t.running), rows);
    forall j | 0 <= j < |rows| ensures t.reqs[rows[j]].state == Running && SettledOne(t.mem.blockSize, t.reqs[rows[j]]) {
      assert rows[j] in rows;
      assert SizeOk(t.mem.blockSize, t.reqs[rows[j]]);
    }
  }

  lemma RowAfter(c: Config, b: nat, q: Req, g: Req, r: Req)
    requires b > 0 && SizeOk(b, q) && q.state == Running && GoesOn(b, q, g) && g.prompt != [] && r == Emit(c, g)
    ensures SizeOk(b, r) && r.state == Running
  {
    assert r.SeqLen() - 1 == g.SeqLen();
  }

  lemma LooseDecoded(c: Config, t: State, rows: seq<nat>, k: State, u: State)
    requires Loose(t, []) && Ok(t) && NoDup(rows) && Named(t, rows) && AllGrown(t, rows, k) && Ok(k) && Named(k, rows)
    requires (forall j {:trigger rows[j]} :: 0 <= j < |rows| ==> t.reqs[rows[j]].state == Running) && u == EmitAll(c, k, rows)
    ensures Loose(u, [])
  {
    EmitAllValues(c, k, rows, u);
    hide Emit, Lists, EmitAll;
    forall h | 0 <= h < |u.reqs| ensures SizeOk(u.mem.blockSize, u.reqs[h]) && u.reqs[h].state == t.reqs[h].state {
      assert SizeOk(t.mem.blockSize, t.reqs[h]);
      var _ := k.reqs[h];
      if h in rows {
        RowAfter(c, t.mem.blockSize, t.reqs[h], k.reqs[h], u.reqs[h]);
      }
    }
    SameStates(t, u);
  }

  lemma SameStates(t: State, u: State)
    requires |u.reqs| == |t.reqs| && forall h :: 0 <= h < |u.reqs| ==> u.reqs[h].state == t.reqs[h].state
    requires u.waiting == t.waiting && u.running == t.running
    requires Lists(t.reqs, t.waiting, Waiting) && Lists(t.reqs, t.running, Running) && Lists(t.reqs, [], Admitted)
    ensures Lists(u.reqs, u.waiting, Waiting) && Lists(u.reqs, u.running, Running) && Lists(u.reqs, [], Admitted)
  {
    HandlesSame(t.reqs, u.reqs, Waiting);
    HandlesSame(t.reqs, u.reqs, Running);
    HandlesSame(t.reqs, u.reqs, Admitted);
  }

  /** Rows that need a block outnumber the free ones. */
  ghost predicate DecodeDry(t: State)
    requires Ok(t)
  {
    Opening(t.mem.blockSize, t.reqs, DecodeRows(t)) > |t.mem.free|
  }

  lemma DecodeFaults(c: Config, t: State)
    requires Loose(t, []) && Ok(t) && !c.preemption && !t.fault
    ensures Decode(c, t).fault <==> DecodeDry(t)
    ensures !Decode(c, t).fault ==> Loose(Decode(c, t), [])
  {
    LooseRows(t);
    LooseKind(t);
    hide Loose;
    if Unfinished(t.reqs, t.running) != [] {
      var k := EnsureCapacity(c, t, DecodeRows(t), 0);
      DecodeFaultsIff(c, t);
      if !k.s.fault {
        GrowsAll(c, t, DecodeRows(t), 0, k);
        assert DecodeRows(t)[0..] == DecodeRows(t);
        hide EnsureCapacity, EmitAll, DecodeRows, AllGrown, Opening, Unserved;
        LooseDecoded(c, t, DecodeRows(t), k.s, EmitAll(c, k.s, k.active));
      }
    }
  }

  lemma LooseKind(t: State)
    requires Loose(t, [])
    ensures t.mem.kind == Blocks(true)
  {
  }

  // ---------------------------------------------------------------- admission, as a sum

  /** The blocks a row of requests takes when it is admitted. */
  function Needs(b: nat, reqs: seq<Req>, hs: seq<nat>): int
    requires b > 0 && forall i :: 0 <= i < |hs| ==> hs[i] < |reqs|
  {
    if hs == [] then 0 else CeilDiv(reqs[hs[0]].SeqLen(), b) + Needs(b, reqs, hs[1..])
  }

  /** The commitments after admitting a row of requests: each overwrites what stood under its id. */
  function CommittedAfter(b: nat, reqs: seq<Req>, hs: seq<nat>, m: map<string, int>): map<string, int>
    requires b > 0 && forall i :: 0 <= i < |hs| ==> hs[i] < |reqs|
  {
    if hs == [] then m else CommittedAfter(b, reqs, hs[1..], m[reqs[hs[0]].id := WorstOf(b, reqs[hs[0]])])
  }

  /** The commitments leave room for the first `n` requests of the row, one after the other. */
  ghost predicate Allowed(m: Memory, reqs: seq<Req>, hs: seq<nat>, n: nat)
    requires m.blockSize > 0 && n <= |hs| && forall i :: 0 <= i < |hs| ==> hs[i] < |reqs|
  {
    forall i {:trigger hs[i]} :: 0 <= i < n ==>
      Sum(CommittedAfter(m.blockSize, reqs, hs[..i], m.committed)) + WorstOf(m.blockSize, reqs[hs[i]]) <= m.numBlocks
  }

  /** The first `n` requests of the row are let in, and together need more blocks than are free. */
  ghost predicate Overdrawn(m: Memory, reqs: seq<Req>, hs: seq<nat>, n: nat)
    requires m.blockSize > 0 && forall i :: 0 <= i < |hs| ==> hs[i] < |reqs|
  {
    0 < n <= |hs| && Allowed(m, reqs, hs, n) && Needs(m.blockSize, reqs, hs[..n]) > |m.free|
  }

  ghost predicate PopsDry(s: State, limit: int)
    requires Ok(s)
  {
    exists n: nat {:trigger Overdrawn(s.mem, s.reqs, s.waiting, n)} :: n <= limit && Overdrawn(s.mem, s.reqs, s.waiting, n)
  }

  lemma {:induction false} SameQueue(b: nat, qs: seq<Req>, rs: seq<Req>, hs: seq<nat>, m: map<string, int>)
    requires b > 0 && |qs| == |rs| && forall i :: 0 <= i < |hs| ==> hs[i] < |qs| && rs[hs[i]] == qs[hs[i]]
    ensures Needs(b, rs, hs) == Needs(b, qs, hs) && CommittedAfter(b, rs, hs, m) == CommittedAfter(b, qs, hs, m)
  {
    if hs != [] { SameQueue(b, qs, rs, hs[1..], m[qs[hs[0]].id := WorstOf(b, qs[hs[0]])]); }
  }

  /** What one pop does to the sums. */
  ghost predicate Advanced(s: State, h: nat, t: State)
    requires h < |s.reqs| && s.mem.blockSize > 0
  {
    && t.mem.blockSize == s.mem.blockSize && t.mem.numBlocks == s.mem.numBlocks && |t.reqs| == |s.reqs|
    && s.waiting != [] && s.waiting[0] == h && t.waiting == s.waiting[1..] && NoDup(s.waiting)
    && (forall g {:trigger t.reqs[g]} :: 0 <= g < |s.reqs| && g != h ==> t.reqs[g] == s.reqs[g])
    && t.mem.committed == s.mem.committed[s.reqs[h].id := WorstOf(s.mem.blockSize, s.reqs[h])]
    && |t.mem.free| == |s.mem.free| - CeilDiv(s.reqs[h].SeqLen(), s.mem.blockSize)
  }

  lemma AdmitAdvances(s: State, h: nat)
    requires Ok(s) && s.mem.kind == Blocks(true) && s.waiting != [] && h == s.waiting[0] && NoDup(s.waiting)
    requires 0 <= s.mem.Need(s.reqs[h]) <= |s.mem.free|
    ensures Advanced(s, h, AdmitOne(s))
  {
  }

  lemma QueueAfter(s: State, h: nat, t: State, i: nat)
    requires Ok(s) && Ok(t) && h < |s.reqs| && Advanced(s, h, t) && i <= |t.waiting|
    ensures var b := s.mem.blockSize; var w, v := s.waiting[..i + 1], t.waiting[..i];
            && Named(s, w) && Named(t, v)
            && Needs(b, s.reqs, w) == CeilDiv(s.reqs[h].SeqLen(), b) + Needs(b, t.reqs, v)
            && CommittedAfter(b, s.reqs, w, s.mem.committed) == CommittedAfter(b, t.reqs, v, t.mem.committed)
  {
    var w, v := s.waiting[..i + 1], t.waiting[..i];
    assert w[0] == h && w[1..] == v;
    forall j | 0 <= j < |v| ensures v[j] < |s.reqs| && t.reqs[v[j]] == s.reqs[v[j]] {
      assert v[j] == s.waiting[j + 1] && s.waiting[0] != s.waiting[j + 1];
    }
    SameQueue(s.mem.blockSize, s.reqs, t.reqs, v, t.mem.committed);
  }

  /** Allowed after one pop is allowed with it, and the other way round. */
  lemma AllowedAfter(s: State, h: nat, t: State, n: nat)
    requires Ok(s) && Ok(t) && h < |s.reqs| && Advanced(s, h, t) && n <= |t.waiting|
    requires Sum(s.mem.committed) + WorstOf(s.mem.blockSize, s.reqs[h]) <= s.mem.numBlocks
    ensures Allowed(s.mem, s.reqs, s.waiting, n + 1) <==> Allowed(t.mem, t.reqs, t.waiting, n)
  {
    hide CommittedAfter, WorstOf, Advanced;
    QueueShorter(s, h, t);
    if Allowed(s.mem, s.reqs, s.waiting, n + 1) {
      forall i | 0 <= i < n
        ensures Sum(CommittedAfter(t.mem.blockSize, t.reqs, t.waiting[..i], t.mem.committed)) + WorstOf(t.mem.blockSize, t.reqs[t.waiting[i]]) <= t.mem.numBlocks
      {
        AllowedOne(s, h, t, i);
        var _ := s.waiting[i + 1];
      }
    }
    if Allowed(t.mem, t.reqs, t.waiting, n) {
      forall i | 0 <= i < n + 1
        ensures Sum(CommittedAfter(s.mem.blockSize, s.reqs, s.waiting[..i], s.mem.committed)) + WorstOf(s.mem.blockSize, s.reqs[s.waiting[i]]) <= s.mem.numBlocks
      {
        if i > 0 {
          AllowedOne(s, h, t, i - 1);
          var _ := t.waiting[i - 1];
        }
      }
    }
  }

  lemma QueueShorter(s: State, h: nat, t: State)
    requires Ok(s) && h < |s.reqs| && Advanced(s, h, t)
    ensures |s.waiting| == |t.waiting| + 1 && s.waiting[0] == h && s.waiting[..0] == []
    ensures t.mem.blockSize == s.mem.blockSize && t.mem.numBlocks == s.mem.numBlocks
    ensures CommittedAfter(s.mem.blockSize, s.reqs, s.waiting[..0], s.mem.committed) == s.mem.committed
  {
    assert s.waiting[..0] == [];
  }

  lemma AllowedOne(s: State, h: nat, t: State, i: nat)
    requires Ok(s) && Ok(t) && h < |s.reqs| && Advanced(s, h, t) && i < |t.waiting|
    ensures Named(s, s.waiting[..i + 1]) && Named(t, t.waiting[..i]) && t.waiting[i] == s.waiting[i + 1]
    ensures CommittedAfter(s.mem.blockSize, s.reqs, s.waiting[..i + 1], s.mem.committed) == CommittedAfter(t.mem.blockSize, t.reqs, t.waiting[..i], t.mem.committed)
    ensures WorstOf(s.mem.blockSize, s.reqs[s.waiting[i + 1]]) == WorstOf(t.mem.blockSize, t.reqs[t.waiting[i]])
  {
    QueueAfter(s, h, t, i);
    assert s.waiting[0] != s.waiting[i + 1];
  }

  lemma OverdrawnAfter(s: State, h: nat, t: State, n: nat)
    requires Ok(s) && Ok(t) && h < |s.reqs| && Advanced(s, h, t)
    requires Sum(s.mem.committed) + WorstOf(s.mem.blockSize, s.reqs[h]) <= s.mem.numBlocks
    ensures n > 0 ==> (Overdrawn(s.mem, s.reqs, s.waiting, n + 1) <==> Overdrawn(t.mem, t.reqs, t.waiting, n))
    ensures !Overdrawn(s.mem, s.reqs, s.waiting, 1)
  {
    if 0 < n <= |t.waiting| {
      AllowedAfter(s, h, t, n);
      QueueAfter(s, h, t, n);
    }
    QueueAfter(s, h, t, 0);
    assert t.waiting[..0] == [];
  }

  lemma PopsAfter(s: State, h: nat, t: State, limit: int)
    requires Ok(s) && Ok(t) && h < |s.reqs| && Advanced(s, h, t)
    requires Sum(s.mem.committed) + WorstOf(s.mem.blockSize, s.reqs[h]) <= s.mem.numBlocks
    ensures PopsDry(s, limit) <==> PopsDry(t, limit - 1)
  {
    hide Overdrawn, Advanced, WorstOf;
    if PopsDry(s, limit) {
      var n: nat :| n <= limit && Overdrawn(s.mem, s.reqs, s.waiting, n);
      OverdrawnPositive(s, n);
      OverdrawnAfter(s, h, t, n - 1);
    }
    if PopsDry(t, limit - 1) {
      var n: nat :| n <= limit - 1 && Overdrawn(t.mem, t.reqs, t.waiting, n);
      OverdrawnPositive(t, n);
      OverdrawnAfter(s, h, t, n);
    }
  }

  lemma OverdrawnPositive(s: State, n: nat)
    requires Ok(s) && Overdrawn(s.mem, s.reqs, s.waiting, n)
    ensures n > 0
  {
  }

  /** A request that is not let in ends the row. */
  lemma NotAllowed(s: State, limit: int)
    requires Ok(s) && (s.waiting == [] || limit <= 0 || Sum(s.mem.committed) + WorstOf(s.mem.blockSize, s.reqs[s.waiting[0]]) > s.mem.numBlocks)
    ensures !PopsDry(s, limit)
  {
    forall n: nat | n <= limit ensures !Overdrawn(s.mem, s.reqs, s.waiting, n) {
      if 0 < n <= |s.waiting| {
        assert s.waiting[..0] == [];
        var _ := s.waiting[0];
      }
    }
  }

  lemma FirstOverdraws(s: State, limit: int)
    requires Ok(s) && s.waiting != [] && limit > 0 && Sum(s.mem.committed) + WorstOf(s.mem.blockSize, s.reqs[s.waiting[0]]) <= s.mem.numBlocks
    requires CeilDiv(s.reqs[s.waiting[0]].SeqLen(), s.mem.blockSize) > |s.mem.free|
    ensures PopsDry(s, limit)
  {
    assert s.waiting[..0] == [] && s.waiting[..1][1..] == [];
    assert Needs(s.mem.blockSize, s.reqs, s.waiting[..1]) == CeilDiv(s.reqs[s.waiting[0]].SeqLen(), s.mem.blockSize);
    assert Overdrawn(s.mem, s.reqs, s.waiting, 1);
  }

  /** `allocate`'s own assertion fails if and only if some front of the queue is let in although it needs more
      blocks than are free. */
  lemma {:induction false} PopFaultsIff(s: State, batch: seq<nat>, limit: int)
    requires Ok(s) && Named(s, batch) && s.mem.kind == Blocks(true) && NoDup(s.waiting) && !s.fault
    ensures PopAdmissible(s, batch, limit).s.fault <==> PopsDry(s, limit - |batch|)
    decreases |s.waiting|
  {
    hide PopsDry, Advanced, AdmitOne;
    if !CanPop(s, batch, limit) {
      NotAllowed(s, limit - |batch|);
    } else {
      var h := s.waiting[0];
      NeedFacts(s.mem, s.reqs[h]);
      if s.mem.Need(s.reqs[h]) > |s.mem.free| {
        FirstOverdraws(s, limit - |batch|);
      } else {
        var t := AdmitOne(s);
        AdmitAdvances(s, h);
        AfterPop(s, h, t);
        PopFaultsIff(t, batch + [h], limit);
        PopsAfter(s, h, t, limit - |batch|);
      }
    }
  }

  lemma NeedFacts(m: Memory, r: Req)
    requires m.blockSize > 0 && m.kind == Blocks(true)
    ensures m.Need(r) == CeilDiv(r.SeqLen(), m.blockSize) >= 0 && m.Worst(r) == WorstOf(m.blockSize, r)
  {
    CeilDivPositive(r.SeqLen(), m.blockSize);
  }

  lemma AfterPop(s: State, h: nat, t: State)
    requires Ok(s) && s.waiting != [] && h == s.waiting[0] && NoDup(s.waiting) && 0 <= s.mem.Need(s.reqs[h]) <= |s.mem.free| && t == AdmitOne(s)
    ensures NoDup(t.waiting) && t.fault == s.fault && t.mem.kind == s.mem.kind
  {
  }

  // ---------------------------------------------------------------- the step

  /** Some front of the sorted queue is let in although it needs more blocks than are free. */
  ghost predicate AdmitDry(c: Config, r: State)
    requires Ok(r)
  {
    !(c.isStatic && r.running != []) && PopsDry(SortWaiting(r), Room(c, r))
  }

  lemma AdmitFaultsIff(c: Config, r: State)
    requires Loose(r, []) && Ok(r) && !r.fault
    ensures Admit(c, r).fault <==> AdmitDry(c, r)
  {
    if !(c.isStatic && r.running != []) {
      LooseSort(r);
      SortedOnce(r);
      LooseKind(r);
      hide Loose, PopAdmissible, Prefill, SortWaiting, PopsDry;
      PopFaultsIff(SortWaiting(r), [], Room(c, r));
      var a := PopAdmissible(SortWaiting(r), [], Room(c, r));
      if !a.s.fault {
        LoosePop(SortWaiting(r), [], Room(c, r), a);
        LoosePrefill(c, a.s, a.batch);
      }
    }
  }

  lemma SortedOnce(r: State)
    requires Loose(r, []) && Ok(r) && Loose(SortWaiting(r), [])
    ensures NoDup(SortWaiting(r).waiting)
  {
    ListsMember(SortWaiting(r).reqs, SortWaiting(r).waiting, Waiting);
  }

  /** What makes a step fail: admission lets in more than there is, or the rows then running ask for more. */
  ghost predicate StepDry(c: Config, s: State)
    requires Ok(s)
  {
    var r := Retire(s);
    AdmitDry(c, r) || DecodeDry(Admit(c, r))
  }

  /** With preemption off a step fails one of its assertions, or raises the out-of-blocks error, in exactly
      these cases; otherwise everybody is where the lists say, with a table of the right size. */
  lemma StepFaultsIff(c: Config, s: State)
    requires Loose(s, []) && Ok(s) && !c.preemption && !s.fault
    ensures Step(c, s).fault <==> StepDry(c, s)
    ensures !Step(c, s).fault ==> Loose(Step(c, s), [])
  {
    hide Loose, Retire, Admit, Decode, AdmitDry, DecodeDry;
    var r := Retire(s);
    LooseRetire(s);
    AdmitFaultsIff(c, r);
    var t := Admit(c, r);
    if !t.fault {
      LooseAdmit(c, r);
      DecodeFaults(c, t);
    }
  }

  // ---------------------------------------------------------------- runs

  /** `evs` is what the outside world may do, with any ids and any budgets. */
  ghost predicate AllSent(c: Config, s: State, evs: seq<Event>)
    decreases |evs|
  {
    evs == [] || (Ok(s) && Sent(c, s, evs[0]) && AllSent(c, Apply(c, s, evs[0]), evs[1..]))
  }

  ghost function After(c: Config, s: State, evs: seq<Event>): State
    requires AllSent(c, s, evs)
    decreases |evs|
  {
    if evs == [] then s else After(c, Apply(c, s, evs[0]), evs[1..])
  }

  /** Among the run's states there is one whose next step has to fail. */
  ghost predicate RunsDry(c: Config, s: State, evs: seq<Event>)
    requires AllSent(c, s, evs)
    decreases |evs|
  {
    evs != [] && ((evs[0] == Tick && StepDry(c, s)) || RunsDry(c, Apply(c, s, evs[0]), evs[1..]))
  }

  lemma LooseApply(c: Config, s: State, e: Event)
    requires Loose(s, []) && Ok(s) && Sent(c, s, e) && !c.preemption && !s.fault
    ensures Apply(c, s, e).fault <==> e == Tick && StepDry(c, s)
    ensures !Apply(c, s, e).fault ==> Loose(Apply(c, s, e), [])
  {
    match e
    case Tick =>
      StepFaultsIff(c, s);
    case Hangup(h) =>
      var t := Cancel(s, h);
      assert SizeOk(s.mem.blockSize, s.reqs[h]);
      SizesUpdate(s.mem.blockSize, s.reqs, h, t.reqs[h]);
      SameStates(s, t);
    case Arrival(r) =>
      LooseArrival(c, s, r);
  }

  lemma LooseArrival(c: Config, s: State, r: Req)
    requires Loose(s, []) && Sendable(c, s, r)
    ensures Loose(Submit(c, s, r), [])
  {
    var q := Capped(c, r);
    HandlesAppend(s.reqs, q, Waiting);
    HandlesAppend(s.reqs, q, Running);
    HandlesAppend(s.reqs, q, Admitted);
    SizesAppend(s.mem.blockSize, s.reqs, q);
    hide Sizes;
  }

  lemma SizesAppend(b: nat, reqs: seq<Req>, r: Req)
    requires b > 0 && Sizes(b, reqs) && SizeOk(b, r)
    ensures Sizes(b, reqs + [r])
  {
    var rs := reqs + [r];
    forall h | 0 <= h < |rs| ensures SizeOk(b, rs[h]) {
      if h < |reqs| { assert SizeOk(b, reqs[h]); }
    }
  }

  lemma FaultStays(c: Config, s: State, e: Event)
    requires Ok(s) && Sent(c, s, e) && s.fault
    ensures Apply(c, s, e).fault
  {
    hide Decode;
    if e == Tick {
      FaultRetires(DropCancelled(s), 0);
      hide Retire;
      FaultAdmits(c, Retire(s));
    }
  }

  lemma {:induction false} FaultRetires(s: State, i: nat)
    requires Ok(s) && i <= |s.running|
    ensures RetireFrom(s, i).fault == s.fault
    decreases |s.running| - i
  {
    if i < |s.running| {
      if s.reqs[s.running[i]].Done() { FaultRetires(RetireOne(s, i), i); } else { FaultRetires(s, i + 1); }
    }
  }

  lemma FaultAdmits(c: Config, s: State)
    requires Ok(s) && s.fault
    ensures Admit(c, s).fault
  {
    if !(c.isStatic && s.running != []) {
      FaultPops(SortWaiting(s), [], Room(c, s));
    }
  }

  lemma {:induction false} FaultPops(s: State, batch: seq<nat>, limit: int)
    requires Ok(s) && Named(s, batch) && s.fault
    ensures PopAdmissible(s, batch, limit).s.fault
    decreases |s.waiting|
  {
    if CanPop(s, batch, limit) && 0 <= s.mem.Need(s.reqs[s.waiting[0]]) <= |s.mem.free| {
      FaultPops(AdmitOne(s), batch + [s.waiting[0]], limit);
    }
  }

  lemma {:induction false} FaultLasts(c: Config, s: State, evs: seq<Event>)
    requires AllSent(c, s, evs) && s.fault
    ensures After(c, s, evs).fault
    decreases |evs|
  {
    if evs != [] {
      hide Apply, Sent;
      FaultStays(c, s, evs[0]);
      FaultLasts(c, Apply(c, s, evs[0]), evs[1..]);
    }
  }

  lemma {:induction false} AfterFaultsIff(c: Config, s: State, evs: seq<Event>)
    requires Loose(s, []) && !c.preemption && !s.fault && AllSent(c, s, evs)
    ensures After(c, s, evs).fault <==> RunsDry(c, s, evs) 
    decreases |evs|
  {
    hide Loose, Apply, Sent, StepDry;
    if evs != [] {
      LooseOk(s, []);
      LooseApply(c, s, evs[0]);
      var t := Apply(c, s, evs[0]);
      if t.fault {
        FaultLasts(c, t, evs[1..]);
      } else {
        AfterFaultsIff(c, t, evs[1..]);
      }
    }
  }

  /** When worst-case admission is safe: a run, with any ids and any budgets, fails an assertion or raises the
      out-of-blocks error if and only if one of its steps starts from a state that runs dry. */
  lemma RunFaultsIff(c: Config, numBlocks: nat, blockSize: nat, evs: seq<Event>)
    requires blockSize > 0 && !c.preemption && AllSent(c, Start(Blocks(true), numBlocks, blockSize), evs)
    ensures After(c, Start(Blocks(true), numBlocks, blockSize), evs).fault <==> RunsDry(c, Start(Blocks(true), numBlocks, blockSize), evs)
  {
    var s0 := Start(Blocks(true), numBlocks, blockSize);
    StartLoose(s0);
    hide Start;
    AfterFaultsIff(c, s0, evs);
  }

  lemma StartLoose(s: State)
    requires s.mem.kind == Blocks(true) && s.mem.blockSize > 0 && s.reqs == [] && s.waiting == [] && s.running == []
    ensures Loose(s, [])
  {
  }
}
