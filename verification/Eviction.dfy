/** `_ensure_capacity`: which rows go on, which are evicted, and why it cannot fail. */
module Eviction {
  import opened Seqs
  import opened BlockMath
  import opened Requests
  import opened Alloc
  import opened SchedulerSpec
  import opened Invariant
  import opened Preservation

  /** Running, unfinished, listed once each. */
  ghost predicate Active(s: State, active: seq<nat>)
  {
    NoDup(active) && forall h {:trigger h in active} :: h in active ==> h < |s.reqs| && s.reqs[h].state == Running && !s.reqs[h].Done()
  }

  ghost predicate Covered(b: nat, r: Req)
    requires b > 0
  {
    |r.table| == CeilDiv(r.SeqLen(), b)
  }

  /** The rows already served own the block of the token about to be fed. */
  ghost predicate ServedUpTo(s: State, active: seq<nat>, i: nat)
    requires s.mem.blockSize > 0 && i <= |active|
  {
    forall j {:trigger active[j]} :: 0 <= j < i ==> active[j] < |s.reqs| && Covered(s.mem.blockSize, s.reqs[active[j]])
  }

  // ---------------------------------------------------------------- worst-case mode never runs dry

  lemma GrownReqOk(c: Config, b: nat, q: Req, n: int)
    requires b > 0 && ReqOk(c, b, q) && q.state == Running && !q.Done()
    requires n == CeilDiv(q.SeqLen(), b) && |q.table| < n
    ensures ReqOk(c, b, q.(table := q.table + [0]))
  {
    var r := q.(table := q.table + [0]);
    assert r.SeqLen() == q.SeqLen() && r.Done() == q.Done();
  }

  lemma GrownWithin(c: Config, m: Memory, reqs: seq<Req>, h: nat, r: Req)
    requires Matches(c, m) && AllReqsOk(c, m.blockSize, reqs) && Committable(m.blockSize, reqs) && h < |reqs|
    requires ReqOk(c, m.blockSize, r) && r == reqs[h].(table := r.table)
    ensures |Tables(reqs[h := r])| <= Sum(Commitments(m.blockSize, reqs[h := r]))
  {
    ReqChanges(c, m.blockSize, reqs, h, r);
    CommittableUpdate(m.blockSize, reqs, h, r);
    UsedWithinCommitted(c, m, reqs[h := r]);
  }

  lemma SameCommitments(b: nat, reqs: seq<Req>, h: nat, r: Req)
    requires b > 0 && IdsApart(reqs) && h < |reqs| && reqs[h].Holds() && r == reqs[h].(table := r.table)
    ensures Commitments(b, reqs[h := r]) == Commitments(b, reqs)
  {
    CommitmentsUpdate(b, reqs, h, r);
    CommitmentsValue(b, reqs, h);
  }

  lemma OneMore(reqs: seq<Req>, h: nat, r: Req, x: nat)
    requires h < |reqs| && r.table == reqs[h].table + [x]
    ensures |Tables(reqs[h := r])| == |Tables(reqs)| + 1
  {
    TablesUpdate(reqs, h, r);
    assert multiset(r.table) == multiset(reqs[h].table) + multiset{x};
  }

  /** Taking one more block for a row that needs it stays within what was committed for it. */
  lemma GrownTables(c: Config, m: Memory, reqs: seq<Req>, h: nat)
    requires Matches(c, m) && AllReqsOk(c, m.blockSize, reqs) && Committable(m.blockSize, reqs) && h < |reqs|
    requires reqs[h].state == Running && !reqs[h].Done() && |reqs[h].table| < CeilDiv(reqs[h].SeqLen(), m.blockSize)
    ensures |Tables(reqs)| + 1 <= Sum(Commitments(m.blockSize, reqs))
  {
    var r := reqs[h].(table := reqs[h].table + [0]);
    assert ReqOk(c, m.blockSize, reqs[h]);
    GrownReqOk(c, m.blockSize, reqs[h], CeilDiv(reqs[h].SeqLen(), m.blockSize));
    GrownWithin(c, m, reqs, h, r);
    OneMore(reqs, h, r, 0);
    SameCommitments(m.blockSize, reqs, h, r);
  }

  /** With preemption off, a row that needs a block always finds one: the error "out of KV blocks and
      preemption is disabled" is never raised. */
  lemma ReserveNeverDry(c: Config, s: State, h: nat)
    requires Inv(c, s, []) && h < |s.reqs| && s.mem.kind == Blocks(true)
    requires s.reqs[h].state == Running && !s.reqs[h].Done() && |s.reqs[h].table| < CeilDiv(s.reqs[h].SeqLen(), s.mem.blockSize)
    ensures s.mem.free != []
  {
    GrownTables(c, s.mem, s.reqs, h);
    FreeCount(s);
  }

  // ---------------------------------------------------------------- the outcome

  /** Row `h` goes on with the same value but for its table, which now covers the token to be fed. */
  ghost predicate GoesOn(b: nat, q: Req, r: Req)
    requires b > 0
  {
    r == q.(table := r.table) && Covered(b, r)
  }

  /** Row `h` is back in the queue: no memory, one more eviction on its record, every token kept. */
  ghost predicate SentBack(q: Req, r: Req)
  {
    r == q.(table := [], state := Waiting, preempts := q.preempts + 1)
  }

  /** What the call returned, relative to the state and the rows it was called with. */
  ghost predicate Outcome(s: State, active: seq<nat>, t: State, kept: seq<nat>)
    requires s.mem.blockSize > 0
  {
    && |t.reqs| == |s.reqs| && t.admits == s.admits
    && (forall h {:trigger h in kept} :: h in kept ==> h in active)
    && (forall h {:trigger t.reqs[h]} :: 0 <= h < |s.reqs| ==>
          if h in kept then GoesOn(s.mem.blockSize, s.reqs[h], t.reqs[h])
          else if h in active then SentBack(s.reqs[h], t.reqs[h])
          else t.reqs[h] == s.reqs[h])
  }

  /** Victims come before survivors in the order (evictions, newest admission first) taken at entry. */
  ghost predicate VictimsFirst(s: State, active: seq<nat>, kept: seq<nat>)
  {
    forall v, u {:trigger v in active, u in kept} :: v in active && v !in kept && u in kept && v < |s.reqs| && u < |s.reqs|
      ==> Less(VictimKey(s.reqs[v]), VictimKey(s.reqs[u]))
  }

  // ---------------------------------------------------------------- one step of the loop

  lemma GrowServes(c: Config, s: State, active: seq<nat>, i: nat, h: nat, t: State)
    requires Inv(c, s, []) && Ok(s) && Active(s, active) && i < |active| && Named(s, active) && ServedUpTo(s, active, i)
    requires h == active[i] && t == GrowOne(s, h) && AppendSlot(s.mem, s.reqs[h]).ok
    ensures Inv(c, t, []) && Active(t, active) && ServedUpTo(t, active, i + 1)
  {
    assert h in active;
    assert ReqOk(c, s.mem.blockSize, s.reqs[h]);
    GrowOneKeeps(c, s, h);
    GrowReqOk(c, s.mem, s.reqs[h]);
    GrowCovers(s, active, i, h, s.reqs[h].(table := AppendSlot(s.mem, s.reqs[h]).table), t);
  }

  lemma GrowCovers(s: State, active: seq<nat>, i: nat, h: nat, r: Req, t: State)
    requires s.mem.blockSize > 0 && Active(s, active) && i < |active| && ServedUpTo(s, active, i)
    requires h == active[i] < |s.reqs|
    requires t.reqs == s.reqs[h := r] && t.mem.blockSize == s.mem.blockSize
    requires r == s.reqs[h].(table := r.table) && |r.table| == CeilDiv(s.reqs[h].SeqLen(), s.mem.blockSize)
    ensures Active(t, active) && ServedUpTo(t, active, i + 1)
  {
    assert r.SeqLen() == s.reqs[h].SeqLen();
    assert h in active;
    forall j | 0 <= j < i + 1 ensures active[j] < |t.reqs| && Covered(t.mem.blockSize, t.reqs[active[j]]) {
      assert active[j] in active;
    }
  }

  /** A failed attempt to grow changes nothing. */
  lemma DryUnchanged(c: Config, s: State, h: nat)
    requires Inv(c, s, []) && Ok(s) && h < |s.reqs| && s.reqs[h].state == Running && !s.reqs[h].Done()
    requires !AppendSlot(s.mem, s.reqs[h]).ok
    ensures GrowOne(s, h) == s && s.mem.free == [] && c.preemption && s.mem.kind == Blocks(false)
    ensures |s.reqs[h].table| < CeilDiv(s.reqs[h].SeqLen(), s.mem.blockSize)
  {
    assert ReqOk(c, s.mem.blockSize, s.reqs[h]);
    GrowReqOk(c, s.mem, s.reqs[h]);
    assert s.reqs[h := s.reqs[h]] == s.reqs;
    if !c.preemption {
      ReserveNeverDry(c, s, h);
    }
  }

  lemma EvictServes(c: Config, s: State, active: seq<nat>, i: nat, v: nat, t: State)
    requires Inv(c, s, []) && Ok(s) && Active(s, active) && i < |active| && v < |active|
    requires Named(s, active) && ServedUpTo(s, active, i)
    requires active[v] in s.running && t == Evict(s, active[v])
    ensures Inv(c, t, []) && Active(t, RemoveAt(active, v)) && ServedUpTo(t, RemoveAt(active, v), if v < i then i - 1 else i)
  {
    hide Inv;
    var h := active[v];
    assert h in active;
    EvictKeeps(c, s, h);
    RemovedMembers(active, v);
    var rest := RemoveAt(active, v);
    forall j | 0 <= j < (if v < i then i - 1 else i) ensures rest[j] < |t.reqs| && Covered(t.mem.blockSize, t.reqs[rest[j]]) {
      assert rest[j] in rest;
      assert rest[j] == active[if j < v then j else j + 1];
    }
  }

  lemma RemovedMembers(xs: seq<nat>, v: nat)
    requires NoDup(xs) && v < |xs|
    ensures NoDup(RemoveAt(xs, v))
    ensures forall h {:trigger h in RemoveAt(xs, v)} :: h in RemoveAt(xs, v) <==> h in xs && h != xs[v]
  {
    var r := RemoveAt(xs, v);
    forall h ensures h in r <==> h in xs && h != xs[v] {
      if h in xs && h != xs[v] {
        var k :| 0 <= k < |xs| && xs[k] == h;
        assert r[if k < v then k else k - 1] == h;
      }
      if h in r {
        var k :| 0 <= k < |r| && r[k] == h;
        assert xs[if k < v then k else k + 1] == h;
      }
    }
  }

  // ---------------------------------------------------------------- composing the steps

  lemma OutcomeAfterGrow(s: State, active: seq<nat>, h: nat, r: Req, t: State, u: State, kept: seq<nat>)
    requires s.mem.blockSize > 0 && h < |s.reqs| && h in active && t.reqs == s.reqs[h := r]
    requires r == s.reqs[h].(table := r.table)
    requires t.mem.blockSize == s.mem.blockSize && t.admits == s.admits
    requires Outcome(t, active, u, kept) && VictimsFirst(t, active, kept)
    ensures Outcome(s, active, u, kept) && VictimsFirst(s, active, kept)
  {
    forall g | 0 <= g < |s.reqs|
      ensures if g in kept then GoesOn(s.mem.blockSize, s.reqs[g], u.reqs[g])
              else if g in active then SentBack(s.reqs[g], u.reqs[g])
              else u.reqs[g] == s.reqs[g]
    {
      assert t.reqs[g] == if g == h then r else s.reqs[g];
      var _ := u.reqs[g];
    }
    forall v, w | v in active && v !in kept && w in kept && v < |s.reqs| && w < |s.reqs|
      ensures Less(VictimKey(s.reqs[v]), VictimKey(s.reqs[w]))
    {
      assert VictimKey(s.reqs[v]) == VictimKey(t.reqs[v]);
      assert VictimKey(s.reqs[w]) == VictimKey(t.reqs[w]);
    }
  }

  lemma OutcomeAfterEvict(s: State, active: seq<nat>, v: nat, rest: seq<nat>, t: State, u: State, kept: seq<nat>)
    requires s.mem.blockSize > 0 && v < |s.reqs| && v in active && |t.reqs| == |s.reqs|
    requires forall h {:trigger h in rest} :: h in rest <==> h in active && h != v
    requires forall h {:trigger t.reqs[h]} :: 0 <= h < |s.reqs| && h != v ==> t.reqs[h] == s.reqs[h]
    requires SentBack(s.reqs[v], t.reqs[v]) && t.mem.blockSize == s.mem.blockSize && t.admits == s.admits
    requires forall h {:trigger h in rest} :: h in rest && h < |s.reqs| ==> Less(VictimKey(s.reqs[v]), VictimKey(s.reqs[h]))
    requires Outcome(t, rest, u, kept) && VictimsFirst(t, rest, kept)
    ensures Outcome(s, active, u, kept) && VictimsFirst(s, active, kept)
  {
    forall h | h in kept ensures h in active { assert h in rest; }
    forall g | 0 <= g < |s.reqs|
      ensures if g in kept then GoesOn(s.mem.blockSize, s.reqs[g], u.reqs[g])
              else if g in active then SentBack(s.reqs[g], u.reqs[g])
              else u.reqs[g] == s.reqs[g]
    {
      var _ := t.reqs[g];
      var _ := u.reqs[g];
      assert g in rest <==> g in active && g != v;
      assert g in kept ==> g in rest;
    }
    forall w, x | w in active && w !in kept && x in kept && w < |s.reqs| && x < |s.reqs|
      ensures Less(VictimKey(s.reqs[w]), VictimKey(s.reqs[x]))
    {
      assert x in rest;
      assert w in rest <==> w != v;
      var _ := t.reqs[w];
      var _ := t.reqs[x];
    }
  }

  /** The chosen victim is strictly least: holders have distinct admission numbers. */
  lemma VictimStrict(reqs: seq<Req>, active: seq<nat>, v: nat, h: nat)
    requires active != [] && (forall i :: 0 <= i < |active| ==> active[i] < |reqs|)
    requires v == VictimIndex(reqs, active) && h in active && h != active[v] && AllPairsOk(reqs)
    requires reqs[h].Holds() && reqs[active[v]].Holds()
    ensures Less(VictimKey(reqs[active[v]]), VictimKey(reqs[h]))
  {
    var k :| 0 <= k < |active| && active[k] == h;
    assert !Less(VictimKey(reqs[active[k]]), VictimKey(reqs[active[v]]));
    assert h < active[v] ==> PairOk(reqs[h], reqs[active[v]]);
    assert active[v] < h ==> PairOk(reqs[active[v]], reqs[h]);
  }

  lemma EvictOthers(s: State, h: nat, t: State)
    requires Ok(s) && h < |s.reqs| && h in s.running && t == Evict(s, h)
    ensures forall g {:trigger t.reqs[g]} :: 0 <= g < |s.reqs| && g != h ==> t.reqs[g] == s.reqs[g]
    ensures SentBack(s.reqs[h], t.reqs[h]) && t.mem.blockSize == s.mem.blockSize && t.admits == s.admits
  {
  }

  lemma {:induction false} OutcomeRefl(s: State, active: seq<nat>)
    requires s.mem.blockSize > 0 && Active(s, active) && ServedUpTo(s, active, |active|)
    ensures Outcome(s, active, s, active) && VictimsFirst(s, active, active)
  {
    forall h | 0 <= h < |s.reqs| && h in active ensures GoesOn(s.mem.blockSize, s.reqs[h], s.reqs[h]) {
      var j :| 0 <= j < |active| && active[j] == h;
      assert Covered(s.mem.blockSize, s.reqs[active[j]]);
    }
  }

  /** The loop terminates, never faults, and returns rows that all own the block of their next token;
      every other row of the batch is back in the queue, and the victims are exactly the rows that come
      first in the order (evictions, newest admission first) taken at entry. */
  lemma {:induction false} EnsureKeeps(c: Config, s: State, active: seq<nat>, i: nat, k: Capacity)
    requires Inv(c, s, []) && Ok(s) && Named(s, active) && Active(s, active) && i <= |active| && ServedUpTo(s, active, i)
    requires k == EnsureCapacity(c, s, active, i)
    ensures Inv(c, k.s, []) && Active(k.s, k.active) && ServedUpTo(k.s, k.active, |k.active|)
    ensures Outcome(s, active, k.s, k.active) && VictimsFirst(s, active, k.active)
    ensures k.s.mem.blockSize == s.mem.blockSize
    decreases |active|, |active| - i
  {
    if i == |active| {
      OutcomeRefl(s, active);
    } else {
      assert active[i] in active;
      if AppendSlot(s.mem, s.reqs[active[i]]).ok {
        EnsureGrow(c, s, active, i, active[i], k);
      } else {
        DryUnchanged(c, s, active[i]);
        var v := VictimIndex(s.reqs, active);
        assert active[v] in active;
        ListsMember(s.reqs, s.running, Running);
        EnsureEvict(c, s, active, i, v, active[v], k);
      }
    }
  }

  lemma {:induction false} EnsureGrow(c: Config, s: State, active: seq<nat>, i: nat, h: nat, k: Capacity)
    requires Inv(c, s, []) && Ok(s) && Named(s, active) && Active(s, active) && i < |active| && ServedUpTo(s, active, i)
    requires h == active[i] && AppendSlot(s.mem, s.reqs[h]).ok && k == EnsureCapacity(c, GrowOne(s, h), active, i + 1)
    ensures Inv(c, k.s, []) && Active(k.s, k.active) && ServedUpTo(k.s, k.active, |k.active|)
    ensures Outcome(s, active, k.s, k.active) && VictimsFirst(s, active, k.active)
    ensures k.s.mem.blockSize == s.mem.blockSize
    decreases |active|, |active| - i, 0
  {
    var t := GrowOne(s, h);
    GrowServes(c, s, active, i, h, t);
    EnsureKeeps(c, t, active, i + 1, k);
    assert h in active;
    OutcomeAfterGrow(s, active, h, t.reqs[h], t, k.s, k.active);
  }

  lemma {:induction false} EnsureEvict(c: Config, s: State, active: seq<nat>, i: nat, v: nat, h: nat, k: Capacity)
    requires Inv(c, s, []) && Ok(s) && Named(s, active) && Active(s, active) && i < |active| && ServedUpTo(s, active, i)
    requires v == VictimIndex(s.reqs, active) && h == active[v] && h in s.running
    requires k == EnsureCapacity(c, Evict(s, h), RemoveAt(active, v), if v < i then i - 1 else i)
    ensures Inv(c, k.s, []) && Active(k.s, k.active) && ServedUpTo(k.s, k.active, |k.active|)
    ensures Outcome(s, active, k.s, k.active) && VictimsFirst(s, active, k.active)
    ensures k.s.mem.blockSize == s.mem.blockSize
    decreases |active|, |active| - i, 0
  {
    hide Inv, Active, ServedUpTo, EnsureCapacity, Outcome, VictimsFirst;
    var t := Evict(s, h);
    VictimBeforeRest(c, s, active, v);
    EvictServes(c, s, active, i, v, t);
    EnsureKeeps(c, t, RemoveAt(active, v), if v < i then i - 1 else i, k);
    RemovedMembers(active, v);
    EvictOthers(s, h, t);
    hide *;
    OutcomeAfterEvict(s, active, h, RemoveAt(active, v), t, k.s, k.active);
  }

  lemma VictimBeforeRest(c: Config, s: State, active: seq<nat>, v: nat)
    requires Inv(c, s, []) && Active(s, active) && Named(s, active) && active != [] && v == VictimIndex(s.reqs, active)
    ensures v < |active| && active[v] < |s.reqs| && active[v] in active && NoDup(active)
    ensures forall g: nat {:trigger g in RemoveAt(active, v)} :: g in RemoveAt(active, v) && g < |s.reqs|
              ==> Less(VictimKey(s.reqs[active[v]]), VictimKey(s.reqs[g]))
  {
    var h := active[v];
    RemovedMembers(active, v);
    assert h in active;
    forall g | g in RemoveAt(active, v) && g < |s.reqs| ensures Less(VictimKey(s.reqs[h]), VictimKey(s.reqs[g])) {
      assert g in active;
      VictimStrict(s.reqs, active, v, g);
    }
  }
}
