/** Nobody starves: a waiting request is admitted within as many steps as there are tokens ahead of it. */
module Starvation {
  import opened Seqs
  import opened Requests
  import opened SchedulerSpec
  import opened Invariant
  import opened Preservation
  import opened StepSafety
  import opened Eviction
  import opened StepTheorem
  import opened Liveness

  /** `h` may be served before `w`: it is running, or it precedes `w` in the queue's order. */
  ghost predicate Ahead(reqs: seq<Req>, w: nat, h: nat)
    requires w < |reqs|
  {
    h < |reqs| && (reqs[h].state == Running || (reqs[h].state == Waiting && Less(WaitKey(reqs[h]), WaitKey(reqs[w]))))
  }

  /** The tokens that may still be said before `w` is admitted. */
  ghost function Debt(reqs: seq<Req>, w: nat): int
    requires w < |reqs|
  {
    Total(reqs, (h: nat) => Ahead(reqs, w, h))
  }

  // ---------------------------------------------------------------- what retiring does to each request

  /** Retiring keeps waiting requests, and makes nobody waiting or running who was not. */
  ghost predicate Thinned(q: Req, r: Req)
  {
    && r.out == q.out && r.preempts == q.preempts && r.arrival == q.arrival
    && (r.state == Running ==> q.state == Running && r.table == q.table && r.prompt == q.prompt)
    && (r.state == Waiting ==> q.state == Waiting)
    && (q.state == Waiting && !q.cancelled ==> r == q)
    && (q.state == Running && !q.Done() && !q.cancelled ==> r == q)
  }

  ghost predicate AllThinned(qs: seq<Req>, rs: seq<Req>)
  {
    |qs| == |rs| && forall h {:trigger Thinned(qs[h], rs[h])} :: 0 <= h < |qs| ==> Thinned(qs[h], rs[h])
  }

  lemma AllThinnedTrans(ps: seq<Req>, qs: seq<Req>, rs: seq<Req>)
    requires AllThinned(ps, qs) && AllThinned(qs, rs)
    ensures AllThinned(ps, rs)
  {
    forall h | 0 <= h < |ps| ensures Thinned(ps[h], rs[h]) {
      assert Thinned(ps[h], qs[h]) && Thinned(qs[h], rs[h]);
    }
  }

  lemma RetireOneThins(s: State, i: nat, u: State)
    requires Ok(s) && i < |s.running| && s.reqs[s.running[i]].state == Running
    requires s.reqs[s.running[i]].Done() && u == RetireOne(s, i)
    ensures AllThinned(s.reqs, u.reqs)
  {
    forall h | 0 <= h < |s.reqs| ensures Thinned(s.reqs[h], u.reqs[h]) {}
  }

  lemma {:induction false} RetireFromThins(c: Config, s: State, i: nat, t: State)
    requires Inv(c, s, []) && Ok(s) && i <= |s.running| && t == RetireFrom(s, i)
    ensures AllThinned(s.reqs, t.reqs)
    decreases |s.running| - i
  {
    if i == |s.running| {
      forall h | 0 <= h < |s.reqs| ensures Thinned(s.reqs[h], t.reqs[h]) {}
    } else if s.reqs[s.running[i]].Done() {
      RetireOneKeeps(c, s, i);
      ListsMember(s.reqs, s.running, Running);
      RetireOneThins(s, i, RetireOne(s, i));
      RetireFromThins(c, RetireOne(s, i), i, t);
      AllThinnedTrans(s.reqs, RetireOne(s, i).reqs, t.reqs);
    } else {
      RetireFromThins(c, s, i + 1, t);
    }
  }

  lemma RetireThins(c: Config, s: State)
    requires StepInv(c, s) && Ok(s)
    ensures AllThinned(s.reqs, Retire(s).reqs)
  {
    DropCancelledKeeps(c, s);
    var u := DropCancelled(s);
    forall h | 0 <= h < |s.reqs| ensures Thinned(s.reqs[h], u.reqs[h]) {
      assert u.reqs[h] == Disconnect(s.reqs[h]);
    }
    RetireFromThins(c, u, 0, Retire(s));
    AllThinnedTrans(s.reqs, u.reqs, Retire(s).reqs);
  }

  lemma AheadBeforeRetire(qs: seq<Req>, rs: seq<Req>, w: nat, h: nat)
    requires AllThinned(qs, rs) && w < |qs| && rs[w] == qs[w] && Ahead(rs, w, h)
    ensures Ahead(qs, w, h)
  {
    assert Thinned(qs[h], rs[h]);
  }

  // ---------------------------------------------------------------- what the rest of the step does

  /** The requests a step may advance or evict: those running after retirement and those just admitted. */
  ghost predicate Touched(r: State, batch: seq<nat>, h: nat)
  {
    h < |r.reqs| && (r.reqs[h].state == Running || h in batch)
  }

  /** Untouched requests come out of the step unchanged. */
  ghost predicate OnlyTouched(r: State, batch: seq<nat>, t: State)
  {
    |t.reqs| == |r.reqs| && forall h: nat {:trigger t.reqs[h]} :: h < |r.reqs| && !Touched(r, batch, h) ==> t.reqs[h] == r.reqs[h]
  }

  /** A request in the queue is passed over only by requests that precede it. */
  ghost predicate NoOvertaking(r: State, batch: seq<nat>)
  {
    forall w: nat, h: nat {:trigger Ahead(r.reqs, w, h)} ::
      w < |r.reqs| && r.reqs[w].state == Waiting && w !in batch && h in batch ==> Ahead(r.reqs, w, h)
  }

  lemma FrontIndices(w: seq<nat>, rest: seq<nat>, batch: seq<nat>, x: nat, h: nat) returns (i: nat, j: nat)
    requires FromFront(w, [], rest, batch) && x in w && x !in batch && h in batch
    ensures i < j < |w| && w[i] == h && w[j] == x
  {
    var n := |w| - |rest|;
    assert batch == w[..n];
    i :| 0 <= i < |batch| && batch[i] == h;
    j :| 0 <= j < |w| && w[j] == x;
    forall k | 0 <= k < n ensures w[k] != x {
      assert batch[k] == w[k] && batch[k] in batch;
    }
  }

  lemma FrontBeforeRest(c: Config, r: State, q: State, a: Admission, w: nat, h: nat)
    requires StepInv(c, r) && Ok(r) && q == SortWaiting(r) && FromFront(q.waiting, [], a.s.waiting, a.batch)
    requires w < |r.reqs| && r.reqs[w].state == Waiting && w !in a.batch && h in a.batch
    ensures h < |r.reqs| && Ahead(r.reqs, w, h)
  {
    SortWaitingKeeps(c, r);
    ListsMember(q.reqs, q.waiting, Waiting);
    assert w in q.waiting;
    var i, j := FrontIndices(q.waiting, a.s.waiting, a.batch, w, h);
    SortedOrder(c, r, q, i, j);
  }

  lemma SortedOrder(c: Config, r: State, q: State, i: nat, j: nat)
    requires StepInv(c, r) && Ok(r) && q == SortWaiting(r) && i < j < |q.waiting|
    requires q.waiting[i] != q.waiting[j] && q.waiting[i] < |r.reqs| && q.waiting[j] < |r.reqs|
    ensures Less(WaitKey(r.reqs[q.waiting[i]]), WaitKey(r.reqs[q.waiting[j]]))
  {
    var keys := WaitKeys(r.reqs, r.waiting);
    RankSorts(keys);
    var p := Rank(keys);
    assert !Less(keys[p[j]], keys[p[i]]);
    var g, h := q.waiting[i], q.waiting[j];
    assert g < h ==> PairOk(r.reqs[g], r.reqs[h]);
    assert h < g ==> PairOk(r.reqs[h], r.reqs[g]);
  }

  lemma RestTouches(r: State, q: State, a: Admission, t: State, u: State, kept: seq<nat>)
    requires Ok(r) && AdmittedBy(r, q, a, t) && Decoded(t, u, kept)
    ensures OnlyTouched(r, a.batch, u)
  {
    forall h: nat | h < |r.reqs| && !Touched(r, a.batch, h) ensures u.reqs[h] == r.reqs[h] {
      var _ := a.s.reqs[h];
      var _ := t.reqs[h];
      var _ := u.reqs[h];
    }
  }

  lemma DecodeTouches(r: State, u: State, kept: seq<nat>)
    requires Decoded(r, u, kept)
    ensures OnlyTouched(r, [], u)
  {
    forall h: nat | h < |r.reqs| && !Touched(r, [], h) ensures u.reqs[h] == r.reqs[h] {
      var _ := u.reqs[h];
    }
  }

  /** After retirement the step touches running and just-admitted requests only, and admits nobody ahead
      of their turn. Those it admits say a token. */
  lemma RestOfStep(c: Config, r: State) returns (batch: seq<nat>)
    requires StepInv(c, r) && Ok(r)
    ensures OnlyTouched(r, batch, Decode(c, Admit(c, r))) && NoOvertaking(r, batch)
    ensures forall h: nat {:trigger h in batch} :: h in batch && h < |r.reqs| ==> Grew(r.reqs[h], Decode(c, Admit(c, r)).reqs[h])
    ensures forall h {:trigger h in batch} :: h in batch ==> h < |r.reqs| && r.reqs[h].state == Waiting
  {
    var a := AdmitKeeps(c, r);
    var t := Admit(c, r);
    var kept := DecodeKeeps(c, t);
    if c.isStatic && r.running != [] {
      batch := [];
      DecodeTouches(r, Decode(c, t), kept);
    } else {
      batch := a.batch;
      BatchFromQueue(c, r, a);
      RestTouches(r, SortWaiting(r), a, t, Decode(c, t), kept);
      forall w: nat, h: nat | w < |r.reqs| && r.reqs[w].state == Waiting && w !in batch && h in batch ensures Ahead(r.reqs, w, h) {
        FrontBeforeRest(c, r, SortWaiting(r), a, w, h);
      }
      forall h: nat | h in batch && h < |r.reqs| ensures Grew(r.reqs[h], Decode(c, t).reqs[h]) {
        AdmittedGrows(c, r, a, t, Decode(c, t), h);
      }
    }
  }

  lemma AdmittedGrows(c: Config, r: State, a: Admission, t: State, u: State, h: nat)
    requires Ok(r) && AdmittedBy(r, SortWaiting(r), a, t) && AllEvolved(c, t.reqs, u.reqs) && h in a.batch && h < |r.reqs|
    ensures Grew(r.reqs[h], u.reqs[h])
  {
    var _ := a.s.reqs[h];
    var _ := t.reqs[h];
    assert Evolved(c, t.reqs[h], u.reqs[h]);
  }

  /** A waiting request that is passed over: everything that advanced, and everything ahead of it now,
      was ahead of it before. */
  lemma PassedOver(r: State, batch: seq<nat>, u: State, w: nat, h: nat)
    requires OnlyTouched(r, batch, u) && NoOvertaking(r, batch)
    requires w < |r.reqs| && r.reqs[w].state == Waiting && w !in batch && h < |r.reqs|
    requires Ahead(u.reqs, w, h) || Grew(r.reqs[h], u.reqs[h])
    ensures u.reqs[w] == r.reqs[w] && Ahead(r.reqs, w, h)
  {
    assert !Touched(r, batch, w);
    var _ := u.reqs[w];
    if !Touched(r, batch, h) {
      var _ := u.reqs[h];
    }
  }

  /** One step either makes `w` say a token or shrinks what is ahead of it. */
  lemma StepTowards(c: Config, s: State, w: nat)
    requires StepInv(c, s) && Ok(s) && AllFit(c, s) && w < |s.reqs| && s.reqs[w].state == Waiting && !s.reqs[w].cancelled
    ensures Grew(s.reqs[w], Step(c, s).reqs[w]) ||
            (Step(c, s).reqs[w] == s.reqs[w] && 0 <= Debt(Step(c, s).reqs, w) < Debt(s.reqs, w))
  {
    RetireKeeps(c, s);
    RetireThins(c, s);
    StepKeeps(c, s);
    var r := Retire(s);
    assert Thinned(s.reqs[w], r.reqs[w]);
    var batch := RestOfStep(c, r);
    if w !in batch {
      StillWorks(c, r, w);
      StepProgress(c, s);
      DebtDrops(c, s, r, batch, Step(c, s), w);
    }
  }

  lemma StillWorks(c: Config, r: State, w: nat)
    requires Inv(c, r, []) && w < |r.reqs| && r.reqs[w].state == Waiting
    ensures HasWork(r)
  {
    ListsMember(r.reqs, r.waiting, Waiting);
    assert w in r.waiting;
  }

  lemma DebtDrops(c: Config, s: State, r: State, batch: seq<nat>, u: State, w: nat)
    requires StepInv(c, s) && StepInv(c, u) && u.mem.blockSize == s.mem.blockSize
    requires AllEvolved(c, s.reqs, u.reqs) && AllThinned(s.reqs, r.reqs) && SomeGrew(s.reqs, u.reqs)
    requires OnlyTouched(r, batch, u) && NoOvertaking(r, batch)
    requires w < |s.reqs| && r.reqs[w] == s.reqs[w] && s.reqs[w].state == Waiting && w !in batch
    ensures u.reqs[w] == s.reqs[w] && 0 <= Debt(u.reqs, w) < Debt(s.reqs, w)
  {
    assert !Touched(r, batch, w);
    var _ := u.reqs[w];
    var before, after := (h: nat) => Ahead(s.reqs, w, h), (h: nat) => Ahead(u.reqs, w, h);
    forall h: nat | h < |s.reqs| && after(h) ensures before(h) {
      PassedOver(r, batch, u, w, h);
      AheadBeforeRetire(s.reqs, r.reqs, w, h);
    }
    var g: nat :| g < |s.reqs| && Grew(s.reqs[g], u.reqs[g]);
    assert Thinned(s.reqs[g], r.reqs[g]);
    PassedOver(r, batch, u, w, g);
    AheadBeforeRetire(s.reqs, r.reqs, w, g);
    assert before(g);
    TotalDrops(c, s.mem.blockSize, s.reqs, u.reqs, before, after);
  }

  /** A running, unfinished row either says a token or is sent back to the queue. */
  lemma RunningStep(c: Config, s: State, w: nat)
    requires StepInv(c, s) && Ok(s) && w < |s.reqs| && s.reqs[w].state == Running
    requires !s.reqs[w].Done() && !s.reqs[w].cancelled
    ensures Grew(s.reqs[w], Step(c, s).reqs[w]) || SentBack(s.reqs[w], Step(c, s).reqs[w])
  {
    RetireKeeps(c, s);
    RetireThins(c, s);
    var r := Retire(s);
    assert Thinned(s.reqs[w], r.reqs[w]);
    var a := AdmitKeeps(c, r);
    var t := Admit(c, r);
    var kept := DecodeKeeps(c, t);
    assert t.reqs[w] == r.reqs[w] by {
      if !(c.isStatic && r.running != []) {
        RunningNotAdmitted(c, r, a, t, w);
      }
    }
    var _ := Decode(c, t).reqs[w];
  }

  lemma RunningNotAdmitted(c: Config, r: State, a: Admission, t: State, w: nat)
    requires StepInv(c, r) && Ok(r) && AdmittedBy(r, SortWaiting(r), a, t) && w < |r.reqs| && r.reqs[w].state == Running
    ensures t.reqs[w] == r.reqs[w]
  {
    assert w !in a.batch by {
      BatchFromQueue(c, r, a);
    }
    var _ := a.s.reqs[w];
    var _ := t.reqs[w];
  }

  /** Whoever is admitted was waiting. */
  lemma BatchFromQueue(c: Config, r: State, a: Admission)
    requires StepInv(c, r) && Ok(r) && FromFront(SortWaiting(r).waiting, [], a.s.waiting, a.batch)
    ensures forall h {:trigger h in a.batch} :: h in a.batch ==> h < |r.reqs| && r.reqs[h].state == Waiting
  {
    hide Inv;
    var q := SortWaiting(r);
    SortWaitingKeeps(c, r);
    QueueWaits(c, q);
    hide SortWaiting;
    forall h | h in a.batch ensures h < |r.reqs| && r.reqs[h].state == Waiting {
      assert h in q.waiting;
    }
  }

  lemma QueueWaits(c: Config, q: State)
    requires Inv(c, q, [])
    ensures forall h {:trigger h in q.waiting} :: h in q.waiting ==> h < |q.reqs| && q.reqs[h].state == Waiting
  {
    ListsMember(q.reqs, q.waiting, Waiting);
  }
}
