/** The step as a whole: retire, admit, decode. */
module StepTheorem {
  import opened Seqs
  import opened BlockMath
  import opened Requests
  import opened Alloc
  import opened SchedulerSpec
  import opened Invariant
  import opened Preservation
  import opened StepSafety
  import opened Eviction

  // ---------------------------------------------------------------- a lone row is never evicted

  lemma {:induction false} LoneTables(reqs: seq<Req>, h: nat)
    requires h < |reqs| && forall g :: 0 <= g < |reqs| && g != h ==> reqs[g].table == []
    ensures Tables(reqs) == multiset(reqs[h].table)
  {
    var n := |reqs| - 1;
    if h == n {
      NoTables(reqs[..n]);
    } else {
      LoneTables(reqs[..n], h);
    }
  }

  lemma {:induction false} NoTables(reqs: seq<Req>)
    requires forall g :: 0 <= g < |reqs| ==> reqs[g].table == []
    ensures Tables(reqs) == multiset{}
  {
    if reqs != [] {
      NoTables(reqs[..|reqs| - 1]);
    }
  }

  /** With the pool to itself the request could be admitted as it stands, and could feed its newest token. */
  ghost predicate FitsNow(m: Memory, r: Req)
    requires m.blockSize > 0
  {
    match m.kind
    case Slots => true
    case Blocks(reserve) => (if reserve then m.Worst(r) else CeilDiv(r.SeqLen(), m.blockSize)) <= m.numBlocks
  }

  /** The pool can see the request through. Optimistic admission needs the blocks of what the request comes to
      store, which is everything but the last token it says; worst-case admission needs what it commits. */
  ghost predicate Fits(c: Config, m: Memory, r: Req)
    requires m.blockSize > 0
  {
    match m.kind
    case Slots => true
    case Blocks(reserve) =>
      if reserve then m.Worst(r) <= m.numBlocks
      else r.prompt != [] && CeilDiv(|r.prompt| + |Completion(c, r)| - 1, m.blockSize) <= m.numBlocks
  }

  /** Until it stops, a request that fits could go on as it stands. */
  lemma FitsMeansNow(c: Config, m: Memory, r: Req)
    requires m.blockSize > 0 && Fits(c, m, r) && r.reason == None
    ensures FitsNow(m, r)
  {
    if m.kind == Blocks(false) {
      CeilDivMono(r.SeqLen(), |r.prompt| + |Completion(c, r)| - 1, m.blockSize);
    }
  }

  /** Nothing but the rows of `active` holds memory. */
  ghost predicate OnlyActiveHold(s: State, active: seq<nat>)
  {
    forall h {:trigger h in active} :: 0 <= h < |s.reqs| && s.reqs[h].state == Running ==> h in active
  }

  lemma LoneNeverDry(c: Config, s: State, h: nat)
    requires Inv(c, s, []) && Ok(s) && h < |s.reqs| && s.reqs[h].state == Running && !s.reqs[h].Done()
    requires OnlyActiveHold(s, [h]) && FitsNow(s.mem, s.reqs[h])
    ensures AppendSlot(s.mem, s.reqs[h]).ok
  {
    if !AppendSlot(s.mem, s.reqs[h]).ok {
      DryUnchanged(c, s, h);
      LoneHolds(c, s, h);
      FreeCount(s);
    }
  }

  /** Whatever is held is held by the lone row. */
  lemma LoneHolds(c: Config, s: State, h: nat)
    requires Inv(c, s, []) && h < |s.reqs| && OnlyActiveHold(s, [h])
    ensures Tables(s.reqs) == multiset(s.reqs[h].table)
  {
    ListsMember(s.reqs, [], Admitted);
    forall g | 0 <= g < |s.reqs| && g != h ensures s.reqs[g].table == [] {
      assert ReqOk(c, s.mem.blockSize, s.reqs[g]);
      assert g !in [h];
      assert g !in [];
    }
    LoneTables(s.reqs, h);
  }

  /** The rows of `active` are all that holds memory, and each could run alone. */
  ghost predicate AloneFit(s: State, active: seq<nat>)
    requires s.mem.blockSize > 0
  {
    && OnlyActiveHold(s, active)
    && forall h {:trigger h in active} :: h in active ==> h < |s.reqs| && FitsNow(s.mem, s.reqs[h])
  }

  lemma GrowAloneFit(s: State, active: seq<nat>, h: nat, t: State)
    requires Ok(s) && h < |s.reqs| && AloneFit(s, active) && t == GrowOne(s, h)
    ensures AloneFit(t, active)
  {
    forall g | g in active ensures g < |t.reqs| && FitsNow(t.mem, t.reqs[g]) {
      assert t.reqs[g].SeqLen() == s.reqs[g].SeqLen() && t.reqs[g].maxNew == s.reqs[g].maxNew;
    }
  }

  lemma EvictAloneFit(s: State, active: seq<nat>, h: nat, rest: seq<nat>, t: State)
    requires Ok(s) && h < |s.reqs| && h in s.running && AloneFit(s, active) && t == Evict(s, h)
    requires forall g {:trigger g in rest} :: g in rest <==> g in active && g != h
    ensures AloneFit(t, rest)
  {
    EvictOthers(s, h, t);
    forall g | g in rest ensures g < |t.reqs| && FitsNow(t.mem, t.reqs[g]) {
      assert t.reqs[g] == s.reqs[g];
    }
    forall g | 0 <= g < |t.reqs| && t.reqs[g].state == Running ensures g in rest {
      assert g != h;
      assert t.reqs[g] == s.reqs[g];
    }
  }

  /** If no finished row sits on memory and every row could run alone, somebody is left to decode. */
  lemma {:induction false} SomeoneSurvives(c: Config, s: State, active: seq<nat>, i: nat, k: Capacity)
    requires Inv(c, s, []) && Ok(s) && Named(s, active) && Active(s, active) && i <= |active| && ServedUpTo(s, active, i)
    requires k == EnsureCapacity(c, s, active, i) && active != [] && AloneFit(s, active)
    ensures k.active != []
    decreases |active|, |active| - i
  {
    hide Inv, ServedUpTo;
    if i < |active| {
      var h := active[i];
      assert h in active;
      if AppendSlot(s.mem, s.reqs[h]).ok {
        GrowServes(c, s, active, i, h, GrowOne(s, h));
        GrowAloneFit(s, active, h, GrowOne(s, h));
        SomeoneSurvives(c, GrowOne(s, h), active, i + 1, k);
      } else {
        DryUnchanged(c, s, h);
        var v := VictimIndex(s.reqs, active);
        assert active[v] in active;
        RunningListed(c, s, active[v]);
        if |active| == 1 {
          assert active == [h];
          LoneNeverDry(c, s, h);
        } else {
          SurviveEvict(c, s, active, i, v, active[v], k);
        }
      }
    }
  }

  lemma {:induction false} SurviveEvict(c: Config, s: State, active: seq<nat>, i: nat, v: nat, h: nat, k: Capacity)
    requires Inv(c, s, []) && Ok(s) && Named(s, active) && Active(s, active) && i < |active| && ServedUpTo(s, active, i)
    requires v < |active| && h == active[v] && h in s.running && AloneFit(s, active) && |active| > 1
    requires k == EnsureCapacity(c, Evict(s, h), RemoveAt(active, v), if v < i then i - 1 else i)
    ensures k.active != []
    decreases |active|, |active| - i, 0
  {
    hide Inv, ServedUpTo, AloneFit;
    assert h in active;
    EvictServes(c, s, active, i, v, Evict(s, h));
    RemovedMembers(active, v);
    EvictAloneFit(s, active, h, RemoveAt(active, v), Evict(s, h));
    SomeoneSurvives(c, Evict(s, h), RemoveAt(active, v), if v < i then i - 1 else i, k);
  }

  // ---------------------------------------------------------------- decode

  /** Rows of `hs` say one more token each; the other requests are as they were. */
  ghost predicate Emitted(s: State, hs: seq<nat>, t: State)
  {
    && t == s.(reqs := t.reqs) && |t.reqs| == |s.reqs|
    && (forall h {:trigger t.reqs[h]} :: 0 <= h < |s.reqs| && h !in hs ==> t.reqs[h] == s.reqs[h])
    && (forall h {:trigger t.reqs[h]} :: 0 <= h < |s.reqs| && h in hs ==>
          |t.reqs[h].out| == |s.reqs[h].out| + 1 && t.reqs[h].state == Running && t.reqs[h].table == s.reqs[h].table)
  }

  lemma EmitOneEffect(c: Config, s: State, h: nat, r: Req)
    requires Inv(c, s, []) && Ok(s) && h < |s.reqs| && s.reqs[h].state == Running && !s.reqs[h].Done()
    requires Covered(s.mem.blockSize, s.reqs[h]) && r == Emit(c, s.reqs[h])
    ensures Inv(c, With(s, h, r), []) && AllEvolved(c, s.reqs, s.reqs[h := r]) && SettledOne(s.mem.blockSize, r)
    ensures |r.out| == |s.reqs[h].out| + 1 && r.state == Running && r.table == s.reqs[h].table
  {
    EmitOneKeeps(c, s, h);
    EmitOneValue(c, s.mem.blockSize, s.reqs[h], r);
    hide Inv, Emit, Evolved, Covered, SettledOne;
    OneEvolved(c, s, h, r);
  }

  lemma EmitOneValue(c: Config, b: nat, q: Req, r: Req)
    requires b > 0 && ReqOk(c, b, q) && q.state == Running && !q.Done() && Covered(b, q) && r == Emit(c, q)
    ensures Evolved(c, q, r) && SettledOne(b, r) && |r.out| == |q.out| + 1 && r.state == Running && r.table == q.table
  {
    EmitEvolved(c, q);
    assert r.SeqLen() - 1 == q.SeqLen();
  }

  lemma {:induction false} EmitAllKeeps(c: Config, s: State, hs: seq<nat>, t: State)
    requires Inv(c, s, []) && Ok(s) && Named(s, hs) && Active(s, hs) && ServedUpTo(s, hs, |hs|) && t == EmitAll(c, s, hs)
    ensures Inv(c, t, []) && AllEvolved(c, s.reqs, t.reqs) && Emitted(s, hs, t)
    ensures forall h {:trigger h in hs} :: h in hs ==> SettledOne(s.mem.blockSize, t.reqs[h])
    decreases |hs|
  {
    if hs == [] {
      AllEvolvedRefl(c, s);
    } else {
      var h := hs[0];
      assert h in hs;
      var r := Emit(c, s.reqs[h]);
      EmitOneEffect(c, s, h, r);
      var u := With(s, h, r);
      EmitRest(s, hs, h, r, u);
      EmitAllKeeps(c, u, hs[1..], t);
      AllEvolvedTrans(c, s.reqs, u.reqs, t.reqs);
      EmitCompose(s, hs, h, r, u, t);
    }
  }

  lemma EmitRest(s: State, hs: seq<nat>, h: nat, r: Req, u: State)
    requires s.mem.blockSize > 0 && hs != [] && h == hs[0] < |s.reqs| && u == With(s, h, r)
    requires Named(s, hs) && Active(s, hs) && ServedUpTo(s, hs, |hs|)
    ensures Active(u, hs[1..]) && ServedUpTo(u, hs[1..], |hs| - 1) && Named(u, hs[1..]) && h !in hs[1..]
    ensures forall g :: g in hs <==> g == h || g in hs[1..]
  {
    var rest := hs[1..];
    assert hs == [h] + rest;
    forall g | g in rest ensures g < |u.reqs| && u.reqs[g].state == Running && !u.reqs[g].Done() {
      assert g in hs;
    }
    forall j | 0 <= j < |rest| ensures rest[j] < |u.reqs| && Covered(u.mem.blockSize, u.reqs[rest[j]]) {
      assert hs[j + 1] == rest[j];
    }
  }

  lemma EmitCompose(s: State, hs: seq<nat>, h: nat, r: Req, u: State, t: State)
    requires s.mem.blockSize > 0 && hs != [] && h == hs[0] < |s.reqs| && u == With(s, h, r) && h !in hs[1..]
    requires forall g :: g in hs <==> g == h || g in hs[1..]
    requires |r.out| == |s.reqs[h].out| + 1 && r.state == Running && r.table == s.reqs[h].table
    requires SettledOne(s.mem.blockSize, r)
    requires Emitted(u, hs[1..], t) && forall g {:trigger g in hs[1..]} :: g in hs[1..] ==> g < |t.reqs| && SettledOne(s.mem.blockSize, t.reqs[g])
    ensures Emitted(s, hs, t)
    ensures forall g {:trigger g in hs} :: g in hs ==> g < |t.reqs| && SettledOne(s.mem.blockSize, t.reqs[g])
  {
    forall g | g in hs ensures g < |t.reqs| && SettledOne(s.mem.blockSize, t.reqs[g]) {
      if g != h { assert g in hs[1..]; } else { assert t.reqs[h] == r; }
    }
  }

  lemma {:induction false} UnfinishedCounts(reqs: seq<Req>, hs: seq<nat>, h: nat)
    requires forall i :: 0 <= i < |hs| ==> hs[i] < |reqs|
    ensures multiset(Unfinished(reqs, hs))[h] <= multiset(hs)[h]
  {
    if hs != [] {
      var n := |hs| - 1;
      UnfinishedCounts(reqs, hs[..n], h);
      assert hs == hs[..n] + [hs[n]];
    }
  }

  lemma SameElements(xs: seq<nat>, ys: seq<nat>)
    requires multiset(xs) == multiset(ys) && forall h: nat {:trigger multiset(ys)[h]} :: multiset(ys)[h] <= 1
    ensures NoDup(xs) && forall h: nat {:trigger h in xs} :: h in xs <==> h in ys
    ensures xs == [] <==> ys == []
  {
    NoDupFromMultiset(xs);
    forall h: nat ensures h in xs <==> h in ys {
      assert h in xs <==> h in multiset(xs);
      assert h in ys <==> h in multiset(ys);
    }
    assert |multiset(xs)| == |xs| && |multiset(ys)| == |ys|;
  }

  lemma UnfinishedOnce(s: State, batch: seq<nat>)
    requires Ok(s) && Lists(s.reqs, s.running, Running) && batch == Unfinished(s.reqs, s.running)
    ensures forall h: nat {:trigger multiset(batch)[h]} :: multiset(batch)[h] <= 1
  {
    forall h: nat ensures multiset(batch)[h] <= 1 {
      UnfinishedCounts(s.reqs, s.running, h);
      assert multiset(s.running)[h] == Handles(s.reqs, Running)[h];
    }
  }

  /** The rows handed to `_ensure_capacity` are exactly the running, unfinished ones. */
  lemma BatchActive(s: State, batch: seq<nat>, active: seq<nat>)
    requires Lists(s.reqs, s.running, Running) && Ok(s) && batch == Unfinished(s.reqs, s.running) && active == ByAdmission(s, batch)
    ensures Active(s, active) && Named(s, active) && (active == [] <==> batch == [])
    ensures forall h {:trigger h in active} :: h in active <==> 0 <= h < |s.reqs| && s.reqs[h].state == Running && !s.reqs[h].Done()
  {
    assert multiset(active) == multiset(batch) by {
      SortKeepsElements(batch, AdmitKeys(s.reqs, batch));
    }
    UnfinishedOnce(s, batch);
    SameElements(active, batch);
    ListsMember(s.reqs, s.running, Running);
  }

  /** Decoding: kept rows say one token, the other unfinished rows go back to the queue, and nothing else
      changes. */
  ghost predicate Decoded(s: State, t: State, kept: seq<nat>)
  {
    && |t.reqs| == |s.reqs| && t.admits == s.admits
    && (forall h {:trigger h in kept} :: h in kept ==> h < |s.reqs| && s.reqs[h].state == Running && !s.reqs[h].Done())
    && (forall h {:trigger t.reqs[h]} :: 0 <= h < |s.reqs| ==>
          if h in kept then |t.reqs[h].out| == |s.reqs[h].out| + 1 && t.reqs[h].state == Running
          else if s.reqs[h].state == Running && !s.reqs[h].Done() then SentBack(s.reqs[h], t.reqs[h])
          else t.reqs[h] == s.reqs[h])
  }

  lemma DecodedCompose(s: State, active: seq<nat>, m: State, kept: seq<nat>, t: State)
    requires s.mem.blockSize > 0 && Outcome(s, active, m, kept) && Emitted(m, kept, t)
    requires forall h {:trigger h in active} :: h in active <==> 0 <= h < |s.reqs| && s.reqs[h].state == Running && !s.reqs[h].Done()
    ensures Decoded(s, t, kept)
  {
    forall h | 0 <= h < |s.reqs|
      ensures if h in kept then |t.reqs[h].out| == |s.reqs[h].out| + 1 && t.reqs[h].state == Running
              else if s.reqs[h].state == Running && !s.reqs[h].Done() then SentBack(s.reqs[h], t.reqs[h])
              else t.reqs[h] == s.reqs[h]
    {
      var _ := t.reqs[h];
      var _ := m.reqs[h];
      assert h in kept ==> h in active;
    }
    forall h | h in kept ensures h < |s.reqs| && s.reqs[h].state == Running && !s.reqs[h].Done() {
      assert h in active;
    }
  }

  lemma OutcomeEvolved(c: Config, s: State, active: seq<nat>, m: State, kept: seq<nat>)
    requires Ok(s) && Outcome(s, active, m, kept)
    ensures AllEvolved(c, s.reqs, m.reqs)
  {
    forall h | 0 <= h < |s.reqs| ensures Evolved(c, s.reqs[h], m.reqs[h]) {
      QuietEvolved(c, s.reqs[h], m.reqs[h]);
    }
  }

  lemma DecodeSettled(s: State, t: State, kept: seq<nat>)
    requires s.mem.blockSize > 0 && Settled(s.mem.blockSize, s.reqs) && Decoded(s, t, kept)
    requires forall h {:trigger h in kept} :: h in kept ==> h < |t.reqs| && SettledOne(s.mem.blockSize, t.reqs[h])
    ensures Settled(s.mem.blockSize, t.reqs)
  {
    forall h | 0 <= h < |t.reqs| ensures SettledOne(s.mem.blockSize, t.reqs[h]) {
      assert SettledOne(s.mem.blockSize, s.reqs[h]);
      var _ := t.reqs[h];
      assert h in kept ==> SettledOne(s.mem.blockSize, t.reqs[h]);
    }
  }

  lemma RunningLists(c: Config, s: State)
    requires Inv(c, s, [])
    ensures Lists(s.reqs, s.running, Running)
  {
  }

  lemma DecodeKeeps(c: Config, s: State) returns (kept: seq<nat>)
    requires StepInv(c, s) && Ok(s)
    ensures StepInv(c, Decode(c, s)) && AllEvolved(c, s.reqs, Decode(c, s).reqs) && Decoded(s, Decode(c, s), kept)
    ensures s.running != [] && NoneDone(s, |s.running|) && RunningFit(s) ==> kept != []
  {
    hide Inv, Settled, AllEvolved, Decoded, RunningFit;
    var batch := Unfinished(s.reqs, s.running);
    var active := ByAdmission(s, batch);
    RunningLists(c, s);
    BatchActive(s, batch, active);
    if batch == [] {
      kept := [];
      AllEvolvedRefl(c, s);
      NothingRunning(c, s, active);
    } else {
      var k := EnsureCapacity(c, s, active, 0);
      EnsureKeeps(c, s, active, 0, k);
      kept := k.active;
      DecodeRest(c, s, active, k, EmitAll(c, k.s, k.active));
      if NoneDone(s, |s.running|) && RunningFit(s) {
        AllRunningFit(c, s, active);
        SomeoneSurvives(c, s, active, 0, k);
      }
    }
  }

  lemma NothingRunning(c: Config, s: State, active: seq<nat>)
    requires Inv(c, s, []) && Ok(s) && active == []
    requires forall h {:trigger h in active} :: h in active <==> 0 <= h < |s.reqs| && s.reqs[h].state == Running && !s.reqs[h].Done()
    ensures Decoded(s, s, [])
    ensures s.running != [] ==> !NoneDone(s, |s.running|)
  {
    ListsMember(s.reqs, s.running, Running);
    forall h | 0 <= h < |s.reqs| ensures !(s.reqs[h].state == Running && !s.reqs[h].Done()) {
      assert h !in active;
    }
  }

  /** Every row could go on if it had the pool to itself. */
  ghost predicate RunningFit(s: State)
    requires s.mem.blockSize > 0
  {
    forall h {:trigger s.reqs[h]} :: 0 <= h < |s.reqs| && s.reqs[h].state == Running && !s.reqs[h].Done() ==> FitsNow(s.mem, s.reqs[h])
  }

  ghost predicate AllFit(c: Config, s: State)
    requires s.mem.blockSize > 0
  {
    forall h {:trigger Fits(c, s.mem, s.reqs[h])} :: 0 <= h < |s.reqs| ==> Fits(c, s.mem, s.reqs[h])
  }

  lemma FitMeansRunning(c: Config, s: State)
    requires s.mem.blockSize > 0 && AllFit(c, s)
    ensures RunningFit(s)
  {
    forall h | 0 <= h < |s.reqs| && s.reqs[h].state == Running && !s.reqs[h].Done() ensures FitsNow(s.mem, s.reqs[h]) {
      assert Fits(c, s.mem, s.reqs[h]);
      FitsMeansNow(c, s.mem, s.reqs[h]);
    }
  }

  lemma AllRunningFit(c: Config, s: State, active: seq<nat>)
    requires Inv(c, s, []) && Ok(s) && NoneDone(s, |s.running|) && RunningFit(s)
    requires forall h {:trigger h in active} :: h in active <==> 0 <= h < |s.reqs| && s.reqs[h].state == Running && !s.reqs[h].Done()
    ensures AloneFit(s, active)
  {
    ListsMember(s.reqs, s.running, Running);
    forall h | 0 <= h < |s.reqs| && s.reqs[h].state == Running ensures h in active {
      assert h in s.running;
    }
  }

  lemma DecodeRest(c: Config, s: State, active: seq<nat>, k: Capacity, t: State)
    requires StepInv(c, s) && Ok(s) && Inv(c, k.s, []) && Active(k.s, k.active) && ServedUpTo(k.s, k.active, |k.active|)
    requires Ok(k.s) && Named(k.s, k.active) && k.s.mem.blockSize == s.mem.blockSize
    requires forall h {:trigger h in active} :: h in active <==> 0 <= h < |s.reqs| && s.reqs[h].state == Running && !s.reqs[h].Done()
    requires Outcome(s, active, k.s, k.active) && t == EmitAll(c, k.s, k.active)
    ensures StepInv(c, t) && AllEvolved(c, s.reqs, t.reqs) && Decoded(s, t, k.active)
  {
    EmitAllKeeps(c, k.s, k.active, t);
    OutcomeEvolved(c, s, active, k.s, k.active);
    AllEvolvedTrans(c, s.reqs, k.s.reqs, t.reqs);
    DecodedCompose(s, active, k.s, k.active, t);
    DecodeSettled(s, t, k.active);
  }

  // ---------------------------------------------------------------- admit

  /** Who was admitted, from which queue, and what became of them. */
  ghost predicate AdmittedBy(s: State, q: State, a: Admission, t: State)
    requires Ok(s)
  {
    && q == SortWaiting(s) && FromFront(q.waiting, [], a.s.waiting, a.batch)
    && AdmittedOnly(s, a) && Prefilled(a.s, a.batch, t) && a.s.running == s.running
  }

  /** Admission leaves the requests it does not take as they were, and the tokens of those it takes. */
  ghost predicate AdmittedOnly(s: State, a: Admission)
  {
    && |a.s.reqs| == |s.reqs|
    && (forall h {:trigger a.s.reqs[h]} :: 0 <= h < |s.reqs| ==>
          if h in a.batch then a.s.reqs[h].out == s.reqs[h].out && a.s.reqs[h].preempts == s.reqs[h].preempts
                               && a.s.reqs[h].arrival == s.reqs[h].arrival
          else a.s.reqs[h] == s.reqs[h])
  }

  lemma AdmittedOnlyStep(s: State, h: nat, t: State, a: Admission)
    requires h < |s.reqs| && |t.reqs| == |s.reqs| && t.reqs == s.reqs[h := t.reqs[h]] && h in a.batch
    requires t.reqs[h].out == s.reqs[h].out && t.reqs[h].preempts == s.reqs[h].preempts
    requires t.reqs[h].arrival == s.reqs[h].arrival
    requires AdmittedOnly(t, a)
    ensures AdmittedOnly(s, a)
  {
    forall g | 0 <= g < |s.reqs|
      ensures if g in a.batch then a.s.reqs[g].out == s.reqs[g].out && a.s.reqs[g].preempts == s.reqs[g].preempts
                                   && a.s.reqs[g].arrival == s.reqs[g].arrival
              else a.s.reqs[g] == s.reqs[g]
    {
      var _ := a.s.reqs[g];
      assert g != h ==> t.reqs[g] == s.reqs[g];
    }
  }

  lemma {:induction false} PopOnly(s: State, batch: seq<nat>, limit: int, a: Admission)
    requires Ok(s) && Named(s, batch) && a == PopAdmissible(s, batch, limit)
    ensures AdmittedOnly(s, a)
    ensures forall h {:trigger h in batch} :: h in batch ==> h in a.batch
    decreases |s.waiting|
  {
    if CanPop(s, batch, limit) {
      if 0 <= s.mem.Need(s.reqs[s.waiting[0]]) <= |s.mem.free| {
        var h := s.waiting[0];
        PopOnly(AdmitOne(s), batch + [h], limit, a);
        assert (batch + [h])[|batch|] == h;
        assert h in batch + [h];
        AdmittedOnlyStep(s, h, AdmitOne(s), a);
        forall g | g in batch ensures g in a.batch {
          assert g in batch + [h];
        }
      }
    }
  }

  lemma AdmitKeeps(c: Config, s: State) returns (a: Admission)
    requires StepInv(c, s) && Ok(s)
    ensures StepInv(c, Admit(c, s)) && AllEvolved(c, s.reqs, Admit(c, s).reqs)
    ensures c.isStatic && s.running != [] ==> Admit(c, s) == s
    ensures !(c.isStatic && s.running != []) ==>
              a == PopAdmissible(SortWaiting(s), [], Room(c, s)) && AdmittedBy(s, SortWaiting(s), a, Admit(c, s))
  {
    if c.isStatic && s.running != [] {
      AllEvolvedRefl(c, s);
      a := Admission(s, []);
    } else {
      var q := SortWaiting(s);
      SortWaitingKeeps(c, s);
      a := PopAdmissible(q, [], Room(c, s));
      PopKeeps(c, q, [], Room(c, s), a);
      PopOnly(q, [], Room(c, s), a);
      PrefillKeeps(c, a.s, a.batch, Prefill(c, a.s, a.batch));
      AllEvolvedTrans(c, s.reqs, a.s.reqs, Admit(c, s).reqs);
    }
  }

  /** In every mode the step keeps the invariant, and so never fails an assertion, never raises "out of
      KV blocks", and never pops an empty list; and each request only evolves. */
  lemma StepKeeps(c: Config, s: State)
    requires StepInv(c, s)
    ensures Ok(s) && StepInv(c, Step(c, s)) && AllEvolved(c, s.reqs, Step(c, s).reqs)
  {
    RetireKeeps(c, s);
    var r := Retire(s);
    var a := AdmitKeeps(c, r);
    var t := Admit(c, r);
    var _ := DecodeKeeps(c, t);
    AllEvolvedTrans(c, s.reqs, r.reqs, t.reqs);
    AllEvolvedTrans(c, s.reqs, t.reqs, Decode(c, t).reqs);
  }
}
