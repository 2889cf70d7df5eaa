/** How big a request the pool can see through. `Fits` is exactly right: whatever stops by itself fits, a request
    alone that does not fit ends up blocking the queue, and if nobody leaves, everybody finishes if and only if
    everybody fits. */
module SizeLimit {
  import opened Seqs
  import opened BlockMath
  import opened Requests
  import opened Alloc
  import opened SchedulerSpec
  import opened Invariant
  import opened Preservation
  import opened StepSafety
  import opened Eviction
  import opened StepTheorem
  import opened Liveness
  import opened Starvation
  import opened Runs
  import opened Fairness
  import opened Stuck

  // ---------------------------------------------------------------- whoever has spoken had room

  /** The pool holds what the request has stored, and under worst-case admission what it committed. */
  ghost predicate Housed(m: Memory, r: Req)
    requires m.blockSize > 0
  {
    r.out == [] ||
    match m.kind
    case Slots => true
    case Blocks(reserve) => (if reserve then m.Worst(r) else CeilDiv(r.SeqLen() - 1, m.blockSize)) <= m.numBlocks
  }

  ghost predicate AllHoused(s: State)
    requires s.mem.blockSize > 0
  {
    forall h {:trigger s.reqs[h]} :: 0 <= h < |s.reqs| ==> Housed(s.mem, s.reqs[h])
  }

  lemma TableWithinPool(s: State, h: nat)
    requires BlocksPartitioned(s.mem, s.reqs) && h < |s.reqs|
    ensures |s.reqs[h].table| <= s.mem.numBlocks
  {
    TablesUpdate(s.reqs, h, s.reqs[h]);
    IndicesSize(s.mem.numBlocks);
    var t, u := multiset(s.reqs[h].table), Tables(s.reqs);
    assert u == t + (u - t);
    assert |u| == |t| + |u - t|;
    assert |multiset(s.mem.free) + u| == |s.mem.free| + |u|;
  }

  lemma CommittedWithinPool(c: Config, s: State, h: nat)
    requires Inv(c, s, []) && s.mem.kind == Blocks(true) && h < |s.reqs| && s.reqs[h].Holds()
    ensures s.mem.Worst(s.reqs[h]) <= s.mem.numBlocks
  {
    var k := s.reqs[h].id;
    CommitmentsValue(s.mem.blockSize, s.reqs, h);
    CommitmentsNonNegative(c, s.mem, s.reqs);
    SumRemove(s.mem.committed, k);
    SumNonNegative(s.mem.committed - {k});
  }

  lemma RunningHoused(c: Config, s: State, h: nat)
    requires StepInv(c, s) && h < |s.reqs| && s.reqs[h].state == Running
    ensures Housed(s.mem, s.reqs[h])
  {
    TableWithinPool(s, h);
    assert SettledOne(s.mem.blockSize, s.reqs[h]);
    if s.mem.kind == Blocks(true) {
      CommittedWithinPool(c, s, h);
    }
    hide Inv, Settled;
  }

  lemma SameHoused(m: Memory, q: Req, r: Req)
    requires m.blockSize > 0 && Housed(m, q) && SameJob(q, r) && r.out == q.out
    ensures Housed(m, r)
  {
  }

  lemma RetireHoused(c: Config, s: State, r: State)
    requires StepInv(c, s) && Ok(s) && AllHoused(s) && r == Retire(s)
    ensures AllHoused(r)
  {
    RetireKeeps(c, s);
    RetireThins(c, s);
    hide StepInv, Retire, Housed;
    forall h | 0 <= h < |r.reqs| ensures Housed(r.mem, r.reqs[h]) {
      assert Thinned(s.reqs[h], r.reqs[h]) && Evolved(c, s.reqs[h], r.reqs[h]);
      HousedAgain(s, r, h);
    }
  }

  lemma HousedAgain(s: State, r: State, h: nat)
    requires s.mem.blockSize > 0 && SamePool(s, r) && h < |s.reqs| && h < |r.reqs| && Housed(s.mem, s.reqs[h])
    requires SameJob(s.reqs[h], r.reqs[h]) && r.reqs[h].out == s.reqs[h].out
    ensures Housed(r.mem, r.reqs[h])
  {
    SameHoused(s.mem, s.reqs[h], r.reqs[h]);
  }

  lemma AdmitHoused(c: Config, r: State, t: State)
    requires StepInv(c, r) && Ok(r) && AllHoused(r) && t == Admit(c, r)
    ensures AllHoused(t)
  {
    var a := AdmitKeeps(c, r);
    hide StepInv, Admit, Housed, PopAdmissible, SortWaiting;
    forall h | 0 <= h < |t.reqs| ensures Housed(t.mem, t.reqs[h]) {
      if t.reqs[h].state == Running {
        RunningHoused(c, t, h);
      } else {
        if !(c.isStatic && r.running != []) {
          var _ := a.s.reqs[h];
        }
        assert t.reqs[h] == r.reqs[h];
        HousedAgain(r, t, h);
      }
    }
  }

  lemma DecodeHoused(c: Config, t: State, u: State)
    requires StepInv(c, t) && Ok(t) && AllHoused(t) && u == Decode(c, t)
    ensures AllHoused(u)
  {
    var kept := DecodeKeeps(c, t);
    hide StepInv, Decode, Housed;
    forall h | 0 <= h < |u.reqs| ensures Housed(u.mem, u.reqs[h]) {
      if h in kept {
        RunningHoused(c, u, h);
      } else {
        assert Evolved(c, t.reqs[h], u.reqs[h]);
        HousedAgain(t, u, h);
      }
    }
  }

  lemma StepHoused(c: Config, s: State)
    requires StepInv(c, s) && Ok(s) && AllHoused(s)
    ensures AllHoused(Step(c, s))
  {
    var r := Retire(s);
    RetireKeeps(c, s);
    RetireHoused(c, s, r);
    var _ := AdmitKeeps(c, r);
    var t := Admit(c, r);
    AdmitHoused(c, r, t);
    hide Retire, Admit, AllHoused;
    assert !t.fault;
    DecodeHoused(c, t, Decode(c, t));
  }

  lemma ApplyHoused(c: Config, s: State, e: Event)
    requires StepInv(c, s) && Ok(s) && Possible(c, s, e) && AllHoused(s)
    ensures Apply(c, s, e).mem.blockSize > 0 && AllHoused(Apply(c, s, e))
  {
    hide Step;
    match e
    case Tick => StepHoused(c, s);
    case Hangup(g) =>
      var t := Cancel(s, g);
      forall h | 0 <= h < |t.reqs| ensures Housed(t.mem, t.reqs[h]) {
        SameHoused(s.mem, s.reqs[h], t.reqs[h]);
      }
    case Arrival(r) =>
      var t := Submit(c, s, r);
      forall h | 0 <= h < |t.reqs| ensures Housed(t.mem, t.reqs[h]) {
        if h < |s.reqs| { assert Housed(s.mem, s.reqs[h]); }
      }
  }

  lemma {:induction false} RunHoused(c: Config, s: State, evs: seq<Event>)
    requires StepInv(c, s) && Possibles(c, s, evs) && AllHoused(s)
    ensures Run(c, s, evs).mem.blockSize > 0 && AllHoused(Run(c, s, evs))
    decreases |evs|
  {
    if evs != [] {
      hide StepInv, AllHoused, Apply, Possible;
      ApplyKeeps(c, s, evs[0]);
      ApplyHoused(c, s, evs[0]);
      RunHoused(c, Apply(c, s, evs[0]), evs[1..]);
    }
  }

  // ---------------------------------------------------------------- whoever stops by itself fits

  lemma StoppedFits(c: Config, s: State, h: nat)
    requires StepInv(c, s) && AllHoused(s) && h < |s.reqs| && s.reqs[h].Done() && s.reqs[h].reason != Some(Cancelled)
    ensures Fits(c, s.mem, s.reqs[h])
  {
    var r := s.reqs[h];
    assert ReqOk(c, s.mem.blockSize, r) && Housed(s.mem, r);
    StoppedSpoke(c, s.mem.blockSize, r);
    hide StepInv;
    match r.reason
    case None =>
    case Some(why) => assert why == Length || why == Stop || why == Cancelled;
  }

  lemma StoppedSpoke(c: Config, b: nat, r: Req)
    requires b > 0 && ReqOk(c, b, r) && r.Done()
    ensures r.out != [] && r.prompt != []
  {
  }

  lemma FitsEvolves(c: Config, m: Memory, q: Req, r: Req)
    requires m.blockSize > 0 && Evolved(c, q, r)
    ensures Fits(c, m, q) <==> Fits(c, m, r)
  {
  }

  lemma FitsSamePool(c: Config, m: Memory, m': Memory, r: Req)
    requires m.blockSize > 0 && m' == m.(free := m'.free, committed := m'.committed)
    ensures Fits(c, m, r) <==> Fits(c, m', r)
  {
  }

  /** `Fits` for a request as its client sends it, in terms of what it says when it is alone. */
  ghost predicate Serveable(c: Config, m: Memory, r: Req)
    requires m.blockSize > 0 && r.prompt != []
  {
    match m.kind
    case Slots => true
    case Blocks(reserve) =>
      (if reserve then m.Worst(Capped(c, r)) else CeilDiv(|r.prompt| + |Expected(c, r)| - 1, m.blockSize)) <= m.numBlocks
  }

  lemma ServeableFits(c: Config, s: State, r: Req)
    requires s.mem.blockSize > 0 && Acceptable(c, s, r)
    ensures r.prompt != [] && (Fits(c, s.mem, Capped(c, r)) <==> Serveable(c, s.mem, r))
  {
    SubmitExpected(c, s, r);
  }

  /** In every run from a fresh engine, in every mode: a request that has stopped by itself is one the pool can
      see through. */
  lemma FinishersFit(c: Config, kind: Kind, numBlocks: nat, blockSize: nat, evs: seq<Event>, h: nat)
    requires Matches(c, Start(kind, numBlocks, blockSize).mem) && Possibles(c, Start(kind, numBlocks, blockSize), evs)
    requires h < |Submissions(evs)|
    ensures var s0, sub := Start(kind, numBlocks, blockSize), Submissions(evs)[h]; var s := Run(c, s0, evs);
            && |s.reqs| == |Submissions(evs)| && sub.prompt != [] && s0.mem.blockSize > 0
            && (s.reqs[h].Done() && s.reqs[h].reason != Some(Cancelled) ==> Serveable(c, s0.mem, sub))
  {
    var s0 := Start(kind, numBlocks, blockSize);
    StartOk(c, kind, numBlocks, blockSize);
    RunSafe(c, s0, evs);
    RunHoused(c, s0, evs);
    RunCourse(c, [], s0, evs);
    assert [] + Submissions(evs) == Submissions(evs);
    var s := Run(c, s0, evs);
    hide StepInv, AllHoused, Run, Possibles;
    CourseServeable(c, Submissions(evs)[h], s.reqs[h], s0.mem, s.mem) by {
      assert CourseOf(c, Submissions(evs)[h], s.reqs[h]);
    }
    if s.reqs[h].Done() && s.reqs[h].reason != Some(Cancelled) {
      StoppedFits(c, s, h);
    }
  }

  lemma CourseServeable(c: Config, sub: Req, r: Req, m: Memory, m': Memory)
    requires m.blockSize > 0 && m' == m.(free := m'.free, committed := m'.committed) && CourseOf(c, sub, r)
    ensures sub.prompt != [] && (Fits(c, m', r) <==> Serveable(c, m, sub))
  {
  }

  // ---------------------------------------------------------------- one request alone

  function Steps(n: nat): seq<Event>
  {
    if n == 0 then [] else [Tick] + Steps(n - 1)
  }

  /** One request and nobody else, its client still there, more to say. */
  ghost predicate Lone(c: Config, s: State)
  {
    StepInv(c, s) && Ok(s) && AllHoused(s) && |s.reqs| == 1 && !s.reqs[0].cancelled && !s.reqs[0].Done()
  }

  lemma LoneSpeaks(c: Config, s: State)
    requires Lone(c, s) && FitsNow(s.mem, s.reqs[0])
    ensures |Step(c, s).reqs| == 1 && Grew(s.reqs[0], Step(c, s).reqs[0])
  {
    var r := Retire(s);
    hide *;
    LoneParts(c, s);
    LoneRetires(c, s, r);
    AfterRetireProgress(c, r, Admit(c, r));
    StepIs(c, s, Admit(c, r));
    OneGrew(r.reqs, Decode(c, Admit(c, r)).reqs);
  }

  lemma StepIs(c: Config, s: State, t: State)
    requires Ok(s) && t == Admit(c, Retire(s)) && !t.fault
    ensures Step(c, s) == Decode(c, t)
  {
    hide Retire, Admit, Decode;
  }

  lemma OneGrew(qs: seq<Req>, rs: seq<Req>)
    requires |qs| == |rs| == 1 && SomeGrew(qs, rs)
    ensures Grew(qs[0], rs[0])
  {
  }

  lemma LoneRetires(c: Config, s: State, r: State)
    requires Lone(c, s) && FitsNow(s.mem, s.reqs[0]) && r == Retire(s)
    ensures StepInv(c, r) && NoneDone(r, |r.running|) && |r.reqs| == 1 && r.reqs[0] == s.reqs[0] && HasWork(r) && NowFit(r)
  {
    LoneParts(c, s);
    hide StepInv, Retire, Lone, FitsNow, NoneDone;
    RetireKeeps(c, s);
    RetireThins(c, s);
    assert Thinned(s.reqs[0], r.reqs[0]);
    WhereUnfinished(c, s, 0);
    LoneWorks(c, r);
    LoneNowFit(s, r);
  }

  lemma LoneNowFit(s: State, r: State)
    requires s.mem.blockSize > 0 && |s.reqs| == |r.reqs| == 1 && r.reqs[0] == s.reqs[0] && SamePool(s, r) && FitsNow(s.mem, s.reqs[0])
    ensures NowFit(r)
  {
  }

  lemma LoneWorks(c: Config, r: State)
    requires StepInv(c, r) && |r.reqs| == 1 && (r.reqs[0].state == Waiting || r.reqs[0].state == Running)
    ensures HasWork(r)
  {
    ListsMember(r.reqs, r.waiting, Waiting);
    ListsMember(r.reqs, r.running, Running);
    assert 0 in r.waiting || 0 in r.running;
  }

  /** Waiting, and too big for an empty pool: that is being first in line and blocked. */
  lemma LoneBlocked(c: Config, s: State)
    requires StepInv(c, s) && |s.reqs| == 1 && Queues(s.reqs[0]) && !FitsNow(s.mem, s.reqs[0])
    ensures Blocked(s, 0)
  {
    if s.running != [] {
      var h := s.running[0];
      assert h in s.running;
      ListsMember(s.reqs, s.running, Running);
    }
  }

  /** A step of a lone request either makes it speak or evicts it for good. */
  lemma LoneStep(c: Config, s: State)
    requires Lone(c, s) && (s.reqs[0].state == Waiting ==> FitsNow(s.mem, s.reqs[0]))
    ensures var u := Step(c, s);
            && StepInv(c, u) && Ok(u) && u.mem.blockSize > 0 && AllHoused(u) && |u.reqs| == 1 && !u.reqs[0].cancelled
            && Evolved(c, s.reqs[0], u.reqs[0]) && SamePool(s, u)
            && (Grew(s.reqs[0], u.reqs[0]) || Blocked(u, 0))
  {
    var u := Step(c, s);
    StepKeeps(c, s);
    StepHoused(c, s);
    assert Evolved(c, s.reqs[0], u.reqs[0]);
    if FitsNow(s.mem, s.reqs[0]) {
      LoneSpeaks(c, s);
    } else {
      WhereUnfinished(c, s, 0);
      RunningStep(c, s, 0);
      hide *;
      if !Grew(s.reqs[0], u.reqs[0]) {
        LoneSentBack(c, s, u);
      }
    }
  }

  lemma LoneSentBack(c: Config, s: State, u: State)
    requires s.mem.blockSize > 0 && StepInv(c, u) && |s.reqs| == |u.reqs| == 1 && SentBack(s.reqs[0], u.reqs[0]) && SamePool(s, u)
    requires !s.reqs[0].cancelled && !FitsNow(s.mem, s.reqs[0])
    ensures Blocked(u, 0)
  {
    assert u.reqs[0].SeqLen() == s.reqs[0].SeqLen();
    LoneBlocked(c, u);
  }

  lemma BlockedUnfit(c: Config, s: State, h: nat)
    requires StepInv(c, s) && Blocked(s, h)
    ensures !Fits(c, s.mem, s.reqs[h])
  {
    assert ReqOk(c, s.mem.blockSize, s.reqs[h]);
    if Fits(c, s.mem, s.reqs[h]) { FitsMeansNow(c, s.mem, s.reqs[h]); }
  }

  ghost predicate Ended(t: State, served: bool)
  {
    |t.reqs| == 1 && if served then t.reqs[0].Done() && t.reqs[0].reason != Some(Cancelled) else Blocked(t, 0)
  }

  /** It stops by itself if it fits, and otherwise blocks the queue. */
  lemma {:induction false} LoneRun(c: Config, s: State) returns (n: nat)
    requires Lone(c, s)
    ensures Possibles(c, s, Steps(n)) && Ended(Run(c, s, Steps(n)), Fits(c, s.mem, s.reqs[0]))
    decreases Rem(s.reqs[0])
  {
    hide *;
    LoneParts(c, s);
    if s.reqs[0].state == Waiting && !FitsNow(s.mem, s.reqs[0]) {
      n := 0;
      LoneWaits(c, s);
    } else {
      var u := Step(c, s);
      LoneOnce(c, s, u);
      if Ended(u, Fits(c, s.mem, s.reqs[0])) {
        n := 1;
        TickLast(c, s, u);
      } else {
        var m := LoneRun(c, u);
        n := m + 1;
        TickOn(c, s, u, m);
      }
    }
  }

  /** One step ends it, or leaves a lone request with less to say. */
  lemma LoneOnce(c: Config, s: State, u: State)
    requires Lone(c, s) && !(s.reqs[0].state == Waiting && !FitsNow(s.mem, s.reqs[0])) && u == Step(c, s)
    ensures Ended(u, Fits(c, s.mem, s.reqs[0])) ||
            (Lone(c, u) && (Fits(c, u.mem, u.reqs[0]) <==> Fits(c, s.mem, s.reqs[0])) && 0 <= Rem(u.reqs[0]) < Rem(s.reqs[0]))
  {
    LoneParts(c, s);
    hide *;
    LoneStep(c, s);
    LoneFits(c, s, u);
    if Blocked(u, 0) || u.reqs[0].Done() {
      LoneEnd(c, u);
    } else {
      LoneRemains(c, s, u);
      LoneAgain(c, s, u);
    }
  }

  lemma LoneWaits(c: Config, s: State)
    requires Lone(c, s) && s.reqs[0].state == Waiting && !FitsNow(s.mem, s.reqs[0])
    ensures Possibles(c, s, Steps(0)) && Ended(Run(c, s, Steps(0)), Fits(c, s.mem, s.reqs[0]))
  {
    LoneBlocked(c, s);
    BlockedUnfit(c, s, 0);
  }

  lemma LoneEnd(c: Config, u: State)
    requires StepInv(c, u) && Ok(u) && AllHoused(u) && |u.reqs| == 1 && !u.reqs[0].cancelled && (Blocked(u, 0) || u.reqs[0].Done())
    ensures Ended(u, Fits(c, u.mem, u.reqs[0]))
  {
    if Blocked(u, 0) {
      BlockedUnfit(c, u, 0);
    } else {
      LoneStopped(c, u);
      StoppedFits(c, u, 0);
    }
  }

  lemma LoneAgain(c: Config, s: State, u: State)
    requires Lone(c, s) && StepInv(c, u) && Ok(u) && AllHoused(u) && |u.reqs| == 1 && Evolved(c, s.reqs[0], u.reqs[0]) && !u.reqs[0].Done()
    ensures Lone(c, u)
  {
  }

  lemma LoneParts(c: Config, s: State)
    requires Lone(c, s)
    ensures StepInv(c, s) && Ok(s) && |s.reqs| == 1 && !s.reqs[0].cancelled && !s.reqs[0].Done()
  {
  }

  lemma TickLast(c: Config, s: State, u: State)
    requires Ok(s) && u == Step(c, s)
    ensures Possibles(c, s, Steps(1)) && Run(c, s, Steps(1)) == u
  {
    TickOn(c, s, u, 0);
  }

  lemma LoneFits(c: Config, s: State, u: State)
    requires s.mem.blockSize > 0 && |s.reqs| == |u.reqs| == 1 && Evolved(c, s.reqs[0], u.reqs[0]) && SamePool(s, u)
    ensures u.mem.blockSize > 0 && (Fits(c, u.mem, u.reqs[0]) <==> Fits(c, s.mem, s.reqs[0]))
  {
    FitsEvolves(c, s.mem, s.reqs[0], u.reqs[0]);
    FitsSamePool(c, s.mem, u.mem, u.reqs[0]);
  }

  lemma LoneStopped(c: Config, u: State)
    requires u.mem.blockSize > 0 && StepInv(c, u) && |u.reqs| == 1 && !u.reqs[0].cancelled
    ensures u.reqs[0].reason != Some(Cancelled)
  {
    assert ReqOk(c, u.mem.blockSize, u.reqs[0]);
  }

  lemma LoneRemains(c: Config, s: State, u: State)
    requires StepInv(c, s) && StepInv(c, u) && |s.reqs| == |u.reqs| == 1 && s.mem.blockSize == u.mem.blockSize
    requires Evolved(c, s.reqs[0], u.reqs[0]) && Grew(s.reqs[0], u.reqs[0])
    ensures 0 <= Rem(u.reqs[0]) < Rem(s.reqs[0])
  {
    assert ReqOk(c, s.mem.blockSize, s.reqs[0]) && ReqOk(c, u.mem.blockSize, u.reqs[0]);
    RemEvolves(c, s.mem.blockSize, s.reqs[0], u.reqs[0]);
  }

  lemma TickOn(c: Config, s: State, u: State, m: nat)
    requires Ok(s) && u == Step(c, s) && Possibles(c, u, Steps(m))
    ensures Possibles(c, s, Steps(m + 1)) && Run(c, s, Steps(m + 1)) == Run(c, u, Steps(m))
  {
    RunOn(c, s, Tick, Steps(m), u);
  }

  /** A request alone on a fresh engine, in any mode: after finitely many steps it has said everything if the
      pool can see it through, and otherwise it blocks the queue for good (see `Stuck.RunStaysBlocked`). */
  lemma AloneServedIff(c: Config, kind: Kind, numBlocks: nat, blockSize: nat, r: Req) returns (n: nat)
    requires Matches(c, Start(kind, numBlocks, blockSize).mem) && Acceptable(c, Start(kind, numBlocks, blockSize), r)
    ensures var s0 := Start(kind, numBlocks, blockSize); var evs := [Arrival(r)] + Steps(n);
            && r.prompt != [] && s0.mem.blockSize > 0 && Possibles(c, s0, evs) && |Run(c, s0, evs).reqs| == 1
            && if Serveable(c, s0.mem, r) then Run(c, s0, evs).reqs[0].out == Expected(c, r) && Run(c, s0, evs).reqs[0].Done()
               else Blocked(Run(c, s0, evs), 0)
  {
    var s0 := Start(kind, numBlocks, blockSize);
    StartOk(c, kind, numBlocks, blockSize);
    StartNames(c, s0);
    var s := Submit(c, s0, r);
    AloneBegins(c, s0, r, s);
    ServeableFits(c, s0, r);
    hide StepInv, Lone, Fits, Serveable;
    n := LoneRun(c, s);
    RunOn(c, s0, Arrival(r), Steps(n), s);
    var evs := [Arrival(r)] + Steps(n);
    if Serveable(c, s0.mem, r) {
      OneSubmission(r, n);
      ScheduleIndependence(c, kind, numBlocks, blockSize, evs, 0);
    }
  }

  lemma StartNames(c: Config, s0: State)
    requires s0 == Start(s0.mem.kind, s0.mem.numBlocks, s0.mem.blockSize) && s0.mem.blockSize > 0
    ensures Ok(s0) && AllHoused(s0) && s0.reqs == []
  {
  }

  lemma AloneBegins(c: Config, s0: State, r: Req, s: State)
    requires StepInv(c, s0) && Ok(s0) && s0.reqs == [] && AllHoused(s0) && Acceptable(c, s0, r) && s == Submit(c, s0, r)
    ensures Lone(c, s) && s.mem == s0.mem && s.reqs == [Capped(c, r)]
  {
    SubmitKeeps(c, s0, r);
    InvOk(c, s, []);
  }

  lemma {:induction false} NoSubmissions(n: nat)
    ensures Submissions(Steps(n)) == []
  {
    if n > 0 {
      NoSubmissions(n - 1);
      assert Steps(n)[1..] == Steps(n - 1);
    }
  }

  lemma OneSubmission(r: Req, n: nat)
    ensures Submissions([Arrival(r)] + Steps(n)) == [r]
  {
    NoSubmissions(n);
    assert ([Arrival(r)] + Steps(n))[1..] == Steps(n);
  }

  // ---------------------------------------------------------------- everybody, in an endless run

  /** A consistent state in which every client is still there. */
  ghost predicate Sound(c: Config, s: State)
  {
    && StepInv(c, s) && Ok(s) && s.mem.blockSize > 0 && AllHoused(s)
    && forall h {:trigger s.reqs[h]} :: 0 <= h < |s.reqs| ==> !s.reqs[h].cancelled
  }

  ghost predicate Stays(c: Config, st: nat -> State, e: nat -> Event, n: nat)
  {
    Ok(st(n)) && Possible(c, st(n), e(n)) && !e(n).Hangup? && st(n + 1) == Apply(c, st(n), e(n))
  }

  /** An endless run that nobody leaves: anybody may arrive at any time, and the engine keeps stepping. */
  ghost predicate Open(c: Config, st: nat -> State, e: nat -> Event)
  {
    && Sound(c, st(0))
    && (forall n: nat {:trigger Stays(c, st, e, n)} :: Stays(c, st, e, n))
    && (forall n: nat {:trigger TickFrom(e, n)} :: TickFrom(e, n))
  }

  /** The requests go on, each as its schedule may change it. */
  ghost predicate GoOn(c: Config, s: State, t: State)
  {
    && SamePool(s, t) && |s.reqs| <= |t.reqs|
    && forall h {:trigger Evolved(c, s.reqs[h], t.reqs[h])} :: 0 <= h < |s.reqs| ==> Evolved(c, s.reqs[h], t.reqs[h])
  }

  lemma SoundTick(c: Config, s: State)
    requires Sound(c, s)
    ensures Sound(c, Step(c, s)) && GoOn(c, s, Step(c, s))
  {
    StepKeeps(c, s);
    StepHoused(c, s);
    hide StepInv, Step, Ok, AllHoused;
    var t := Step(c, s);
    forall h | 0 <= h < |t.reqs| ensures !t.reqs[h].cancelled {
      assert Evolved(c, s.reqs[h], t.reqs[h]);
    }
  }

  lemma SoundArrival(c: Config, s: State, r: Req)
    requires Sound(c, s) && Acceptable(c, s, r)
    ensures Sound(c, Submit(c, s, r)) && GoOn(c, s, Submit(c, s, r))
  {
    var t := Submit(c, s, r);
    hide Inv, Settled, AllHoused;
    SubmitKeeps(c, s, r);
    ApplyHoused(c, s, Arrival(r));
    StaysSound(c, s, t, Capped(c, r));
  }

  lemma StaysSound(c: Config, s: State, t: State, q: Req)
    requires Sound(c, s) && StepInv(c, t) && t.mem == s.mem && t.reqs == s.reqs + [q] && AllHoused(t) && !q.cancelled
    ensures Sound(c, t) && GoOn(c, s, t)
  {
    AllEvolvedRefl(c, s);
    InvOk(c, t, []);
    hide StepInv, AllHoused, Ok;
    forall h | 0 <= h < |s.reqs| ensures Evolved(c, s.reqs[h], t.reqs[h]) {
      assert Evolved(c, s.reqs[h], s.reqs[h]);
    }
  }

  lemma OpenAt(c: Config, st: nat -> State, e: nat -> Event, n: nat)
    requires Open(c, st, e)
    ensures Sound(c, st(0)) && Stays(c, st, e, n) && TickFrom(e, n)
  {
    hide Sound;
    assert Stays(c, st, e, n) && TickFrom(e, n);
  }

  lemma {:induction false} SoundAt(c: Config, st: nat -> State, e: nat -> Event, n: nat)
    requires Open(c, st, e)
    ensures Sound(c, st(n))
  {
    hide *;
    OpenAt(c, st, e, n);
    if n > 0 {
      SoundAt(c, st, e, n - 1);
      OpenAt(c, st, e, n - 1);
      SoundHere(c, st, e, n - 1);
    }
  }

  lemma SoundHere(c: Config, st: nat -> State, e: nat -> Event, n: nat)
    requires Stays(c, st, e, n) && Sound(c, st(n))
    ensures Sound(c, st(n + 1)) && GoOn(c, st(n), st(n + 1))
  {
    hide Sound, GoOn, Step, Submit;
    match e(n)
    case Tick => SoundTick(c, st(n));
    case Arrival(r) => SoundArrival(c, st(n), r);
    case Hangup(_) =>
  }

  lemma {:induction false} Between(c: Config, st: nat -> State, e: nat -> Event, n: nat, m: nat)
    requires Open(c, st, e) && n <= m
    ensures GoOn(c, st(n), st(m))
    decreases m
  {
    hide *;
    if n == m {
      SoundAt(c, st, e, n);
      GoOnRefl(c, st(n));
    } else {
      Between(c, st, e, n, m - 1);
      SoundAt(c, st, e, m - 1);
      OpenAt(c, st, e, m - 1);
      SoundHere(c, st, e, m - 1);
      GoOnTrans(c, st(n), st(m - 1), st(m));
    }
  }

  lemma GoOnRefl(c: Config, s: State)
    requires Sound(c, s)
    ensures GoOn(c, s, s)
  {
    hide StepInv, AllHoused;
    AllEvolvedRefl(c, s);
  }

  lemma GoOnTrans(c: Config, s: State, t: State, u: State)
    requires GoOn(c, s, t) && GoOn(c, t, u)
    ensures GoOn(c, s, u)
  {
    forall h | 0 <= h < |s.reqs| ensures Evolved(c, s.reqs[h], u.reqs[h]) {
      assert Evolved(c, s.reqs[h], t.reqs[h]) && Evolved(c, t.reqs[h], u.reqs[h]);
      EvolvedTrans(c, s.reqs[h], t.reqs[h], u.reqs[h]);
    }
  }

  /** Request `h`, if it is there at moment `n`, is one the pool can see through. */
  ghost predicate FitsAt(c: Config, st: nat -> State, n: nat, h: nat)
  {
    h < |st(n).reqs| && st(n).mem.blockSize > 0 ==> Fits(c, st(n).mem, st(n).reqs[h])
  }

  ghost predicate EverybodyFits(c: Config, st: nat -> State)
  {
    forall n: nat, h: nat {:trigger FitsAt(c, st, n, h)} :: FitsAt(c, st, n, h)
  }

  /** Request `h`, if it ever comes, is finished at some moment. */
  ghost predicate FinishesAt(st: nat -> State, n: nat, h: nat)
  {
    h < |st(n).reqs| ==> exists m: nat {:trigger st(m)} :: h < |st(m).reqs| && st(m).reqs[h].Done()
  }

  ghost predicate EverybodyFinishes(st: nat -> State)
  {
    forall n: nat, h: nat {:trigger FinishesAt(st, n, h)} :: FinishesAt(st, n, h)
  }

  lemma FitsAcross(c: Config, s: State, t: State, h: nat)
    requires s.mem.blockSize > 0 && GoOn(c, s, t) && h < |s.reqs|
    ensures h < |t.reqs| && (Fits(c, s.mem, s.reqs[h]) <==> Fits(c, t.mem, t.reqs[h]))
  {
    assert Evolved(c, s.reqs[h], t.reqs[h]);
    FitsEvolves(c, s.mem, s.reqs[h], t.reqs[h]);
    FitsSamePool(c, s.mem, t.mem, t.reqs[h]);
  }

  lemma DoneFits(c: Config, s: State, h: nat)
    requires Sound(c, s) && h < |s.reqs| && s.reqs[h].Done()
    ensures Fits(c, s.mem, s.reqs[h])
  {
    assert ReqOk(c, s.mem.blockSize, s.reqs[h]);
    StoppedFits(c, s, h);
  }

  lemma FinishedFits(c: Config, st: nat -> State, e: nat -> Event, n: nat, h: nat, m: nat)
    requires Open(c, st, e) && h < |st(n).reqs| && h < |st(m).reqs| && st(m).reqs[h].Done()
    ensures FitsAt(c, st, n, h)
  {
    SoundAt(c, st, e, n);
    SoundAt(c, st, e, m);
    DoneFits(c, st(m), h);
    if n <= m {
      Between(c, st, e, n, m);
      hide Open, GoOn;
      FitsAcross(c, st(n), st(m), h);
    } else {
      Between(c, st, e, m, n);
      hide Open, GoOn;
      FitsAcross(c, st(m), st(n), h);
    }
  }

  lemma ArrivalFits(c: Config, st: nat -> State, e: nat -> Event, n: nat)
    requires Stays(c, st, e, n) && Sound(c, st(n)) && EverybodyFits(c, st) && e(n).Arrival?
    ensures Fits(c, st(n).mem, Capped(c, e(n).r))
  {
    assert FitsAt(c, st, n + 1, |st(n).reqs|);
  }

  lemma FairFrom(c: Config, st: nat -> State, e: nat -> Event, n: nat, h: nat)
    requires Open(c, st, e) && EverybodyFits(c, st)
    ensures Ok(st(n)) && Fair(c, st(n), e(n), h) && st(n + 1) == Apply(c, st(n), e(n))
  {
    SoundAt(c, st, e, n);
    OpenAt(c, st, e, n);
    hide Open, Sound, EverybodyFits, Apply, Fits, Acceptable;
    if e(n).Arrival? { ArrivalFits(c, st, e, n); }
  }

  lemma GoodFrom(c: Config, st: nat -> State, e: nat -> Event, n: nat, h: nat)
    requires Open(c, st, e) && EverybodyFits(c, st) && h < |st(n).reqs|
    ensures Good(c, st(n), h)
  {
    SoundAt(c, st, e, n);
    hide Open;
    forall g | 0 <= g < |st(n).reqs| ensures Fits(c, st(n).mem, st(n).reqs[g]) {
      assert FitsAt(c, st, n, g);
    }
  }

  lemma LaterLinked(c: Config, st: nat -> State, e: nat -> Event, n: nat, h: nat, st': nat -> State, e': nat -> Event, k: nat)
    requires Open(c, st, e) && EverybodyFits(c, st)
    requires st'(k) == st(n + k) && st'(k + 1) == st(n + k + 1) && e'(k) == e(n + k)
    ensures Linked(c, st', e', h, k)
  {
    hide Open, EverybodyFits, Ok, Fair, Apply;
    FairFrom(c, st, e, n + k, h);
  }

  lemma LaterTick(c: Config, st: nat -> State, e: nat -> Event, n: nat, e': nat -> Event, k: nat)
    requires Open(c, st, e) && forall j: nat {:trigger e'(j)} :: e'(j) == e(n + j)
    ensures TickFrom(e', k)
  {
    hide Open, Sound, Stays;
    OpenAt(c, st, e, n + k);
    TickShifts(e, n, e', k);
  }

  lemma TickShifts(e: nat -> Event, n: nat, e': nat -> Event, k: nat)
    requires TickFrom(e, n + k) && forall j: nat {:trigger e'(j)} :: e'(j) == e(n + j)
    ensures TickFrom(e', k)
  {
    var m: nat :| m >= n + k && e(m) == Tick;
    assert e'(m - n) == Tick;
  }

  /** The run from its `n`-th moment on, seen from request `h`. */
  lemma LaterRun(c: Config, st: nat -> State, e: nat -> Event, n: nat, h: nat, st': nat -> State, e': nat -> Event)
    requires Open(c, st, e) && EverybodyFits(c, st) && h < |st(n).reqs|
    requires (forall k: nat {:trigger st'(k)} :: st'(k) == st(n + k)) && forall k: nat {:trigger e'(k)} :: e'(k) == e(n + k)
    ensures Endless(c, st', e', h)
  {
    hide Open, EverybodyFits, Good, Linked, TickFrom;
    GoodFrom(c, st, e, n, h);
    assert st'(0) == st(n);
    forall k: nat ensures Linked(c, st', e', h, k) && TickFrom(e', k) {
      assert st'(k) == st(n + k) && st'(k + 1) == st(n + k + 1) && e'(k) == e(n + k);
      LaterLinked(c, st, e, n, h, st', e', k);
      LaterTick(c, st, e, n, e', k);
    }
  }

  lemma FitFinishes(c: Config, st: nat -> State, e: nat -> Event, n: nat, h: nat)
    requires Open(c, st, e) && EverybodyFits(c, st) && h < |st(n).reqs|
    ensures FinishesAt(st, n, h)
  {
    hide Open, EverybodyFits, Endless;
    var st', e' := (k: nat) => st(n + k), (k: nat) => e(n + k);
    assert st'(0) == st(n);
    LaterRun(c, st, e, n, h, st', e');
    var m := Finishes(c, st', e', h, 0);
    assert st(n + m).reqs[h].Done();
  }

  /** In an endless run that nobody leaves, everybody finishes if and only if everybody is a request the pool
      can see through. */
  lemma ServedIff(c: Config, st: nat -> State, e: nat -> Event)
    requires Open(c, st, e)
    ensures EverybodyFinishes(st) <==> EverybodyFits(c, st)
  {
    if EverybodyFits(c, st) {
      forall n: nat, h: nat ensures FinishesAt(st, n, h) {
        if h < |st(n).reqs| { FitFinishes(c, st, e, n, h); }
      }
    }
    if EverybodyFinishes(st) {
      forall n: nat, h: nat ensures FitsAt(c, st, n, h) {
        if h < |st(n).reqs| {
          assert FinishesAt(st, n, h);
          var m: nat :| h < |st(m).reqs| && st(m).reqs[h].Done();
          FinishedFits(c, st, e, n, h, m);
        }
      }
    }
  }
}
