/** How requests leave: the finished ones give their memory back, and those whose client has gone end with the
    next step. */
module Leaving {
  import opened Seqs
  import opened Transformer
  import opened Requests
  import opened SchedulerSpec
  import opened Invariant
  import opened StepSafety
  import opened StepTheorem
  import opened Starvation
  import opened Runs

  /** Request `q` once the running list has been swept: it has left if it had stopped. */
  function Swept(q: Req): Req
  {
    if q.Done() then q.(state := Finished, table := []) else q
  }

  lemma {:induction false} SweepValues(s: State, i: nat)
    requires Ok(s) && i <= |s.running| && NoDup(s.running)
    ensures forall h {:trigger RetireFrom(s, i).reqs[h]} :: 0 <= h < |s.reqs| ==>
              RetireFrom(s, i).reqs[h] == if h in s.running[i..] then Swept(s.reqs[h]) else s.reqs[h]
    decreases |s.running| - i
  {
    if i < |s.running| {
      var g := s.running[i];
      var t := if s.reqs[g].Done() then RetireOne(s, i) else s;
      var j := if s.reqs[g].Done() then i else i + 1;
      SweepRest(s, i, t, j);
      hide RetireOne;
      SweepValues(t, j);
      forall h | 0 <= h < |s.reqs| ensures RetireFrom(s, i).reqs[h] == if h in s.running[i..] then Swept(s.reqs[h]) else s.reqs[h] {
        var _ := RetireFrom(t, j).reqs[h];
        var _ := t.reqs[h];
      }
    }
  }

  /** After one row the others are still to be swept. */
  lemma SweepRest(s: State, i: nat, t: State, j: nat)
    requires Ok(s) && i < |s.running| && NoDup(s.running)
    requires t == (if s.reqs[s.running[i]].Done() then RetireOne(s, i) else s) && j == if s.reqs[s.running[i]].Done() then i else i + 1
    ensures j <= |t.running| && NoDup(t.running) && t.running[j..] == s.running[i + 1..]
    ensures s.running[i] !in s.running[i + 1..] && s.running[i..] == [s.running[i]] + s.running[i + 1..]
    ensures forall h {:trigger t.reqs[h]} :: 0 <= h < |s.reqs| ==> t.reqs[h] == if h == s.running[i] then Swept(s.reqs[h]) else s.reqs[h]
  {
  }

  /** What retirement makes of a request, whoever else there is. */
  ghost predicate Retired(q: Req, r: Req)
  {
    match q.state
    case Running =>
      r == if q.Done() then q.(state := Finished, table := [])
           else if q.cancelled then q.(reason := Some(Cancelled), state := Finished, table := [])
           else q
    case Waiting => r == if q.cancelled then q.(state := Dropped) else q
    case _ => r == q
  }

  lemma RetireExact(c: Config, s: State, h: nat)
    requires StepInv(c, s) && Ok(s) && h < |s.reqs|
    ensures Retired(s.reqs[h], Retire(s).reqs[h])
  {
    var t := DropCancelled(s);
    DropCancelledKeeps(c, s);
    ListsMember(t.reqs, t.running, Running);
    NoneAdmitted(s.reqs, h);
    SweepValues(t, 0);
    assert t.running[0..] == t.running;
    RetiredValue(s.reqs[h], t.reqs[h], Retire(s).reqs[h], h in t.running) by {
      hide StepInv, RetireFrom;
      assert Retire(s).reqs[h] == RetireFrom(t, 0).reqs[h];
    }
  }

  lemma RetiredValue(q: Req, d: Req, r: Req, listed: bool)
    requires d == Disconnect(q) && (listed <==> d.state == Running) && r == if listed then Swept(d) else d
    ensures Retired(q, r)
  {
  }

  /** The next step after a client has gone ends its request if it has not stopped by itself: it says nothing
      more, holds no block, and a running one is finished with reason "cancelled". */
  lemma StepEndsCancelled(c: Config, s: State, h: nat)
    requires StepInv(c, s) && Ok(s) && h < |s.reqs| && s.reqs[h].cancelled && !s.reqs[h].Done()
    ensures var q, r := s.reqs[h], Step(c, s).reqs[h];
            && !r.Live() && r.out == q.out && r.stream == q.stream && r.table == []
            && (q.state == Running ==> r.state == Finished && r.reason == Some(Cancelled))
            && h !in Step(c, s).running && h !in Step(c, s).waiting
  {
    RetireKeeps(c, s);
    RetireExact(c, s, h);
    NoneAdmitted(s.reqs, h);
    assert ReqOk(c, s.mem.blockSize, s.reqs[h]);
    GoneStays(c, s, h);
  }

  /** The next step after a request has stopped takes its blocks back. */
  lemma StepRetiresDone(c: Config, s: State, h: nat)
    requires StepInv(c, s) && Ok(s) && h < |s.reqs| && s.reqs[h].Done()
    ensures Step(c, s).reqs[h] == s.reqs[h].(state := Finished, table := [])
    ensures h !in Step(c, s).running && h !in Step(c, s).waiting
  {
    RetireKeeps(c, s);
    RetireExact(c, s, h);
    NoneAdmitted(s.reqs, h);
    assert ReqOk(c, s.mem.blockSize, s.reqs[h]);
    GoneStays(c, s, h);
  }

  /** Whoever is in no list after retirement is left alone by the rest of the step. */
  lemma GoneStays(c: Config, s: State, h: nat)
    requires StepInv(c, s) && Ok(s) && h < |s.reqs| && StepInv(c, Retire(s)) && !Retire(s).reqs[h].Live()
    ensures Step(c, s).reqs[h] == Retire(s).reqs[h]
    ensures h !in Step(c, s).running && h !in Step(c, s).waiting
  {
    var r := Retire(s);
    var batch := RestOfStep(c, r);
    StepKeeps(c, s);
    var u := Step(c, s);
    assert !Touched(r, batch, h);
    var _ := u.reqs[h];
    ListsMember(u.reqs, u.running, Running);
    ListsMember(u.reqs, u.waiting, Waiting);
  }

  // ---------------------------------------------------------------- in runs

  /** Gone, having said `out`. */
  ghost predicate Gone(s: State, h: nat, out: seq<Token>)
  {
    h < |s.reqs| && !s.reqs[h].Live() && s.reqs[h].out == out && s.reqs[h].table == []
  }

  lemma GoneTick(c: Config, s: State, h: nat, out: seq<Token>)
    requires StepInv(c, s) && Ok(s) && Gone(s, h, out)
    ensures Gone(Step(c, s), h, out)
  {
    RetireKeeps(c, s);
    RetireExact(c, s, h);
    hide Step, Retire;
    GoneStays(c, s, h);
  }

  lemma GoneApply(c: Config, s: State, e: Event, h: nat, out: seq<Token>)
    requires StepInv(c, s) && Ok(s) && Possible(c, s, e) && Gone(s, h, out)
    ensures Gone(Apply(c, s, e), h, out)
  {
    if e == Tick {
      GoneTick(c, s, h, out);
    }
    hide Step;
  }

  lemma {:induction false} GoneForGood(c: Config, s: State, evs: seq<Event>, h: nat, out: seq<Token>)
    requires StepInv(c, s) && Possibles(c, s, evs) && Gone(s, h, out)
    ensures Gone(Run(c, s, evs), h, out)
    decreases |evs|
  {
    if evs != [] {
      hide StepInv, Apply, Gone, Possible;
      ApplyKeeps(c, s, evs[0]);
      GoneApply(c, s, evs[0], h, out);
      GoneForGood(c, Apply(c, s, evs[0]), evs[1..], h, out);
    }
  }

  /** Its client has left and it has not stopped. */
  ghost predicate Abandoned(s: State, h: nat, out: seq<Token>)
  {
    h < |s.reqs| && s.reqs[h].cancelled && !s.reqs[h].Done() && s.reqs[h].out == out
  }

  lemma AbandonedWaits(c: Config, s: State, e: Event, h: nat, out: seq<Token>)
    requires Ok(s) && Possible(c, s, e) && Abandoned(s, h, out) && e != Tick
    ensures Abandoned(Apply(c, s, e), h, out)
  {
  }

  lemma AbandonedTick(c: Config, s: State, h: nat, out: seq<Token>)
    requires StepInv(c, s) && Ok(s) && Abandoned(s, h, out)
    ensures Gone(Step(c, s), h, out)
  {
    StepEndsCancelled(c, s, h);
  }

  lemma {:induction false} AbandonedEnds(c: Config, s: State, evs: seq<Event>, h: nat, out: seq<Token>)
    requires StepInv(c, s) && Possibles(c, s, evs) && Abandoned(s, h, out) && Tick in evs
    ensures Gone(Run(c, s, evs), h, out)
    decreases |evs|
  {
    hide StepInv, Apply, Gone, Abandoned;
    ApplyKeeps(c, s, evs[0]);
    var t := Apply(c, s, evs[0]);
    if evs[0] == Tick {
      TickIsStep(c, s);
      AbandonedTick(c, s, h, out);
      GoneForGood(c, t, evs[1..], h, out);
    } else {
      AbandonedWaits(c, s, evs[0], h, out);
      assert evs == [evs[0]] + evs[1..];
      AbandonedEnds(c, t, evs[1..], h, out);
    }
  }

  /** In every run, whatever else happens: from the first step after its client has left, a request that had
      not stopped is neither waiting nor running, holds no block, and has said what it had said when the client
      left. */
  lemma HangupEnds(c: Config, s: State, evs: seq<Event>, h: nat)
    requires StepInv(c, s) && Possibles(c, s, [Hangup(h)] + evs) && h < |s.reqs| && !s.reqs[h].Done() && Tick in evs
    ensures var u := Run(c, s, [Hangup(h)] + evs);
            && h < |u.reqs| && !u.reqs[h].Live() && u.reqs[h].out == s.reqs[h].out && u.reqs[h].table == []
  {
    var all := [Hangup(h)] + evs;
    assert all[0] == Hangup(h) && all[1..] == evs;
    ApplyKeeps(c, s, all[0]);
    var t := Cancel(s, h);
    AbandonedEnds(c, t, evs, h, s.reqs[h].out);
  }

  lemma TickIsStep(c: Config, s: State)
    requires Ok(s)
    ensures Apply(c, s, Tick) == Step(c, s)
  {
  }
}
