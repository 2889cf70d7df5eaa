/** Whole runs: any arrivals and cancellations between any steps. */
module Runs {
  import opened Seqs
  import opened BlockMath
  import opened Transformer
  import opened Reference
  import opened Requests
  import opened Alloc
  import opened BlockManager
  import opened SchedulerSpec
  import opened Invariant
  import opened Preservation
  import opened StepSafety
  import opened StepTheorem
  import opened Liveness

  /** What the outside world does: submit a request, disconnect from one, or let the engine loop once. */
  datatype Event = Arrival(r: Req) | Hangup(h: nat) | Tick

  /** A request the API lets through: fresh, with 1..maxContext-1 prompt tokens, arriving after all the
      others. Ids and budgets are the clients' own and may be anything. */
  ghost predicate Sendable(c: Config, s: State, r: Req)
  {
    && r == NewReq(r.id, r.prompt, r.maxNew, r.ignoreEos, r.arrival, r.sampler)
    && 0 < |r.prompt| < c.maxContext
    && forall g {:trigger s.reqs[g]} :: 0 <= g < |s.reqs| ==> s.reqs[g].arrival < r.arrival
  }

  /** Worst-case admission relies on its commitments, which are kept by id: no live request may be using the
      id, and the commitment must cover the prompt. */
  ghost predicate Committing(c: Config, s: State, r: Req)
    requires s.mem.blockSize > 0
  {
    && PromptCovered(s.mem.blockSize, Capped(c, r))
    && forall g {:trigger s.reqs[g]} :: 0 <= g < |s.reqs| && s.reqs[g].Live() ==> s.reqs[g].id != r.id
  }

  ghost predicate Acceptable(c: Config, s: State, r: Req)
  {
    Sendable(c, s, r) && (s.mem.kind == Blocks(true) ==> s.mem.blockSize > 0 && Committing(c, s, r))
  }

  /** What the outside world may do, whatever the memory mode. */
  ghost predicate Sent(c: Config, s: State, e: Event)
  {
    match e
    case Arrival(r) => Sendable(c, s, r)
    case Hangup(h) => h < |s.reqs|
    case Tick => true
  }

  /** What it may do without upsetting worst-case admission. */
  ghost predicate Possible(c: Config, s: State, e: Event)
  {
    match e
    case Arrival(r) => Acceptable(c, s, r)
    case Hangup(h) => h < |s.reqs|
    case Tick => true
  }

  ghost function Apply(c: Config, s: State, e: Event): State
    requires Ok(s) && Sent(c, s, e)
  {
    match e
    case Arrival(r) => Submit(c, s, r)
    case Hangup(h) => Cancel(s, h)
    case Tick => Step(c, s)
  }

  // ---------------------------------------------------------------- submission and cancellation

  lemma HandlesAppend(reqs: seq<Req>, r: Req, p: Phase)
    ensures Handles(reqs + [r], p) == if r.state == p then Handles(reqs, p) + multiset{|reqs|} else Handles(reqs, p)
  {
    assert (reqs + [r])[..|reqs|] == reqs;
  }

  lemma SubmittedReqOk(c: Config, b: nat, s: State, r: Req)
    requires b > 0 && Acceptable(c, s, r)
    ensures ReqOk(c, b, Capped(c, r)) && SettledOne(b, Capped(c, r)) && Capped(c, r).state == Waiting && Capped(c, r).table == []
  {
  }

  lemma SubmitPairs(c: Config, s: State, r: Req)
    requires Acceptable(c, s, r) && AllPairsOk(s.reqs)
    ensures AllPairsOk(s.reqs + [Capped(c, r)])
  {
    var rs := s.reqs + [Capped(c, r)];
    forall g, h | 0 <= g < h < |rs| ensures PairOk(rs[g], rs[h]) {
      if h < |s.reqs| {
        assert PairOk(s.reqs[g], s.reqs[h]);
      } else {
        var _ := s.reqs[g];
      }
    }
  }

  lemma SubmitKeeps(c: Config, s: State, r: Req)
    requires StepInv(c, s) && Acceptable(c, s, r)
    ensures StepInv(c, Submit(c, s, r))
  {
    var q := Capped(c, r);
    var b := s.mem.blockSize;
    SubmittedReqOk(c, b, s, r);
    SubmitPairs(c, s, r);
    HandlesAppend(s.reqs, q, Waiting);
    HandlesAppend(s.reqs, q, Running);
    HandlesAppend(s.reqs, q, Admitted);
    TablesAppend(s.reqs, q);
    SubmitRest(c, b, s.reqs, q, s.admits);
    SubmitCommits(c, s, r);
    hide Handles, Tables, CommittedOk, AllPairsOk, AllReqsOk, Settled, AdmitsBounded;
  }

  lemma SubmitCommits(c: Config, s: State, r: Req)
    requires s.mem.blockSize > 0 && Acceptable(c, s, r) && CommittedOk(s.mem, s.reqs)
    ensures CommittedOk(s.mem, s.reqs + [Capped(c, r)])
  {
    var rs := s.reqs + [Capped(c, r)];
    assert rs[..|s.reqs|] == s.reqs;
    if s.mem.kind == Blocks(true) {
      forall g, h | 0 <= g < h < |rs| ensures IdsDiffer(rs[g], rs[h]) {
        if h < |s.reqs| {
          assert IdsDiffer(s.reqs[g], s.reqs[h]);
        } else {
          var _ := s.reqs[g];
        }
      }
      forall h | 0 <= h < |rs| ensures PromptCovered(s.mem.blockSize, rs[h]) {
        if h < |s.reqs| { assert PromptCovered(s.mem.blockSize, s.reqs[h]); }
      }
    }
  }

  lemma SubmitRest(c: Config, b: nat, reqs: seq<Req>, q: Req, admits: int)
    requires b > 0 && AllReqsOk(c, b, reqs) && Settled(b, reqs) && AdmitsBounded(reqs, admits)
    requires ReqOk(c, b, q) && SettledOne(b, q) && !q.Holds()
    ensures AllReqsOk(c, b, reqs + [q]) && Settled(b, reqs + [q]) && AdmitsBounded(reqs + [q], admits)
  {
    var rs := reqs + [q];
    forall h | 0 <= h < |rs| ensures ReqOk(c, b, rs[h]) && SettledOne(b, rs[h]) {
      if h < |reqs| { assert ReqOk(c, b, reqs[h]) && SettledOne(b, reqs[h]); }
    }
    forall h | 0 <= h < |rs| && rs[h].Holds() ensures rs[h].admitSeq < admits {
      assert reqs[h].Holds();
    }
  }

  /** Apart from the flag itself, cancellation changes nothing until the next retirement. */
  lemma CancelKeeps(c: Config, s: State, h: nat)
    requires StepInv(c, s) && h < |s.reqs|
    ensures StepInv(c, Cancel(s, h))
  {
    var r := s.reqs[h].(cancelled := true);
    CancelReqs(c, s.mem.blockSize, s.reqs, h, r);
    CancelQuiet(s.reqs, h, r);
    QuietKeeps(c, s.mem, s.reqs, s.reqs[h := r], s.admits);
  }

  lemma CancelReqs(c: Config, b: nat, reqs: seq<Req>, h: nat, r: Req)
    requires b > 0 && h < |reqs| && AllReqsOk(c, b, reqs) && Settled(b, reqs) && r == reqs[h].(cancelled := true)
    ensures AllReqsOk(c, b, reqs[h := r]) && Settled(b, reqs[h := r])
  {
    assert ReqOk(c, b, reqs[h]) && SettledOne(b, reqs[h]);
    ReqChanges(c, b, reqs, h, r);
    SettledUpdate(b, reqs, h, r);
  }

  lemma CancelQuiet(reqs: seq<Req>, h: nat, r: Req)
    requires h < |reqs| && r == reqs[h].(cancelled := true)
    ensures AllQuiet(reqs, reqs[h := r])
    ensures forall p {:trigger Handles(reqs, p)} :: Handles(reqs[h := r], p) == Handles(reqs, p)
  {
    var rs := reqs[h := r];
    forall g | 0 <= g < |reqs| ensures Quiet(reqs[g], rs[g]) {}
    forall p ensures Handles(rs, p) == Handles(reqs, p) {
      HandlesSame(reqs, rs, p);
    }
  }

  lemma ApplyKeeps(c: Config, s: State, e: Event)
    requires StepInv(c, s) && Possible(c, s, e)
    ensures Ok(s) && StepInv(c, Apply(c, s, e)) && |s.reqs| <= |Apply(c, s, e).reqs| && SamePool(s, Apply(c, s, e))
  {
    InvOk(c, s, []);
    match e
    case Arrival(r) => SubmitKeeps(c, s, r);
    case Hangup(h) => CancelKeeps(c, s, h);
    case Tick => StepKeeps(c, s);
  }

  // ---------------------------------------------------------------- runs

  /** The freshly built engine. */
  function Start(kind: Kind, numBlocks: nat, blockSize: nat): State
  {
    State([], [], [], Memory(kind, numBlocks, blockSize, Countdown(numBlocks), map[]), 0, false)
  }

  lemma StartOk(c: Config, kind: Kind, numBlocks: nat, blockSize: nat)
    requires Matches(c, Start(kind, numBlocks, blockSize).mem)
    ensures StepInv(c, Start(kind, numBlocks, blockSize))
  {
    CountdownAll(numBlocks);
  }

  /** `evs` is possible from `s`, event by event. */
  ghost predicate Possibles(c: Config, s: State, evs: seq<Event>)
    decreases |evs|
  {
    evs == [] || (Ok(s) && Possible(c, s, evs[0]) && Possibles(c, Apply(c, s, evs[0]), evs[1..]))
  }

  ghost function Run(c: Config, s: State, evs: seq<Event>): State
    requires Possibles(c, s, evs)
    decreases |evs|
  {
    if evs == [] then s else Run(c, Apply(c, s, evs[0]), evs[1..])
  }

  lemma RunOn(c: Config, s: State, e: Event, evs: seq<Event>, t: State)
    requires Ok(s) && Possible(c, s, e) && t == Apply(c, s, e) && Possibles(c, t, evs)
    ensures Possibles(c, s, [e] + evs) && Run(c, s, [e] + evs) == Run(c, t, evs)
  {
    assert ([e] + evs)[1..] == evs;
  }

  function Submission(e: Event): seq<Req>
  {
    if e.Arrival? then [e.r] else []
  }

  /** The requests submitted in a run, in order, as the clients gave them. */
  function Submissions(evs: seq<Event>): seq<Req>
  {
    if evs == [] then [] else
      Submission(evs[0]) + Submissions(evs[1..])
  }

  /** Safety of every run: whatever arrives, whoever disconnects, in whatever order, batching mode and
      memory mode, every reachable state is consistent and nothing has faulted. */
  lemma {:induction false} RunSafe(c: Config, s: State, evs: seq<Event>)
    requires StepInv(c, s) && Possibles(c, s, evs)
    ensures StepInv(c, Run(c, s, evs)) && SamePool(s, Run(c, s, evs))
    decreases |evs|
  {
    if evs != [] {
      ApplyKeeps(c, s, evs[0]);
      RunSafe(c, Apply(c, s, evs[0]), evs[1..]);
    }
  }

  // ---------------------------------------------------------------- schedule independence

  /** What a submitted request should say, on its own. */
  ghost function Expected(c: Config, r: Req): seq<Token>
    requires r.prompt != []
  {
    Generate(c.net, JobOf(r), c.maxContext, c.eos, r.sampler)
  }

  lemma SubmitExpected(c: Config, s: State, r: Req)
    requires Acceptable(c, s, r)
    ensures Completion(c, Capped(c, r)) == Expected(c, r)
  {
    CapAgrees(c.net, JobOf(r), c.maxContext, c.eos, [], r.sampler);
    var cap := c.maxContext - |r.prompt|;
    assert JobOf(Capped(c, r)) == JobOf(r).(maxNew := if cap < r.maxNew then cap else r.maxNew);
  }

  /** Every request in the state will say what its own submission calls for. */
  ghost predicate OnCourse(c: Config, subs: seq<Req>, s: State)
  {
    && |subs| == |s.reqs|
    && forall h {:trigger CourseOf(c, subs[h], s.reqs[h])} :: 0 <= h < |subs| ==> CourseOf(c, subs[h], s.reqs[h])
  }

  ghost predicate CourseOf(c: Config, sub: Req, r: Req)
  {
    && sub.prompt != [] && r.prompt != [] && r.prompt == sub.prompt && Completion(c, r) == Expected(c, sub)
    && r.maxNew == Capped(c, sub).maxNew
    && (r.out, r.sampler) == Draws(c.net, sub.prompt, [], sub.sampler, |r.out|)
  }

  lemma CourseFollows(c: Config, sub: Req, q: Req, r: Req)
    requires CourseOf(c, sub, q) && Evolved(c, q, r)
    ensures CourseOf(c, sub, r)
  {
    DrawsAdd(c.net, sub.prompt, [], sub.sampler, |q.out|, |r.out| - |q.out|);
  }

  lemma CourseCancelled(c: Config, sub: Req, q: Req)
    requires CourseOf(c, sub, q)
    ensures CourseOf(c, sub, q.(cancelled := true))
  {
    assert JobOf(q.(cancelled := true)) == JobOf(q);
  }

  lemma CourseBegins(c: Config, s: State, r: Req)
    requires Acceptable(c, s, r)
    ensures CourseOf(c, r, Capped(c, r))
  {
    SubmitExpected(c, s, r);
  }

  lemma ApplyCourse(c: Config, subs: seq<Req>, s: State, e: Event)
    requires StepInv(c, s) && Ok(s) && Possible(c, s, e) && OnCourse(c, subs, s)
    ensures OnCourse(c, subs + Submission(e), Apply(c, s, e))
  {
    hide CourseOf, StepInv, Step, Evolved;
    var t := Apply(c, s, e);
    match e
    case Arrival(r) =>
      CourseBegins(c, s, r);
      forall h | 0 <= h < |t.reqs| ensures CourseOf(c, (subs + [r])[h], t.reqs[h]) {
        if h < |subs| { assert CourseOf(c, subs[h], s.reqs[h]); }
      }
    case Hangup(g) =>
      forall h | 0 <= h < |t.reqs| ensures CourseOf(c, subs[h], t.reqs[h]) {
        assert CourseOf(c, subs[h], s.reqs[h]);
        CourseCancelled(c, subs[h], s.reqs[h]);
      }
    case Tick =>
      StepKeeps(c, s);
      forall h | 0 <= h < |t.reqs| ensures CourseOf(c, subs[h], t.reqs[h]) {
        assert Evolved(c, s.reqs[h], t.reqs[h]);
        CourseFollows(c, subs[h], s.reqs[h], t.reqs[h]);
      }
  }

  lemma {:induction false} RunCourse(c: Config, subs: seq<Req>, s: State, evs: seq<Event>)
    requires StepInv(c, s) && Possibles(c, s, evs) && OnCourse(c, subs, s)
    ensures OnCourse(c, subs + Submissions(evs), Run(c, s, evs))
    decreases |evs|
  {
    if evs == [] {
      assert subs + Submissions(evs) == subs;
    } else {
      ApplyKeeps(c, s, evs[0]);
      ApplyCourse(c, subs, s, evs[0]);
      SubmissionsSplit(subs, evs);
      RunCourse(c, subs + Submission(evs[0]), Apply(c, s, evs[0]), evs[1..]);
    }
  }

  lemma SubmissionsSplit(subs: seq<Req>, evs: seq<Event>)
    requires evs != []
    ensures subs + Submission(evs[0]) + Submissions(evs[1..]) == subs + Submissions(evs)
  {
  }

  /** `xs` is a prefix of `ys`. */
  ghost predicate Prefix(xs: seq<Token>, ys: seq<Token>)
  {
    |xs| <= |ys| && ys[..|xs|] == xs
  }

  lemma OutIsPrefix(c: Config, r: Req)
    requires r.prompt != []
    ensures Prefix(r.out, Completion(c, r))
  {
    assert r.out[..|r.out|] == r.out;
  }

  /** Schedule independence. In every run from a fresh engine (any arrivals, static or continuous
      batching, slots or blocks of any size, preemption on or off, any neighbours), what a request has said
      is a prefix of what it would say alone, and all of it once it has stopped. With a sampler the same
      holds for its seeded draws: its generator has made exactly one draw per token said, none of them for a
      neighbour and none repeated when its K/V is recomputed. */
  lemma ScheduleIndependence(c: Config, kind: Kind, numBlocks: nat, blockSize: nat, evs: seq<Event>, h: nat)
    requires Matches(c, Start(kind, numBlocks, blockSize).mem)
    requires Possibles(c, Start(kind, numBlocks, blockSize), evs)
    requires h < |Submissions(evs)|
    ensures var s := Run(c, Start(kind, numBlocks, blockSize), evs); var sub := Submissions(evs)[h];
            && |s.reqs| == |Submissions(evs)| && sub.prompt != []
            && Prefix(s.reqs[h].out, Expected(c, sub))
            && Traced(c.net, sub.prompt, s.reqs[h].out, sub.sampler, s.reqs[h].sampler)
            && (s.reqs[h].Done() && s.reqs[h].reason != Some(Cancelled) ==> s.reqs[h].out == Expected(c, sub))
  {
    var s0 := Start(kind, numBlocks, blockSize);
    StartOk(c, kind, numBlocks, blockSize);
    RunCourse(c, [], s0, evs);
    assert [] + Submissions(evs) == Submissions(evs);
    hide StepInv, Run, Possibles, CourseOf, Traced, Expected;
    OnCourseSays(c, Submissions(evs), Run(c, s0, evs), h);
  }

  lemma OnCourseSays(c: Config, subs: seq<Req>, s: State, h: nat)
    requires OnCourse(c, subs, s) && h < |subs|
    ensures subs[h].prompt != [] && Prefix(s.reqs[h].out, Expected(c, subs[h]))
    ensures Traced(c.net, subs[h].prompt, s.reqs[h].out, subs[h].sampler, s.reqs[h].sampler)
    ensures s.reqs[h].Done() && s.reqs[h].reason != Some(Cancelled) ==> s.reqs[h].out == Expected(c, subs[h])
  {
    assert CourseOf(c, subs[h], s.reqs[h]);
    OutIsPrefix(c, s.reqs[h]);
    TracedIff(c.net, subs[h].prompt, s.reqs[h].out, subs[h].sampler, s.reqs[h].sampler);
    match s.reqs[h].reason
    case None =>
    case Some(why) => assert why == Length || why == Stop || why == Cancelled;
  }

  // ---------------------------------------------------------------- what every reachable state looks like

  /** What a client is told about the end. In every reachable state a request that has not been cancelled has
      stopped exactly if its budget is spent or its text has ended and may end, and the reason says which; a
      spent budget goes before an ended text. */
  lemma FinishReasons(c: Config, kind: Kind, numBlocks: nat, blockSize: nat, evs: seq<Event>, h: nat)
    requires Matches(c, Start(kind, numBlocks, blockSize).mem) && Possibles(c, Start(kind, numBlocks, blockSize), evs)
    requires h < |Run(c, Start(kind, numBlocks, blockSize), evs).reqs|
    ensures var r := Run(c, Start(kind, numBlocks, blockSize), evs).reqs[h];
            if r.out == [] then r.reason == None || r.reason == Some(Cancelled)
            else
              var ended := r.out[|r.out| - 1] in c.eos && !r.ignoreEos;
              && (r.reason == Some(Length) <==> |r.out| >= r.maxNew)
              && (r.reason == Some(Stop) <==> |r.out| < r.maxNew && ended)
              && (r.reason == None ==> |r.out| < r.maxNew && !ended)
              && (r.reason == Some(Cancelled) ==> r.cancelled && |r.out| < r.maxNew && !ended)
  {
    var s0 := Start(kind, numBlocks, blockSize);
    StartOk(c, kind, numBlocks, blockSize);
    RunSafe(c, s0, evs);
    var s := Run(c, s0, evs);
    assert ReqOk(c, s.mem.blockSize, s.reqs[h]);
  }

  /** Conservation. The free list and the tables partition the pool; each request is in exactly the list
      its state says, once; tables do not overlap and have the exact lazy size; and the sinks have heard
      exactly the tokens said, with the end announced on the last token of a finished request only. */
  lemma Conservation(c: Config, s: State)
    requires StepInv(c, s)
    ensures multiset(s.mem.free) + Tables(s.reqs) == Indices(s.mem.numBlocks)
    ensures forall h: nat {:trigger multiset(s.waiting)[h]} :: multiset(s.waiting)[h] == if h < |s.reqs| && s.reqs[h].state == Waiting then 1 else 0
    ensures forall h: nat {:trigger multiset(s.running)[h]} :: multiset(s.running)[h] == if h < |s.reqs| && s.reqs[h].state == Running then 1 else 0
    ensures |s.running| <= c.maxBatch
    ensures forall h :: 0 <= h < |s.reqs| ==>
              && s.reqs[h].state != Admitted
              && |s.reqs[h].table| == (if s.reqs[h].state == Running then CeilDiv(s.reqs[h].SeqLen() - 1, s.mem.blockSize) else 0)
              && Streamed(s.reqs[h]) && s.reqs[h].preempts <= |s.reqs[h].out|
    ensures forall g, h :: 0 <= g < h < |s.reqs| ==> forall b :: b in s.reqs[g].table ==> b !in s.reqs[h].table
  {
    forall h | 0 <= h < |s.reqs|
      ensures s.reqs[h].state != Admitted
      ensures |s.reqs[h].table| == if s.reqs[h].state == Running then CeilDiv(s.reqs[h].SeqLen() - 1, s.mem.blockSize) else 0
      ensures Streamed(s.reqs[h]) && s.reqs[h].preempts <= |s.reqs[h].out|
    {
      NoneAdmitted(s.reqs, h);
      assert ReqOk(c, s.mem.blockSize, s.reqs[h]) && SettledOne(s.mem.blockSize, s.reqs[h]);
    }
    forall h: nat ensures multiset(s.waiting)[h] == (if h < |s.reqs| && s.reqs[h].state == Waiting then 1 else 0) {
      assert multiset(s.waiting)[h] == Handles(s.reqs, Waiting)[h];
    }
    forall h: nat ensures multiset(s.running)[h] == (if h < |s.reqs| && s.reqs[h].state == Running then 1 else 0) {
      assert multiset(s.running)[h] == Handles(s.reqs, Running)[h];
    }
    forall g, h | 0 <= g < h < |s.reqs| ensures forall b :: b in s.reqs[g].table ==> b !in s.reqs[h].table {
      TablesDisjoint(s, g, h);
    }
  }

  lemma NoneAdmitted(reqs: seq<Req>, h: nat)
    requires Lists(reqs, [], Admitted) && h < |reqs|
    ensures reqs[h].state != Admitted
  {
    ListsMember(reqs, [], Admitted);
    assert h !in [];
  }

  lemma TablesDisjoint(s: State, g: nat, h: nat)
    requires BlocksPartitioned(s.mem, s.reqs) && g < h < |s.reqs|
    ensures forall b :: b in s.reqs[g].table ==> b !in s.reqs[h].table
  {
    TablesPair(s.reqs, g, h);
    var x, y := multiset(s.reqs[g].table), multiset(s.reqs[h].table);
    forall b | b in s.reqs[g].table ensures b !in s.reqs[h].table {
      assert b in x;
      assert (x + y)[b] <= Tables(s.reqs)[b] <= Indices(s.mem.numBlocks)[b] <= 1;
    }
  }

  /** Tokens whose K/V is stored: all of each running request's but its newest. */
  function StoredTokens(reqs: seq<Req>): int
  {
    if reqs == [] then 0 else
      var r := reqs[|reqs| - 1];
      StoredTokens(reqs[..|reqs| - 1]) + (if r.state == Running then r.SeqLen() - 1 else 0)
  }

  function RunningCount(reqs: seq<Req>): nat
  {
    if reqs == [] then 0 else
      RunningCount(reqs[..|reqs| - 1]) + (if reqs[|reqs| - 1].state == Running then 1 else 0)
  }

  /** One request's share: its blocks hold its stored tokens with less than a block to spare. */
  lemma OneLazy(c: Config, b: nat, r: Req)
    requires b > 0 && ReqOk(c, b, r) && SettledOne(b, r) && r.state != Admitted
    ensures r.state != Running ==> r.table == []
    ensures r.state == Running ==> r.SeqLen() - 1 <= |r.table| * b < r.SeqLen() - 1 + b
  {
    if r.state == Running {
      CeilDivBounds(r.SeqLen() - 1, b);
      assert (CeilDiv(r.SeqLen() - 1, b) - 1) * b == CeilDiv(r.SeqLen() - 1, b) * b - b;
    }
  }

  lemma {:induction false} LazyTotal(c: Config, b: nat, reqs: seq<Req>)
    requires b > 0 && AllReqsOk(c, b, reqs) && Settled(b, reqs) && forall h :: 0 <= h < |reqs| ==> reqs[h].state != Admitted
    ensures StoredTokens(reqs) <= |Tables(reqs)| * b <= StoredTokens(reqs) + RunningCount(reqs) * (b - 1)
  {
    if reqs != [] {
      var n := |reqs| - 1;
      assert ReqOk(c, b, reqs[n]) && SettledOne(b, reqs[n]);
      OneLazy(c, b, reqs[n]);
      LazyPrefix(c, b, reqs);
      LazyTotal(c, b, reqs[..n]);
      assert |Tables(reqs)| == |Tables(reqs[..n])| + |reqs[n].table|;
      Distributes(|Tables(reqs[..n])|, |reqs[n].table|, b);
      Distributes(RunningCount(reqs[..n]), 1, b - 1);
    }
  }

  lemma LazyPrefix(c: Config, b: nat, reqs: seq<Req>)
    requires b > 0 && reqs != [] && AllReqsOk(c, b, reqs) && Settled(b, reqs)
    ensures AllReqsOk(c, b, reqs[..|reqs| - 1]) && Settled(b, reqs[..|reqs| - 1])
  {
    var n := |reqs| - 1;
    forall h | 0 <= h < n ensures ReqOk(c, b, reqs[..n][h]) && SettledOne(b, reqs[..n][h]) {
      assert ReqOk(c, b, reqs[h]) && SettledOne(b, reqs[h]);
    }
  }

  lemma Distributes(x: int, y: int, z: int)
    ensures (x + y) * z == x * z + y * z
  {
  }

  /** Exact lazy allocation: in every state between steps the used blocks hold the stored tokens with at
      most blockSize - 1 positions to spare per running request. */
  lemma LazyAllocation(c: Config, s: State)
    requires StepInv(c, s)
    ensures var used := s.mem.numBlocks - |s.mem.free|;
            StoredTokens(s.reqs) <= used * s.mem.blockSize <= StoredTokens(s.reqs) + RunningCount(s.reqs) * (s.mem.blockSize - 1)
  {
    forall h | 0 <= h < |s.reqs| ensures s.reqs[h].state != Admitted {
      NoneAdmitted(s.reqs, h);
    }
    LazyTotal(c, s.mem.blockSize, s.reqs);
    FreeCount(s);
  }

  /** An idle engine has every block back. */
  lemma IdleAllFree(c: Config, s: State)
    requires StepInv(c, s) && !HasWork(s)
    ensures multiset(s.mem.free) == Indices(s.mem.numBlocks) && |s.mem.free| == s.mem.numBlocks
  {
    NobodyHolds(c, s);
    FreeCount(s);
  }

  // ---------------------------------------------------------------- draining

  /** Stepping without new arrivals, the engine runs out of work within `n` steps. */
  ghost predicate IdleWithin(c: Config, s: State, n: nat)
    requires Ok(s)
    decreases n
  {
    !HasWork(s) || (n > 0 && IdleWithin(c, Step(c, s), n - 1))
  }

  ghost function Remaining(s: State): int
  {
    Total(s.reqs, (h: nat) => true)
  }

  lemma IdleStays(c: Config, s: State)
    requires StepInv(c, s) && Ok(s) && !HasWork(Retire(s))
    ensures !HasWork(Step(c, s))
  {
    RetireKeeps(c, s);
    var r := Retire(s);
    var a := AdmitKeeps(c, r);
    var t := Admit(c, r);
    assert t.running == [] && t.waiting == [] by {
      assert |multiset(SortWaiting(r).waiting)| == |multiset(r.waiting)| == 0 by { SortWaitingKeeps(c, r); }
      assert SortWaiting(r).waiting == [];
    }
  }

  /** A step with anything to do leaves fewer tokens to say, or leaves nothing to do. */
  lemma StepDrains(c: Config, s: State)
    requires StepInv(c, s) && AllFit(c, s)
    ensures Ok(s) && StepInv(c, Step(c, s)) && AllFit(c, Step(c, s))
    ensures 0 <= Remaining(Step(c, s)) <= Remaining(s)
    ensures HasWork(Step(c, s)) ==> Remaining(Step(c, s)) < Remaining(s)
  {
    StepKeeps(c, s);
    FitCarries(c, s, Step(c, s));
    if HasWork(Step(c, s)) {
      if !HasWork(Retire(s)) { IdleStays(c, s); }
      StepProgress(c, s);
    }
    RemainingDrops(c, s, Step(c, s));
  }

  lemma RemainingDrops(c: Config, s: State, t: State)
    requires StepInv(c, s) && StepInv(c, t) && AllEvolved(c, s.reqs, t.reqs) && t.mem.blockSize == s.mem.blockSize
    ensures 0 <= Remaining(t) <= Remaining(s)
    ensures SomeGrew(s.reqs, t.reqs) ==> Remaining(t) < Remaining(s)
  {
    TotalDrops(c, s.mem.blockSize, s.reqs, t.reqs, (h: nat) => true, (h: nat) => true);
  }

  /** With no new arrivals the queue drains within one step more than there are tokens left to say. */
  lemma {:induction false} Drains(c: Config, s: State, n: nat)
    requires StepInv(c, s) && Ok(s) && AllFit(c, s) && n > Remaining(s)
    ensures IdleWithin(c, s, n)
    decreases n
  {
    StepDrains(c, s);
    if n > 1 && HasWork(Step(c, s)) {
      Drains(c, Step(c, s), n - 1);
    }
  }
}
