/** The run in which admission's headroom falls short: two requests, four blocks of one token each. */
module HeadroomRun {
  import opened Seqs
  import opened Transformer
  import opened Requests
  import opened Alloc
  import opened BlockManager
  import opened SchedulerSpec
  import opened Invariant
  import opened StepSafety
  import opened StepTheorem
  import opened Headroom
  import opened Runs

  /** Continuous batching with preemption, two rows, a context of eight; the network is any network. */
  ghost predicate SmallConfig(c: Config)
  {
    !c.isStatic && c.preemption && c.maxBatch == 2 && c.maxContext == 8
  }

  /** Two greedy requests of one prompt token each that do not stop at an end-of-text token. */
  const First: Req := NewReq("a", [0], 3, true, 0, None)

  const Second: Req := NewReq("b", [0], 2, true, 1, None)

  /** What the network says after a text. */
  ghost function Said(c: Config, text: seq<Token>): Token
    requires text != []
  {
    c.net.argmax(Logits(c.net, text))
  }

  function Pool(free: seq<nat>, committed: map<string, int>): Memory
  {
    Memory(Blocks(false), 4, 1, free, committed)
  }

  /** The first request once it has been admitted and has said `out`, nothing of it the last token. */
  function FirstAt(out: seq<Token>, table: seq<nat>): Req
  {
    First.(state := Running, admitSeq := 0, table := table, out := out, stream := Open(out))
  }

  /** The sink's log of tokens none of which is the last. */
  function Open(out: seq<Token>): seq<(Token, bool)>
  {
    seq(|out|, i requires 0 <= i < |out| => (out[i], false))
  }

  /** The first request has been submitted. */
  function Queued(): State
  {
    State([First], [0], [], Pool([3, 2, 1, 0], map[]), 0, false)
  }

  /** It has been prefilled and has said `x`. */
  function AfterPrefill(x: Token): State
  {
    State([FirstAt([x], [0])], [], [0], Pool([3, 2, 1], map["a" := 4]), 1, false)
  }

  /** It has been decoded too and has said `y`. */
  function AfterTick(x: Token, y: Token): State
  {
    State([FirstAt([x, y], [0, 1])], [], [0], Pool([3, 2], map["a" := 4]), 1, false)
  }

  /** The second request has arrived. */
  function Tight(x: Token, y: Token): State
  {
    State([FirstAt([x, y], [0, 1]), Second], [1], [0], Pool([3, 2], map["a" := 4]), 1, false)
  }

  // ---------------------------------------------------------------- one row in the queue

  lemma SortedAlone(s: State, h: nat)
    requires Ok(s) && s.waiting == [h]
    ensures SortWaiting(s) == s
  {
    RankInPlace(WaitKeys(s.reqs, [h]));
    hide Rank;
  }

  /** A queue of one whose head fits is popped once. */
  lemma PopsOnce(s: State, h: nat, limit: int, u: State)
    requires Ok(s) && s.waiting == [h] && s.mem.CanAllocate(s.reqs[h], |s.running|) && 0 <= s.mem.Need(s.reqs[h]) <= |s.mem.free|
    requires limit > 0 && u == AdmitOne(s)
    ensures PopAdmissible(s, [], limit) == Admission(u, [h])
  {
    hide Memory.CanAllocate, Memory.Need, Memory.Taken, Memory.Allocate;
    assert CanPop(s, [], limit);
    assert u.waiting == [] && [] + [h] == [h];
    assert PopAdmissible(s, [], limit) == PopAdmissible(u, [] + [h], limit);
    assert !CanPop(u, [h], limit);
  }

  lemma AdmitsAlone(c: Config, s: State, h: nat, u: State)
    requires Ok(s) && s.waiting == [h] && !c.isStatic && |s.running| < c.maxBatch && !s.fault
    requires s.mem.CanAllocate(s.reqs[h], |s.running|) && 0 <= s.mem.Need(s.reqs[h]) <= |s.mem.free|
    requires u == AdmitOne(s)
    ensures Admit(c, s) == PrefillOne(c, u, h)
  {
    hide Memory.CanAllocate, Memory.Need, Memory.Taken, Memory.Allocate, PopAdmissible, SortWaiting;
    SortedAlone(s, h);
    PopsOnce(s, h, Room(c, s), u);
    assert [h][1..] == [];
    hide PrefillOne;
    assert Prefill(c, u, [h]) == PrefillOne(c, u, h);
  }

  // ---------------------------------------------------------------- the first step

  lemma RetiresNobody(s: State)
    requires Ok(s) && forall h :: 0 <= h < |s.reqs| ==> !s.reqs[h].cancelled && !s.reqs[h].Done()
    ensures Retire(s) == s
  {
    assert DisconnectAll(s.reqs) == s.reqs;
    FiltersNobody(s.reqs, s.waiting);
    StaysFrom(s, 0);
  }

  lemma {:induction false} FiltersNobody(reqs: seq<Req>, hs: seq<nat>)
    requires forall i :: 0 <= i < |hs| ==> hs[i] < |reqs| && !reqs[hs[i]].cancelled
    ensures Filter(reqs, hs) == hs
  {
    if hs != [] { FiltersNobody(reqs, hs[..|hs| - 1]); }
  }

  lemma {:induction false} StaysFrom(s: State, i: nat)
    requires Ok(s) && i <= |s.running| && forall h :: 0 <= h < |s.reqs| ==> !s.reqs[h].Done()
    ensures RetireFrom(s, i) == s
    decreases |s.running| - i
  {
    if i < |s.running| { StaysFrom(s, i + 1); }
  }

  lemma LastTaken(m: Memory, b: nat)
    requires m.free != [] && m.free[|m.free| - 1] == b
    ensures m.Taken(1) == [b]
  {
    var last := m.free[|m.free| - 1..];
    assert last == [b] && last[1..] == [];
    assert Reverse(last) == Reverse(last[1..]) + [last[0]];
  }

  /** With one-token blocks a request needs as many blocks as it has tokens. */
  lemma OneTokenBlocks(m: Memory, r: Req)
    requires m.blockSize == 1 && m.kind == Blocks(false)
    ensures m.Need(r) == r.SeqLen() && m.Worst(r) == |r.prompt| + r.maxNew
  {
  }

  lemma FirstNumbers(m: Memory)
    requires m == Pool([3, 2, 1, 0], map[])
    ensures m.Need(First) == 1 && m.Worst(First) == 4 && m.Taken(1) == [0] && |m.free| == 4
    ensures m.CanAllocate(First, 0)
  {
    OneTokenBlocks(m, First);
    hide Memory.Need, Memory.Worst, Memory.Taken;
    LastTaken(m, 0);
  }

  lemma FirstAllocated(m: Memory)
    requires m == Pool([3, 2, 1, 0], map[]) && m.Need(First) == 1 && m.Worst(First) == 4
    ensures m.Allocate(First) == Pool([3, 2, 1], map["a" := 4])
  {
    hide Memory.Need, Memory.Worst;
    assert m.free[..3] == [3, 2, 1];
  }

  /** What popping a queue of one does, block by block. */
  lemma PopAlone(s: State, h: nat, m: Memory, table: seq<nat>)
    requires Ok(s) && s.waiting == [h] && 0 <= s.mem.Need(s.reqs[h]) <= |s.mem.free|
    requires m == s.mem.Allocate(s.reqs[h]) && table == s.mem.Taken(s.mem.Need(s.reqs[h]))
    ensures AdmitOne(s) == State(s.reqs[h := s.reqs[h].(state := Admitted, table := table, admitSeq := s.admits)], [], s.running, m, s.admits + 1, s.fault)
  {
    hide Memory.Need, Memory.Taken, Memory.Allocate;
    assert s.waiting[1..] == [];
  }

  lemma FirstPopped(s: State, u: State)
    requires s == Queued() && Ok(s) && s.mem.Need(First) == 1 && u == AdmitOne(s)
    ensures u == State([FirstAt([], [0]).(state := Admitted)], [], [], Pool([3, 2, 1], map["a" := 4]), 1, false)
  {
    hide *;
    QueuedFields(s);
    FirstNumbers(s.mem);
    FirstAllocated(s.mem);
    PopAlone(s, 0, Pool([3, 2, 1], map["a" := 4]), [0]);
    FirstFresh();
    assert s.reqs[0 := FirstAt([], [0]).(state := Admitted)] == [FirstAt([], [0]).(state := Admitted)];
  }

  lemma FirstFresh()
    ensures First.(state := Admitted, table := [0], admitSeq := 0) == FirstAt([], [0]).(state := Admitted)
  {
  }

  lemma QueuedFields(s: State)
    requires s == Queued()
    ensures s.reqs == [First] && s.waiting == [0] && s.running == [] && s.mem == Pool([3, 2, 1, 0], map[]) && s.admits == 0 && !s.fault
    ensures s.mem.blockSize == 1
  {
  }

  lemma OpenNext(out: seq<Token>, x: Token)
    ensures Open(out + [x]) == Open(out) + [(x, false)]
  {
  }

  /** The first request goes on after one more token. */
  lemma FirstSays(c: Config, out: seq<Token>, table: seq<nat>)
    requires |out| <= 1
    ensures var x := Said(c, [0] + out); Emit(c, FirstAt(out, table)) == FirstAt(out + [x], table)
  {
    OpenNext(out, Said(c, [0] + out));
  }

  lemma FirstAdmitted(c: Config, s: State)
    requires !c.isStatic && c.maxBatch == 2 && s == Queued() && Ok(s)
    ensures Admit(c, s) == AfterPrefill(Said(c, [0]))
  {
    hide *;
    QueuedFields(s);
    FirstNumbers(s.mem);
    var u := AdmitOne(s);
    AdmitsAlone(c, s, 0, u);
    FirstPopped(s, u);
    FirstPrefilled(c, u);
  }

  lemma FirstPrefilled(c: Config, u: State)
    requires u == State([FirstAt([], [0]).(state := Admitted)], [], [], Pool([3, 2, 1], map["a" := 4]), 1, false) && Ok(u)
    ensures PrefillOne(c, u, 0) == AfterPrefill(Said(c, [0]))
  {
    hide Emit;
    FirstSays(c, [], [0]);
    assert [0] + [] == [0] && [] + [Said(c, [0])] == [Said(c, [0])];
    assert u.reqs[0].(state := Running) == FirstAt([], [0]);
  }

  // ---------------------------------------------------------------- its decode

  /** A row that finds its block goes on. */
  lemma DecodesAlone(c: Config, t: State, h: nat, u: State)
    requires Ok(t) && t.running == [h] && !t.reqs[h].Done() && AppendSlot(t.mem, t.reqs[h]).ok && u == GrowOne(t, h)
    ensures Decode(c, t) == With(u, h, Emit(c, u.reqs[h]))
  {
    hide GrowOne, AppendSlot, Emit, EnsureCapacity, ByAdmission, EmitAll;
    assert t.running[..0] == [];
    assert Unfinished(t.reqs, t.running) == [h];
    OrderedAlone(t, h);
    KeepsAlone(c, t, h, u);
    EmitsAlone(c, u, h);
  }

  lemma OrderedAlone(t: State, h: nat)
    requires h < |t.reqs|
    ensures ByAdmission(t, [h]) == [h]
  {
    RankInPlace(AdmitKeys(t.reqs, [h]));
    hide Rank;
  }

  lemma KeepsAlone(c: Config, t: State, h: nat, u: State)
    requires Ok(t) && h < |t.reqs| && AppendSlot(t.mem, t.reqs[h]).ok && u == GrowOne(t, h)
    ensures EnsureCapacity(c, t, [h], 0) == Capacity(u, [h])
  {
    hide GrowOne, AppendSlot;
    assert EnsureCapacity(c, t, [h], 0) == EnsureCapacity(c, u, [h], 1);
  }

  lemma EmitsAlone(c: Config, u: State, h: nat)
    requires Ok(u) && h < |u.reqs|
    ensures EmitAll(c, u, [h]) == With(u, h, Emit(c, u.reqs[h]))
  {
    hide Emit;
    assert [h][1..] == [];
  }

  lemma FirstGrows(t: State, x: Token)
    requires t == AfterPrefill(x) && Ok(t)
    ensures AppendSlot(t.mem, t.reqs[0]) == Growth([3, 2], [0, 1], true)
  {
    var r := t.reqs[0];
    assert t.mem == Pool([3, 2, 1], map["a" := 4]) && r.table == [0] && r.SeqLen() == 2;
    OneTokenBlocks(t.mem, r);
    hide Memory.Need;
    GrowByOne(t.mem.free, r.table, 2);
    assert t.mem.free[..2] == [3, 2] && [0] + [1] == [0, 1];
  }

  lemma FirstGrown(t: State, x: Token)
    requires t == AfterPrefill(x) && Ok(t)
    ensures GrowOne(t, 0) == State([FirstAt([x], [0, 1])], [], [0], Pool([3, 2], map["a" := 4]), 1, false)
  {
    FirstGrows(t, x);
    hide AppendSlot;
  }

  lemma FirstDecoded(c: Config, t: State, x: Token)
    requires t == AfterPrefill(x) && Ok(t)
    ensures Decode(c, t) == AfterTick(x, Said(c, [0, x]))
  {
    hide Decode, GrowOne, AppendSlot, Emit;
    FirstGrows(t, x);
    FirstGrown(t, x);
    DecodesAlone(c, t, 0, GrowOne(t, 0));
    FirstSays(c, [x], [0, 1]);
    assert [0] + [x] == [0, x] && [x] + [Said(c, [0, x])] == [x, Said(c, [0, x])];
  }

  // ---------------------------------------------------------------- the run

  lemma FirstTick(c: Config, s: State)
    requires SmallConfig(c) && s == Queued()
    ensures Ok(s) && Step(c, s) == AfterTick(Said(c, [0]), Said(c, [0, Said(c, [0])]))
  {
    hide Admit, Decode, Retire;
    RetiresNobody(s);
    FirstAdmitted(c, s);
    FirstDecoded(c, AfterPrefill(Said(c, [0])), Said(c, [0]));
  }

  /** The three events of the run. */
  function Events(): seq<Event>
  {
    [Arrival(First), Tick, Arrival(Second)]
  }

  lemma StartSubmits(c: Config, s: State)
    requires SmallConfig(c) && s == Start(Blocks(false), 4, 1)
    ensures Ok(s) && Possible(c, s, Arrival(First)) && Apply(c, s, Arrival(First)) == Queued()
  {
    assert Countdown(4) == [3, 2, 1, 0];
    assert [] + [First] == [First] && [] + [0] == [0];
  }

  lemma SecondSubmits(c: Config, s: State, x: Token, y: Token)
    requires SmallConfig(c) && s == AfterTick(x, y)
    ensures Ok(s) && Possible(c, s, Arrival(Second)) && Apply(c, s, Arrival(Second)) == Tight(x, y)
  {
    assert [FirstAt([x, y], [0, 1])] + [Second] == [FirstAt([x, y], [0, 1]), Second] && [] + [1] == [1];
  }

  /** Whatever the network says, the run leads here. */
  lemma RunsTight(c: Config, x: Token, y: Token)
    requires SmallConfig(c) && x == Said(c, [0]) && y == Said(c, [0, x])
    ensures Matches(c, Start(Blocks(false), 4, 1).mem) && Possibles(c, Start(Blocks(false), 4, 1), Events())
    ensures Run(c, Start(Blocks(false), 4, 1), Events()) == Tight(x, y)
  {
    var s := Start(Blocks(false), 4, 1);
    RunMatches(c);
    StartSubmits(c, s);
    FirstTick(c, Queued());
    SecondSubmits(c, AfterTick(x, y), x, y);
    hide *;
    TightEnds(c, Tight(x, y));
    TickIsStep(c, Queued());
    RunOn(c, AfterTick(x, y), Arrival(Second), [], Tight(x, y));
    RunOn(c, Queued(), Tick, [Arrival(Second)] + [], AfterTick(x, y));
    RunOn(c, s, Arrival(First), [Tick] + ([Arrival(Second)] + []), Queued());
    EventsSplit();
  }

  lemma EventsSplit()
    ensures Events() == [Arrival(First)] + ([Tick] + ([Arrival(Second)] + []))
  {
  }

  lemma TightEnds(c: Config, t: State)
    ensures Possibles(c, t, []) && Run(c, t, []) == t
  {
  }

  lemma TickIsStep(c: Config, s: State)
    requires Ok(s)
    ensures Possible(c, s, Tick) && Apply(c, s, Tick) == Step(c, s)
  {
  }

  lemma RunMatches(c: Config)
    requires c.preemption && c.maxBatch > 0
    ensures Matches(c, Start(Blocks(false), 4, 1).mem)
  {
  }

  // ---------------------------------------------------------------- the next step

  /** The second request once it has been admitted and has said `x`. */
  function SecondAt(x: Token): Req
  {
    Second.(state := Running, admitSeq := 1, table := [2], out := [x], stream := [(x, false)])
  }

  /** Both rows run, with one block free. */
  function Crowded(x: Token, y: Token): State
  {
    State([FirstAt([x, y], [0, 1]), SecondAt(x)], [], [0, 1], Pool([3], map["a" := 4, "b" := 3]), 2, false)
  }

  /** The first row has taken it. */
  function Full(x: Token, y: Token): State
  {
    Crowded(x, y).(reqs := [FirstAt([x, y], [0, 1, 3]), SecondAt(x)], mem := Pool([], map["a" := 4, "b" := 3]))
  }

  lemma TightFields(s: State, x: Token, y: Token)
    requires s == Tight(x, y)
    ensures s.reqs == [FirstAt([x, y], [0, 1]), Second] && s.waiting == [1] && s.running == [0] && s.admits == 1 && !s.fault
    ensures s.mem == Pool([3, 2], map["a" := 4]) && s.mem.blockSize == 1 && Ok(s)
  {
  }

  lemma SecondNumbers(m: Memory)
    requires m == Pool([3, 2], map["a" := 4])
    ensures m.Need(Second) == 1 && m.Worst(Second) == 3 && m.Taken(1) == [2] && |m.free| == 2
    ensures m.CanAllocate(Second, 1)
  {
    OneTokenBlocks(m, Second);
    hide Memory.Need, Memory.Worst, Memory.Taken;
    LastTaken(m, 2);
  }

  lemma SecondAllocated(m: Memory)
    requires m == Pool([3, 2], map["a" := 4]) && m.Need(Second) == 1 && m.Worst(Second) == 3
    ensures m.Allocate(Second) == Pool([3], map["a" := 4, "b" := 3])
  {
    hide Memory.Need, Memory.Worst;
    assert m.free[..1] == [3];
  }

  lemma SecondPopped(s: State, x: Token, y: Token, u: State)
    requires s == Tight(x, y) && Ok(s) && s.mem.Need(Second) == 1 && u == AdmitOne(s)
    ensures u == State(s.reqs[1 := Second.(state := Admitted, table := [2], admitSeq := 1)], [], [0], Pool([3], map["a" := 4, "b" := 3]), 2, false)
  {
    hide *;
    TightFields(s, x, y);
    SecondNumbers(s.mem);
    SecondAllocated(s.mem);
    PopAlone(s, 1, Pool([3], map["a" := 4, "b" := 3]), [2]);
  }

  lemma SecondSays(c: Config)
    ensures Emit(c, Second.(state := Running, table := [2], admitSeq := 1)) == SecondAt(Said(c, [0]))
  {
    assert [0] + [] == [0] && [] + [Said(c, [0])] == [Said(c, [0])];
  }

  lemma SecondPrefilled(c: Config, u: State, x: Token, y: Token)
    requires x == Said(c, [0]) && Ok(u) && u.reqs == [FirstAt([x, y], [0, 1]), Second.(state := Admitted, table := [2], admitSeq := 1)]
    requires u == State(u.reqs, [], [0], Pool([3], map["a" := 4, "b" := 3]), 2, false)
    ensures PrefillOne(c, u, 1) == Crowded(x, y)
  {
    hide Emit;
    SecondSays(c);
    assert u.reqs[1].(state := Running) == Second.(state := Running, table := [2], admitSeq := 1);
  }

  lemma SecondAdmitted(c: Config, s: State, x: Token, y: Token)
    requires !c.isStatic && c.maxBatch == 2 && x == Said(c, [0]) && s == Tight(x, y) && Ok(s)
    ensures Admit(c, s) == Crowded(x, y)
  {
    hide *;
    TightFields(s, x, y);
    SecondNumbers(s.mem);
    var u := AdmitOne(s);
    AdmitsAlone(c, s, 1, u);
    SecondPopped(s, x, y, u);
    SecondPrefilled(c, u, x, y);
  }

  lemma BothUnfinished(reqs: seq<Req>)
    requires |reqs| == 2 && !reqs[0].Done() && !reqs[1].Done()
    ensures Unfinished(reqs, [0, 1]) == [0, 1]
  {
    var hs := [0, 1];
    assert hs[..1] == [0] && hs[..1][..0] == [];
    assert Unfinished(reqs, hs[..1]) == [0];
  }

  lemma RowsOf(t: State)
    requires Ok(t) && t.running == [0, 1] && |t.reqs| == 2 && !t.reqs[0].Done() && !t.reqs[1].Done()
    requires t.reqs[0].admitSeq < t.reqs[1].admitSeq
    ensures Unfinished(t.reqs, t.running) == [0, 1] && DecodeRows(t) == [0, 1]
  {
    BothUnfinished(t.reqs);
    OldestFirst(t);
    hide Rank, Unfinished, ByAdmission;
  }

  lemma OldestFirst(t: State)
    requires |t.reqs| == 2 && t.reqs[0].admitSeq < t.reqs[1].admitSeq
    ensures ByAdmission(t, [0, 1]) == [0, 1]
  {
    RankInPlace(AdmitKeys(t.reqs, [0, 1]));
    hide Rank;
  }

  lemma CrowdedGrows(t: State, x: Token, y: Token)
    requires t == Crowded(x, y) && Ok(t)
    ensures AppendSlot(t.mem, t.reqs[0]).ok && GrowOne(t, 0) == Full(x, y)
  {
    var r := t.reqs[0];
    assert r.table == [0, 1] && r.SeqLen() == 3;
    OneTokenBlocks(t.mem, r);
    hide Memory.Need;
    GrowByOne(t.mem.free, r.table, 3);
    assert t.mem.free[..0] == [] && [0, 1] + [3] == [0, 1, 3];
    assert t.reqs[0 := FirstAt([x, y], [0, 1, 3])] == Full(x, y).reqs;
  }

  lemma FullStuck(t: State, x: Token, y: Token)
    requires t == Full(x, y) && Ok(t)
    ensures !AppendSlot(t.mem, t.reqs[1]).ok && GrowOne(t, 1) == t && VictimIndex(t.reqs, [0, 1]) == 1
  {
    var r := t.reqs[1];
    assert r.table == [2] && r.SeqLen() == 2;
    OneTokenBlocks(t.mem, r);
    hide Memory.Need;
    GrowByOne(t.mem.free, r.table, 2);
    assert t.reqs[1 := r] == t.reqs;
    assert Less(VictimKey(t.reqs[1]), VictimKey(t.reqs[0]));
  }

  /** The newcomer is the victim. */
  lemma CrowdedOutcome(c: Config, t: State, x: Token, y: Token)
    requires c.preemption && t == Crowded(x, y) && Ok(t) && Ok(Full(x, y)) && 1 in Full(x, y).running && |Full(x, y).reqs| == 2
    ensures EnsureCapacity(c, t, [0, 1], 0) == Capacity(Evict(Full(x, y), 1), [0])
  {
    var f := Full(x, y);
    CrowdedGrows(t, x, y);
    FullStuck(f, x, y);
    hide *;
    GoOn(c, t, [0, 1], 0);
    assert RemoveAt([0, 1], 1) == [0] by { LastRemoved(); }
    StepBack(c, f);
  }

  lemma LastRemoved()
    ensures RemoveAt([0, 1], 1) == [0]
  {
  }

  lemma GoOn(c: Config, s: State, active: seq<nat>, i: nat)
    requires Ok(s) && Named(s, active) && i < |active| && AppendSlot(s.mem, s.reqs[active[i]]).ok
    ensures EnsureCapacity(c, s, active, i) == EnsureCapacity(c, GrowOne(s, active[i]), active, i + 1)
  {
  }

  lemma StepBack(c: Config, s: State)
    requires Ok(s) && |s.reqs| == 2 && !AppendSlot(s.mem, s.reqs[1]).ok && GrowOne(s, 1) == s && c.preemption
    requires VictimIndex(s.reqs, [0, 1]) == 1 && 1 in s.running && RemoveAt([0, 1], 1) == [0]
    ensures EnsureCapacity(c, s, [0, 1], 1) == Capacity(Evict(s, 1), [0])
  {
    hide AppendSlot, GrowOne, VictimIndex, Evict;
  }

  lemma NewcomerOut(x: Token, y: Token)
    requires Ok(Full(x, y)) && |Full(x, y).reqs| == 2 && 1 in Full(x, y).running
    ensures var e := Evict(Full(x, y), 1);
            |e.reqs| == 2 && e.reqs[1] == SecondAt(x).(table := [], state := Waiting, preempts := 1)
  {
  }

  /** Only the rows the capacity loop returns say a token. */
  lemma DecodeLeaves(c: Config, t: State, e: State)
    requires Ok(t) && Ok(e) && Unfinished(t.reqs, t.running) != [] && EnsureCapacity(c, t, DecodeRows(t), 0) == Capacity(e, [0]) && |e.reqs| == 2
    ensures Decode(c, t) == With(e, 0, Emit(c, e.reqs[0]))
  {
    hide Emit, EnsureCapacity, Unfinished, ByAdmission;
    EmitsAlone(c, e, 0);
  }

  lemma CrowdedFields(t: State, x: Token, y: Token)
    requires t == Crowded(x, y)
    ensures Ok(t) && t.running == [0, 1] && |t.reqs| == 2 && !t.reqs[0].Done() && !t.reqs[1].Done()
    ensures t.reqs[0].admitSeq < t.reqs[1].admitSeq
    ensures Ok(Full(x, y)) && |Full(x, y).reqs| == 2 && 1 in Full(x, y).running
  {
  }

  lemma CrowdedDecoded(c: Config, t: State, x: Token, y: Token)
    requires c.preemption && t == Crowded(x, y) && Ok(t)
    ensures |Decode(c, t).reqs| == 2 && Decode(c, t).reqs[1] == SecondAt(x).(table := [], state := Waiting, preempts := 1)
  {
    hide Crowded, Full, EnsureCapacity, Evict, Decode, SecondAt, Emit, Unfinished, Ok, ByAdmission, DecodeRows, Named;
    CrowdedFields(t, x, y);
    RowsOf(t);
    CrowdedOutcome(c, t, x, y);
    NewcomerOut(x, y);
    DecodeLeaves(c, t, Evict(Full(x, y), 1));
  }

  lemma TightTick(c: Config, s: State, x: Token, y: Token)
    requires SmallConfig(c) && x == Said(c, [0]) && s == Tight(x, y) && Ok(s)
    ensures |Step(c, s).reqs| == 2 && Step(c, s).reqs[1] == SecondAt(x).(table := [], state := Waiting, preempts := 1)
  {
    hide Admit, Decode, Retire;
    RetiresNobody(s);
    SecondAdmitted(c, s, x, y);
    CrowdedDecoded(c, Crowded(x, y), x, y);
  }

  /** The headroom does not rule an eviction out. For every network, a fresh engine that has been given one
      request, has taken one step and is given a second admits the second in its next step, hears its first
      token, and evicts it in that same step: the newcomer was not counted in its own headroom. */
  lemma HeadroomFallsShort(c: Config)
    requires SmallConfig(c)
    ensures Matches(c, Start(Blocks(false), 4, 1).mem) && Possibles(c, Start(Blocks(false), 4, 1), Events())
    ensures var s := Run(c, Start(Blocks(false), 4, 1), Events());
            && Ok(s) && AllFit(c, s) && |s.reqs| == |Step(c, s).reqs| == 2
            && s.reqs[1].state == Waiting && s.reqs[1].out == [] && s.reqs[1].preempts == 0
            && Step(c, s).reqs[1].state == Waiting && |Step(c, s).reqs[1].out| == 1 && Step(c, s).reqs[1].preempts == 1
  {
    var x := Said(c, [0]);
    var y := Said(c, [0, x]);
    var s := Tight(x, y);
    RunsTight(c, x, y);
    TightFields(s, x, y);
    TightFits(c, s, x, y);
    hide Run, Possibles, Start, Step;
    TightTick(c, s, x, y);
  }

  lemma TightFits(c: Config, s: State, x: Token, y: Token)
    requires SmallConfig(c) && s == Tight(x, y)
    ensures s.mem.blockSize > 0 && AllFit(c, s)
  {
    CompletionLength(c, s.reqs[0]);
    CompletionLength(c, s.reqs[1]);
    assert |s.reqs| == 2 && Fits(c, s.mem, s.reqs[0]) && Fits(c, s.mem, s.reqs[1]);
  }
}
