/** The scheduler as a state machine over values.

    A request is named by its handle, its position in `reqs` (submission order). The step follows the
    engine's loop body: retire, admit, decode. The tokens emitted here are the ones an uncached pass over
    the whole sequence yields; that the pooled, batched engine emits the same ones is proved separately. */
module SchedulerSpec {
  import opened Seqs
  import opened Transformer
  import opened Requests
  import opened Alloc

  datatype Config = Config(net: Network, isStatic: bool, preemption: bool, maxBatch: nat, maxContext: nat, eos: set<Token>)

  /** `fault` records that an assertion failed or the "out of KV blocks" error was raised. */
  datatype State = State(
    reqs: seq<Req>, waiting: seq<nat>, running: seq<nat>,
    mem: Memory, admits: int, fault: bool)

  /** Handles name requests. */
  ghost predicate Named(s: State, hs: seq<nat>)
  {
    forall i :: 0 <= i < |hs| ==> hs[i] < |s.reqs|
  }

  ghost predicate Ok(s: State)
  {
    s.mem.blockSize > 0 && Named(s, s.waiting) && Named(s, s.running) && forall h :: 0 <= h < |s.reqs| ==> s.reqs[h].prompt != []
  }

  /** Same pool: only the free list and the commitments may differ. */
  ghost predicate SamePool(s: State, t: State)
  {
    t.mem == s.mem.(free := t.mem.free, committed := t.mem.committed)
  }

  function HasWork(s: State): bool
  {
    s.waiting != [] || s.running != []
  }

  function With(s: State, h: nat, r: Req): State
    requires h < |s.reqs|
  {
    s.(reqs := s.reqs[h := r])
  }

  // ---------------------------------------------------------------- environment

  /** Submission caps the budget so that the last usable position is `maxContext - 1`. */
  function Capped(c: Config, r: Req): Req
  {
    var cap := c.maxContext - |r.prompt|;
    r.(maxNew := if cap < r.maxNew then cap else r.maxNew, state := Waiting)
  }

  function Submit(c: Config, s: State, r: Req): State
  {
    s.(reqs := s.reqs + [Capped(c, r)], waiting := s.waiting + [|s.reqs|])
  }

  /** The client of request `h` disconnects. */
  function Cancel(s: State, h: nat): State
    requires h < |s.reqs|
  {
    With(s, h, s.reqs[h].(cancelled := true))
  }

  // ---------------------------------------------------------------- 1. retire

  /** The handles whose request has not been cancelled, in order. */
  function Filter(reqs: seq<Req>, hs: seq<nat>): (r: seq<nat>)
    requires forall i :: 0 <= i < |hs| ==> hs[i] < |reqs|
    ensures forall i :: 0 <= i < |r| ==> r[i] < |reqs|
  {
    if hs == [] then [] else
      var n := |hs| - 1;
      Filter(reqs, hs[..n]) + (if reqs[hs[n]].cancelled then [] else [hs[n]])
  }

  /** A disconnected client's request leaves the queue, or ends with reason "cancelled" if it is running. */
  function Disconnect(r: Req): Req
  {
    if !r.cancelled then r
    else if r.state == Waiting then r.(state := Dropped)
    else if r.state == Running && !r.Done() then r.(reason := Some(Cancelled))
    else r
  }

  function DisconnectAll(reqs: seq<Req>): (r: seq<Req>)
    ensures |r| == |reqs| && forall h :: 0 <= h < |reqs| ==> r[h] == Disconnect(reqs[h])
  {
    seq(|reqs|, h requires 0 <= h < |reqs| => Disconnect(reqs[h]))
  }

  function DropCancelled(s: State): (t: State)
    requires Ok(s)
    ensures Ok(t) && |t.reqs| == |s.reqs| && SamePool(s, t)
  {
    s.(waiting := Filter(s.reqs, s.waiting), reqs := DisconnectAll(s.reqs))
  }

  /** The finished request at position `i` of the running list leaves and frees its memory. */
  function RetireOne(s: State, i: nat): (t: State)
    requires Ok(s) && i < |s.running|
    ensures Ok(t) && |t.reqs| == |s.reqs| && SamePool(s, t)
  {
    var h := s.running[i];
    var r := s.reqs[h];
    s.(mem := s.mem.Release(r), reqs := s.reqs[h := r.(state := Finished, table := [])],
       running := RemoveAt(s.running, i))
  }

  function RetireFrom(s: State, i: nat): (t: State)
    requires Ok(s) && i <= |s.running|
    ensures Ok(t) && |t.reqs| == |s.reqs| && SamePool(s, t)
    decreases |s.running| - i
  {
    if i == |s.running| then s
    else if s.reqs[s.running[i]].Done() then RetireFrom(RetireOne(s, i), i)
    else RetireFrom(s, i + 1)
  }

  function Retire(s: State): (t: State)
    requires Ok(s)
    ensures Ok(t) && |t.reqs| == |s.reqs| && SamePool(s, t)
  {
    RetireFrom(DropCancelled(s), 0)
  }

  // ---------------------------------------------------------------- 2. admit

  function WaitKey(r: Req): Key { Key(0 - r.preempts, r.arrival) }

  function WaitKeys(reqs: seq<Req>, hs: seq<nat>): (ks: seq<Key>)
    requires forall i :: 0 <= i < |hs| ==> hs[i] < |reqs|
    ensures |ks| == |hs| && forall i :: 0 <= i < |hs| ==> ks[i] == WaitKey(reqs[hs[i]])
  {
    seq(|hs|, i requires 0 <= i < |hs| => WaitKey(reqs[hs[i]]))
  }

  function SortWaiting(s: State): (t: State)
    requires Ok(s)
    ensures Ok(t) && t == s.(waiting := t.waiting)
  {
    s.(waiting := Permute(s.waiting, Rank(WaitKeys(s.reqs, s.waiting))))
  }

  /** The head of the queue gets its blocks and its place in the admission order. */
  function AdmitOne(s: State): (t: State)
    requires Ok(s) && s.waiting != [] && 0 <= s.mem.Need(s.reqs[s.waiting[0]]) <= |s.mem.free|
    ensures Ok(t) && |t.reqs| == |s.reqs| && SamePool(s, t)
  {
    var h := s.waiting[0];
    var r := s.reqs[h];
    s.(waiting := s.waiting[1..], mem := s.mem.Allocate(r), admits := s.admits + 1,
       reqs := s.reqs[h := r.(state := Admitted, table := s.mem.Taken(s.mem.Need(r)), admitSeq := s.admits)])
  }

  datatype Admission = Admission(s: State, batch: seq<nat>)

  /** The guard of the pop loop. The headroom leaves every running or just-admitted row a block to grow by. */
  ghost predicate CanPop(s: State, batch: seq<nat>, limit: int)
    requires Ok(s)
  {
    s.waiting != [] && |batch| < limit && s.mem.CanAllocate(s.reqs[s.waiting[0]], |s.running| + |batch|)
  }

  /** First come, first served: stop at the first request that does not fit. */
  ghost function PopAdmissible(s: State, batch: seq<nat>, limit: int): (a: Admission)
    requires Ok(s) && Named(s, batch)
    ensures Ok(a.s) && |a.s.reqs| == |s.reqs| && Named(a.s, a.batch) && a.s.running == s.running && SamePool(s, a.s)
    decreases |s.waiting|
  {
    if CanPop(s, batch, limit) then
      if !(0 <= s.mem.Need(s.reqs[s.waiting[0]]) <= |s.mem.free|) then Admission(s.(fault := true), batch)
      else PopAdmissible(AdmitOne(s), batch + [s.waiting[0]], limit)
    else Admission(s, batch)
  }

  /** Append a token, test the two stop conditions in order, and tell the sink. */
  function EmitToken(c: Config, r: Req, tok: Token, smp: Option<Sampler>): Req
  {
    var out := r.out + [tok];
    var reason := if |out| >= r.maxNew then Some(Length)
                  else if tok in c.eos && !r.ignoreEos then Some(Stop)
                  else r.reason;
    r.(out := out, sampler := smp, reason := reason, stream := r.stream + [(tok, reason.Some?)])
  }

  ghost function Emit(c: Config, r: Req): Req
    requires r.prompt != []
  {
    var (tok, smp) := Pick(c.net, r.sampler, Logits(c.net, r.prompt + r.out));
    EmitToken(c, r, tok, smp)
  }

  ghost function PrefillOne(c: Config, s: State, h: nat): (t: State)
    requires Ok(s) && h < |s.reqs|
    ensures Ok(t) && |t.reqs| == |s.reqs| && SamePool(s, t)
  {
    With(s, h, Emit(c, s.reqs[h].(state := Running))).(running := s.running + [h])
  }

  ghost function Prefill(c: Config, s: State, hs: seq<nat>): (t: State)
    requires Ok(s) && Named(s, hs)
    ensures Ok(t) && |t.reqs| == |s.reqs| && SamePool(s, t)
    decreases |hs|
  {
    if hs == [] then s else Prefill(c, PrefillOne(c, s, hs[0]), hs[1..])
  }

  function Room(c: Config, s: State): int
  {
    if c.isStatic then c.maxBatch
    else if c.maxBatch < |s.running| then 0 else c.maxBatch - |s.running|
  }

  ghost function Admit(c: Config, s: State): (t: State)
    requires Ok(s)
    ensures Ok(t) && |t.reqs| == |s.reqs| && SamePool(s, t)
  {
    if c.isStatic && s.running != [] then s
    else
      var a := PopAdmissible(SortWaiting(s), [], Room(c, s));
      if a.s.fault then a.s else Prefill(c, a.s, a.batch)
  }

  // ---------------------------------------------------------------- 3. decode

  function Unfinished(reqs: seq<Req>, hs: seq<nat>): (r: seq<nat>)
    requires forall i :: 0 <= i < |hs| ==> hs[i] < |reqs|
    ensures forall h :: h in r <==> h in hs && !reqs[h].Done()
    ensures forall i :: 0 <= i < |r| ==> r[i] < |reqs|
  {
    if hs == [] then [] else
      var n := |hs| - 1;
      assert hs == hs[..n] + [hs[n]];
      Unfinished(reqs, hs[..n]) + (if reqs[hs[n]].Done() then [] else [hs[n]])
  }

  function AdmitKeys(reqs: seq<Req>, hs: seq<nat>): (ks: seq<Key>)
    requires forall i :: 0 <= i < |hs| ==> hs[i] < |reqs|
    ensures |ks| == |hs| && forall i :: 0 <= i < |hs| ==> ks[i] == Key(reqs[hs[i]].admitSeq, 0)
  {
    seq(|hs|, i requires 0 <= i < |hs| => Key(reqs[hs[i]].admitSeq, 0))
  }

  /** Oldest admission first. */
  function ByAdmission(s: State, hs: seq<nat>): (r: seq<nat>)
    requires Named(s, hs)
    ensures Named(s, r)
  {
    Permute(hs, Rank(AdmitKeys(s.reqs, hs)))
  }

  /** The order in which victims are chosen: fewest evictions first, most recent admission first. */
  function VictimKey(r: Req): Key { Key(r.preempts, -r.admitSeq) }

  /** Index of the first request with the least victim key. */
  function VictimIndex(reqs: seq<Req>, active: seq<nat>): (v: nat)
    requires active != [] && forall i :: 0 <= i < |active| ==> active[i] < |reqs|
    ensures v < |active|
    ensures forall i :: 0 <= i < |active| ==> !Less(VictimKey(reqs[active[i]]), VictimKey(reqs[active[v]]))
  {
    var n := |active| - 1;
    if n == 0 then 0 else
      var v := VictimIndex(reqs, active[..n]);
      assert forall i :: 0 <= i < n ==> active[..n][i] == active[i];
      if Less(VictimKey(reqs[active[n]]), VictimKey(reqs[active[v]])) then n else v
  }

  function GrowOne(s: State, h: nat): (t: State)
    requires Ok(s) && h < |s.reqs|
    ensures Ok(t) && |t.reqs| == |s.reqs| && SamePool(s, t)
  {
    var g := AppendSlot(s.mem, s.reqs[h]);
    With(s, h, s.reqs[h].(table := g.table)).(mem := s.mem.(free := g.free))
  }

  /** Preempt and recompute: the victim's blocks go back and it rejoins the queue with its tokens. */
  function Evict(s: State, h: nat): (t: State)
    requires Ok(s) && h < |s.reqs| && h in s.running
    ensures Ok(t) && |t.reqs| == |s.reqs| && SamePool(s, t)
  {
    var r := s.reqs[h];
    s.(mem := s.mem.Release(r), running := RemoveAt(s.running, IndexOf(s.running, h)), waiting := s.waiting + [h],
       reqs := s.reqs[h := r.(table := [], state := Waiting, preempts := r.preempts + 1)])
  }

  datatype Capacity = Capacity(s: State, active: seq<nat>)

  /** Give every row the block its next token needs, evicting when the pool is full. `i` is the row being
      served; rows before it have their block. */
  ghost function EnsureCapacity(c: Config, s: State, active: seq<nat>, i: nat): (r: Capacity)
    requires Ok(s) && Named(s, active) && i <= |active|
    ensures Ok(r.s) && |r.s.reqs| == |s.reqs| && Named(r.s, r.active) && SamePool(s, r.s)
    decreases |active|, |active| - i
  {
    if i == |active| then Capacity(s, active)
    else
      var g := AppendSlot(s.mem, s.reqs[active[i]]);
      var s1 := GrowOne(s, active[i]);
      if g.ok then EnsureCapacity(c, s1, active, i + 1)
      else
        var v := VictimIndex(s1.reqs, active);
        if !c.preemption || active[v] !in s1.running then Capacity(s1.(fault := true), [])
        else EnsureCapacity(c, Evict(s1, active[v]), RemoveAt(active, v), if v < i then i - 1 else i)
  }

  ghost function EmitAll(c: Config, s: State, hs: seq<nat>): (t: State)
    requires Ok(s) && Named(s, hs)
    ensures Ok(t) && |t.reqs| == |s.reqs| && t == s.(reqs := t.reqs)
    decreases |hs|
  {
    if hs == [] then s else EmitAll(c, With(s, hs[0], Emit(c, s.reqs[hs[0]])), hs[1..])
  }

  ghost function Decode(c: Config, s: State): (t: State)
    requires Ok(s)
    ensures Ok(t) && |t.reqs| == |s.reqs| && SamePool(s, t)
  {
    var batch := Unfinished(s.reqs, s.running);
    if batch == [] then s
    else
      var k := EnsureCapacity(c, s, ByAdmission(s, batch), 0);
      EmitAll(c, k.s, k.active)
  }

  ghost function Step(c: Config, s: State): (t: State)
    requires Ok(s)
    ensures Ok(t) && |t.reqs| == |s.reqs| && SamePool(s, t)
  {
    var s1 := Admit(c, Retire(s));
    if s1.fault then s1 else Decode(c, s1)
  }
}
