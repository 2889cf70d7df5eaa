/** Exactly who is evicted: the shortest front of the rows, in the order fewest evictions and newest admission,
    whose blocks are enough for the rest. */
module Victims {
  import opened Seqs
  import opened Requests
  import opened Alloc
  import opened SchedulerSpec
  import opened Invariant
  import opened StepSafety
  import opened Eviction
  import opened Headroom

  // ---------------------------------------------------------------- sums over rows

  function One(b: nat, r: Req): nat
    requires b > 0
  {
    if Opens(b, r) then 1 else 0
  }

  /** The blocks the rows own. */
  function Held(reqs: seq<Req>, rows: seq<nat>): nat
    requires forall j :: 0 <= j < |rows| ==> rows[j] < |reqs|
  {
    if rows == [] then 0 else |reqs[rows[0]].table| + Held(reqs, rows[1..])
  }

  lemma {:induction false} OpeningAdd(b: nat, reqs: seq<Req>, xs: seq<nat>, ys: seq<nat>)
    requires b > 0 && (forall j :: 0 <= j < |xs| ==> xs[j] < |reqs|) && (forall j :: 0 <= j < |ys| ==> ys[j] < |reqs|)
    ensures Opening(b, reqs, xs + ys) == Opening(b, reqs, xs) + Opening(b, reqs, ys)
  {
    if xs == [] {
      assert xs + ys == ys;
    } else {
      assert (xs + ys)[1..] == xs[1..] + ys;
      OpeningAdd(b, reqs, xs[1..], ys);
    }
  }

  lemma OpeningOne(b: nat, reqs: seq<Req>, x: nat)
    requires b > 0 && x < |reqs|
    ensures Opening(b, reqs, [x]) == One(b, reqs[x])
  {
    assert [x][1..] == [];
  }

  lemma {:induction false} HeldAdd(reqs: seq<Req>, xs: seq<nat>, x: nat)
    requires (forall j :: 0 <= j < |xs| ==> xs[j] < |reqs|) && x < |reqs|
    ensures Held(reqs, xs + [x]) == Held(reqs, xs) + |reqs[x].table|
  {
    if xs == [] {
      assert xs + [x] == [x] && [x][1..] == [];
    } else {
      assert (xs + [x])[1..] == xs[1..] + [x];
      HeldAdd(reqs, xs[1..], x);
    }
  }

  lemma OpeningWithoutOne(b: nat, reqs: seq<Req>, xs: seq<nat>, v: nat)
    requires b > 0 && v < |xs| && forall j :: 0 <= j < |xs| ==> xs[j] < |reqs|
    ensures forall j :: 0 <= j < |RemoveAt(xs, v)| ==> RemoveAt(xs, v)[j] < |reqs|
    ensures Opening(b, reqs, RemoveAt(xs, v)) + One(b, reqs[xs[v]]) == Opening(b, reqs, xs)
  {
    OpeningAdd(b, reqs, xs[..v], xs[v + 1..]);
    OpeningOne(b, reqs, xs[v]);
    OpeningAdd(b, reqs, xs[..v], [xs[v]]);
    OpeningAdd(b, reqs, xs[..v] + [xs[v]], xs[v + 1..]);
    assert xs == xs[..v] + [xs[v]] + xs[v + 1..];
  }

  // ---------------------------------------------------------------- the accounts

  /** Row `r` now, `q` when the loop began: the same but for the block it has been given since. */
  ghost predicate SameRow(b: nat, q: Req, r: Req, served: bool)
    requires b > 0
  {
    r.SeqLen() == q.SeqLen() && VictimKey(r) == VictimKey(q) && |r.table| == |q.table| + if served then One(b, q) else 0
  }

  /** The state `s` inside the loop against the state `s0` in which it began: `gone` have been evicted, and the
      rows before the `i`-th have their block. */
  ghost predicate Track(s0: State, gone: seq<nat>, s: State, active: seq<nat>, i: nat)
    requires i <= |active|
  {
    var b := s0.mem.blockSize;
    && b > 0 && s.mem.blockSize == b && Named(s0, gone) && Named(s0, active) && Named(s, active)
    && |s.mem.free| + Opening(b, s0.reqs, active[..i]) == |s0.mem.free| + Held(s0.reqs, gone)
    && forall j {:trigger active[j]} :: 0 <= j < |active| ==> SameRow(b, s0.reqs[active[j]], s.reqs[active[j]], j < i)
  }

  /** Without the rows `gone` the rest still needs more than there is. `total` is what all rows need. */
  ghost predicate Short(s0: State, gone: seq<nat>, total: nat)
    requires s0.mem.blockSize > 0 && Named(s0, gone)
  {
    total - Opening(s0.mem.blockSize, s0.reqs, gone) > |s0.mem.free| + Held(s0.reqs, gone)
  }

  lemma TrackGrow(s0: State, gone: seq<nat>, s: State, active: seq<nat>, i: nat, t: State)
    requires Ok(s) && i < |active| && NoDup(active) && Track(s0, gone, s, active, i) && s.mem.kind.Blocks? && Unserved(s, active, i)
    requires s.reqs[active[i]].state == Running && AppendSlot(s.mem, s.reqs[active[i]]).ok && t == GrowOne(s, active[i])
    ensures Track(s0, gone, t, active, i + 1)
  {
    var h := active[i];
    var b := s0.mem.blockSize;
    GrownRowSize(s, h);
    assert active[..i + 1] == active[..i] + [h];
    OpeningAdd(b, s0.reqs, active[..i], [h]);
    OpeningOne(b, s0.reqs, h);
    hide AppendSlot, Opening, Held;
    forall j | 0 <= j < |active| ensures SameRow(b, s0.reqs[active[j]], t.reqs[active[j]], j < i + 1) {
      if j != i { assert active[j] != h; }
    }
  }

  /** A row that finds its block has it afterwards. */
  lemma GrownRowSize(s: State, h: nat)
    requires Ok(s) && h < |s.reqs| && s.reqs[h].state == Running && s.mem.kind.Blocks? && SettledOne(s.mem.blockSize, s.reqs[h])
    requires AppendSlot(s.mem, s.reqs[h]).ok
    ensures var g := AppendSlot(s.mem, s.reqs[h]);
            |g.free| + One(s.mem.blockSize, s.reqs[h]) == |s.mem.free| && |g.table| == |s.reqs[h].table| + One(s.mem.blockSize, s.reqs[h])
  {
    var r := s.reqs[h];
    OpensMeansOneMore(s.mem.blockSize, r.SeqLen() - 1);
    GrowByOne(s.mem.free, r.table, s.mem.Need(r));
  }

  lemma TrackEvict(s0: State, gone: seq<nat>, s: State, active: seq<nat>, i: nat, v: nat, t: State)
    requires Ok(s) && i < |active| && v < |active| && NoDup(active) && Track(s0, gone, s, active, i)
    requires active[v] in s.running && t == Evict(s, active[v])
    ensures Track(s0, gone + [active[v]], t, RemoveAt(active, v), if v < i then i - 1 else i)
  {
    var h := active[v];
    var b := s0.mem.blockSize;
    hide Opening, Held, Evict;
    assert SameRow(b, s0.reqs[h], s.reqs[h], v < i);
    HeldAdd(s0.reqs, gone, h);
    FrontWithout(b, s0.reqs, active, i, v);
    EvictGives(s, h, t);
    RestSame(s0, gone, s, active, i, v, t);
  }

  lemma RestSame(s0: State, gone: seq<nat>, s: State, active: seq<nat>, i: nat, v: nat, t: State)
    requires Ok(s) && i < |active| && v < |active| && NoDup(active) && Track(s0, gone, s, active, i)
    requires active[v] in s.running && t == Evict(s, active[v])
    ensures var rest, j: nat := RemoveAt(active, v), if v < i then i - 1 else i;
            && Named(s0, rest) && Named(t, rest)
            && forall k {:trigger rest[k]} :: 0 <= k < |rest| ==> SameRow(s0.mem.blockSize, s0.reqs[rest[k]], t.reqs[rest[k]], k < j)
  {
    var b := s0.mem.blockSize;
    var rest, j: nat := RemoveAt(active, v), if v < i then i - 1 else i;
    EvictOthers(s, active[v], t);
    hide Opening, Held, Evict;
    forall k | 0 <= k < |rest| ensures rest[k] < |s0.reqs| && rest[k] < |t.reqs| && SameRow(b, s0.reqs[rest[k]], t.reqs[rest[k]], k < j) {
      var l := if k < v then k else k + 1;
      assert rest[k] == active[l] && l != v;
      var _ := t.reqs[active[l]];
    }
  }

  lemma EvictGives(s: State, h: nat, t: State)
    requires Ok(s) && h < |s.reqs| && h in s.running && t == Evict(s, h)
    ensures |t.mem.free| == |s.mem.free| + |s.reqs[h].table| && |t.reqs| == |s.reqs| && t.mem.kind == s.mem.kind
  {
  }

  lemma FrontWithout(b: nat, reqs: seq<Req>, active: seq<nat>, i: nat, v: nat)
    requires b > 0 && i < |active| && v < |active| && forall j :: 0 <= j < |active| ==> active[j] < |reqs|
    ensures var rest, j: nat := RemoveAt(active, v), if v < i then i - 1 else i;
            && j <= |rest| && (forall k :: 0 <= k < |rest| ==> rest[k] < |reqs|)
            && Opening(b, reqs, rest[..j]) + (if v < i then One(b, reqs[active[v]]) else 0) == Opening(b, reqs, active[..i])
  {
    var rest, j: nat := RemoveAt(active, v), if v < i then i - 1 else i;
    if v < i {
      assert rest[..j] == RemoveAt(active[..i], v);
      OpeningWithoutOne(b, reqs, active[..i], v);
    } else {
      assert rest[..j] == active[..i];
    }
  }

  // ---------------------------------------------------------------- the theorem

  /** Evicted less often so far, or as often and admitted later. */
  predicate Sooner(q: Req, r: Req)
  {
    q.preempts < r.preempts || (q.preempts == r.preempts && q.admitSeq > r.admitSeq)
  }

  /** `vs` names the victims in turn: each precedes those after it and all of `kept`. */
  ghost predicate InTurn(s0: State, vs: seq<nat>, kept: seq<nat>)
    requires Named(s0, vs) && Named(s0, kept)
  {
    && (forall m, n {:trigger vs[m], vs[n]} :: 0 <= m < n < |vs| ==> Sooner(s0.reqs[vs[m]], s0.reqs[vs[n]]))
    && (forall m, n {:trigger vs[m], kept[n]} :: 0 <= m < |vs| && 0 <= n < |kept| ==> Sooner(s0.reqs[vs[m]], s0.reqs[kept[n]]))
  }

  /** The first `n` of `vs` had to go for each `n`, and all of them were enough. */
  ghost predicate JustEnough(s0: State, gone: seq<nat>, vs: seq<nat>, total: nat)
    requires s0.mem.blockSize > 0 && Named(s0, gone) && Named(s0, vs)
  {
    (forall m {:trigger vs[..m]} :: 0 <= m < |vs| ==> Short(s0, gone + vs[..m], total)) && !Short(s0, gone + vs, total)
  }

  lemma ServedAllEnough(s0: State, gone: seq<nat>, s: State, active: seq<nat>, total: nat)
    requires Track(s0, gone, s, active, |active|) && s0.mem.blockSize > 0 && Named(s0, gone)
    requires Opening(s0.mem.blockSize, s0.reqs, active) + Opening(s0.mem.blockSize, s0.reqs, gone) == total
    ensures JustEnough(s0, gone, [], total)
  {
    assert active[..|active|] == active;
    assert gone + [] == gone;
  }

  lemma DryShort(s0: State, gone: seq<nat>, s: State, active: seq<nat>, i: nat, total: nat)
    requires i < |active| && Track(s0, gone, s, active, i) && s.mem.free == [] && Opens(s0.mem.blockSize, s.reqs[active[i]])
    requires Opening(s0.mem.blockSize, s0.reqs, active) + Opening(s0.mem.blockSize, s0.reqs, gone) == total
    ensures Short(s0, gone, total)
  {
    TrackParts(s0, gone, s, active, i);
    hide Track, Opening, Held, Named;
    OpeningSplit(s0, active, i);
  }

  lemma TrackParts(s0: State, gone: seq<nat>, s: State, active: seq<nat>, i: nat)
    requires i < |active| && Track(s0, gone, s, active, i)
    ensures s0.mem.blockSize > 0 && Named(s0, gone) && Named(s0, active) && Named(s, active) && s.mem.blockSize == s0.mem.blockSize
    ensures |s.mem.free| + Opening(s0.mem.blockSize, s0.reqs, active[..i]) == |s0.mem.free| + Held(s0.reqs, gone)
    ensures s.reqs[active[i]].SeqLen() == s0.reqs[active[i]].SeqLen()
  {
    assert SameRow(s0.mem.blockSize, s0.reqs[active[i]], s.reqs[active[i]], false);
  }

  lemma OpeningSplit(s0: State, active: seq<nat>, i: nat)
    requires s0.mem.blockSize > 0 && i < |active| && Named(s0, active)
    ensures Named(s0, active[..i])
    ensures Opening(s0.mem.blockSize, s0.reqs, active) >= Opening(s0.mem.blockSize, s0.reqs, active[..i]) + One(s0.mem.blockSize, s0.reqs[active[i]])
  {
    OpeningAdd(s0.mem.blockSize, s0.reqs, active[..i], active[i..]);
    assert active == active[..i] + active[i..];
    OpeningNext(s0.mem.blockSize, s0.reqs, active, i);
    hide Opening;
  }

  lemma VictimsOneMore(s0: State, gone: seq<nat>, h: nat, vs: seq<nat>, total: nat)
    requires s0.mem.blockSize > 0 && Named(s0, gone) && h < |s0.reqs| && Named(s0, gone + [h]) && Named(s0, vs)
    requires Short(s0, gone, total) && JustEnough(s0, gone + [h], vs, total)
    ensures Named(s0, [h] + vs) && JustEnough(s0, gone, [h] + vs, total)
  {
    var all := [h] + vs;
    forall m | 0 <= m < |all| ensures Short(s0, gone + all[..m], total) {
      if m == 0 {
        assert gone + all[..0] == gone;
      } else {
        assert gone + all[..m] == gone + [h] + vs[..m - 1];
      }
    }
    assert gone + all == gone + [h] + vs;
  }

  lemma TurnOneMore(s0: State, h: nat, rest: seq<nat>, vs: seq<nat>, kept: seq<nat>)
    requires h < |s0.reqs| && Named(s0, rest) && Named(s0, vs) && Named(s0, kept) && multiset(vs) + multiset(kept) == multiset(rest)
    requires forall j {:trigger rest[j]} :: 0 <= j < |rest| ==> Sooner(s0.reqs[h], s0.reqs[rest[j]])
    requires InTurn(s0, vs, kept)
    ensures Named(s0, [h] + vs) && InTurn(s0, [h] + vs, kept)
  {
    var all := [h] + vs;
    forall n | 0 <= n < |vs| ensures Sooner(s0.reqs[h], s0.reqs[vs[n]]) {
      assert vs[n] in multiset(rest);
      var j :| 0 <= j < |rest| && rest[j] == vs[n];
    }
    forall n | 0 <= n < |kept| ensures Sooner(s0.reqs[h], s0.reqs[kept[n]]) {
      assert kept[n] in multiset(rest);
      var j :| 0 <= j < |rest| && rest[j] == kept[n];
    }
  }

  /** The victim comes before whoever else is active. */
  lemma VictimLeast(c: Config, s0: State, gone: seq<nat>, s: State, active: seq<nat>, i: nat, v: nat)
    requires Inv(c, s, []) && Ok(s) && Active(s, active) && Named(s, active) && i <= |active| && Track(s0, gone, s, active, i)
    requires active != [] && v == VictimIndex(s.reqs, active)
    ensures v < |active| && Named(s0, RemoveAt(active, v))
    ensures forall j {:trigger RemoveAt(active, v)[j]} :: 0 <= j < |RemoveAt(active, v)| ==>
              Sooner(s0.reqs[active[v]], s0.reqs[RemoveAt(active, v)[j]])
  {
    hide Inv, Active, Track, VictimIndex, VictimKey;
    VictimBeforeRest(c, s, active, v);
    KeysCarry(s0, gone, s, active, i, v);
  }

  /** What the keys said now they said when the loop began. */
  lemma KeysCarry(s0: State, gone: seq<nat>, s: State, active: seq<nat>, i: nat, v: nat)
    requires i <= |active| && Track(s0, gone, s, active, i) && v < |active|
    requires forall g: nat {:trigger g in RemoveAt(active, v)} :: g in RemoveAt(active, v) && g < |s.reqs| ==>
               Less(VictimKey(s.reqs[active[v]]), VictimKey(s.reqs[g]))
    ensures Named(s0, RemoveAt(active, v))
    ensures forall j {:trigger RemoveAt(active, v)[j]} :: 0 <= j < |RemoveAt(active, v)| ==>
              Sooner(s0.reqs[active[v]], s0.reqs[RemoveAt(active, v)[j]])
  {
    var rest := RemoveAt(active, v);
    hide VictimKey, Opening, Held;
    assert SameRow(s0.mem.blockSize, s0.reqs[active[v]], s.reqs[active[v]], v < i);
    forall j | 0 <= j < |rest| ensures rest[j] < |s0.reqs| && Sooner(s0.reqs[active[v]], s0.reqs[rest[j]]) {
      var l := if j < v then j else j + 1;
      assert rest[j] == active[l] && rest[j] in rest;
      assert SameRow(s0.mem.blockSize, s0.reqs[active[l]], s.reqs[active[l]], l < i);
    }
  }

  lemma {:induction false} VictimsFrom(c: Config, s0: State, gone: seq<nat>, s: State, active: seq<nat>, i: nat, total: nat) returns (vs: seq<nat>)
    requires Inv(c, s, []) && Ok(s) && Named(s, active) && Active(s, active) && i <= |active| && ServedUpTo(s, active, i)
    requires s.mem.kind.Blocks? && Unserved(s, active, i) && Track(s0, gone, s, active, i) && s0.mem.blockSize > 0 && Named(s0, gone)
    requires Named(s0, active) && Opening(s0.mem.blockSize, s0.reqs, active) + Opening(s0.mem.blockSize, s0.reqs, gone) == total
    ensures multiset(vs) + multiset(EnsureCapacity(c, s, active, i).active) == multiset(active)
    ensures Named(s0, vs) && Named(s0, EnsureCapacity(c, s, active, i).active)
    ensures JustEnough(s0, gone, vs, total) && InTurn(s0, vs, EnsureCapacity(c, s, active, i).active)
    decreases |active|, |active| - i
  {
    hide *;
    if i == |active| {
      vs := [];
      LoopOver(c, s, active);
      ServedAllEnough(s0, gone, s, active, total);
      NobodyOut(s0, active);
    } else {
      var h := active[i];
      ActiveRow(s, active, i);
      UnservedRow(s, active, i);
      if AppendSlot(s.mem, s.reqs[h]).ok {
        var t := GrowOne(s, h);
        TrackGrow(s0, gone, s, active, i, t);
        GrowServes(c, s, active, i, h, t);
        UnservedGrow(s, active, i, t);
        AfterGrow(c, s, active, i, t);
        StillNamed(s, t, active);
        vs := VictimsFrom(c, s0, gone, t, active, i + 1, total);
      } else {
        vs := VictimsAfter(c, s0, gone, s, active, i, total);
      }
    }
  }

  lemma {:induction false} VictimsAfter(c: Config, s0: State, gone: seq<nat>, s: State, active: seq<nat>, i: nat, total: nat) returns (vs: seq<nat>)
    requires Inv(c, s, []) && Ok(s) && Named(s, active) && Active(s, active) && i < |active| && ServedUpTo(s, active, i)
    requires s.mem.kind.Blocks? && Unserved(s, active, i) && Track(s0, gone, s, active, i) && s0.mem.blockSize > 0 && Named(s0, gone)
    requires Named(s0, active) && Opening(s0.mem.blockSize, s0.reqs, active) + Opening(s0.mem.blockSize, s0.reqs, gone) == total
    requires !AppendSlot(s.mem, s.reqs[active[i]]).ok
    ensures multiset(vs) + multiset(EnsureCapacity(c, s, active, i).active) == multiset(active)
    ensures Named(s0, vs) && Named(s0, EnsureCapacity(c, s, active, i).active)
    ensures JustEnough(s0, gone, vs, total) && InTurn(s0, vs, EnsureCapacity(c, s, active, i).active)
    decreases |active|, |active| - i, 0
  {
    hide *;
    ActiveRow(s, active, i);
    UnservedRow(s, active, i);
    DryOpens(s, active[i]);
    var v := AfterDry(c, s, active, i);
    SameSize(s0, gone, s, active, i);
    DryShort(s0, gone, s, active, i, total);
    VictimLeast(c, s0, gone, s, active, i, v);
    var h := active[v];
    var t, rest, j: nat := Evict(s, h), RemoveAt(active, v), if v < i then i - 1 else i;
    TrackEvict(s0, gone, s, active, i, v, t);
    EvictServes(c, s, active, i, v, t);
    UnservedEvict(s, active, i, v, t);
    ShorterList(s0, gone, active, v, j, total);
    EvictGives(s, h, t);
    var others := VictimsFrom(c, s0, gone + [h], t, rest, j, total);
    var kept := EnsureCapacity(c, t, rest, j).active;
    VictimsOneMore(s0, gone, h, others, total);
    TurnOneMore(s0, h, rest, others, kept);
    RemoveAtMultiset(active, v);
    vs := [h] + others;
  }

  lemma StillNamed(s: State, t: State, active: seq<nat>)
    requires Named(s, active) && |t.reqs| == |s.reqs|
    ensures Named(t, active)
  {
  }

  lemma LoopOver(c: Config, s: State, active: seq<nat>)
    requires Ok(s) && Named(s, active)
    ensures EnsureCapacity(c, s, active, |active|).active == active
  {
  }

  lemma NobodyOut(s0: State, active: seq<nat>)
    requires Named(s0, active)
    ensures Named(s0, []) && InTurn(s0, [], active)
  {
  }

  lemma UnservedRow(s: State, active: seq<nat>, i: nat)
    requires Ok(s) && i < |active| && Unserved(s, active, i)
    ensures s.mem.blockSize > 0 && active[i] < |s.reqs| && SettledOne(s.mem.blockSize, s.reqs[active[i]])
  {
  }

  /** A row that finds no block needed one. */
  lemma DryOpens(s: State, h: nat)
    requires Ok(s) && h < |s.reqs| && s.reqs[h].state == Running && s.mem.kind.Blocks? && SettledOne(s.mem.blockSize, s.reqs[h])
    requires !AppendSlot(s.mem, s.reqs[h]).ok
    ensures Opens(s.mem.blockSize, s.reqs[h])
  {
    ServeOne(s, h);
  }

  lemma SameSize(s0: State, gone: seq<nat>, s: State, active: seq<nat>, i: nat)
    requires i <= |active| && Track(s0, gone, s, active, i)
    ensures s.mem.blockSize == s0.mem.blockSize
  {
  }

  lemma ShorterList(s0: State, gone: seq<nat>, active: seq<nat>, v: nat, j: nat, total: nat)
    requires s0.mem.blockSize > 0 && Named(s0, gone) && Named(s0, active) && v < |active| && j <= |active| - 1
    requires Opening(s0.mem.blockSize, s0.reqs, active) + Opening(s0.mem.blockSize, s0.reqs, gone) == total
    ensures Named(s0, gone + [active[v]]) && Named(s0, RemoveAt(active, v)) && j <= |RemoveAt(active, v)| == |active| - 1
    ensures active[v] < |s0.reqs|
    ensures Opening(s0.mem.blockSize, s0.reqs, RemoveAt(active, v)) + Opening(s0.mem.blockSize, s0.reqs, gone + [active[v]]) == total
  {
    OpeningWithoutOne(s0.mem.blockSize, s0.reqs, active, v);
    OpeningOne(s0.mem.blockSize, s0.reqs, active[v]);
    OpeningAdd(s0.mem.blockSize, s0.reqs, gone, [active[v]]);
  }

  /** The victims of a decode. Written in the order fewest evictions first, newest admission first, the rows fall
      into those evicted and those kept, and the evicted ones are the shortest front that is enough: with fewer
      of them gone, the others would still have needed more blocks than were free or given back. */
  lemma EvictsShortestFront(c: Config, t: State) returns (vs: seq<nat>)
    requires StepInv(c, t) && Ok(t) && t.mem.kind.Blocks?
    ensures var rows := DecodeRows(t); var kept := EnsureCapacity(c, t, rows, 0).active;
            && multiset(vs) + multiset(kept) == multiset(rows) && Named(t, vs) && InTurn(t, vs, kept)
            && forall m {:trigger vs[..m]} :: 0 <= m <= |vs| ==>
                 (Opening(t.mem.blockSize, t.reqs, rows) - Opening(t.mem.blockSize, t.reqs, vs[..m]) <= |t.mem.free| + Held(t.reqs, vs[..m])
                  <==> m == |vs|)
  {
    var rows := DecodeRows(t);
    StepParts(c, t);
    DecodeReady(c, t);
    hide *;
    TrackStart(t, rows);
    vs := VictimsFrom(c, t, [], t, rows, 0, Opening(t.mem.blockSize, t.reqs, rows));
    FrontByFront(t, rows, vs);
  }

  lemma StepParts(c: Config, t: State)
    requires StepInv(c, t)
    ensures Inv(c, t, []) && t.mem.blockSize > 0
  {
  }

  lemma FrontByFront(t: State, rows: seq<nat>, vs: seq<nat>)
    requires t.mem.blockSize > 0 && Named(t, rows) && Named(t, []) && Named(t, vs)
    requires JustEnough(t, [], vs, Opening(t.mem.blockSize, t.reqs, rows))
    ensures forall m {:trigger vs[..m]} :: 0 <= m <= |vs| ==>
              (Opening(t.mem.blockSize, t.reqs, rows) - Opening(t.mem.blockSize, t.reqs, vs[..m]) <= |t.mem.free| + Held(t.reqs, vs[..m])
               <==> m == |vs|)
  {
    hide Opening, Held;
    forall m | 0 <= m <= |vs|
      ensures Opening(t.mem.blockSize, t.reqs, rows) - Opening(t.mem.blockSize, t.reqs, vs[..m]) <= |t.mem.free| + Held(t.reqs, vs[..m]) <==> m == |vs|
    {
      assert [] + vs[..m] == vs[..m];
      assert [] + vs == vs && vs[..|vs|] == vs;
    }
  }

  lemma TrackStart(t: State, rows: seq<nat>)
    requires Ok(t) && Named(t, rows)
    ensures Track(t, [], t, rows, 0) && Named(t, []) && Opening(t.mem.blockSize, t.reqs, []) == 0
  {
    assert rows[..0] == [];
  }
}
