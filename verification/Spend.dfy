/** The spend circuit-breaker: a guard that trips at a project-wide cap, shared by a pool of workers that
    check, call and record. Money is exact. */
module Spend {
  import opened Seqs

  // ---------------------------------------------------------------- prices

  datatype Price = Price(input: real, output: real)

  /** USD per million tokens. */
  function PriceOf(model: string): Option<Price>
  {
    if model == "claude-haiku-4-5" then Some(Price(1.0, 5.0))
    else if model == "claude-sonnet-5" then Some(Price(2.0, 10.0))
    else if model == "claude-opus-5" then Some(Price(5.0, 25.0))
    else if model == "claude-fable-5-1" then Some(Price(10.0, 50.0))
    else None
  }

  /** None for a model without a price, for which the price lookup raises KeyError. */
  function CostUsd(model: string, input: nat, output: nat): Option<real>
  {
    match PriceOf(model)
    case None => None
    case Some(p) => Some((input as real * p.input + output as real * p.output) / 1000000.0)
  }

  /** A call whose token counts stay within given limits costs at most what the limits cost. */
  lemma WorstCase(model: string, input: nat, output: nat, maxInput: nat, maxOutput: nat)
    requires input <= maxInput && output <= maxOutput && PriceOf(model).Some?
    ensures 0.0 <= CostUsd(model, input, output).value <= CostUsd(model, maxInput, maxOutput).value
  {
    var p := PriceOf(model).value;
    Scale(p.input, input as real, maxInput as real);
    Scale(p.output, output as real, maxOutput as real);
  }

  /** Calls add up: two calls of one model cost what one call with all their tokens would. */
  lemma CostAdds(model: string, i: nat, o: nat, j: nat, q: nat)
    requires CostUsd(model, i, o).Some?
    ensures CostUsd(model, j, q).Some? && CostUsd(model, i + j, o + q) == Some(CostUsd(model, i, o).value + CostUsd(model, j, q).value)
  {
    var p := PriceOf(model).value;
    assert (i + j) as real * p.input == i as real * p.input + j as real * p.input;
    assert (o + q) as real * p.output == o as real * p.output + q as real * p.output;
  }

  /** A million tokens read cost 1, 2, 5 or 10 dollars, a million tokens written five times as much, and no
      other model has a price. */
  lemma PriceList(model: string)
    ensures CostUsd("claude-haiku-4-5", 1000000, 0) == Some(1.0) && CostUsd("claude-haiku-4-5", 0, 1000000) == Some(5.0)
    ensures CostUsd("claude-sonnet-5", 1000000, 0) == Some(2.0) && CostUsd("claude-sonnet-5", 0, 1000000) == Some(10.0)
    ensures CostUsd("claude-opus-5", 1000000, 0) == Some(5.0) && CostUsd("claude-opus-5", 0, 1000000) == Some(25.0)
    ensures CostUsd("claude-fable-5-1", 1000000, 0) == Some(10.0) && CostUsd("claude-fable-5-1", 0, 1000000) == Some(50.0)
    ensures forall i, o :: CostUsd(model, i, o).Some? <==> model in {"claude-haiku-4-5", "claude-sonnet-5", "claude-opus-5", "claude-fable-5-1"}
  {
    assert PriceOf("claude-sonnet-5") == Some(Price(2.0, 10.0)) && PriceOf("claude-opus-5") == Some(Price(5.0, 25.0)) by {
      assert "claude-sonnet-5"[7] != "claude-haiku-4-5"[7];
      assert |"claude-opus-5"| != |"claude-haiku-4-5"| && |"claude-opus-5"| != |"claude-sonnet-5"|;
    }
    assert PriceOf("claude-fable-5-1") == Some(Price(10.0, 50.0)) by {
      assert "claude-fable-5-1"[7] != "claude-haiku-4-5"[7];
      assert |"claude-fable-5-1"| != |"claude-sonnet-5"| && |"claude-fable-5-1"| != |"claude-opus-5"|;
    }
  }

  /** A token written costs five times a token read, whatever the model. */
  lemma WritingCostsFive(model: string, n: nat)
    requires CostUsd(model, n, 0).Some?
    ensures CostUsd(model, 0, n) == Some(5.0 * CostUsd(model, n, 0).value)
  {
  }

  lemma Scale(p: real, x: real, y: real)
    requires p >= 0.0 && 0.0 <= x <= y
    ensures 0.0 <= x * p <= y * p
  {
    assert (y - x) * p >= 0.0;
  }

  // ---------------------------------------------------------------- the ledger and the guard

  function Total(ledger: seq<real>): real
  {
    if ledger == [] then 0.0 else Total(ledger[..|ledger| - 1]) + ledger[|ledger| - 1]
  }

  lemma TotalAppend(ledger: seq<real>, usd: real)
    ensures Total(ledger + [usd]) == Total(ledger) + usd
  {
    assert (ledger + [usd])[..|ledger|] == ledger;
  }

  /** What a guard keeps: the total, the ledger behind it, and the breaker. */
  datatype Books = Books(spent: real, ledger: seq<real>, tripped: bool)

  /** The books after one recorded call. */
  function Recorded(b: Books, usd: real, reserve: real, cap: real): Books
  {
    Books(b.spent + usd, b.ledger + [usd], b.tripped || b.spent + usd + reserve >= cap)
  }

  /** The append-only ledger file. */
  class Ledger {
    var entries: seq<real>

    constructor ()
      ensures entries == []
    {
      entries := [];
    }

    method Sum() returns (total: real)
      ensures total == Total(entries)
    {
      total := 0.0;
      for i := 0 to |entries|
        invariant total == Total(entries[..i])
      {
        TotalAppend(entries[..i], entries[i]);
        assert entries[..i + 1] == entries[..i] + [entries[i]];
        total := total + entries[i];
      }
      assert entries[..|entries|] == entries;
    }
  }

  class SpendGuard {
    const cap: real
    const reserve: real
    const ledger: Ledger
    var spent: real
    var tripped: bool

    /** Between calls the guard and its ledger agree, and the breaker is as the total says or already tripped. */
    ghost predicate Valid()
      reads this, ledger
    {
      spent == Total(ledger.entries) && (spent + reserve >= cap ==> tripped)
    }

    ghost function Kept(): Books
      reads this, ledger
    {
      Books(spent, ledger.entries, tripped)
    }

    /** A new guard takes up where the ledger left off. */
    constructor (cap: real, reserve: real, ledger: Ledger)
      ensures Valid() && this.cap == cap && this.reserve == reserve && this.ledger == ledger
      ensures spent == Total(ledger.entries) && (tripped <==> spent + reserve >= cap)
    {
      this.cap, this.reserve, this.ledger := cap, reserve, ledger;
      var total := ledger.Sum();
      spent := total;
      tripped := total + reserve >= cap;
    }

    /** False when `check` raises BudgetExceeded. */
    method Check() returns (ok: bool)
      requires Valid()
      ensures ok <==> !tripped
      ensures ok ==> spent + reserve < cap
    {
      ok := !tripped;
    }

    method Record(model: string, input: nat, output: nat) returns (usd: Option<real>)
      requires Valid()
      modifies this, ledger
      ensures Valid() && usd == CostUsd(model, input, output)
      ensures usd == None ==> unchanged(this) && unchanged(ledger)
      ensures usd.Some? ==> Kept() == Recorded(old(Kept()), usd.value, reserve, cap)
      ensures usd.Some? ==> Total(ledger.entries) == old(Total(ledger.entries)) + usd.value
    {
      usd := CostUsd(model, input, output);
      if usd == None {
        return;
      }
      spent := spent + usd.value;
      TotalAppend(ledger.entries, usd.value);
      ledger.entries := ledger.entries + [usd.value];
      if spent + reserve >= cap {
        tripped := true;
      }
    }
  }

  // ---------------------------------------------------------------- the worker pool, step by step

  /** Where a worker is with its sample; `Added` and `Logged` are inside the guard's lock. */
  datatype Stage = Idle | Calling | Called(usd: real) | Added(usd: real) | Logged(usd: real)

  /** `queued` samples have not been started; `calls` counts the calls made. */
  datatype Pool = Pool(
    cap: real, reserve: real, ledger: seq<real>, spent: real, tripped: bool, holder: Option<nat>,
    workers: seq<Stage>, queued: nat, calls: nat, completed: nat, errors: nat, skipped: nat)

  datatype Event =
    | Check(w: nat)              // reads the breaker without the lock
    | Return(w: nat, usd: real)  // the call comes back and will cost this much
    | Fail(w: nat)               // the call raises: recorded as an error, nothing spent
    | Add(w: nat)                // takes the lock
    | Log(w: nat)
    | Trip(w: nat)               // tests the total and releases the lock

  /** No call costs more than `m`. */
  predicate Enabled(s: Pool, e: Event, m: real)
  {
    e.w < |s.workers| &&
    match e
    case Check(w) => s.workers[w].Idle? && s.queued > 0
    case Return(w, usd) => s.workers[w].Calling? && 0.0 <= usd <= m
    case Fail(w) => s.workers[w].Calling?
    case Add(w) => s.workers[w].Called? && s.holder == None
    case Log(w) => s.workers[w].Added?
    case Trip(w) => s.workers[w].Logged?
  }

  function Move(s: Pool, w: nat, stage: Stage): Pool
    requires w < |s.workers|
  {
    s.(workers := s.workers[w := stage])
  }

  function Next(s: Pool, e: Event, m: real): Pool
    requires Enabled(s, e, m)
  {
    match e
    case Check(w) =>
      if s.tripped then s.(queued := s.queued - 1, skipped := s.skipped + 1)
      else Move(s, w, Calling).(queued := s.queued - 1, calls := s.calls + 1)
    case Return(w, usd) => Move(s, w, Called(usd))
    case Fail(w) => Move(s, w, Idle).(errors := s.errors + 1)
    case Add(w) => Move(s, w, Added(s.workers[w].usd)).(spent := s.spent + s.workers[w].usd, holder := Some(w))
    case Log(w) => Move(s, w, Logged(s.workers[w].usd)).(ledger := s.ledger + [s.workers[w].usd])
    case Trip(w) => Move(s, w, Idle).(tripped := s.tripped || s.spent + s.reserve >= s.cap, holder := None, completed := s.completed + 1)
  }

  /** A fresh guard over what the ledger already holds, and an idle pool. */
  function Start(cap: real, reserve: real, ledger: seq<real>, workers: nat, todo: nat): Pool
  {
    Pool(cap, reserve, ledger, Total(ledger), Total(ledger) + reserve >= cap, None, seq(workers, i => Idle), todo, 0, 0, 0, 0)
  }

  function KeptBy(s: Pool): Books
  {
    Books(s.spent, s.ledger, s.tripped)
  }

  /** `SpendGuard.Record` is Add, Log and Trip of one worker with nobody in between, which the lock ensures. */
  lemma RecordIsAddLogTrip(s: Pool, w: nat, m: real)
    requires w < |s.workers| && s.workers[w].Called? && s.holder == None
    ensures var es := [Add(w), Log(w), Trip(w)];
            && Possible(s, es, m) && KeptBy(Run(s, es, m)) == Recorded(KeptBy(s), s.workers[w].usd, s.reserve, s.cap)
            && Run(s, es, m).workers == s.workers[w := Idle] && Run(s, es, m).holder == None
  {
    var es := [Add(w), Log(w), Trip(w)];
    assert es[1..] == [Log(w), Trip(w)] && [Log(w), Trip(w)][1..] == [Trip(w)] && [Trip(w)][1..] == [];
    var s1 := Next(s, Add(w), m);
    var s2 := Next(s1, Log(w), m);
    var s3 := Next(s2, Trip(w), m);
    assert Possible(s3, [], m) && Run(s3, [], m) == s3;
    assert Possible(s2, [Trip(w)], m) && Run(s2, [Trip(w)], m) == Run(s3, [], m);
    assert Possible(s1, [Log(w), Trip(w)], m) && Run(s1, [Log(w), Trip(w)], m) == s3;
    assert s3.workers == s.workers[w := Idle];
  }

  // ---------------------------------------------------------------- the invariant

  function Busy(ws: seq<Stage>): nat
  {
    if ws == [] then 0 else Busy(ws[..|ws| - 1]) + (if ws[|ws| - 1].Idle? then 0 else 1)
  }

  lemma {:induction false} BusyUpdate(ws: seq<Stage>, w: nat, stage: Stage)
    requires w < |ws|
    ensures Busy(ws[w := stage]) == Busy(ws) - (if ws[w].Idle? then 0 else 1) + (if stage.Idle? then 0 else 1)
    ensures Busy(ws) <= |ws|
  {
    var n := |ws| - 1;
    if w == n {
      assert ws[w := stage][..n] == ws[..n];
      if n > 0 { BusyUpdate(ws[..n], 0, Idle); }
    } else {
      BusyUpdate(ws[..n], w, stage);
      assert ws[w := stage][..n] == ws[..n][w := stage];
    }
  }

  /** What the lock holder has added but not yet tested against the cap. */
  function Pending(s: Pool): real
  {
    match s.holder
    case None => 0.0
    case Some(w) => if w < |s.workers| && (s.workers[w].Added? || s.workers[w].Logged?) then s.workers[w].usd else 0.0
  }

  function Worth(m: real, k: nat): real
  {
    m * k as real
  }

  lemma WorthStep(m: real, k: nat)
    ensures Worth(m, k + 1) == Worth(m, k) + m
  {
  }

  lemma WorthMono(m: real, j: nat, k: nat)
    requires m >= 0.0 && j <= k
    ensures 0.0 <= Worth(m, j) <= Worth(m, k)
  {
    Scale(m, j as real, k as real);
  }

  ghost predicate Inv(s: Pool, m: real, spent0: real, todo: nat)
  {
    && m >= 0.0
    && (forall w: nat {:trigger s.workers[w]} :: w < |s.workers| ==>
          && ((s.workers[w].Added? || s.workers[w].Logged?) <==> s.holder == Some(w))
          && (s.workers[w].Called? || s.workers[w].Added? || s.workers[w].Logged? ==> 0.0 <= s.workers[w].usd <= m))
    && (s.holder.Some? ==> s.holder.value < |s.workers|)
    && s.spent == Total(s.ledger) + (if s.holder.Some? && s.holder.value < |s.workers| && s.workers[s.holder.value].Added? then Pending(s) else 0.0)
    && (!s.tripped ==> s.spent - Pending(s) + s.reserve < s.cap)
    && (s.calls > 0 ==> s.spent - Pending(s) + Worth(m, Busy(s.workers)) < s.cap - s.reserve + Worth(m, |s.workers|))
    && (s.calls == 0 ==> s.spent == spent0 && Busy(s.workers) == 0)
    && todo == s.queued + Busy(s.workers) + s.completed + s.errors + s.skipped
    && (s.skipped > 0 ==> s.tripped)
  }

  lemma CheckKeeps(s: Pool, m: real, w: nat, spent0: real, todo: nat)
    requires Inv(s, m, spent0, todo) && Enabled(s, Check(w), m)
    ensures Inv(Next(s, Check(w), m), m, spent0, todo)
  {
    if !s.tripped {
      BusyUpdate(s.workers, w, Calling);
      BusyUpdate(s.workers[w := Calling], w, Calling);
      WorthMono(m, Busy(s.workers[w := Calling]), |s.workers|);
    }
  }

  lemma LeaveKeeps(s: Pool, m: real, e: Event, spent0: real, todo: nat)
    requires Inv(s, m, spent0, todo) && Enabled(s, e, m) && (e.Fail? || e.Trip?)
    ensures Inv(Next(s, e, m), m, spent0, todo)
  {
    BusyUpdate(s.workers, e.w, Idle);
    WorthStep(m, Busy(s.workers) - 1);
  }

  lemma ReturnKeeps(s: Pool, m: real, w: nat, usd: real, spent0: real, todo: nat)
    requires Inv(s, m, spent0, todo) && Enabled(s, Return(w, usd), m)
    ensures Inv(Next(s, Return(w, usd), m), m, spent0, todo)
  {
    BusyUpdate(s.workers, w, Called(usd));
  }

  lemma AddKeeps(s: Pool, m: real, w: nat, spent0: real, todo: nat)
    requires Inv(s, m, spent0, todo) && Enabled(s, Add(w), m)
    ensures Inv(Next(s, Add(w), m), m, spent0, todo)
  {
    BusyUpdate(s.workers, w, Added(s.workers[w].usd));
    BusyUpdate(s.workers, w, Idle);
  }

  lemma LogKeeps(s: Pool, m: real, w: nat, spent0: real, todo: nat)
    requires Inv(s, m, spent0, todo) && Enabled(s, Log(w), m)
    ensures Inv(Next(s, Log(w), m), m, spent0, todo)
  {
    BusyUpdate(s.workers, w, Logged(s.workers[w].usd));
    TotalAppend(s.ledger, s.workers[w].usd);
  }

  lemma StepKeeps(s: Pool, e: Event, m: real, spent0: real, todo: nat)
    requires Inv(s, m, spent0, todo) && Enabled(s, e, m)
    ensures Inv(Next(s, e, m), m, spent0, todo)
  {
    match e
    case Check(w) => CheckKeeps(s, m, w, spent0, todo);
    case Fail(_) => LeaveKeeps(s, m, e, spent0, todo);
    case Trip(_) => LeaveKeeps(s, m, e, spent0, todo);
    case Return(w, usd) => ReturnKeeps(s, m, w, usd, spent0, todo);
    case Add(w) => AddKeeps(s, m, w, spent0, todo);
    case Log(w) => LogKeeps(s, m, w, spent0, todo);
  }

  // ---------------------------------------------------------------- whole runs

  predicate Possible(s: Pool, es: seq<Event>, m: real)
    decreases |es|
  {
    es == [] || (Enabled(s, es[0], m) && Possible(Next(s, es[0], m), es[1..], m))
  }

  function Run(s: Pool, es: seq<Event>, m: real): Pool
    requires Possible(s, es, m)
    decreases |es|
  {
    if es == [] then s else Run(Next(s, es[0], m), es[1..], m)
  }

  lemma {:induction false} RunKeeps(s: Pool, es: seq<Event>, m: real, spent0: real, todo: nat)
    requires Inv(s, m, spent0, todo) && Possible(s, es, m)
    ensures Inv(Run(s, es, m), m, spent0, todo)
    ensures Run(s, es, m).cap == s.cap && Run(s, es, m).reserve == s.reserve && |Run(s, es, m).workers| == |s.workers|
    decreases |es|
  {
    if es != [] {
      StepKeeps(s, es[0], m, spent0, todo);
      RunKeeps(Next(s, es[0], m), es[1..], m, spent0, todo);
    }
  }

  lemma {:induction false} AllIdle(ws: seq<Stage>)
    requires forall i :: 0 <= i < |ws| ==> ws[i].Idle?
    ensures Busy(ws) == 0
  {
    if ws != [] { AllIdle(ws[..|ws| - 1]); }
  }

  lemma StartOk(cap: real, reserve: real, ledger: seq<real>, workers: nat, todo: nat, m: real)
    requires m >= 0.0
    ensures Inv(Start(cap, reserve, ledger, workers, todo), m, Total(ledger), todo)
  {
    AllIdle(Start(cap, reserve, ledger, workers, todo).workers);
  }

  /** The cap under concurrency. In every interleaving, if this guard ever let a call through, the total
      stays below cap - reserve + (workers x the dearest call); so a reserve of that much keeps it below the
      cap. If it let none through, the total has not moved. Whenever the lock is free the ledger adds up to
      the total, so a new guard over that ledger resumes with exactly this total. */
  lemma CapHolds(cap: real, reserve: real, ledger: seq<real>, workers: nat, todo: nat, m: real, es: seq<Event>)
    requires m >= 0.0 && Possible(Start(cap, reserve, ledger, workers, todo), es, m)
    ensures var t := Run(Start(cap, reserve, ledger, workers, todo), es, m);
            && (t.calls > 0 ==> t.spent < cap - reserve + m * workers as real)
            && (t.calls > 0 && reserve >= m * workers as real ==> t.spent < cap)
            && (t.calls == 0 ==> t.spent == Total(ledger))
            && (t.holder == None ==> Start(cap, reserve, t.ledger, workers, todo).spent == t.spent)
            && todo == t.queued + Busy(t.workers) + t.completed + t.errors + t.skipped
            && (t.skipped > 0 ==> t.tripped)
  {
    hide *;
    var s := Start(cap, reserve, ledger, workers, todo);
    StartOk(cap, reserve, ledger, workers, todo, m);
    RunKeeps(s, es, m, Total(ledger), todo);
    StartFields(cap, reserve, ledger, workers, todo);
    Bounded(Run(s, es, m), m, Total(ledger), todo);
    StartFields(cap, reserve, Run(s, es, m).ledger, workers, todo);
  }

  lemma StartFields(cap: real, reserve: real, ledger: seq<real>, workers: nat, todo: nat)
    ensures var s := Start(cap, reserve, ledger, workers, todo);
            s.cap == cap && s.reserve == reserve && |s.workers| == workers && s.spent == Total(ledger)
  {
  }

  lemma Bounded(t: Pool, m: real, spent0: real, todo: nat)
    requires Inv(t, m, spent0, todo)
    ensures t.calls > 0 ==> t.spent < t.cap - t.reserve + m * |t.workers| as real
    ensures t.calls > 0 && t.reserve >= m * |t.workers| as real ==> t.spent < t.cap
    ensures t.calls == 0 ==> t.spent == spent0
    ensures t.holder == None ==> Total(t.ledger) == t.spent
    ensures todo == t.queued + Busy(t.workers) + t.completed + t.errors + t.skipped
    ensures t.skipped > 0 ==> t.tripped
  {
    PendingWithin(t, m, spent0, todo);
  }

  lemma PendingWithin(t: Pool, m: real, spent0: real, todo: nat)
    requires Inv(t, m, spent0, todo)
    ensures Pending(t) <= Worth(m, Busy(t.workers))
  {
    WorthMono(m, 0, Busy(t.workers));
    if t.holder.Some? {
      var w := t.holder.value;
      BusyUpdate(t.workers, w, Idle);
      WorthMono(m, 1, Busy(t.workers));
    }
  }

  // ---------------------------------------------------------------- exactly how much reserve it takes

  /** No run that let a call through reaches the cap, whatever the ledger it starts from and however many
      samples are asked for. */
  ghost predicate StaysUnder(cap: real, reserve: real, workers: nat, m: real)
  {
    forall ledger, todo: nat, es {:trigger Possible(Start(cap, reserve, ledger, workers, todo), es, m)} ::
      Possible(Start(cap, reserve, ledger, workers, todo), es, m) && Run(Start(cap, reserve, ledger, workers, todo), es, m).calls > 0
      ==> Run(Start(cap, reserve, ledger, workers, todo), es, m).spent < cap
  }

  predicate NoRefunds(ledger: seq<real>)
  {
    forall i :: 0 <= i < |ledger| ==> ledger[i] >= 0.0
  }

  /** The same for ledgers that only hold costs. */
  ghost predicate StaysUnderCosts(cap: real, reserve: real, workers: nat, m: real)
  {
    forall ledger, todo: nat, es {:trigger Possible(Start(cap, reserve, ledger, workers, todo), es, m)} ::
      NoRefunds(ledger) && Possible(Start(cap, reserve, ledger, workers, todo), es, m)
      && Run(Start(cap, reserve, ledger, workers, todo), es, m).calls > 0
      ==> Run(Start(cap, reserve, ledger, workers, todo), es, m).spent < cap
  }

  /** One event and then a run from where it leads. */
  lemma Then(s: Pool, e: Event, m: real, rest: seq<Event>) returns (es: seq<Event>)
    requires Enabled(s, e, m) && Possible(Next(s, e, m), rest, m)
    ensures Possible(s, es, m) && Run(s, es, m) == Run(Next(s, e, m), rest, m)
  {
    es := [e] + rest;
    assert es[1..] == rest;
  }

  lemma {:induction false} RunSplit(s: Pool, xs: seq<Event>, ys: seq<Event>, m: real)
    requires Possible(s, xs, m) && Possible(Run(s, xs, m), ys, m)
    ensures Possible(s, xs + ys, m) && Run(s, xs + ys, m) == Run(Run(s, xs, m), ys, m)
    decreases |xs|
  {
    if xs == [] {
      assert xs + ys == ys;
    } else {
      assert (xs + ys)[1..] == xs[1..] + ys;
      RunSplit(Next(s, xs[0], m), xs[1..], ys, m);
    }
  }

  /** The first `i` workers are calling and the others have yet to check an open breaker. */
  ghost predicate Checking(s: Pool, i: nat)
  {
    && i <= |s.workers| && !s.tripped && s.holder == None && s.queued >= |s.workers| - i
    && forall k :: 0 <= k < |s.workers| ==> s.workers[k] == if k < i then Calling else Idle
  }

  /** The first `i` workers are done and the others are calling. */
  ghost predicate Paying(s: Pool, i: nat)
  {
    && i <= |s.workers| && s.holder == None
    && forall k :: 0 <= k < |s.workers| ==> s.workers[k] == if k < i then Idle else Calling
  }

  /** Every worker can pass the check before anybody pays. */
  lemma {:induction false} AllCheck(s: Pool, i: nat, m: real) returns (es: seq<Event>)
    requires Checking(s, i)
    ensures Possible(s, es, m) && Paying(Run(s, es, m), 0) && Run(s, es, m).spent == s.spent
    ensures Run(s, es, m).calls == s.calls + |s.workers| - i && |Run(s, es, m).workers| == |s.workers|
    decreases |s.workers| - i
  {
    if i == |s.workers| {
      es := [];
    } else {
      var rest := AllCheck(Next(s, Check(i), m), i + 1, m);
      es := Then(s, Check(i), m, rest);
    }
  }

  /** One worker's call comes back at the dearest price and is recorded. */
  lemma OnePays(s: Pool, i: nat, m: real) returns (es: seq<Event>)
    requires Paying(s, i) && i < |s.workers| && m >= 0.0
    ensures Possible(s, es, m) && Paying(Run(s, es, m), i + 1) && Run(s, es, m).spent == s.spent + m
    ensures Run(s, es, m).calls == s.calls && |Run(s, es, m).workers| == |s.workers|
  {
    var s1 := Next(s, Return(i, m), m);
    var s2 := Next(s1, Add(i), m);
    var s3 := Next(s2, Log(i), m);
    var s4 := Next(s3, Trip(i), m);
    var e4 := Then(s3, Trip(i), m, []);
    var e3 := Then(s2, Log(i), m, e4);
    var e2 := Then(s1, Add(i), m, e3);
    es := Then(s, Return(i, m), m, e2);
  }

  lemma {:induction false} AllPay(s: Pool, i: nat, m: real) returns (es: seq<Event>)
    requires Paying(s, i) && m >= 0.0
    ensures Possible(s, es, m) && Run(s, es, m).spent == s.spent + Worth(m, |s.workers| - i) && Run(s, es, m).calls == s.calls
    decreases |s.workers| - i
  {
    if i == |s.workers| {
      es := [];
    } else {
      hide Paying, Next;
      var first := OnePays(s, i, m);
      PayingWithin(Run(s, first, m), i + 1);
      var rest := AllPay(Run(s, first, m), i + 1, m);
      RunSplit(s, first, rest, m);
      WorthStep(m, |s.workers| - i - 1);
      es := first + rest;
    }
  }

  lemma PayingWithin(s: Pool, i: nat)
    requires Paying(s, i)
    ensures i <= |s.workers|
  {
  }

  /** From any ledger that leaves the breaker open, everybody can call before anybody pays. */
  lemma EverybodyCalls(cap: real, reserve: real, ledger: seq<real>, workers: nat, m: real) returns (es: seq<Event>)
    requires Total(ledger) + reserve < cap && m >= 0.0
    ensures var s := Start(cap, reserve, ledger, workers, workers);
            Possible(s, es, m) && Run(s, es, m).calls == workers && Run(s, es, m).spent == Total(ledger) + m * workers as real
  {
    var s := Start(cap, reserve, ledger, workers, workers);
    StartChecking(cap, reserve, ledger, workers);
    hide *;
    var calls := AllCheck(s, 0, m);
    var pays := AllPay(Run(s, calls, m), 0, m);
    RunSplit(s, calls, pays, m);
    es := calls + pays;
    WorthIs(m, workers);
  }

  lemma WorthIs(m: real, k: nat)
    ensures Worth(m, k) == m * k as real
  {
  }

  lemma StartChecking(cap: real, reserve: real, ledger: seq<real>, workers: nat)
    requires Total(ledger) + reserve < cap
    ensures var s := Start(cap, reserve, ledger, workers, workers);
            Checking(s, 0) && s.spent == Total(ledger) && s.calls == 0 && |s.workers| == workers
  {
  }

  lemma NobodyCalls(s: Pool, es: seq<Event>, m: real)
    requires Possible(s, es, m) && |s.workers| == 0
    ensures Run(s, es, m) == s
  {
  }

  lemma TotalOne(usd: real)
    ensures Total([usd]) == usd
  {
    assert [usd][..0] == [];
  }

  lemma {:induction false} CostsAddUp(ledger: seq<real>)
    requires NoRefunds(ledger)
    ensures Total(ledger) >= 0.0
  {
    if ledger != [] { CostsAddUp(ledger[..|ledger| - 1]); }
  }

  /** Enough reserve, or nobody to call. */
  lemma Enough(cap: real, reserve: real, workers: nat, m: real)
    requires m >= 0.0 && (workers == 0 || reserve >= m * workers as real)
    ensures StaysUnder(cap, reserve, workers, m)
  {
    forall ledger, todo: nat, es |
      Possible(Start(cap, reserve, ledger, workers, todo), es, m) && Run(Start(cap, reserve, ledger, workers, todo), es, m).calls > 0
      ensures Run(Start(cap, reserve, ledger, workers, todo), es, m).spent < cap
    {
      CapHolds(cap, reserve, ledger, workers, todo, m, es);
      if workers == 0 { NobodyCalls(Start(cap, reserve, ledger, workers, todo), es, m); }
    }
  }

  /** Exactly how much reserve it takes: whatever the ledger, no run that let a call through reaches the cap
      if and only if the reserve is at least what all workers can spend at once (or there are no workers). */
  lemma ReserveIff(cap: real, reserve: real, workers: nat, m: real)
    requires m >= 0.0
    ensures StaysUnder(cap, reserve, workers, m) <==> workers == 0 || reserve >= m * workers as real
  {
    if workers == 0 || reserve >= m * workers as real {
      Enough(cap, reserve, workers, m);
    } else {
      var ledger := [cap - m * workers as real];
      TotalOne(cap - m * workers as real);
      var es := EverybodyCalls(cap, reserve, ledger, workers, m);
      assert Possible(Start(cap, reserve, ledger, workers, workers), es, m);
    }
  }

  /** A ledger of costs never adds up to less than nothing, so there a reserve as large as the cap itself
      also does: it trips every guard at once. */
  lemma ReserveIffCosts(cap: real, reserve: real, workers: nat, m: real)
    requires m >= 0.0
    ensures StaysUnderCosts(cap, reserve, workers, m) <==> workers == 0 || reserve >= m * workers as real || reserve >= cap
  {
    if workers == 0 || reserve >= m * workers as real {
      Enough(cap, reserve, workers, m);
    } else if reserve >= cap {
      forall ledger, todo: nat, es |
        NoRefunds(ledger) && Possible(Start(cap, reserve, ledger, workers, todo), es, m)
        ensures Run(Start(cap, reserve, ledger, workers, todo), es, m).calls == 0
      {
        CostsAddUp(ledger);
        AlwaysTripped(Start(cap, reserve, ledger, workers, todo), es, m);
      }
    } else {
      var left := cap - m * workers as real;
      var ledger := [if left >= 0.0 then left else 0.0];
      TotalOne(ledger[0]);
      var es := EverybodyCalls(cap, reserve, ledger, workers, m);
      assert NoRefunds(ledger) && Possible(Start(cap, reserve, ledger, workers, workers), es, m);
    }
  }

  /** A guard that starts tripped lets nothing through. */
  lemma {:induction false} AlwaysTripped(s: Pool, es: seq<Event>, m: real)
    requires Possible(s, es, m) && s.tripped && forall k :: 0 <= k < |s.workers| ==> s.workers[k].Idle?
    ensures Run(s, es, m).calls == s.calls
    decreases |es|
  {
    if es != [] { AlwaysTripped(Next(s, es[0], m), es[1..], m); }
  }
}
