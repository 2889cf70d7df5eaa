/** Starvation freedom against any environment, and the end of every request. */
module Fairness {
  import opened Requests
  import opened Alloc
  import opened SchedulerSpec
  import opened Invariant
  import opened Preservation
  import opened StepSafety
  import opened Eviction
  import opened StepTheorem
  import opened Liveness
  import opened Starvation
  import opened Runs

  /** The environment's moves that matter to request `w`: it never disconnects, and every request it
      submits is one the pool can see through. */
  ghost predicate Fair(c: Config, s: State, e: Event, w: nat)
    requires Ok(s)
  {
    Possible(c, s, e) &&
    match e
    case Arrival(r) => Fits(c, s.mem, Capped(c, r))
    case Hangup(h) => h != w
    case Tick => true
  }

  /** Every state of the run is consistent, and `w` is in it. */
  ghost predicate Good(c: Config, s: State, w: nat)
  {
    StepInv(c, s) && Ok(s) && AllFit(c, s) && w < |s.reqs| && !s.reqs[w].cancelled
  }

  lemma ArrivalGood(c: Config, s: State, r: Req, w: nat)
    requires Good(c, s, w) && Acceptable(c, s, r) && Fits(c, s.mem, Capped(c, r))
    ensures Good(c, Submit(c, s, r), w) && Submit(c, s, r).reqs[w] == s.reqs[w]
  {
    SubmitKeeps(c, s, r);
    var t := Submit(c, s, r);
    InvOk(c, t, []);
    forall h | 0 <= h < |t.reqs| ensures Fits(c, t.mem, t.reqs[h]) {
      if h < |s.reqs| { assert Fits(c, s.mem, s.reqs[h]); }
    }
  }

  lemma HangupGood(c: Config, s: State, g: nat, w: nat)
    requires Good(c, s, w) && g < |s.reqs| && g != w
    ensures Good(c, Cancel(s, g), w) && Cancel(s, g).reqs[w] == s.reqs[w]
  {
    CancelKeeps(c, s, g);
    var t := Cancel(s, g);
    InvOk(c, t, []);
    forall h | 0 <= h < |t.reqs| ensures Fits(c, t.mem, t.reqs[h]) {
      hide StepInv, Fits;
      assert Fits(c, s.mem, s.reqs[h]);
      if h == g { FitsCancelled(c, s.mem, s.reqs[h]); }
    }
  }

  lemma FitsCancelled(c: Config, m: Memory, r: Req)
    requires m.blockSize > 0 && Fits(c, m, r)
    ensures Fits(c, m, r.(cancelled := true))
  {
    assert JobOf(r.(cancelled := true)) == JobOf(r);
  }

  lemma TickGood(c: Config, s: State, w: nat)
    requires Good(c, s, w)
    ensures Good(c, Step(c, s), w) && Evolved(c, s.reqs[w], Step(c, s).reqs[w])
  {
    StepKeeps(c, s);
    FitCarries(c, s, Step(c, s));
    assert Evolved(c, s.reqs[w], Step(c, s).reqs[w]);
  }

  // ---------------------------------------------------------------- the debt under outside events

  /** Newcomers queue behind `w`, and a disconnection moves nobody ahead of it. */
  lemma DebtUnderArrival(c: Config, s: State, r: Req, w: nat)
    requires StepInv(c, s) && Ok(s) && Acceptable(c, s, r) && w < |s.reqs|
    ensures Debt(Submit(c, s, r).reqs, w) == Debt(s.reqs, w)
  {
    var q := Capped(c, r);
    var rs := s.reqs + [q];
    var n := |s.reqs|;
    var before, after := (h: nat) => Ahead(s.reqs, w, h), (h: nat) => Ahead(rs, w, h);
    assert rs[..n] == s.reqs;
    var _ := s.reqs[w];
    assert !after(n);
    TotalAgrees(s.reqs, before, after);
  }

  lemma {:induction false} TotalAgrees(reqs: seq<Req>, f: nat -> bool, g: nat -> bool)
    requires forall h: nat {:trigger f(h)} {:trigger g(h)} :: h < |reqs| ==> f(h) == g(h)
    ensures Total(reqs, f) == Total(reqs, g)
  {
    if reqs != [] {
      TotalAgrees(reqs[..|reqs| - 1], f, g);
      assert f(|reqs| - 1) == g(|reqs| - 1);
    }
  }

  lemma {:induction false} TotalSame(qs: seq<Req>, rs: seq<Req>, f: nat -> bool, g: nat -> bool)
    requires |qs| == |rs| && forall h: nat {:trigger f(h)} {:trigger g(h)} :: h < |qs| ==> f(h) == g(h) && Rem(qs[h]) == Rem(rs[h])
    ensures Total(qs, f) == Total(rs, g)
  {
    if qs != [] {
      var n := |qs| - 1;
      assert f(n) == g(n);
      forall h: nat | h < n ensures f(h) == g(h) && Rem(qs[..n][h]) == Rem(rs[..n][h]) {
        assert f(h) == g(h);
      }
      TotalSame(qs[..n], rs[..n], f, g);
    }
  }

  lemma DebtUnderHangup(s: State, g: nat, w: nat)
    requires Ok(s) && g < |s.reqs| && w < |s.reqs|
    ensures Debt(Cancel(s, g).reqs, w) == Debt(s.reqs, w)
  {
    var rs := Cancel(s, g).reqs;
    var before, after := (h: nat) => Ahead(s.reqs, w, h), (h: nat) => Ahead(rs, w, h);
    forall h: nat | h < |s.reqs| ensures before(h) == after(h) && Rem(s.reqs[h]) == Rem(rs[h]) {}
    TotalSame(s.reqs, rs, before, after);
  }

  // ---------------------------------------------------------------- endless runs

  /** An endless run seen from request `w`: anything may happen between steps, arrivals never stop, but
      the engine keeps stepping and the client of `w` stays. */
  ghost predicate Endless(c: Config, st: nat -> State, e: nat -> Event, w: nat)
  {
    && Good(c, st(0), w)
    && (forall n: nat {:trigger Linked(c, st, e, w, n)} :: Linked(c, st, e, w, n))
    && (forall n: nat {:trigger TickFrom(e, n)} :: TickFrom(e, n))
  }

  /** The n-th event leads fairly from the n-th state to the next. */
  ghost predicate Linked(c: Config, st: nat -> State, e: nat -> Event, w: nat, n: nat)
  {
    Ok(st(n)) && Fair(c, st(n), e(n), w) && st(n + 1) == Apply(c, st(n), e(n))
  }

  ghost predicate TickFrom(e: nat -> Event, n: nat)
  {
    exists m: nat {:trigger e(m)} :: m >= n && e(m) == Tick
  }

  /** Engine steps among the events n, ..., m-1. */
  ghost function Ticks(e: nat -> Event, n: nat, m: nat): nat
    requires n <= m
    decreases m - n
  {
    if n == m then 0 else Ticks(e, n, m - 1) + (if e(m - 1) == Tick then 1 else 0)
  }

  /** What one event does to `w`: it loses nothing; waiting, it says a token or its debt shrinks with every
      step and never grows; running, it says a token or is sent back by the next step. */
  ghost predicate Advance(c: Config, s: State, e: Event, w: nat, t: State)
    requires w < |s.reqs| && w < |t.reqs|
  {
    var q, r := s.reqs[w], t.reqs[w];
    && |q.out| <= |r.out| && Budget(q) == Budget(r)
    && (q.state == Waiting ==>
          Grew(q, r) || (r == q && 0 <= Debt(t.reqs, w) <= Debt(s.reqs, w) - (if e == Tick then 1 else 0)))
    && (q.state == Running && !q.Done() ==>
          if e == Tick then Grew(q, r) || SentBack(q, r) else r == q)
  }

  lemma TickAdvances(c: Config, s: State, w: nat)
    requires Good(c, s, w)
    ensures Good(c, Step(c, s), w) && Advance(c, s, Tick, w, Step(c, s))
  {
    hide StepInv, AllFit, Step, Debt;
    TickGood(c, s, w);
    if s.reqs[w].state == Waiting {
      StepTowards(c, s, w);
    }
    if s.reqs[w].state == Running && !s.reqs[w].Done() {
      RunningStep(c, s, w);
    }
  }

  lemma Advances(c: Config, s: State, e: Event, w: nat)
    requires Good(c, s, w) && Fair(c, s, e, w)
    ensures Good(c, Apply(c, s, e), w) && Advance(c, s, e, w, Apply(c, s, e))
  {
    match e
    case Arrival(r) =>
      ArrivalGood(c, s, r, w);
      DebtNatural(c, s, w);
      DebtUnderArrival(c, s, r, w);
    case Hangup(g) =>
      HangupGood(c, s, g, w);
      DebtNatural(c, s, w);
      DebtUnderHangup(s, g, w);
    case Tick =>
      TickAdvances(c, s, w);
  }

  lemma {:induction false} GoodAt(c: Config, st: nat -> State, e: nat -> Event, w: nat, n: nat)
    requires Endless(c, st, e, w)
    ensures Good(c, st(n), w)
  {
    if n == 0 {
      return;
    }
    var p := n - 1;
    GoodAt(c, st, e, w, p);
    GoodNext(c, st, e, w, p, n);
  }

  lemma GoodNext(c: Config, st: nat -> State, e: nat -> Event, w: nat, n: nat, m: nat)
    requires Good(c, st(n), w) && Endless(c, st, e, w) && m == n + 1
    ensures Good(c, st(m), w)
  {
    assert Linked(c, st, e, w, n);
    Advances(c, st(n), e(n), w);
  }

  lemma AdvanceAt(c: Config, st: nat -> State, e: nat -> Event, w: nat, n: nat)
    requires Endless(c, st, e, w)
    ensures w < |st(n).reqs| && w < |st(n + 1).reqs| && Advance(c, st(n), e(n), w, st(n + 1))
  {
    GoodAt(c, st, e, w, n);
    assert Linked(c, st, e, w, n);
    Advances(c, st(n), e(n), w);
  }

  lemma DebtAt(c: Config, st: nat -> State, e: nat -> Event, w: nat, n: nat)
    requires Endless(c, st, e, w)
    ensures w < |st(n).reqs| && Debt(st(n).reqs, w) >= 0
  {
    GoodAt(c, st, e, w, n);
    DebtNatural(c, st(n), w);
  }

  /** While a waiting request is passed over, each step pays off part of its debt. */
  lemma {:induction false} Pays(c: Config, st: nat -> State, e: nat -> Event, w: nat, n: nat, m: nat)
    requires Endless(c, st, e, w) && n <= m && w < |st(n).reqs| && st(n).reqs[w].state == Waiting
    ensures w < |st(m).reqs|
    ensures Grew(st(n).reqs[w], st(m).reqs[w]) ||
            (st(m).reqs[w] == st(n).reqs[w] && 0 <= Debt(st(m).reqs, w) <= Debt(st(n).reqs, w) - Ticks(e, n, m))
    decreases m
  {
    hide Debt, Endless;
    if n == m {
      DebtAt(c, st, e, w, n);
    } else {
      Pays(c, st, e, w, n, m - 1);
      AdvanceAt(c, st, e, w, m - 1);
    }
  }

  lemma DebtNatural(c: Config, s: State, w: nat)
    requires StepInv(c, s) && Ok(s) && w < |s.reqs|
    ensures Debt(s.reqs, w) >= 0
  {
    AllEvolvedRefl(c, s);
    var f := (h: nat) => Ahead(s.reqs, w, h);
    TotalDrops(c, s.mem.blockSize, s.reqs, s.reqs, f, f);
  }

  /** Starvation freedom with unlimited later arrivals: a waiting request has said its next token before
      the engine has taken R + 1 more steps, where R is the number of tokens left to the requests running
      or ahead of it in the queue at that moment. */
  lemma NoStarvation(c: Config, st: nat -> State, e: nat -> Event, w: nat, n: nat, m: nat)
    requires Endless(c, st, e, w) && n <= m && w < |st(n).reqs| && st(n).reqs[w].state == Waiting
    requires Ticks(e, n, m) >= Debt(st(n).reqs, w) + 1
    ensures w < |st(m).reqs| && Grew(st(n).reqs[w], st(m).reqs[w])
  {
    Pays(c, st, e, w, n, m);
  }

  // ---------------------------------------------------------------- everybody finishes

  lemma {:induction false} EnoughTicks(c: Config, st: nat -> State, e: nat -> Event, w: nat, n: nat, k: nat) returns (m: nat)
    requires Endless(c, st, e, w)
    ensures n <= m && Ticks(e, n, m) >= k
  {
    if k == 0 {
      m := n;
    } else {
      var p := EnoughTicks(c, st, e, w, n, k - 1);
      assert TickFrom(e, p);
      var t: nat :| t >= p && e(t) == Tick;
      TicksMono(e, n, p, t);
      m := t + 1;
    }
  }

  lemma {:induction false} TicksMono(e: nat -> Event, n: nat, p: nat, q: nat)
    requires n <= p <= q
    ensures Ticks(e, n, p) <= Ticks(e, n, q)
  {
    if p < q { TicksMono(e, n, p, q - 1); }
  }

  /** A waiting request is served once its debt is paid. */
  lemma HasItsTurn(c: Config, st: nat -> State, e: nat -> Event, w: nat, n: nat) returns (m: nat)
    requires Endless(c, st, e, w) && w < |st(n).reqs| && st(n).reqs[w].state == Waiting
    ensures m >= n && w < |st(m).reqs| && Grew(st(n).reqs[w], st(m).reqs[w])
  {
    hide Endless, Debt, Ticks, Grew;
    DebtAt(c, st, e, w, n);
    m := EnoughTicks(c, st, e, w, n, Debt(st(n).reqs, w) + 1);
    NoStarvation(c, st, e, w, n, m);
  }

  /** From any moment, `w` sooner or later says one more token, unless it has finished. */
  lemma SaysMore(c: Config, st: nat -> State, e: nat -> Event, w: nat, n: nat) returns (m: nat)
    requires Endless(c, st, e, w) && w < |st(n).reqs| && !st(n).reqs[w].Done()
    ensures m >= n && w < |st(m).reqs| && Grew(st(n).reqs[w], st(m).reqs[w])
  {
    GoodAt(c, st, e, w, n);
    WhereUnfinished(c, st(n), w);
    if st(n).reqs[w].state == Waiting {
      m := HasItsTurn(c, st, e, w, n);
    } else {
      assert TickFrom(e, n);
      var t: nat :| t >= n && e(t) == Tick;
      m := FromRunning(c, st, e, w, n, t);
    }
  }

  lemma WhereUnfinished(c: Config, s: State, w: nat)
    requires StepInv(c, s) && w < |s.reqs| && !s.reqs[w].Done() && !s.reqs[w].cancelled
    ensures s.reqs[w].state == Waiting || s.reqs[w].state == Running
  {
    NoneAdmitted(s.reqs, w);
    assert ReqOk(c, s.mem.blockSize, s.reqs[w]);
  }

  /** A running row is run or sent back by the next step; sent back, it has its turn again. */
  lemma {:induction false} FromRunning(c: Config, st: nat -> State, e: nat -> Event, w: nat, n: nat, t: nat) returns (m: nat)
    requires Endless(c, st, e, w) && n <= t && e(t) == Tick && w < |st(n).reqs|
    requires st(n).reqs[w].state == Running && !st(n).reqs[w].Done()
    ensures m >= n && w < |st(m).reqs| && Grew(st(n).reqs[w], st(m).reqs[w])
    decreases t - n
  {
    AdvanceAt(c, st, e, w, n);
    if e(n) == Tick {
      if Grew(st(n).reqs[w], st(n + 1).reqs[w]) {
        m := n + 1;
      } else {
        m := HasItsTurn(c, st, e, w, n + 1);
      }
    } else {
      m := FromRunning(c, st, e, w, n + 1, t);
    }
  }

  /** Every request whose client stays finishes, however often it is evicted and whatever else arrives. */
  lemma {:induction false} Finishes(c: Config, st: nat -> State, e: nat -> Event, w: nat, n: nat) returns (m: nat)
    requires Endless(c, st, e, w) && w < |st(n).reqs|
    ensures w < |st(m).reqs| && st(m).reqs[w].Done()
    decreases Rem(st(n).reqs[w])
  {
    GoodAt(c, st, e, w, n);
    assert ReqOk(c, st(n).mem.blockSize, st(n).reqs[w]);
    if st(n).reqs[w].Done() {
      m := n;
    } else {
      var k := SaysMore(c, st, e, w, n);
      GoodAt(c, st, e, w, k);
      assert ReqOk(c, st(k).mem.blockSize, st(k).reqs[w]);
      BudgetKept(c, st, e, w, n, k);
      m := Finishes(c, st, e, w, k);
    }
  }

  lemma {:induction false} BudgetKept(c: Config, st: nat -> State, e: nat -> Event, w: nat, n: nat, m: nat)
    requires Endless(c, st, e, w) && n <= m && w < |st(n).reqs|
    ensures w < |st(m).reqs| && Budget(st(m).reqs[w]) == Budget(st(n).reqs[w])
    decreases m
  {
    if n < m {
      BudgetKept(c, st, e, w, n, m - 1);
      AdvanceAt(c, st, e, w, m - 1);
    }
  }
}
